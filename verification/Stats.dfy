/** The dashboard totals of an organization, and what they do over a run. */
module Stats {
  import opened MessageStore
  import opened Protocol
  import opened Holders
  import opened BoundedWait
  import opened Completion

  /** `rate` is the success rate in hundredths of a percent. */
  datatype Totals = Totals(sent: nat, failed: nat, queued: nat, rate: int)

  /** round(sent / total * 10000), halves away from zero, in exact arithmetic. */
  function RoundedRate(sent: nat, total: nat): int {
    if total == 0 then 0 else (2 * sent * 10000 + total) / (2 * total)
  }

  function OrgRows(t: Table, org: OrgId): set<Id> {
    set id | id in t && t[id].org == org
  }

  function Among(t: Table, ids: set<Id>, statuses: set<Status>): set<Id> {
    set id | id in ids && id in t && t[id].status in statuses
  }

  function OrgRowsIn(t: Table, org: OrgId, statuses: set<Status>): set<Id> {
    Among(t, OrgRows(t, org), statuses)
  }

  class DashboardStats {
    const messages: MessageRepository

    constructor (messages: MessageRepository)
      ensures this.messages == messages
    {
      this.messages := messages;
    }

    /** One pass over the table, counting as the filters of the query do. */
    method GetStatsByOrgID(org: OrgId) returns (totals: Totals)
      ensures totals.sent == |set id | id in messages.rows && messages.rows[id].org == org && messages.rows[id].status.Success?|
      ensures totals.failed == |set id | id in messages.rows && messages.rows[id].org == org && messages.rows[id].status.Failed?|
      ensures totals.sent + totals.failed + totals.queued == |set id | id in messages.rows && messages.rows[id].org == org|
      ensures totals.rate == RoundedRate(totals.sent, totals.sent + totals.failed + totals.queued)
    {
      var rows := messages.rows;
      var left := OrgRows(rows, org);
      var total, sent, failed, queued := 0, 0, 0, 0;
      ghost var seen: set<Id> := {};
      while left != {}
        invariant seen !! left && seen + left == OrgRows(rows, org)
        invariant total == |seen|
        invariant sent == |Among(rows, seen, {Success})|
        invariant failed == |Among(rows, seen, {Failed})|
        invariant queued == |Among(rows, seen, {Pending, Retry})|
        invariant sent + failed + queued == total
        decreases left
      {
        var id :| id in left;
        OneCounted(rows, seen, id, {Success});
        OneCounted(rows, seen, id, {Failed});
        OneCounted(rows, seen, id, {Pending, Retry});
        total := total + 1;
        match rows[id].status {
          case Success => sent := sent + 1;
          case Failed => failed := failed + 1;
          case _ => queued := queued + 1;
        }
        seen, left := seen + {id}, left - {id};
      }
      assert seen == OrgRows(rows, org);
      ByStatus(rows, org);
      totals := Totals(sent, failed, queued, RoundedRate(sent, total));
    }
  }

  lemma ByStatus(t: Table, org: OrgId)
    ensures OrgRows(t, org) == set id | id in t && t[id].org == org
    ensures OrgRowsIn(t, org, {Success}) == set id | id in t && t[id].org == org && t[id].status.Success?
    ensures OrgRowsIn(t, org, {Failed}) == set id | id in t && t[id].org == org && t[id].status.Failed?
  {
  }

  lemma OneCounted(t: Table, seen: set<Id>, id: Id, statuses: set<Status>)
    requires id !in seen && id in t
    ensures |Among(t, seen + {id}, statuses)| == |Among(t, seen, statuses)| + if t[id].status in statuses then 1 else 0
  {
    if t[id].status in statuses {
      assert Among(t, seen + {id}, statuses) == Among(t, seen, statuses) + {id};
    } else {
      assert Among(t, seen + {id}, statuses) == Among(t, seen, statuses);
    }
  }

  /** The rate is 0 for no messages; else it stays within 0..100 percent and is the true percentage
      rounded to hundredths, halves upwards. */
  lemma RateIsClose(sent: nat, total: nat)
    requires sent <= total
    ensures total == 0 ==> RoundedRate(sent, total) == 0
    ensures 0 <= RoundedRate(sent, total) <= 10000
    ensures total > 0 ==> 0 < 2 * (RoundedRate(sent, total) * total - 10000 * sent) + total <= 2 * total
  {
    if total > 0 { RateRounds(sent, total); }
  }

  lemma RateRounds(sent: nat, total: nat)
    requires 0 < total && sent <= total
    ensures 0 <= RoundedRate(sent, total) <= 10000
    ensures 0 < 2 * (RoundedRate(sent, total) * total - 10000 * sent) + total <= 2 * total
  {
    var q := RoundedRate(sent, total);
    var n, d := 2 * sent * 10000 + total, 2 * total;
    DivisionBounds(n, d, q);
    assert q * d == 2 * (q * total);
    if q > 10000 {
      assert q * total >= 10001 * total by { MulMono(10001, q, total); }
    }
    if q < 0 {
      assert q * total <= -1 * total by { MulMono(q, -1, total); }
    }
  }

  lemma DivisionBounds(n: int, d: int, q: int)
    requires 0 < d && q == n / d
    ensures q * d <= n < q * d + d
  {
  }

  lemma MulMono(a: int, b: int, c: nat)
    requires a <= b
    ensures a * c <= b * c
  {
  }

  // Over a run

  /** A final message that was not overtaken is never touched again, guarded or not. */
  lemma {:induction false} FinalIsForEver(longer: Run, r: Run, id: Id)
    requires Faultless(longer) && Faultless(r) && Extends(longer, r)
    requires IsFinal(End(r), id) && !Overtaken(r, id) && id in End(longer).rows
    ensures End(longer).rows[id] == End(r).rows[id]
    ensures id in PlacesAt(longer) && PlacesAt(longer)[id] == Final
  {
    if longer == r {
      HoldersAlways(r);
      LostMeansOvertaken(r, id);
      assert Located(End(r), PlacesAt(r)[id], id);
    } else {
      WasThere(longer, r, id);
      FinalIsForEver(longer.prev, r, id);
      HoldersAlways(longer.prev);
      FinalStep(End(longer.prev), PlacesAt(longer.prev), longer.act, id);
    }
  }

  lemma FinalIsLeftAlone(s: State, a: Action, id: Id)
    requires Tidy(s) && Located(s, Final, id) && Enabled(s, a) && Ordinary(a)
    ensures !About(a, id)
  {
    if ByWorker(a) && !a.Pop? { assert Holds(s, a.w, a.id); }
    if a.Requeue? || a.Mark? { assert Todo(s)[0].id == a.id; }
  }

  lemma FinalStep(s: State, h: Places, a: Action, id: Id)
    requires Inv(s, h) && Enabled(s, a) && Ordinary(a) && id in s.rows && h[id] == Final && !Deletes(s, a, id)
    ensures id in Apply(s, a).rows && Apply(s, a).rows[id] == s.rows[id]
    ensures id in Moved(s, h, a) && Moved(s, h, a)[id] == Final
  {
    assert Located(s, Final, id);
    FinalIsLeftAlone(s, a, id);
    MovedAt(s, h, a, id);
    OtherStep(s, Final, a, id);
  }

  lemma PrefixGuarded(longer: Run, r: Run)
    requires Extends(longer, r) && Guarded(longer)
    ensures Guarded(r)
  {
    if longer != r { PrefixGuarded(longer.prev, r); }
  }

  predicate DeletedSince(longer: Run, r: Run, org: OrgId) {
    longer != r && longer.Then? && (DeletedSince(longer.prev, r, org) || longer.act == DeleteOrg(org))
  }

  lemma {:induction false} OrgRowStays(longer: Run, r: Run, id: Id)
    requires Faultless(longer) && Extends(longer, r) && id in End(r).rows && !DeletedSince(longer, r, End(r).rows[id].org)
    ensures id in End(longer).rows && End(longer).rows[id].org == End(r).rows[id].org
  {
    if longer != r {
      OrgRowStays(longer.prev, r, id);
      HoldersAlways(longer.prev);
      RowsAfter(End(longer.prev), longer.act, id);
      OrgStays(End(longer.prev), longer.act, id);
    }
  }

  /** Under G the sent and failed messages of an organization only grow until it is deleted. */
  lemma TotalsNeverFall(longer: Run, r: Run, org: OrgId, st: Status)
    requires Guarded(longer) && Extends(longer, r) && st in {Success, Failed} && !DeletedSince(longer, r, org)
    ensures OrgRowsIn(End(r).rows, org, {st}) <= OrgRowsIn(End(longer).rows, org, {st})
    ensures |OrgRowsIn(End(r).rows, org, {st})| <= |OrgRowsIn(End(longer).rows, org, {st})|
  {
    PrefixGuarded(longer, r);
    forall id | id in OrgRowsIn(End(r).rows, org, {st}) ensures id in OrgRowsIn(End(longer).rows, org, {st}) {
      GuardedNeverOvertaken(r, id);
      OrgRowStays(longer, r, id);
      FinalIsForEver(longer, r, id);
    }
    SubsetSize(OrgRowsIn(End(r).rows, org, {st}), OrgRowsIn(End(longer).rows, org, {st}));
  }

  /** The messages created for an organization, since it was last deleted. */
  function CreatesFor(r: Run, org: OrgId): nat {
    match r
    case Start(_) => 0
    case Then(prev, a) =>
      if a == DeleteOrg(org) then 0 else CreatesFor(prev, org) + if a.Create? && a.org == org then 1 else 0
  }

  lemma OrgStays(s: State, a: Action, id: Id)
    requires s.rows.Keys <= s.used && Enabled(s, a) && Ordinary(a) && id in s.rows && id in Apply(s, a).rows
    ensures Apply(s, a).rows[id].org == s.rows[id].org
  {
  }

  lemma OrgRowsGrow(t: Table, t': Table, org: OrgId, added: set<Id>)
    requires added !! t.Keys && added <= t'.Keys
    requires forall id :: id in t' && id !in added ==> id in t
    requires forall id :: id in t && t[id].org == org ==> id in t'
    requires forall id :: id in t && id in t' ==> t'[id].org == t[id].org
    ensures |OrgRows(t', org)| == |OrgRows(t, org)| + |OrgRows(t', org) * added|
  {
    assert OrgRows(t', org) == OrgRows(t, org) + OrgRows(t', org) * added;
  }

  lemma OrgRowsStep(s: State, a: Action, org: OrgId)
    requires s.rows.Keys <= s.used && Enabled(s, a) && Ordinary(a) && a != DeleteOrg(org)
    ensures |OrgRows(Apply(s, a).rows, org)| == |OrgRows(s.rows, org)| + if a.Create? && a.org == org then 1 else 0
  {
    var t, added := Apply(s, a).rows, if a.Create? then {a.id} else {};
    forall id | id in s.rows ensures id in t ==> t[id].org == s.rows[id].org { if id in t { OrgStays(s, a, id); } }
    forall id ensures id in t && id !in added ==> id in s.rows { RowsAfter(s, a, id); }
    forall id | id in s.rows && s.rows[id].org == org ensures id in t { RowsAfter(s, a, id); }
    OrgRowsGrow(s.rows, t, org, added);
    assert OrgRows(t, org) * added == if a.Create? && a.org == org then {a.id} else {};
  }

  /** sent + failed + queued is the number of messages created for the organization. */
  lemma {:induction false} TotalsCountCreated(r: Run, org: OrgId)
    requires Faultless(r)
    ensures |OrgRows(End(r).rows, org)| == CreatesFor(r, org)
  {
    if r.Then? {
      TotalsCountCreated(r.prev, org);
      HoldersAlways(r.prev);
      if r.act == DeleteOrg(org) {
        assert OrgRows(End(r).rows, org) == {};
      } else {
        OrgRowsStep(End(r.prev), r.act, org);
      }
    } else {
      assert OrgRows(End(r).rows, org) == {};
    }
  }
}
