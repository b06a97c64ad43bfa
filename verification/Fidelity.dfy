/**
 Nothing is made up and nothing garbled on the way: a row is what was asked for, and each
 stored attempt is what the receiver answered to the send of that number.
 */
module Fidelity {
  import opened Wrappers
  import opened MessageStore
  import opened AttemptStore
  import opened WebhookWorker
  import opened Protocol
  import opened Holders
  import opened Agreement

  // What was asked for, in every run

  /** `id` was created for an organization, with a request that can be built or not. */
  ghost predicate AskedFor(r: Run, id: Id, org: OrgId, sendable: bool) {
    r.Then? && (AskedFor(r.prev, id, org, sendable) || r.act == Create(id, org, sendable))
  }

  ghost predicate AsAsked(r: Run) {
    forall id :: id in End(r).rows ==> AskedFor(r, id, End(r).rows[id].org, End(r).rows[id].sendable)
  }

  /** Only the insert sets what a message is for. */
  lemma StaysAsAsked(s: State, a: Action, id: Id)
    requires Enabled(s, a) && id in Apply(s, a).rows
    ensures var row := Apply(s, a).rows[id];
      || a == Create(id, row.org, row.sendable)
      || (id in s.rows && s.rows[id].org == row.org && s.rows[id].sendable == row.sendable)
  {
  }

  /** With any disturbance, a row keeps the organization and the request of its insert. */
  lemma {:induction false} RowsAreAsAsked(r: Run)
    requires Valid(r)
    ensures forall id :: id in End(r).rows ==> AskedFor(r, id, End(r).rows[id].org, End(r).rows[id].sendable)
  {
    if r.Then? {
      RowsAreAsAsked(r.prev);
      forall id | id in End(r).rows ensures AskedFor(r, id, End(r).rows[id].org, End(r).rows[id].sendable) {
        StaysAsAsked(End(r.prev), r.act, id);
      }
    }
  }

  lemma {:induction false} AskedIsUsed(r: Run, id: Id, org: OrgId, sendable: bool)
    requires Valid(r) && AskedFor(r, id, org, sendable)
    ensures id in End(r).used
  {
    if AskedFor(r.prev, id, org, sendable) { AskedIsUsed(r.prev, id, org, sendable); }
    UsedAfter(End(r.prev), r.act);
  }

  /** And an id is created once, so there is only one such insert. */
  lemma {:induction false} AskedOnce(r: Run, id: Id, org: OrgId, sendable: bool, org': OrgId, sendable': bool)
    requires Valid(r) && AskedFor(r, id, org, sendable) && AskedFor(r, id, org', sendable')
    ensures org == org' && sendable == sendable'
  {
    if AskedFor(r.prev, id, org, sendable) { AskedIsUsed(r.prev, id, org, sendable); }
    if AskedFor(r.prev, id, org', sendable') { AskedIsUsed(r.prev, id, org', sendable'); }
    if AskedFor(r.prev, id, org, sendable) && AskedFor(r.prev, id, org', sendable') {
      AskedOnce(r.prev, id, org, sendable, org', sendable');
    }
  }

  /** Every stored attempt has its row: it goes with it when an organization is deleted. */
  lemma {:induction false} AttemptsHaveRows(r: Run)
    requires Valid(r)
    ensures forall id :: id in End(r).log ==> id in End(r).rows
  {
    if r.Then? {
      AttemptsHaveRows(r.prev);
      forall id | id in End(r).log ensures id in End(r).rows {
        AttemptHasRow(End(r.prev), r.act, id);
      }
    }
  }

  lemma AttemptHasRow(s: State, a: Action, id: Id)
    requires Enabled(s, a) && (id in s.log ==> id in s.rows)
    ensures id in Apply(s, a).log ==> id in Apply(s, a).rows
  {
  }

  // What the history says

  /** When the failures of a message that leave it a retry were handled. */
  ghost function FailuresOf(r: Run, id: Id): seq<int> {
    match r
    case Start(_) => []
    case Then(prev, a) =>
      FailuresOf(prev, id) +
        if a.Commit? && a.id == id && a.w in End(prev).workers && RetriesAfter(End(prev).workers[a.w]) then [a.at] else []
  }

  predicate RetriesAfter(ph: Phase) {
    ph.Logged? && ph.snap.count < 5 && !(ph.result.Response? && 200 <= ph.result.status < 300)
  }

  ghost function LossesOf(r: Run, id: Id): nat {
    match r
    case Start(_) => 0
    case Then(prev, a) => LossesOf(prev, id) + if a.LoseRecord? && a.id == id then 1 else 0
  }

  /** The history kept in the state is that of the run. */
  lemma {:induction false} HistoryIsOfRun(r: Run, id: Id)
    requires Valid(r)
    ensures HandledOf(End(r).handled, id) == FailuresOf(r, id) && MissedOf(End(r).missed, id) == LossesOf(r, id)
  {
    if r.Then? {
      HistoryIsOfRun(r.prev, id);
      HandledStep(r.prev, r.act, id);
      MissedStep(r.prev, r.act, id);
    }
  }

  lemma HandledStep(r: Run, a: Action, id: Id)
    requires Enabled(End(r), a) && HandledOf(End(r).handled, id) == FailuresOf(r, id)
    ensures HandledOf(Apply(End(r), a).handled, id) == FailuresOf(Then(r, a), id)
  {
    assert FailuresOf(r, id) + [] == FailuresOf(r, id);
    if !a.Commit? { assert Apply(End(r), a).handled == End(r).handled; }
  }

  lemma MissedStep(r: Run, a: Action, id: Id)
    requires Enabled(End(r), a) && MissedOf(End(r).missed, id) == LossesOf(r, id)
    ensures MissedOf(Apply(End(r), a).missed, id) == LossesOf(Then(r, a), id)
  {
    if !a.LoseRecord? { assert Apply(End(r), a).missed == End(r).missed; }
  }

  // What was answered

  /** A request that went out at a time, and what came of it. */
  datatype Sending = Sending(result: Result, at: int)

  /** The sends of a message, in order. */
  ghost function SendsOf(r: Run, id: Id): seq<Sending> {
    match r
    case Start(_) => []
    case Then(prev, a) =>
      SendsOf(prev, id) + if a.Send? && a.id == id then [Sending(a.result, End(prev).clock)] else []
  }

  /** An attempt says what came of a send: its code if there was a response, whatever the code. */
  ghost predicate Reports(a: Attempt, x: Sending) {
    && a.sentAt == x.at
    && match x.result
       case Response(status, ms) => a.code == Some(status) && a.ms == ms
       case NoResponse(ms) => a.code == None && a.ms == ms
  }

  ghost predicate ReportsAll(l: seq<Attempt>, xs: seq<Sending>) {
    forall i :: 0 <= i < |l| ==> 1 <= l[i].number <= |xs| && Reports(l[i], xs[l[i].number - 1])
  }

  /** The send that the count of the row does not tell: one under way, or the last one. */
  function Uncounted(s: State, p: Place, id: Id): int {
    if id !in s.rows then 0
    else match p
      case AtWorker(w) => if w in s.workers && (s.workers[w].Sent? || s.workers[w].Logged?) then 1 else 0
      case Final => if s.rows[id].status == Success || s.rows[id].sendable then 1 else 0
      case _ => 0
  }

  predicate PhaseTold(ph: Phase, xs: seq<Sending>) {
    ph.Sent? || ph.Logged? ==> xs != [] && xs[|xs| - 1] == Sending(ph.result, ph.sentAt)
  }

  ghost predicate Told(s: State, p: Place, id: Id, xs: seq<Sending>)
    requires Located(s, p, id) && Agrees(s, p, id)
  {
    p != Lost ==>
    && |xs| == s.rows[id].count + Uncounted(s, p, id)
    && ReportsAll(AttemptsOf(s.log, id), xs)
    && (p.AtWorker? ==> p.w in s.workers && PhaseTold(s.workers[p.w], xs))
  }

  lemma OneMoreReported(l: seq<Attempt>, xs: seq<Sending>, a: Attempt)
    requires ReportsAll(l, xs) && a.number == |xs| && xs != [] && Reports(a, xs[|xs| - 1])
    ensures ReportsAll(l + [a], xs)
  {
  }

  lemma OneMoreSent(l: seq<Attempt>, xs: seq<Sending>, x: Sending)
    requires ReportsAll(l, xs)
    ensures ReportsAll(l, xs + [x])
  {
  }

  /** What the action adds to the sends of a message. */
  function Added(s: State, a: Action, id: Id): seq<Sending> {
    if a.Send? && a.id == id then [Sending(a.result, s.clock)] else []
  }

  lemma ToldWorker(s: State, p: Place, a: Action, id: Id, xs: seq<Sending>)
    requires Tidy(s) && Located(s, p, id) && Agrees(s, p, id) && Told(s, p, id, xs)
    requires Enabled(s, a) && Ordinary(a) && ByWorker(a) && About(a, id) && !Overtakes(s, a)
    requires Located(Apply(s, a), Next(s, p, a), id) && Agrees(Apply(s, a), Next(s, p, a), id)
    ensures Told(Apply(s, a), Next(s, p, a), id, xs + Added(s, a, id))
  {
    assert xs + [] == xs;
    if a.Pop? { assert id in s.queue; } else { assert Holds(s, a.w, id); }
    if a.Record? {
      var ph := s.workers[a.w];
      OneMoreReported(AttemptsOf(s.log, id), xs, AttemptFor(ph.snap, ph.result, ph.sentAt, s.clock));
    } else if a.Send? {
      OneMoreSent(AttemptsOf(s.log, id), xs, Sending(a.result, s.clock));
    }
  }

  lemma ToldSubject(s: State, p: Place, a: Action, id: Id, xs: seq<Sending>)
    requires Tidy(s) && Enabled(s, a) && Ordinary(a) && !ByWorker(a) && About(a, id)
    requires if a.Create? then xs == [] && id !in s.log
             else Located(s, p, id) && Agrees(s, p, id) && p != Lost && Told(s, p, id, xs)
    requires Located(Apply(s, a), Next(s, p, a), id) && Agrees(Apply(s, a), Next(s, p, a), id)
    ensures Told(Apply(s, a), Next(s, p, a), id, xs)
  {
    match a
    case Create(_, _, _) =>
    case Enqueue(_) =>
    case Requeue(k, _) => assert Todo(s)[0].id == id;
    case Mark(k, _) =>
      HeadListed(s, id);
      assert Frozen(s, id) && Todo(s)[0].snap == s.rows[id];
      if p.AtWorker? { assert Holds(s, p.w, id); }
    case _ => assert false;
  }

  lemma ToldOther(s: State, p: Place, a: Action, id: Id, xs: seq<Sending>)
    requires Tidy(s) && Located(s, p, id) && Agrees(s, p, id) && Told(s, p, id, xs)
    requires Enabled(s, a) && Ordinary(a) && !About(a, id) && !Deletes(s, a, id)
    requires Located(Apply(s, a), p, id) && Agrees(Apply(s, a), p, id)
    ensures Told(Apply(s, a), p, id, xs)
  {
    OtherStep(s, p, a, id);
    OtherFrame(s, p, a, id);
  }

  ghost predicate ToldIf(s: State, p: Place, id: Id, xs: seq<Sending>) {
    if id !in s.used then xs == [] else id in s.rows ==> Located(s, p, id) && Agrees(s, p, id) && Told(s, p, id, xs)
  }

  lemma ToldAbout(s: State, p: Place, a: Action, id: Id, xs: seq<Sending>)
    requires Tidy(s) && Enabled(s, a) && Ordinary(a) && !a.Create? && About(a, id)
    requires Located(s, p, id) && Agrees(s, p, id) && Told(s, p, id, xs)
    requires Located(Apply(s, a), Next(s, p, a), id) && Agrees(Apply(s, a), Next(s, p, a), id)
    ensures Told(Apply(s, a), Next(s, p, a), id, xs + Added(s, a, id))
  {
    LostSubject(s, p, a);
    if Next(s, p, a) == Lost {
    } else if ByWorker(a) {
      ToldWorker(s, p, a, id, xs);
    } else {
      assert xs + [] == xs;
      ToldSubject(s, p, a, id, xs);
    }
  }

  lemma ToldCreated(s: State, p: Place, a: Action, id: Id, xs: seq<Sending>)
    requires Tidy(s) && Rooted(s) && Enabled(s, a) && a.Create? && About(a, id) && xs == []
    requires Located(Apply(s, a), Next(s, p, a), id) && Agrees(Apply(s, a), Next(s, p, a), id)
    ensures Told(Apply(s, a), Next(s, p, a), id, xs + Added(s, a, id))
  {
    ToldSubject(s, p, a, id, xs);
  }

  lemma ToldElsewhere(s: State, p: Place, a: Action, id: Id, xs: seq<Sending>)
    requires Tidy(s) && Enabled(s, a) && Ordinary(a) && !About(a, id) && !Deletes(s, a, id)
    requires Located(s, p, id) && Agrees(s, p, id) && Told(s, p, id, xs)
    requires Located(Apply(s, a), p, id) && Agrees(Apply(s, a), p, id)
    ensures Told(Apply(s, a), p, id, xs + Added(s, a, id))
  {
    assert xs + [] == xs;
    ToldOther(s, p, a, id, xs);
  }

  lemma ToldStep(s: State, p: Place, a: Action, id: Id, xs: seq<Sending>)
    requires Tidy(s) && Rooted(s) && Enabled(s, a) && Ordinary(a) && ToldIf(s, p, id, xs) && id in Apply(s, a).rows
    requires Located(Apply(s, a), NextIf(s, p, a, id), id) && Agrees(Apply(s, a), NextIf(s, p, a, id), id)
    ensures Told(Apply(s, a), NextIf(s, p, a, id), id, xs + Added(s, a, id))
  {
    RowsAfter(s, a, id);
    if !About(a, id) {
      ToldElsewhere(s, p, a, id, xs);
    } else if a.Create? {
      ToldCreated(s, p, a, id, xs);
    } else {
      ToldAbout(s, p, a, id, xs);
    }
  }

  lemma NoSendBefore(s: State, a: Action, id: Id)
    requires Tidy(s) && Enabled(s, a) && id !in s.used
    ensures Added(s, a, id) == []
  {
    if a.Send? { assert a.w in s.workers && s.workers[a.w].id in s.used; }
  }

  lemma {:induction false} AlwaysTold(r: Run, id: Id)
    requires Faultless(r)
    ensures ToldIf(End(r), PlaceIn(PlacesAt(r), id), id, SendsOf(r, id))
  {
    if r.Then? {
      var s, a := End(r.prev), r.act;
      AlwaysTold(r.prev, id);
      AlwaysAgreed(r.prev);
      AlwaysAgreed(r);
      RowsAfter(s, a, id);
      MovedAt(s, PlacesAt(r.prev), a, id);
      if id !in s.used { NoSendBefore(s, a, id); }
      if id in End(r).rows { ToldStep(s, PlaceIn(PlacesAt(r.prev), id), a, id, SendsOf(r.prev, id)); }
    }
  }

  /** Every stored attempt n carries the code and the duration of send n, for every code and for
      none; and there were no sends but those that the row tells. */
  lemma AttemptsAreAsSent(r: Run, id: Id)
    requires Faultless(r) && id in End(r).rows && !Overtaken(r, id)
    ensures var l, xs := AttemptsOf(End(r).log, id), SendsOf(r, id);
      forall i :: 0 <= i < |l| ==>
        && 1 <= l[i].number <= |xs|
        && var x := xs[l[i].number - 1];
           && l[i].code == (if x.result.Response? then Some(x.result.status) else None)
           && l[i].ms == x.result.ms && l[i].sentAt == x.at
    ensures AtNoWorker(End(r), id) ==> |SendsOf(r, id)| == AttemptsMade(End(r).rows[id])
  {
    AlwaysTold(r, id);
    var p := AgreesAt(r, id);
    CountedSends(End(r), p, id, SendsOf(r, id));
  }

  lemma CountedSends(s: State, p: Place, id: Id, xs: seq<Sending>)
    requires Located(s, p, id) && Agrees(s, p, id) && p != Lost && Told(s, p, id, xs)
    ensures ReportsAll(AttemptsOf(s.log, id), xs)
    ensures !p.AtWorker? ==> |xs| == AttemptsMade(s.rows[id])
  {
  }
}
