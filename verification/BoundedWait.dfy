/**
 How long a due message waits for the scheduler.  With r other rows due no later than it and l
 late commits meanwhile, it is pushed within floor((r + l)/10) + 1 passes: a row that starts
 to wait now is due strictly later than now, unless its commit was held up for longer than the
 backoff it asks for.
 */
module BoundedWait {
  import opened MessageStore
  import opened WebhookWorker
  import opened RetryScheduler
  import opened Protocol
  import opened RowInvariant
  import opened Holders

  /** The rows on the timer that may be served before `id`, leaving out those of the current pass. */
  ghost function Ahead(s: State, id: Id): set<Id> {
    set x | x in s.rows && x != id && s.rows[x].status == Retry && !InTodo(s, x) && NextTime(s.rows, x) <= NextTime(s.rows, id)
  }

  /** The commit of a failed delivery lands when the backoff it asks for has run out already. */
  predicate IsLate(s: State, a: Action) {
    && a.Commit? && a.w in s.workers && s.workers[a.w].Logged?
    && !Delivered(s.workers[a.w].result) && s.workers[a.w].snap.count < MAX_ATTEMPTS
    && s.clock >= a.at + Backoff(s.workers[a.w].snap.count)
  }

  /** The late commits since r. */
  ghost function LateCommits(longer: Run, r: Run): nat {
    if longer == r || longer.Start? then 0
    else LateCommits(longer.prev, r) + if IsLate(End(longer.prev), longer.act) then 1 else 0
  }

  /** Passes started since r, and whether `id` has been pushed since r. */
  ghost function Passes(longer: Run, r: Run): nat {
    if longer == r || longer.Start? then 0
    else Passes(longer.prev, r) + if longer.act.Find? then 1 else 0
  }

  ghost predicate PushedSince(longer: Run, r: Run, id: Id) {
    longer != r && longer.Then? && (PushedSince(longer.prev, r, id) || longer.act == Requeue(0, id))
  }

  /** `id` waits: its row is due, and nobody has pushed it. */
  ghost predicate Waiting(s: State, id: Id) {
    Due(s.rows, id, s.clock) && !InWindow(s, id)
  }

  ghost function Ids(batch: seq<Entry>): set<Id> {
    set j | 0 <= j < |batch| :: batch[j].id
  }

  lemma {:induction false} IdsSize(batch: seq<Entry>)
    requires DistinctIds(batch)
    ensures |Ids(batch)| == |batch|
    ensures forall x :: x in Ids(batch) <==> Lists(batch, x)
  {
    if batch != [] {
      var init, last := batch[..|batch| - 1], batch[|batch| - 1];
      IdsSize(init);
      assert batch == init + [last];
      forall x ensures Lists(batch, x) <==> Lists(init, x) || x == last.id { ListsAppended(init, last, x); }
      assert last.id !in Ids(init);
      assert Ids(batch) == Ids(init) + {last.id};
    }
  }

  lemma LeftOutIsFull(t: Table, now: int, batch: seq<Entry>, id: Id, j: nat)
    requires IsReadyBatch(t, now, BATCH, batch) && Due(t, id, now) && !Lists(batch, id) && j < |batch|
    ensures |batch| == BATCH
    ensures var x := batch[j].id; Due(t, x, now) && x != id && NextTime(t, x) <= NextTime(t, id)
  {
    assert batch[j].snap.next.value <= t[id].next.value;
  }

  /** A pass that leaves `id` out serves ten rows ahead of it. */
  lemma FindServesTen(s: State, a: Action, id: Id)
    requires Waiting(s, id) && 0 !in s.scheds
    requires a.Find? && a.k == 0 && Enabled(s, a) && !Lists(a.batch, id)
    ensures |Ahead(Apply(s, a), id)| + 10 <= |Ahead(s, id)|
    ensures !InTodo(Apply(s, a), id)
  {
    IdsSize(a.batch);
    forall j | 0 <= j < |a.batch| ensures a.batch[j].id in Ahead(s, id) {
      LeftOutIsFull(s.rows, s.clock, a.batch, id, j);
    }
    assert |a.batch| == BATCH;
    FindTakes(s, a, id);
    assert Ids(a.batch) <= Ahead(s, id);
  }

  lemma FindTakes(s: State, a: Action, id: Id)
    requires 0 !in s.scheds && a.Find? && a.k == 0 && Enabled(s, a)
    requires forall x :: x in Ids(a.batch) <==> Lists(a.batch, x)
    ensures Ahead(Apply(s, a), id) == Ahead(s, id) - Ids(a.batch)
    ensures InTodo(Apply(s, a), id) <==> Lists(a.batch, id)
  {
    assert Todo(Apply(s, a)) == a.batch && Todo(s) == [];
  }

  /** Only a late commit joins ahead of a waiting message. */
  lemma NoneJoins(s: State, h: Places, a: Action, id: Id)
    requires Inv(s, h) && Sound(s) && Waiting(s, id) && Enabled(s, a) && Ordinary(a)
    requires !a.Find? && a != Requeue(0, id) && !Deletes(s, a, id)
    ensures Waiting(Apply(s, a), id) && Apply(s, a).rows[id] == s.rows[id]
    ensures Ahead(Apply(s, a), id) <= Ahead(s, id) + if IsLate(s, a) then {a.id} else {}
  {
    WaitingStays(s, h, a, id);
    var t := Apply(s, a);
    forall x | x in Ahead(t, id) && !(IsLate(s, a) && x == a.id) ensures x in Ahead(s, id) {
      NotNewlyAhead(s, h, a, id, x);
    }
  }

  lemma WaitingStays(s: State, h: Places, a: Action, id: Id)
    requires Inv(s, h) && Waiting(s, id) && Enabled(s, a) && Ordinary(a)
    requires !a.Find? && a != Requeue(0, id) && !Deletes(s, a, id)
    ensures Waiting(Apply(s, a), id) && Apply(s, a).rows[id] == s.rows[id]
  {
    var p := h[id];
    assert Located(s, p, id);
    assert p == Timer;
    if About(a, id) {
      if ByWorker(a) && !a.Pop? { assert Holds(s, a.w, id); }
    } else {
      OtherStep(s, p, a, id);
    }
  }

  /** A worker puts nothing ahead of a waiting message, other than by a late commit. */
  lemma NotAheadByWorker(s: State, a: Action, id: Id, x: Id)
    requires Tidy(s) && Sound(s) && Waiting(s, id) && Enabled(s, a) && Ordinary(a) && ByWorker(a) && !IsLate(s, a)
    requires id in Apply(s, a).rows && Apply(s, a).rows[id] == s.rows[id]
    requires a.id == x && x in s.rows && x in Ahead(Apply(s, a), id)
    ensures x in Ahead(s, id)
  {
    assert Todo(Apply(s, a)) == Todo(s);
  }

  lemma FreshIsNotAhead(s: State, h: Places, a: Action, x: Id)
    requires Inv(s, h) && Enabled(s, a) && Ordinary(a) && x in Apply(s, a).rows && !About(a, x)
    ensures x in s.rows && !Deletes(s, a, x)
  {
    RowsAfter(s, a, x);
  }

  lemma NotAheadByOther(s: State, h: Places, a: Action, id: Id, x: Id)
    requires Inv(s, h) && Enabled(s, a) && Ordinary(a) && !a.Find? && !About(a, x) && id in s.rows
    requires id in Apply(s, a).rows && Apply(s, a).rows[id] == s.rows[id] && x in Ahead(Apply(s, a), id)
    ensures x in Ahead(s, id)
  {
    FreshIsNotAhead(s, h, a, x);
    assert Located(s, h[x], x);
    OtherStep(s, h[x], a, x);
    if a.Mark? { AdvancedTodo(s, a, x); } else { assert Todo(Apply(s, a)) == Todo(s); }
  }

  lemma NotNewlyAhead(s: State, h: Places, a: Action, id: Id, x: Id)
    requires Inv(s, h) && Sound(s) && Waiting(s, id) && Enabled(s, a) && Ordinary(a)
    requires !(IsLate(s, a) && x == a.id) && !a.Find?
    requires id in Apply(s, a).rows && Apply(s, a).rows[id] == s.rows[id] && x in Ahead(Apply(s, a), id)
    ensures x in Ahead(s, id)
  {
    if !About(a, x) {
      NotAheadByOther(s, h, a, id, x);
    } else if ByWorker(a) {
      RowsAfter(s, a, x);
      NotAheadByWorker(s, a, id, x);
    } else if a.Mark? {
      HeadListed(s, x);
      AdvancedTodo(s, a, x);
    }
  }

  /** While `id` is not pushed, each pass since r either lists it or has served ten rows ahead of it. */
  lemma {:induction false} ServedSoFar(longer: Run, r: Run, id: Id)
    requires Faultless(longer) && Extends(longer, r) && !PushedSince(longer, r, id) && id in End(longer).rows
    requires Waiting(End(r), id) && !InTodo(End(r), id)
    ensures Waiting(End(longer), id)
    ensures var ahead := |Ahead(End(r), id)| + LateCommits(longer, r);
      if InTodo(End(longer), id) then Passes(longer, r) >= 1 && BATCH * (Passes(longer, r) - 1) <= ahead
      else BATCH * Passes(longer, r) + |Ahead(End(longer), id)| <= ahead
  {
    if longer != r {
      WasThere(longer, r, id);
      ServedSoFar(longer.prev, r, id);
      ServedStep(longer.prev, longer.act, id);
      HoldersAlways(longer);
    }
  }

  lemma {:induction false} UsedStays(longer: Run, r: Run)
    requires Faultless(longer) && Extends(longer, r)
    ensures End(r).used <= End(longer).used
  {
    if longer != r {
      UsedStays(longer.prev, r);
      UsedAfter(End(longer.prev), longer.act);
    }
  }

  /** A message that is there now and was there at r has been there all the while. */
  lemma WasThere(longer: Run, r: Run, id: Id)
    requires Faultless(longer) && Extends(longer, r) && longer != r && id in End(r).rows && id in End(longer).rows
    ensures Extends(longer.prev, r) && id in End(longer.prev).rows && !Deletes(End(longer.prev), longer.act, id)
  {
    PrefixFaultless(longer, r);
    HoldersAlways(r);
    UsedStays(longer.prev, r);
    RowsAfter(End(longer.prev), longer.act, id);
  }

  lemma {:induction false} PrefixFaultless(longer: Run, r: Run)
    requires Faultless(longer) && Extends(longer, r)
    ensures Faultless(r)
  {
    if longer != r { PrefixFaultless(longer.prev, r); }
  }

  /** One action, seen from a waiting message that it does not push. */
  lemma ServedStep(r: Run, a: Action, id: Id)
    requires Faultless(Then(r, a)) && Waiting(End(r), id) && a != Requeue(0, id) && !Deletes(End(r), a, id)
    ensures Waiting(Apply(End(r), a), id)
    ensures !a.Find? ==> (InTodo(Apply(End(r), a), id) <==> InTodo(End(r), id))
    ensures !a.Find? ==> |Ahead(Apply(End(r), a), id)| <= |Ahead(End(r), id)| + if IsLate(End(r), a) then 1 else 0
    ensures a.Find? ==> !InTodo(End(r), id)
    ensures a.Find? && !InTodo(Apply(End(r), a), id) ==> |Ahead(Apply(End(r), a), id)| + BATCH <= |Ahead(End(r), id)|
  {
    HoldersAlways(r);
    FaultlessIsValid(r);
    AlwaysSound(r);
    var s, h := End(r), PlacesAt(r);
    if a.Find? {
      if !Lists(a.batch, id) {
        FindServesTen(s, a, id);
      }
    } else {
      NoneJoins(s, h, a, id);
      var joins := if IsLate(s, a) then {a.id} else {};
      SubsetSize(Ahead(Apply(s, a), id), Ahead(s, id) + joins);
      TodoStays(s, h, a, id);
    }
  }

  lemma TodoStays(s: State, h: Places, a: Action, id: Id)
    requires Inv(s, h) && Waiting(s, id) && Enabled(s, a) && Ordinary(a) && !a.Find?
    ensures InTodo(Apply(s, a), id) <==> InTodo(s, id)
  {
    if a.Mark? { AdvancedTodo(s, a, id); }
    if a.Requeue? { assert Todo(Apply(s, a)) == Todo(s); }
  }

  lemma {:induction false} SubsetSize(a: set<Id>, b: set<Id>)
    requires a <= b
    ensures |a| <= |b|
    decreases b
  {
    if b != {} {
      var x :| x in b;
      SubsetSize(a - {x}, b - {x});
    }
  }

  /** Once floor((r + l)/10) + 1 passes have begun and the last has ended, the message has been
      pushed, unless it was deleted. */
  lemma BoundedWait(longer: Run, r: Run, id: Id)
    requires Faultless(longer) && Extends(longer, r) && id in End(longer).rows
    requires Waiting(End(r), id) && 0 !in End(r).scheds && 0 !in End(longer).scheds
    requires Passes(longer, r) >= (|Ahead(End(r), id)| + LateCommits(longer, r)) / 10 + 1
    ensures PushedSince(longer, r, id)
  {
    if !PushedSince(longer, r, id) {
      assert Todo(End(r)) == [] && Todo(End(longer)) == [];
      ServedSoFar(longer, r, id);
    }
  }
}
