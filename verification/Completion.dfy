/**
 Nothing waits for ever: while a message is not final, some piece of work can be done once
 the clock has advanced, and whatever the receivers answer a run can be carried on until every
 message is final.
 */
module Completion {
  import opened MessageStore
  import opened WebhookWorker
  import opened RetryScheduler
  import opened Protocol
  import opened RowInvariant
  import opened Holders
  import opened Progress

  ghost predicate IsFinal(s: State, id: Id) {
    id in s.rows && s.rows[id].status in {Success, Failed}
  }

  /** What the receivers answer, by the message and the failures counted before. */
  type Answers = (Id, int) -> Result

  predicate Answered(s: State, a: Action, answers: Answers) {
    a.Send? && a.w in s.workers && s.workers[a.w].Loaded? ==> a.result == answers(a.id, s.workers[a.w].snap.count)
  }

  /** Every send since r got its answer from `answers`. */
  ghost predicate AnsweredBy(longer: Run, r: Run, answers: Answers) {
    longer != r && longer.Then? ==> AnsweredBy(longer.prev, r, answers) && Answered(End(longer.prev), longer.act, answers)
  }

  predicate ByRequest(a: Action) {
    a.Create? || a.DeleteOrg?
  }

  /** No message was created and no organization deleted since r. */
  predicate Undemanding(longer: Run, r: Run) {
    longer != r && longer.Then? ==> Undemanding(longer.prev, r) && !ByRequest(longer.act)
  }

  // Some batch query result exists for every table

  lemma {:induction false} BatchExists(t: Table, now: int, limit: nat, batch: seq<Entry>, left: set<Id>) returns (all: seq<Entry>)
    requires IsPrefixBatch(t, now, batch, left) && |batch| <= limit
    ensures IsReadyBatch(t, now, limit, all) && |all| >= |batch|
    ensures left != {} && |batch| < limit ==> |all| > |batch|
    decreases left
  {
    if |batch| == limit || left == {} {
      all := batch;
      forall id | Due(t, id, now) && !Lists(batch, id) ensures id in left && NextTime(t, id) == t[id].next.value {}
    } else {
      var first := EarliestExists(t, left);
      ExtendBatch(t, now, batch, left, first);
      all := BatchExists(t, now, limit, batch + [Entry(first, t[first])], left - {first});
    }
  }

  lemma DueBatch(t: Table, now: int, id: Id) returns (batch: seq<Entry>)
    requires Due(t, id, now)
    ensures IsReadyBatch(t, now, BATCH, batch) && batch != []
  {
    var due := set x | x in t && Due(t, x, now);
    assert id in due;
    batch := BatchExists(t, now, BATCH, [], due);
  }

  // One piece of work

  /** A step of a running request, worker or pass, within G. */
  ghost predicate IsWork(s: State, a: Action, answers: Answers) {
    && Enabled(s, a) && Ordinary(a) && !Overtakes(s, a) && !ByRequest(a)
    && WeightOf(EVERY_STEP, a) == 1 && Answered(s, a, answers)
  }

  lemma AdvanceScheduler(s: State, answers: Answers) returns (a: Action)
    requires Tidy(s) && 0 in s.scheds
    ensures IsWork(s, a, answers) && (a.Requeue? || a.Mark?)
  {
    var id := s.scheds[0].todo[0].id;
    a := if s.scheds[0].pushed then Mark(0, id) else Requeue(0, id);
  }

  lemma AdvanceWorker(s: State, w: nat, answers: Answers) returns (a: Action)
    requires Tidy(s) && w in s.workers
    requires s.workers[w].Logged? ==> s.workers[w].loggedAt <= s.clock
    ensures IsWork(s, a, answers)
  {
    var ph := s.workers[w];
    if InWindow(s, ph.id) {
      a := AdvanceScheduler(s, answers);
    } else {
      match ph
      case Popped(id) => a := Load(w, id);
      case Loaded(id, snap) => a := if snap.sendable then Send(w, id, answers(id, snap.count)) else Reject(w, id);
      case Sent(id, _, _, _) => a := Record(w, id);
      case Logged(id, _, _, _, _) => a := Commit(w, id, s.clock);
    }
  }

  lemma AdvanceQueue(s: State, answers: Answers) returns (a: Action)
    requires Tidy(s) && s.queue != [] && s.fleet != {} && LogsInThePast(s)
    ensures IsWork(s, a, answers)
  {
    var w :| w in s.fleet;
    if w in s.workers {
      a := AdvanceWorker(s, w, answers);
    } else {
      a := Pop(w, s.queue[|s.queue| - 1]);
    }
  }

  ghost predicate LogsInThePast(s: State) {
    forall w :: w in s.workers && s.workers[w].Logged? ==> s.workers[w].loggedAt <= s.clock
  }

  lemma {:induction false} AlwaysLogsInThePast(r: Run)
    requires Faultless(r)
    ensures LogsInThePast(End(r))
  {
    if r.Then? {
      AlwaysLogsInThePast(r.prev);
      LogsInThePastStep(End(r.prev), r.act);
    }
  }

  lemma LogsInThePastStep(s: State, a: Action)
    requires LogsInThePast(s) && Enabled(s, a)
    ensures LogsInThePast(Apply(s, a))
  {
  }

  /** A place that is neither final nor the timer offers work at once. */
  lemma AdvanceHeld(s: State, p: Place, id: Id, answers: Answers) returns (a: Action)
    requires Tidy(s) && Located(s, p, id) && p != Lost && p != Final && p != Timer
    requires s.fleet != {} && LogsInThePast(s)
    ensures IsWork(s, a, answers)
  {
    match p
    case Creator => a := Enqueue(id);
    case Slot => a := AdvanceQueue(s, answers);
    case AtWorker(w) =>
      assert Holds(s, w, id);
      a := AdvanceWorker(s, w, answers);
  }

  /** One more piece of work is done, and nothing is created or deleted. */
  ghost predicate WorkedOn(longer: Run, r: Run, answers: Answers) {
    && CarriedOn(longer, r, answers)
    && TotalCost(longer, EVERY_STEP) == TotalCost(r, EVERY_STEP) + 1
  }

  ghost predicate CarriedOn(longer: Run, r: Run, answers: Answers) {
    Guarded(longer) && Extends(longer, r) && Undemanding(longer, r) && AnsweredBy(longer, r, answers)
  }

  lemma OneAction(r: Run, a: Action, answers: Answers)
    requires Guarded(r) && Enabled(End(r), a) && Ordinary(a) && !Overtakes(End(r), a)
    requires !ByRequest(a) && Answered(End(r), a, answers)
    ensures CarriedOn(Then(r, a), r, answers) && End(Then(r, a)) == Apply(End(r), a)
    ensures TotalCost(Then(r, a), EVERY_STEP) == TotalCost(r, EVERY_STEP) + WeightOf(EVERY_STEP, a)
  {
    assert Extends(r, r) && Undemanding(r, r) && AnsweredBy(r, r, answers);
  }

  lemma {:induction false} ExtendsTransitive(c: Run, b: Run, a: Run)
    requires Extends(c, b) && Extends(b, a)
    ensures Extends(c, a)
  {
    if c != b { ExtendsTransitive(c.prev, b, a); }
  }

  lemma {:induction false} CarriedOnTransitive(c: Run, b: Run, a: Run, answers: Answers)
    requires CarriedOn(c, b, answers) && CarriedOn(b, a, answers)
    ensures CarriedOn(c, a, answers)
  {
    ExtendsTransitive(c, b, a);
    if c != b { CarriedOnTransitive(c.prev, b, a, answers); }
  }

  /** The idle scheduler finds a due message's batch and re-queues the first of it. */
  lemma FindAndRequeue(r: Run, id: Id, answers: Answers) returns (longer: Run)
    requires Guarded(r) && Due(End(r).rows, id, End(r).clock) && 0 !in End(r).scheds
    ensures WorkedOn(longer, r, answers)
  {
    var batch := DueBatch(End(r).rows, End(r).clock, id);
    var found := Then(r, Find(0, batch));
    OneAction(r, found.act, answers);
    longer := Then(found, Requeue(0, batch[0].id));
    OneAction(found, longer.act, answers);
    CarriedOnTransitive(longer, found, r, answers);
  }

  /** With the scheduler idle and a message on the timer: wait, find, re-queue the first. */
  lemma AdvanceTimer(r: Run, id: Id, answers: Answers) returns (longer: Run)
    requires Guarded(r) && id in End(r).rows && End(r).rows[id].status == Retry && 0 !in End(r).scheds
    ensures WorkedOn(longer, r, answers)
  {
    FaultlessIsValid(r);
    RetryRowsAreSelectable(r, id, 0);
    var s := End(r);
    var due := s.rows[id].next.value;
    var waited := Then(r, Tick(if s.clock < due then due - s.clock else 1));
    OneAction(r, waited.act, answers);
    longer := FindAndRequeue(waited, id, answers);
    CarriedOnTransitive(longer, waited, r, answers);
  }

  lemma PlaceUnderG(r: Run, id: Id) returns (p: Place)
    requires Guarded(r) && id in End(r).rows
    ensures p != Lost && Tidy(End(r)) && Located(End(r), p, id) && (p == Final <==> IsFinal(End(r), id))
  {
    HoldersAlways(r);
    GuardedNeverOvertaken(r, id);
    LostMeansOvertaken(r, id);
    p := PlacesAt(r)[id];
  }

  /** Progress: a message that is not final always leaves work that can be done. */
  lemma Advance(r: Run, id: Id, answers: Answers) returns (longer: Run)
    requires Guarded(r) && End(r).fleet != {} && id in End(r).rows && !IsFinal(End(r), id)
    ensures WorkedOn(longer, r, answers)
  {
    AlwaysLogsInThePast(r);
    var s := End(r);
    var p := PlaceUnderG(r, id);
    if p == Timer && 0 !in s.scheds {
      longer := AdvanceTimer(r, id, answers);
    } else {
      var a;
      if p == Timer { a := AdvanceScheduler(s, answers); } else { a := AdvanceHeld(s, p, id, answers); }
      longer := Then(r, a);
      OneAction(r, a, answers);
    }
  }

  /** Under G and with at least one worker, every run can be completed whatever the receivers
      answer: without new messages all of them reach `success` or `failed`. */
  lemma {:induction false} EveryRunCanComplete(r: Run, answers: Answers) returns (done: Run)
    requires Guarded(r) && End(r).fleet != {}
    ensures CarriedOn(done, r, answers)
    ensures End(done).rows.Keys >= End(r).rows.Keys
    ensures forall id :: id in End(done).rows ==> IsFinal(End(done), id)
    decreases 41 * Creates(r) - TotalCost(r, EVERY_STEP)
  {
    if id :| id in End(r).rows && !IsFinal(End(r), id) {
      var longer := Advance(r, id, answers);
      RunTerminates(longer);
      SameMessages(longer, r);
      done := EveryRunCanComplete(longer, answers);
      CarriedOnTransitive(done, longer, r, answers);
    } else {
      done := r;
    }
  }

  /** Without requests the messages and the workers stay the same. */
  lemma {:induction false} SameMessages(longer: Run, r: Run)
    requires Faultless(longer) && Extends(longer, r) && Undemanding(longer, r)
    ensures End(longer).rows.Keys == End(r).rows.Keys && End(longer).fleet == End(r).fleet
    ensures Creates(longer) == Creates(r)
  {
    if longer != r {
      SameMessages(longer.prev, r);
      SameMessagesStep(End(longer.prev), longer.act);
    }
  }

  lemma SameMessagesStep(s: State, a: Action)
    requires Enabled(s, a) && Ordinary(a) && !ByRequest(a)
    ensures Apply(s, a).rows.Keys == s.rows.Keys && Apply(s, a).fleet == s.fleet
  {
  }
}
