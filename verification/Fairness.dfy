/**
 Completion is not only possible: a run in which every component goes on ends with all messages
 final.  Time is cut into rounds.  In a round each kind of component that had something to do
 at its start does something, and an idle scheduler polls once more after the longest backoff.
 */
module Fairness {
  import opened MessageStore
  import opened WebhookWorker
  import opened RetryScheduler
  import opened Protocol
  import opened RowInvariant
  import opened Holders
  import opened Progress
  import opened Completion
  import opened Stats

  const LONGEST: int := 16 * SECOND

  /** Worker w has a step that does not overtake a mark. */
  predicate WorkerCan(s: State, w: nat) {
    if w !in s.workers then w in s.fleet && s.queue != []
    else
      var ph := s.workers[w];
      ph.Logged? || (ph.Loaded? && !ph.snap.sendable) ==> !(InWindow(s, ph.id) && ph.id in s.rows)
  }

  predicate ByPass(a: Action) {
    a.Requeue? || a.Mark?
  }

  predicate ByCreator(a: Action) {
    a.Enqueue?
  }

  /** Since r some action of a kind was done. */
  ghost predicate Did(longer: Run, r: Run, kind: Action -> bool) {
    longer != r && longer.Then? && (Did(longer.prev, r, kind) || kind(longer.act))
  }

  /** Since r the scheduler polled at or after a time. */
  ghost predicate PolledAt(longer: Run, r: Run, time: int) {
    longer != r && longer.Then? && (PolledAt(longer.prev, r, time) || (longer.act.Find? && End(longer.prev).clock >= time))
  }

  ghost predicate FairRound(longer: Run, r: Run) {
    var s := End(r);
    && Extends(longer, r) && Undemanding(longer, r)
    && (s.creating != {} ==> Did(longer, r, ByCreator))
    && ((exists w :: WorkerCan(s, w)) ==> Did(longer, r, ByWorker))
    && (if 0 in s.scheds then Did(longer, r, ByPass) else PolledAt(longer, r, s.clock + LONGEST))
  }

  ghost predicate AllFinal(s: State) {
    forall id :: id in s.rows ==> IsFinal(s, id)
  }

  // Retry times are near

  ghost predicate SoonRow(r: Row, now: int) {
    r.next.Some? ==> r.next.value <= now + LONGEST
  }

  ghost predicate Soon(s: State) {
    && (forall id :: id in s.rows ==> SoonRow(s.rows[id], s.clock))
    && (forall w :: w in s.workers && !s.workers[w].Popped? ==> SoonRow(s.workers[w].snap, s.clock))
    && (forall k, j :: k in s.scheds && 0 <= j < |s.scheds[k].todo| ==> SoonRow(s.scheds[k].todo[j].snap, s.clock))
  }

  lemma SettledSoon(t: Table, id: Id, snap: Row, result: Result, at: int, now: int)
    requires SoundRow(snap) && SoonRow(snap, now) && at <= now && forall x :: x in t ==> SoonRow(t[x], now)
    ensures var u := Settled(t, id, snap, result, at); forall x :: x in u ==> SoonRow(u[x], now)
  {
    if snap.count < MAX_ATTEMPTS { BackoffValues(snap.count); }
  }

  lemma SoonWorkerStep(s: State, a: Action)
    requires Sound(s) && Soon(s) && Enabled(s, a) && ByWorker(a)
    ensures Soon(Apply(s, a))
  {
    if a.Commit? {
      var ph := s.workers[a.w];
      assert SoundPhase(ph);
      SettledSoon(s.rows, a.id, ph.snap, ph.result, a.at, s.clock);
      assert Apply(s, a).rows == Settled(s.rows, a.id, ph.snap, ph.result, a.at);
    }
  }

  lemma SoonSchedulerStep(s: State, a: Action)
    requires Sound(s) && Soon(s) && Enabled(s, a) && Ordinary(a) && ByScheduler(a)
    ensures Soon(Apply(s, a))
  {
    if a.Mark? { assert SoonRow(s.scheds[a.k].todo[0].snap, s.clock); }
  }

  lemma SoonStep(s: State, a: Action)
    requires Sound(s) && Soon(s) && Enabled(s, a) && Ordinary(a)
    ensures Soon(Apply(s, a))
  {
    if ByWorker(a) { SoonWorkerStep(s, a); } else if ByScheduler(a) { SoonSchedulerStep(s, a); }
  }

  lemma {:induction false} AlwaysSoon(r: Run)
    requires Faultless(r)
    ensures Soon(End(r))
  {
    if r.Then? {
      AlwaysSoon(r.prev);
      FaultlessIsValid(r.prev);
      AlwaysSound(r.prev);
      SoonStep(End(r.prev), r.act);
    }
  }

  // Work since r

  lemma {:induction false} CostGrows(longer: Run, r: Run)
    requires Extends(longer, r)
    ensures TotalCost(longer, EVERY_STEP) >= TotalCost(r, EVERY_STEP)
  {
    if longer != r { CostGrows(longer.prev, r); }
  }

  /** Everything but inserts, deletions, polls and ticks is work. */
  predicate IsCostly(a: Action) {
    ByWorker(a) || ByPass(a) || ByCreator(a)
  }

  lemma {:induction false} DidCosts(longer: Run, r: Run, kind: Action -> bool)
    requires Faultless(longer) && Extends(longer, r) && Did(longer, r, kind) && forall a :: kind(a) ==> IsCostly(a)
    ensures TotalCost(longer, EVERY_STEP) > TotalCost(r, EVERY_STEP)
  {
    if Did(longer.prev, r, kind) {
      DidCosts(longer.prev, r, kind);
    } else {
      CostGrows(longer.prev, r);
    }
  }

  /** With no work done the rows are the same and a pass is still where it was. */
  lemma {:induction false} NoWork(longer: Run, r: Run)
    requires Faultless(longer) && Extends(longer, r) && Undemanding(longer, r)
    requires TotalCost(longer, EVERY_STEP) == TotalCost(r, EVERY_STEP)
    ensures End(longer).rows == End(r).rows
    ensures 0 in End(r).scheds ==> 0 in End(longer).scheds
  {
    if longer != r {
      CostGrows(longer.prev, r);
      NoWork(longer.prev, r);
    }
  }

  /** A poll late enough finds the message, unless work was done before. */
  lemma {:induction false} PollFinds(longer: Run, r: Run, time: int, id: Id)
    requires Faultless(longer) && Extends(longer, r) && Undemanding(longer, r) && PolledAt(longer, r, time)
    requires id in End(r).rows && End(r).rows[id].status == Retry
    requires End(r).rows[id].next.Some? && End(r).rows[id].next.value <= time
    ensures TotalCost(longer, EVERY_STEP) > TotalCost(r, EVERY_STEP) || 0 in End(longer).scheds
  {
    CostGrows(longer.prev, r);
    if TotalCost(longer, EVERY_STEP) == TotalCost(r, EVERY_STEP) {
      NoWork(longer.prev, r);
      if PolledAt(longer.prev, r, time) {
        PollFinds(longer.prev, r, time, id);
      } else {
        assert Due(End(longer.prev).rows, id, End(longer.prev).clock);
        assert longer.act.batch != [] by { assert Lists(longer.act.batch, id) || |longer.act.batch| == BATCH; }
      }
    }
  }

  /** What counts towards completion: steps of work, and being in a pass. */
  ghost function Work(r: Run): nat {
    2 * TotalCost(r, EVERY_STEP) + if 0 in End(r).scheds then 1 else 0
  }

  /** A busy worker that must wait for a mark waits for a pass. */
  lemma SomeoneCan(s: State, w: nat)
    requires w in s.fleet && (w in s.workers || s.queue != [])
    ensures WorkerCan(s, w) || 0 in s.scheds
  {
  }

  lemma HeldWorks(longer: Run, r: Run, w: nat)
    requires Faultless(longer) && FairRound(longer, r)
    requires w in End(r).fleet && (w in End(r).workers || End(r).queue != [])
    ensures TotalCost(longer, EVERY_STEP) > TotalCost(r, EVERY_STEP)
  {
    SomeoneCan(End(r), w);
    if WorkerCan(End(r), w) { DidCosts(longer, r, ByWorker); } else { DidCosts(longer, r, ByPass); }
  }

  ghost predicate FleetOnly(s: State) {
    s.workers.Keys <= s.fleet
  }

  lemma {:induction false} AlwaysFleetOnly(r: Run)
    requires Faultless(r)
    ensures FleetOnly(End(r))
  {
    if r.Then? { AlwaysFleetOnly(r.prev); }
  }

  /** In a fair round some work is done while a message is not final. */
  lemma RoundWorks(longer: Run, r: Run, id: Id)
    requires Guarded(longer) && Guarded(r) && FairRound(longer, r) && End(r).fleet != {}
    requires id in End(r).rows && !IsFinal(End(r), id)
    ensures Work(longer) > Work(r)
  {
    var s := End(r);
    var p := PlaceUnderG(r, id);
    AlwaysFleetOnly(r);
    CostGrows(longer, r);
    match p
    case Creator => DidCosts(longer, r, ByCreator);
    case Slot =>
      var w :| w in s.fleet;
      HeldWorks(longer, r, w);
    case AtWorker(w) =>
      assert Holds(s, w, id);
      HeldWorks(longer, r, w);
    case Timer => TimerWorks(longer, r, id);
  }

  lemma TimerWorks(longer: Run, r: Run, id: Id)
    requires Faultless(longer) && Faultless(r) && FairRound(longer, r)
    requires id in End(r).rows && End(r).rows[id].status == Retry
    ensures Work(longer) > Work(r)
  {
    CostGrows(longer, r);
    if 0 in End(r).scheds {
      DidCosts(longer, r, ByPass);
    } else {
      FaultlessIsValid(r);
      RetryRowsAreSelectable(r, id, 0);
      AlwaysSoon(r);
      assert SoonRow(End(r).rows[id], End(r).clock);
      PollFinds(longer, r, End(r).clock + LONGEST, id);
    }
  }

  lemma FinalStays(longer: Run, r: Run)
    requires Guarded(longer) && Extends(longer, r) && Undemanding(longer, r) && AllFinal(End(r))
    ensures AllFinal(End(longer))
  {
    PrefixGuarded(longer, r);
    SameMessages(longer, r);
    forall id | id in End(longer).rows ensures IsFinal(End(longer), id) {
      GuardedNeverOvertaken(r, id);
      FinalIsForEver(longer, r, id);
    }
  }

  // Round after round

  /** Each mark is one fair round after the one before. */
  ghost predicate Rounds(marks: seq<Run>) {
    marks != [] && forall i :: 0 <= i < |marks| - 1 ==> FairRound(marks[i + 1], marks[i])
  }

  lemma {:induction false} RoundsWork(marks: seq<Run>)
    requires Rounds(marks) && Guarded(marks[|marks| - 1]) && End(marks[0]).fleet != {}
    ensures Guarded(marks[0]) && Extends(marks[|marks| - 1], marks[0]) && Undemanding(marks[|marks| - 1], marks[0])
    ensures AllFinal(End(marks[|marks| - 1])) || Work(marks[|marks| - 1]) >= |marks| - 1
  {
    if |marks| > 1 {
      var init, last := marks[..|marks| - 1], marks[|marks| - 1];
      var before := init[|init| - 1];
      assert FairRound(marks[|init| - 1 + 1], marks[|init| - 1]);
      PrefixGuarded(last, before);
      RoundsWork(init);
      UndemandingTransitive(last, before, marks[0]);
      SameMessages(before, marks[0]);
      if AllFinal(End(before)) {
        FinalStays(last, before);
      } else {
        var id :| id in End(before).rows && !IsFinal(End(before), id);
        RoundWorks(last, before, id);
      }
    }
  }

  lemma {:induction false} UndemandingTransitive(c: Run, b: Run, a: Run)
    requires Extends(c, b) && Extends(b, a) && Undemanding(c, b) && Undemanding(b, a)
    ensures Extends(c, a) && Undemanding(c, a)
  {
    if c != b { UndemandingTransitive(c.prev, b, a); }
  }

  /** Under G, with N messages and no more requests, 82N + 2 fair rounds leave every message
      `success` or `failed`, whatever the receivers answer. */
  lemma FairRunsComplete(marks: seq<Run>)
    requires Rounds(marks) && Guarded(marks[|marks| - 1]) && End(marks[0]).fleet != {}
    requires |marks| - 1 >= 82 * Creates(marks[0]) + 2
    ensures AllFinal(End(marks[|marks| - 1])) && End(marks[|marks| - 1]).rows.Keys == End(marks[0]).rows.Keys
  {
    var last := marks[|marks| - 1];
    RoundsWork(marks);
    SameMessages(last, marks[0]);
    RunTerminates(last);
  }

  // Every run can go on fairly

  function Length(r: Run): nat {
    if r.Start? then 0 else 1 + Length(r.prev)
  }

  lemma {:induction false} ExtendsLength(b: Run, a: Run)
    requires Extends(b, a)
    ensures Length(b) >= Length(a)
  {
    if b != a { ExtendsLength(b.prev, a); }
  }

  lemma {:induction false} DidLater(c: Run, b: Run, a: Run, kind: Action -> bool)
    requires Extends(c, b) && Extends(b, a) && Did(b, a, kind)
    ensures Did(c, a, kind)
  {
    ExtendsTransitive(c, b, a);
    if c != b {
      DidLater(c.prev, b, a, kind);
      ExtendsTransitive(c.prev, b, a);
      ExtendsLength(c.prev, a);
    }
  }

  /** One more action of the round that began at r. */
  lemma GoOn(b: Run, r: Run, a: Action, answers: Answers) returns (longer: Run)
    requires CarriedOn(b, r, answers) && Enabled(End(b), a) && Ordinary(a) && !Overtakes(End(b), a)
    requires !ByRequest(a) && Answered(End(b), a, answers)
    ensures longer == Then(b, a) && CarriedOn(longer, r, answers) && Extends(longer, b) && End(longer) == Apply(End(b), a)
    ensures forall kind: Action -> bool :: kind(a) ==> Did(longer, r, kind)
    ensures a.Find? ==> PolledAt(longer, r, End(b).clock)
  {
    longer := Then(b, a);
    OneAction(b, a, answers);
    CarriedOnTransitive(longer, b, r, answers);
    ExtendsLength(b, r);
  }

  lemma WorkerGoesOn(s: State, w: nat, answers: Answers) returns (a: Action)
    requires Tidy(s) && LogsInThePast(s) && WorkerCan(s, w)
    ensures IsWork(s, a, answers) && ByWorker(a)
  {
    if w !in s.workers {
      a := Pop(w, s.queue[|s.queue| - 1]);
    } else {
      match s.workers[w]
      case Popped(id) => a := Load(w, id);
      case Loaded(id, snap) => a := if snap.sendable then Send(w, id, answers(id, snap.count)) else Reject(w, id);
      case Sent(id, _, _, _) => a := Record(w, id);
      case Logged(id, _, _, _, _) => a := Commit(w, id, s.clock);
    }
  }

  /** What the steps of the others leave alone. */
  predicate SamePass(s: State, t: State) {
    t.scheds == s.scheds && t.clock == s.clock
  }

  lemma WorkersTurn(r: Run, answers: Answers) returns (longer: Run)
    requires Guarded(r)
    ensures CarriedOn(longer, r, answers) && SamePass(End(r), End(longer)) && End(longer).creating == End(r).creating
    ensures (exists w :: WorkerCan(End(r), w)) ==> Did(longer, r, ByWorker)
  {
    longer := r;
    if w :| WorkerCan(End(r), w) {
      HoldersAlways(r);
      AlwaysLogsInThePast(r);
      var a := WorkerGoesOn(End(r), w, answers);
      longer := GoOn(r, r, a, answers);
    }
  }

  lemma CreatorsTurn(b: Run, r: Run, answers: Answers) returns (longer: Run)
    requires CarriedOn(b, r, answers)
    ensures CarriedOn(longer, r, answers) && Extends(longer, b) && SamePass(End(b), End(longer))
    ensures End(b).creating != {} ==> Did(longer, r, ByCreator)
  {
    longer := b;
    if id :| id in End(b).creating {
      longer := GoOn(b, r, Enqueue(id), answers);
    }
  }

  lemma PollsLate(b: Run, r: Run, time: int, answers: Answers) returns (longer: Run)
    requires CarriedOn(b, r, answers) && 0 !in End(b).scheds && time <= End(b).clock + LONGEST
    ensures CarriedOn(longer, r, answers) && Extends(longer, b) && PolledAt(longer, r, time)
  {
    var waited := GoOn(b, r, Tick(LONGEST), answers);
    var s := End(waited);
    var due := set x | x in s.rows && Due(s.rows, x, s.clock);
    var batch := BatchExists(s.rows, s.clock, BATCH, [], due);
    longer := GoOn(waited, r, Find(0, batch), answers);
    ExtendsTransitive(longer, waited, b);
    assert s.clock >= time;
  }

  lemma PassTurn(b: Run, r: Run, answers: Answers) returns (longer: Run)
    requires CarriedOn(b, r, answers) && SamePass(End(r), End(b))
    ensures CarriedOn(longer, r, answers) && Extends(longer, b)
    ensures if 0 in End(r).scheds then Did(longer, r, ByPass) else PolledAt(longer, r, End(r).clock + LONGEST)
  {
    if 0 in End(r).scheds {
      HoldersAlways(b);
      var a := AdvanceScheduler(End(b), answers);
      assert ByPass(a);
      longer := GoOn(b, r, a, answers);
    } else {
      longer := PollsLate(b, r, End(r).clock + LONGEST, answers);
    }
  }

  /** So the premise of FairRunsComplete can always be met, one round after another. */
  lemma RoundGoesOn(r: Run, answers: Answers) returns (longer: Run)
    requires Guarded(r)
    ensures CarriedOn(longer, r, answers) && FairRound(longer, r)
  {
    var worked := WorkersTurn(r, answers);
    var created := CreatorsTurn(worked, r, answers);
    longer := PassTurn(created, r, answers);
    if exists w :: WorkerCan(End(r), w) {
      ExtendsTransitive(longer, created, worked);
      DidLater(longer, worked, r, ByWorker);
    }
    if End(r).creating != {} { DidLater(longer, created, r, ByCreator); }
  }
}
