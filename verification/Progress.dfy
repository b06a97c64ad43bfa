/**
 Every faultless run does a bounded amount of work per message, whatever each kind of
 action is taken to cost and whatever is deleted meanwhile.
 */
module Progress {
  import opened MessageStore
  import opened WebhookWorker
  import opened Protocol
  import opened Holders
  import opened Agreement

  /** What each kind of action is taken to cost; polling, ticks and inserts are free. */
  datatype Weights = Weights(
    enqueue: nat, pop: nat, load: nat, send: nat, record: nat, commit: nat, requeue: nat, mark: nat)

  const EVERY_STEP := Weights(1, 1, 1, 1, 1, 1, 1, 1)
  const POPS := Weights(0, 1, 0, 0, 0, 0, 0, 0)
  const SENDS := Weights(0, 0, 0, 1, 0, 0, 0, 0)
  const COMMITS := Weights(0, 0, 0, 0, 0, 1, 0, 0)
  const REQUEUES := Weights(0, 0, 0, 0, 0, 0, 1, 0)
  const POPS_COMMITS_REQUEUES := Weights(0, 1, 0, 0, 0, 1, 1, 0)

  function WeightOf(ws: Weights, a: Action): nat {
    match a
    case Enqueue(_) => ws.enqueue
    case Pop(_, _) => ws.pop
    case Load(_, _) => ws.load
    case Reject(_, _) => ws.commit
    case Send(_, _, _) => ws.send
    case Record(_, _) => ws.record
    case LoseRecord(_, _) => ws.record
    case Commit(_, _, _) => ws.commit
    case Requeue(_, _) => ws.requeue
    case Mark(_, _) => ws.mark
    case _ => 0
  }

  /** What a run has spent on one message, and on all of them. */
  function Cost(r: Run, ws: Weights, id: Id): nat {
    match r
    case Start(_) => 0
    case Then(prev, a) => Cost(prev, ws, id) + if About(a, id) then WeightOf(ws, a) else 0
  }

  function TotalCost(r: Run, ws: Weights): nat {
    match r
    case Start(_) => 0
    case Then(prev, a) => TotalCost(prev, ws) + WeightOf(ws, a)
  }

  function Creates(r: Run): nat {
    match r
    case Start(_) => 0
    case Then(prev, a) => Creates(prev) + if a.Create? then 1 else 0
  }

  /** From the pop to the commit. */
  function AttemptCost(ws: Weights): nat {
    ws.pop + ws.load + ws.send + ws.record + ws.commit
  }

  /** What can still follow once the attempt of a row that counts c failures has failed too. */
  function RetryCost(ws: Weights, c: int): nat
    decreases MAX_ATTEMPTS - c
  {
    if c >= MAX_ATTEMPTS then 0
    else ws.requeue + ws.mark + AttemptCost(ws) + RetryCost(ws, c + 1)
  }

  function PhaseCost(ws: Weights, ph: Phase): nat {
    match ph
    case Popped(_) => ws.load + ws.send + ws.record + ws.commit
    case Loaded(_, _) => ws.send + ws.record + ws.commit
    case Sent(_, _, _, _) => ws.record + ws.commit
    case Logged(_, _, _, _, _) => ws.commit
  }

  function Budget(ws: Weights): nat {
    ws.enqueue + AttemptCost(ws) + RetryCost(ws, 0)
  }

  /** One insert, six attempts and five re-queues. */
  function SixAttempts(ws: Weights): nat {
    ws.enqueue + 6 * AttemptCost(ws) + 5 * (ws.requeue + ws.mark)
  }

  lemma BudgetValue(ws: Weights)
    ensures Budget(ws) == SixAttempts(ws)
  {
    assert RetryCost(ws, 5) == 0;
    assert RetryCost(ws, 3) == 2 * (ws.requeue + ws.mark + AttemptCost(ws));
    assert RetryCost(ws, 1) == 4 * (ws.requeue + ws.mark + AttemptCost(ws));
  }

  /** What the retries to come can cost; a deleted row has none. */
  function RetriesLeft(s: State, id: Id, ws: Weights): nat {
    if id in s.rows then RetryCost(ws, s.rows[id].count) else 0
  }

  /** The most a message can still cost from its place. */
  function Remaining(s: State, p: Place, id: Id, ws: Weights): nat {
    (if InWindow(s, id) then ws.mark else 0) +
    match p
    case Creator => Budget(ws)
    case Slot => AttemptCost(ws) + RetriesLeft(s, id, ws)
    case AtWorker(w) => (if w in s.workers then PhaseCost(ws, s.workers[w]) else 0) + RetriesLeft(s, id, ws)
    case Timer => ws.requeue + ws.mark + AttemptCost(ws) + RetriesLeft(s, id, ws)
    case Final => 0
    case Lost => 0
  }

  lemma SpendCommit(s: State, p: Place, a: Action, ws: Weights)
    requires Tidy(s) && Enabled(s, a) && Ordinary(a) && (a.Commit? || a.Reject?)
    requires Located(s, p, a.id) && Agrees(s, p, a.id)
    ensures WeightOf(ws, a) + Remaining(Apply(s, a), Next(s, p, a), a.id, ws) <= Remaining(s, p, a.id, ws)
  {
    assert Holds(s, a.w, a.id);
  }

  lemma SpendInTurn(s: State, p: Place, a: Action, ws: Weights)
    requires Tidy(s) && Enabled(s, a) && (a.Load? || a.Send? || a.Record? || a.LoseRecord?)
    requires Located(s, p, a.id) && Agrees(s, p, a.id)
    ensures WeightOf(ws, a) + Remaining(Apply(s, a), Next(s, p, a), a.id, ws) <= Remaining(s, p, a.id, ws)
  {
    assert Holds(s, a.w, a.id);
  }

  lemma SpendWorkerSubject(s: State, p: Place, a: Action, ws: Weights)
    requires Tidy(s) && Enabled(s, a) && Ordinary(a) && ByWorker(a)
    requires Located(s, p, a.id) && Agrees(s, p, a.id)
    ensures WeightOf(ws, a) + Remaining(Apply(s, a), Next(s, p, a), a.id, ws) <= Remaining(s, p, a.id, ws)
  {
    if a.Commit? || a.Reject? {
      SpendCommit(s, p, a, ws);
    } else if a.Pop? {
      SpendPop(s, p, a, ws);
    } else {
      SpendInTurn(s, p, a, ws);
    }
  }

  lemma SpendPop(s: State, p: Place, a: Action, ws: Weights)
    requires Tidy(s) && Enabled(s, a) && a.Pop?
    requires Located(s, p, a.id) && Agrees(s, p, a.id)
    ensures WeightOf(ws, a) + Remaining(Apply(s, a), Next(s, p, a), a.id, ws) <= Remaining(s, p, a.id, ws)
  {
    assert a.id in s.queue;
  }

  lemma SpendSubject(s: State, p: Place, a: Action, ws: Weights)
    requires Tidy(s) && Enabled(s, a) && Ordinary(a) && !ByWorker(a) && !a.Find? && !a.Tick? && !a.DeleteOrg? && !a.Create?
    requires Located(s, p, a.id) && Agrees(s, p, a.id)
    ensures WeightOf(ws, a) + Remaining(Apply(s, a), Next(s, p, a), a.id, ws) <= Remaining(s, p, a.id, ws)
  {
    match a
    case Enqueue(id) =>
    case Requeue(k, id) =>
      assert Todo(s)[0].id == id;
      assert InTodo(s, id);
    case Mark(k, id) =>
      HeadListed(s, id);
      AdvancedTodo(s, a, id);
      if p != Lost { assert Frozen(s, id) && Todo(s)[0].snap == s.rows[id]; }
    case _ => assert false;
  }

  lemma SpendOther(s: State, p: Place, a: Action, id: Id, ws: Weights)
    requires Tidy(s) && Located(s, p, id) && Enabled(s, a) && Ordinary(a) && !About(a, id) && !Deletes(s, a, id)
    ensures Remaining(Apply(s, a), p, id, ws) <= Remaining(s, p, id, ws)
  {
    OtherStep(s, p, a, id);
    if p.AtWorker? { assert Holds(s, p.w, id); assert Holds(Apply(s, a), p.w, id); }
    if a.Mark? { AdvancedTodo(s, a, id); }
  }

  lemma SpendDeleted(s: State, p: Place, a: Action, id: Id, ws: Weights)
    requires Enabled(s, a) && Deletes(s, a, id)
    ensures Remaining(Apply(s, a), p, id, ws) <= Remaining(s, p, id, ws)
  {
  }

  // A message whose row is gone still has what is under way

  lemma GoneOther(s: State, p: Place, a: Action, id: Id, ws: Weights)
    requires Tidy(s) && Placed(s, p, id) && id !in s.rows && id in s.used && Enabled(s, a) && Ordinary(a) && !About(a, id)
    ensures Remaining(Apply(s, a), p, id, ws) <= Remaining(s, p, id, ws)
  {
    if p.AtWorker? { assert Holds(s, p.w, id); }
    if a.Mark? { AdvancedTodo(s, a, id); }
    RowsAfter(s, a, id);
  }

  lemma GoneAtWorker(s: State, p: Place, a: Action, ws: Weights)
    requires Tidy(s) && Enabled(s, a) && Ordinary(a) && ByWorker(a) && Placed(s, p, a.id) && a.id !in s.rows
    ensures WeightOf(ws, a) + Remaining(Apply(s, a), Next(s, p, a), a.id, ws) <= Remaining(s, p, a.id, ws)
  {
    if a.Pop? { assert a.id in s.queue; } else { assert Holds(s, a.w, a.id); }
  }

  lemma GoneSubject(s: State, p: Place, a: Action, ws: Weights)
    requires Tidy(s) && Enabled(s, a) && Ordinary(a) && !ByWorker(a) && !a.Find? && !a.Tick? && !a.DeleteOrg? && !a.Create?
    requires Placed(s, p, a.id) && a.id !in s.rows
    ensures WeightOf(ws, a) + Remaining(Apply(s, a), Next(s, p, a), a.id, ws) <= Remaining(s, p, a.id, ws)
  {
    match a
    case Enqueue(id) =>
    case Requeue(k, id) =>
      assert Todo(s)[0].id == id;
      assert InTodo(s, id);
    case Mark(k, id) =>
      HeadListed(s, id);
      AdvancedTodo(s, a, id);
    case _ => assert false;
  }

  /** What an action costs a message comes out of what it can still cost. */
  ghost predicate Pays(s: State, p: Place, a: Action, id: Id, ws: Weights)
    requires Enabled(s, a)
  {
    (if About(a, id) then WeightOf(ws, a) else 0) + Remaining(Apply(s, a), NextIf(s, p, a, id), id, ws) <= Remaining(s, p, id, ws)
  }

  lemma SubjectPays(s: State, p: Place, a: Action, id: Id, ws: Weights)
    requires Tidy(s) && Enabled(s, a) && Ordinary(a) && Located(s, p, id) && Agrees(s, p, id) && About(a, id)
    ensures Pays(s, p, a, id, ws)
  {
    if ByWorker(a) { SpendWorkerSubject(s, p, a, ws); } else { SpendSubject(s, p, a, ws); }
  }

  lemma PresentPays(s: State, p: Place, a: Action, id: Id, ws: Weights)
    requires Tidy(s) && Enabled(s, a) && Ordinary(a) && Located(s, p, id) && Agrees(s, p, id)
    ensures Pays(s, p, a, id, ws)
  {
    if Deletes(s, a, id) {
      SpendDeleted(s, p, a, id, ws);
    } else if About(a, id) {
      SubjectPays(s, p, a, id, ws);
    } else {
      SpendOther(s, p, a, id, ws);
    }
  }

  lemma GonePays(s: State, p: Place, a: Action, id: Id, ws: Weights)
    requires Tidy(s) && Enabled(s, a) && Ordinary(a) && Placed(s, p, id) && id in s.used && id !in s.rows
    ensures Pays(s, p, a, id, ws)
  {
    if !About(a, id) {
      GoneOther(s, p, a, id, ws);
    } else if ByWorker(a) {
      GoneAtWorker(s, p, a, ws);
    } else {
      GoneSubject(s, p, a, ws);
    }
  }

  lemma InsertPays(s: State, a: Action, ws: Weights)
    requires Tidy(s) && Enabled(s, a) && a.Create?
    ensures Remaining(Apply(s, a), Creator, a.id, ws) <= Budget(ws)
  {
    assert !Lists(Todo(s), a.id);
    if InWindow(Apply(s, a), a.id) { HeadListed(Apply(s, a), a.id); }
  }

  /** An action about a message that does not exist yet can only be its insert. */
  lemma FreeBeforeInsert(s: State, a: Action, id: Id)
    requires Tidy(s) && Enabled(s, a) && Ordinary(a) && id !in s.used
    ensures About(a, id) <==> a.Create? && a.id == id
  {
    if !a.Find? && !a.Tick? && !a.DeleteOrg? && !a.Create? { SubjectUsed(s, a); }
  }

  ghost predicate Spent(r: Run, ws: Weights, id: Id)
    requires Faultless(r)
  {
    if id in End(r).used then Cost(r, ws, id) + Remaining(End(r), PlaceIn(PlacesAt(r), id), id, ws) <= Budget(ws)
    else Cost(r, ws, id) == 0
  }

  /** Spent and still to spend never exceed the budget of one message. */
  lemma {:induction false} WithinBudget(r: Run, ws: Weights, id: Id)
    requires Faultless(r)
    ensures Spent(r, ws, id)
  {
    if r.Then? {
      WithinBudget(r.prev, ws, id);
      AlwaysAgreed(r.prev);
      SpentStep(r.prev, r.act, ws, id);
    }
  }

  lemma SpentStep(r: Run, a: Action, ws: Weights, id: Id)
    requires Faultless(Then(r, a)) && Agreed(End(r), PlacesAt(r)) && Spent(r, ws, id)
    ensures Spent(Then(r, a), ws, id)
  {
    var s, p := End(r), PlaceIn(PlacesAt(r), id);
    RowsAfter(s, a, id);
    MovedAt(s, PlacesAt(r), a, id);
    if id !in s.used {
      FreeBeforeInsert(s, a, id);
      if a.Create? && a.id == id { InsertPays(s, a, ws); }
    } else if id in s.rows {
      PresentPays(s, p, a, id, ws);
    } else {
      GonePays(s, p, a, id, ws);
    }
  }

  lemma CostWithinBudget(r: Run, ws: Weights, id: Id)
    requires Faultless(r)
    ensures Cost(r, ws, id) <= Budget(ws)
  {
    WithinBudget(r, ws, id);
  }

  lemma CostWithinSixAttempts(r: Run, ws: Weights, id: Id)
    requires Faultless(r)
    ensures Cost(r, ws, id) <= SixAttempts(ws)
  {
    CostWithinBudget(r, ws, id);
    BudgetValue(ws);
  }

  /** How many actions of a kind a run has about a message, and about any. */
  ghost function Count(r: Run, id: Id, kind: Action -> bool): nat {
    match r
    case Start(_) => 0
    case Then(prev, a) => Count(prev, id, kind) + if About(a, id) && kind(a) then 1 else 0
  }

  ghost function CountAll(r: Run, kind: Action -> bool): nat {
    match r
    case Start(_) => 0
    case Then(prev, a) => CountAll(prev, kind) + if kind(a) then 1 else 0
  }

  /** The weights count the actions of a kind. */
  ghost predicate Counts(ws: Weights, kind: Action -> bool) {
    forall a :: WeightOf(ws, a) == if kind(a) then 1 else 0
  }

  lemma {:induction false} CostIsCount(r: Run, ws: Weights, id: Id, kind: Action -> bool)
    requires Counts(ws, kind)
    ensures Cost(r, ws, id) == Count(r, id, kind) && TotalCost(r, ws) == CountAll(r, kind)
  {
    if r.Then? {
      CostIsCount(r.prev, ws, id, kind);
      assert WeightOf(ws, r.act) == if kind(r.act) then 1 else 0;
    }
  }

  predicate IsPop(a: Action) { a.Pop? }

  predicate IsSend(a: Action) { a.Send? }

  /** The write that ends a delivery. */
  predicate IsEnd(a: Action) { a.Commit? || a.Reject? }

  predicate IsRequeue(a: Action) { a.Requeue? }

  predicate IsTurn(a: Action) {
    IsPop(a) || IsEnd(a) || IsRequeue(a)
  }

  /** Everything that moves a message on; not inserts, deletions, polls and ticks. */
  predicate IsStep(a: Action) {
    || a.Enqueue? || a.Pop? || a.Load? || a.Reject? || a.Send? || a.Record? || a.LoseRecord? || a.Commit?
    || a.Requeue? || a.Mark?
  }

  /** One first send and at most five retries. */
  lemma AtMostSixSends(r: Run, id: Id)
    requires Faultless(r)
    ensures Count(r, id, IsPop) <= 6
    ensures Count(r, id, IsSend) <= 6
    ensures Count(r, id, IsEnd) <= 6
    ensures Count(r, id, IsRequeue) <= 5
    ensures Count(r, id, IsStep) <= 41
  {
    KindsCount();
    AtMost(r, POPS, id, IsPop);
    AtMost(r, SENDS, id, IsSend);
    AtMost(r, COMMITS, id, IsEnd);
    AtMost(r, REQUEUES, id, IsRequeue);
    AtMost(r, EVERY_STEP, id, IsStep);
  }

  lemma AtMost(r: Run, ws: Weights, id: Id, kind: Action -> bool)
    requires Faultless(r) && Counts(ws, kind)
    ensures ws == POPS || ws == SENDS || ws == COMMITS ==> Count(r, id, kind) <= 6
    ensures ws == REQUEUES ==> Count(r, id, kind) <= 5
    ensures ws == EVERY_STEP ==> Count(r, id, kind) <= 41
  {
    CostIsCount(r, ws, id, kind);
    CostWithinSixAttempts(r, ws, id);
  }

  lemma KindsCount()
    ensures Counts(POPS, IsPop) && Counts(SENDS, IsSend) && Counts(COMMITS, IsEnd) && Counts(REQUEUES, IsRequeue)
    ensures Counts(EVERY_STEP, IsStep) && Counts(POPS_COMMITS_REQUEUES, IsTurn)
  {
  }

  // Summing over all messages

  /** What a run has spent on the messages of a set. */
  ghost function CostOver(r: Run, ws: Weights, ids: set<Id>): nat {
    match r
    case Start(_) => 0
    case Then(prev, a) =>
      CostOver(prev, ws, ids) + if exists id :: id in ids && About(a, id) then WeightOf(ws, a) else 0
  }

  lemma {:induction false} CostOverRemove(r: Run, ws: Weights, ids: set<Id>, x: Id)
    requires x in ids
    ensures CostOver(r, ws, ids) == CostOver(r, ws, ids - {x}) + Cost(r, ws, x)
  {
    if r.Then? {
      CostOverRemove(r.prev, ws, ids, x);
      var a := r.act;
      assert (exists id :: id in ids && About(a, id)) <==> (exists id :: id in ids - {x} && About(a, id)) || About(a, x) by {
        if id :| id in ids && About(a, id) { assert id == x || id in ids - {x}; }
      }
    }
  }

  lemma {:induction false} CostOverBound(r: Run, ws: Weights, ids: set<Id>, budget: nat)
    requires Faultless(r) && budget == Budget(ws)
    ensures CostOver(r, ws, ids) <= |ids| * budget
    decreases |ids|
  {
    if ids == {} {
      CostOverNone(r, ws);
    } else {
      var x :| x in ids;
      CostOverRemove(r, ws, ids, x);
      CostOverBound(r, ws, ids - {x}, budget);
      CostWithinBudget(r, ws, x);
      OneMore(|ids - {x}|, budget);
      assert |ids| == |ids - {x}| + 1;
    }
  }

  lemma OneMore(n: nat, b: nat)
    ensures (n + 1) * b == n * b + b
  {
  }

  lemma {:induction false} CostOverNone(r: Run, ws: Weights)
    ensures CostOver(r, ws, {}) == 0
  {
    if r.Then? { CostOverNone(r.prev, ws); }
  }

  lemma {:induction false} CostOverAll(r: Run, ws: Weights, ids: set<Id>)
    requires Faultless(r) && End(r).used <= ids
    ensures CostOver(r, ws, ids) == TotalCost(r, ws)
  {
    if r.Then? {
      var s, a := End(r.prev), r.act;
      CostOverAll(r.prev, ws, ids);
      HoldersAlways(r.prev);
      if !a.Find? && !a.Tick? && !a.DeleteOrg? {
        if !a.Create? { SubjectUsed(s, a); }
        assert a.id in ids && About(a, a.id);
      }
    }
  }

  lemma {:induction false} CreatesCount(r: Run)
    requires Faultless(r)
    ensures |End(r).used| == Creates(r)
  {
    if r.Then? {
      CreatesCount(r.prev);
      UsedAfter(End(r.prev), r.act);
    }
  }

  /** N created messages allow at most N budgets of work, for any weights. */
  lemma RunBudget(r: Run, ws: Weights)
    requires Faultless(r)
    ensures TotalCost(r, ws) <= Creates(r) * SixAttempts(ws)
  {
    BudgetValue(ws);
    CostOverAll(r, ws, End(r).used);
    CostOverBound(r, ws, End(r).used, Budget(ws));
    CreatesCount(r);
  }

  /** As RunBudget, for the two weightings that RunTerminates speaks of. */
  lemma RunBound(r: Run, ws: Weights)
    requires Faultless(r)
    ensures ws == POPS_COMMITS_REQUEUES ==> TotalCost(r, ws) <= 17 * Creates(r)
    ensures ws == EVERY_STEP ==> TotalCost(r, ws) <= 41 * Creates(r)
  {
    RunBudget(r, ws);
  }

  lemma RunTerminates(r: Run)
    requires Faultless(r)
    ensures TotalCost(r, EVERY_STEP) <= 41 * Creates(r)
    ensures CountAll(r, IsTurn) <= 17 * Creates(r)
    ensures CountAll(r, IsStep) <= 41 * Creates(r)
  {
    RunBound(r, POPS_COMMITS_REQUEUES);
    RunBound(r, EVERY_STEP);
    KindsCount();
    CostIsCount(r, POPS_COMMITS_REQUEUES, 0, IsTurn);
    CostIsCount(r, EVERY_STEP, 0, IsStep);
  }
}
