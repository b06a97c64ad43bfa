/**
 The delivery protocol as a state machine.  One action is one call on the shared table,
 queue or attempt log, so any interleaving of the API, the workers and the schedulers is
 a run.  The writes are the same functions the component classes are proved against.
 */
module Protocol {
  import opened MessageStore
  import opened AttemptStore
  import opened WebhookWorker
  import opened RetryScheduler

  /** How far a busy worker has come; an idle worker is absent from the map. */
  datatype Phase =
    | Popped(id: Id)
    | Loaded(id: Id, snap: Row)
    | Sent(id: Id, snap: Row, result: Result, sentAt: int)
    | Logged(id: Id, snap: Row, result: Result, sentAt: int, loggedAt: int)

  /** A scheduler inside its loop: the entries not yet marked, and whether the first of
      them has been pushed.  An idle scheduler is absent from the map. */
  datatype Pass = Pass(todo: seq<Entry>, pushed: bool)

  /** `creating` holds the ids whose row is inserted but not yet pushed.  The rest is history:
      per message the times at which its retries were computed, per message how many of its
      attempts were not stored, and every id ever inserted. */
  datatype State = State(
    rows: Table,
    creating: set<Id>,
    queue: seq<Id>,
    workers: map<nat, Phase>,
    scheds: map<nat, Pass>,
    log: AttemptLog,
    handled: map<Id, seq<int>>,
    missed: map<Id, nat>,
    used: set<Id>,
    clock: int,
    fleet: set<nat>)

  datatype Action =
    | Create(id: Id, org: OrgId, sendable: bool)
    | Enqueue(id: Id)
    | Pop(w: nat, id: Id)
    | Load(w: nat, id: Id)
    | Reject(w: nat, id: Id)
    | Send(w: nat, id: Id, result: Result)
    | Record(w: nat, id: Id)
    | LoseRecord(w: nat, id: Id)
    | Commit(w: nat, id: Id, at: int)
    | Find(k: nat, batch: seq<Entry>)
    | Requeue(k: nat, id: Id)
    | Mark(k: nat, id: Id)
    | Tick(d: int)
    | DeleteOrg(org: OrgId)
    // Disturbances
    | Duplicate(id: Id)
    | LoseEnqueue(id: Id)
    | LoseRequeue(k: nat, id: Id)
    | LoseMark(k: nat, id: Id)
    | CrashWorker(w: nat)
    | CrashScheduler(k: nat)

  function Init(fleet: set<nat>): State {
    State(map[], {}, [], map[], map[], map[], map[], map[], {}, 0, fleet)
  }

  predicate HeadIs(s: State, k: nat, id: Id, pushed: bool) {
    && k in s.scheds
    && s.scheds[k].pushed == pushed
    && s.scheds[k].todo != []
    && s.scheds[k].todo[0].id == id
  }

  ghost predicate Enabled(s: State, a: Action) {
    match a
    case Create(id, _, _) => id !in s.used
    case Enqueue(id) => id in s.creating
    case Pop(w, id) => w in s.fleet && w !in s.workers && s.queue != [] && s.queue[|s.queue| - 1] == id
    case Load(w, id) => w in s.workers && s.workers[w] == Popped(id)
    case Reject(w, id) => w in s.workers && s.workers[w].Loaded? && s.workers[w].id == id && !s.workers[w].snap.sendable
    case Send(w, id, _) => w in s.workers && s.workers[w].Loaded? && s.workers[w].id == id && s.workers[w].snap.sendable
    case Record(w, id) => w in s.workers && s.workers[w].Sent? && s.workers[w].id == id
    case Commit(w, id, at) =>
      w in s.workers && s.workers[w].Logged? && s.workers[w].id == id && s.workers[w].loggedAt <= at <= s.clock
    case Find(k, batch) => k !in s.scheds && IsReadyBatch(s.rows, s.clock, BATCH, batch)
    case Requeue(k, id) => HeadIs(s, k, id, false)
    case Mark(k, id) => HeadIs(s, k, id, true)
    case Tick(d) => d > 0
    case Duplicate(_) => true
    case LoseEnqueue(id) => id in s.creating
    case LoseRequeue(k, id) => HeadIs(s, k, id, false)
    case LoseRecord(w, id) => w in s.workers && s.workers[w].Sent? && s.workers[w].id == id
    case LoseMark(k, id) => HeadIs(s, k, id, true)
    case CrashWorker(w) => w in s.workers
    case CrashScheduler(k) => k in s.scheds
    case DeleteOrg(_) => true
  }

  /** A pass that has dealt with its first entry: the rest, or none when it was the last. */
  function Advanced(scheds: map<nat, Pass>, k: nat): map<nat, Pass>
    requires k in scheds && scheds[k].todo != []
  {
    if |scheds[k].todo| == 1 then scheds - {k}
    else scheds[k := Pass(scheds[k].todo[1..], false)]
  }

  function HandledOf(handled: map<Id, seq<int>>, id: Id): seq<int> {
    if id in handled then handled[id] else []
  }

  function MissedOf(missed: map<Id, nat>, id: Id): nat {
    if id in missed then missed[id] else 0
  }

  function Apply(s: State, a: Action): State
    requires Enabled(s, a)
  {
    match a
    case Create(id, org, sendable) =>
      s.(rows := Inserted(s.rows, id, org, sendable), creating := s.creating + {id}, used := s.used + {id})
    case Enqueue(id) =>
      s.(creating := s.creating - {id}, queue := [id] + s.queue)
    case Pop(w, id) =>
      s.(queue := s.queue[..|s.queue| - 1], workers := s.workers[w := Popped(id)])
    case Load(w, id) =>
      s.(workers := if id in s.rows then s.workers[w := Loaded(id, s.rows[id])] else s.workers - {w})
    case Reject(w, id) =>
      s.(rows := StatusSet(s.rows, id, Failed), workers := s.workers - {w})
    case Send(w, id, result) =>
      s.(workers := s.workers[w := Sent(id, s.workers[w].snap, result, s.clock)])
    case Record(w, id) =>
      var p := s.workers[w];
      s.(log := if id in s.rows then Appended(s.log, id, AttemptFor(p.snap, p.result, p.sentAt, s.clock)) else s.log,
         workers := s.workers[w := Logged(id, p.snap, p.result, p.sentAt, s.clock)])
    case Commit(w, id, at) =>
      var p := s.workers[w];
      s.(rows := Settled(s.rows, id, p.snap, p.result, at),
         workers := s.workers - {w},
         handled := if Delivered(p.result) || p.snap.count >= MAX_ATTEMPTS then s.handled
                    else s.handled[id := HandledOf(s.handled, id) + [at]])
    case Find(k, batch) =>
      s.(scheds := if batch == [] then s.scheds else s.scheds[k := Pass(batch, false)])
    case Requeue(k, id) =>
      s.(queue := [id] + s.queue, scheds := s.scheds[k := s.scheds[k].(pushed := true)])
    case Mark(k, id) =>
      s.(rows := Marked(s.rows, s.scheds[k].todo[0]), scheds := Advanced(s.scheds, k))
    case Tick(d) =>
      s.(clock := s.clock + d)
    case Duplicate(id) =>
      s.(queue := [id] + s.queue)
    case LoseEnqueue(id) =>
      s.(creating := s.creating - {id})
    case LoseRequeue(k, id) =>
      s.(scheds := s.scheds[k := s.scheds[k].(pushed := true)])
    case LoseRecord(w, id) =>
      var p := s.workers[w];
      s.(workers := s.workers[w := Logged(id, p.snap, p.result, p.sentAt, s.clock)],
         missed := s.missed[id := MissedOf(s.missed, id) + 1])
    case LoseMark(k, id) =>
      s.(scheds := Advanced(s.scheds, k))
    case CrashWorker(w) =>
      s.(workers := s.workers - {w})
    case CrashScheduler(k) =>
      s.(scheds := s.scheds - {k})
    case DeleteOrg(org) =>
      var gone := set id | id in s.rows && s.rows[id].org == org;
      s.(rows := s.rows - gone, log := s.log - gone)
  }

  /** A run: a fleet of workers over empty tables, then one action after another. */
  datatype Run = Start(fleet: set<nat>) | Then(prev: Run, act: Action)

  ghost function End(r: Run): State {
    match r
    case Start(fleet) => Init(fleet)
    case Then(prev, act) => if Enabled(End(prev), act) then Apply(End(prev), act) else End(prev)
  }

  /** Every interleaving, disturbances and any number of schedulers included. */
  ghost predicate Valid(r: Run) {
    r.Then? ==> Valid(r.prev) && Enabled(End(r.prev), r.act)
  }

  predicate ByWorker(a: Action) {
    a.Pop? || a.Load? || a.Reject? || a.Send? || a.Record? || a.Commit? || a.LoseRecord? || a.CrashWorker?
  }

  predicate ByScheduler(a: Action) {
    a.Find? || a.Requeue? || a.Mark? || a.LoseRequeue? || a.LoseMark? || a.CrashScheduler?
  }

  /** No disturbance, and scheduler 0 is the only scheduler.  An attempt that the database does
      not store, and an organization that is deleted, are no disturbance. */
  predicate Ordinary(a: Action) {
    match a
    case Find(k, _) => k == 0
    case Requeue(k, _) => k == 0
    case Mark(k, _) => k == 0
    case _ => !(a.Duplicate? || a.LoseEnqueue? || a.LoseRequeue? || a.LoseMark?
                || a.CrashWorker? || a.CrashScheduler?)
  }

  ghost predicate Faultless(r: Run) {
    r.Then? ==> Faultless(r.prev) && Enabled(End(r.prev), r.act) && Ordinary(r.act)
  }

  /** Scheduler 0 has pushed this id and not yet marked its row. */
  predicate InWindow(s: State, id: Id) {
    HeadIs(s, 0, id, true)
  }

  /** A worker writes its outcome between the push and the mark of the same id. */
  predicate Overtakes(s: State, a: Action) {
    (a.Commit? || a.Reject?) && InWindow(s, a.id) && a.id in s.rows
  }

  /** Some delivery of `id` overtook the scheduler's mark. */
  ghost predicate Overtaken(r: Run, id: Id) {
    r.Then? && (Overtaken(r.prev, id) || (Overtakes(End(r.prev), r.act) && r.act.id == id))
  }

  /** Assumption G: every mark lands before the commits that follow its push. */
  ghost predicate Guarded(r: Run) {
    Faultless(r) && Undisturbed(r)
  }

  ghost predicate Undisturbed(r: Run) {
    r.Then? ==> Undisturbed(r.prev) && !Overtakes(End(r.prev), r.act)
  }

  lemma {:induction false} FaultlessIsValid(r: Run)
    requires Faultless(r)
    ensures Valid(r)
  {
    if r.Then? { FaultlessIsValid(r.prev); }
  }

  lemma {:induction false} GuardedNeverOvertaken(r: Run, id: Id)
    requires Guarded(r)
    ensures !Overtaken(r, id)
  {
    if r.Then? { GuardedNeverOvertaken(r.prev, id); }
  }
}
