/**
 Who holds each message.  In a faultless run a message is with its creator, in one queue
 slot, at one worker, on the retry timer or at a final status, and it leaves all of these
 exactly when a worker's commit overtakes the scheduler's mark.
 */
module Holders {
  import opened MessageStore
  import opened WebhookWorker
  import opened Protocol

  datatype Place = Creator | Slot | AtWorker(w: nat) | Timer | Final | Lost

  type Places = map<Id, Place>

  predicate Holds(s: State, w: nat, id: Id) {
    w in s.workers && s.workers[w].id == id
  }

  function Todo(s: State): seq<Entry> {
    if 0 in s.scheds then s.scheds[0].todo else []
  }

  predicate InTodo(s: State, id: Id) {
    Lists(Todo(s), id)
  }

  ghost predicate NoDup(q: seq<Id>) {
    forall i, j :: 0 <= i < j < |q| ==> q[i] != q[j]
  }

  /** The scheduler's snapshot of an unmarked row is the row as it stands. */
  ghost predicate Frozen(s: State, id: Id)
    requires id in s.rows
  {
    forall j :: 0 <= j < |Todo(s)| && Todo(s)[j].id == id ==> Todo(s)[j].snap == s.rows[id]
  }

  ghost predicate StatusFits(s: State, p: Place, id: Id)
    requires id in s.rows
  {
    var st := s.rows[id].status;
    match p
    case Creator => st == Pending && !InTodo(s, id)
    case Slot | AtWorker(_) => if InWindow(s, id) then st == Retry else st == Pending && !InTodo(s, id)
    case Timer => st == Retry && !InWindow(s, id)
    case Final => (st == Success || st == Failed) && !InTodo(s, id)
    case Lost => InWindow(s, id) || (st == Pending && !InTodo(s, id))
  }

  /** Where an id is, whether or not its row is still there. */
  ghost predicate Placed(s: State, p: Place, id: Id) {
    && (id in s.creating <==> p == Creator)
    && (id in s.queue <==> p == Slot)
    && (forall w :: Holds(s, w, id) <==> p == AtWorker(w))
    && (InTodo(s, id) && !InWindow(s, id) ==> p == Timer)
  }

  ghost predicate Located(s: State, p: Place, id: Id) {
    && id in s.rows
    && Placed(s, p, id)
    && StatusFits(s, p, id)
    && (p != Lost ==> Frozen(s, id))
  }

  ghost predicate Tidy(s: State) {
    && s.scheds.Keys <= {0}
    && (0 in s.scheds ==> s.scheds[0].todo != [])
    && NoDup(s.queue)
    && DistinctIds(Todo(s))
    && s.rows.Keys <= s.used && s.creating <= s.used
    && (forall id :: id in s.queue ==> id in s.used)
    && (forall w :: w in s.workers ==> s.workers[w].id in s.used)
    && (forall j :: 0 <= j < |Todo(s)| ==> Todo(s)[j].id in s.used)
  }

  ghost predicate Inv(s: State, h: Places) {
    && Tidy(s)
    && h.Keys == s.used
    && forall id :: id in s.used ==> Placed(s, h[id], id) && (id in s.rows ==> Located(s, h[id], id))
  }

  /** Where an action leaves the message it is about. */
  function Next(s: State, p: Place, a: Action): Place {
    match a
    case Create(_, _, _) => Creator
    case Enqueue(_) => Slot
    case Pop(w, _) => AtWorker(w)
    case Load(_, id) => if id in s.rows then p else Final
    case Reject(_, id) => if InWindow(s, id) && id in s.rows then Lost else Final
    case Commit(w, id, _) =>
      if id !in s.rows then Final
      else if InWindow(s, id) then Lost
      else if w in s.workers && s.workers[w].Logged? && !Delivered(s.workers[w].result)
              && s.workers[w].snap.count < MAX_ATTEMPTS then Timer
      else Final
    case Requeue(_, _) => Slot
    case _ => p
  }

  /** The message an action is about; none for polling and for the clock. */
  predicate About(a: Action, id: Id) {
    !a.Find? && !a.Tick? && !a.CrashWorker? && !a.CrashScheduler? && !a.DeleteOrg? && a.id == id
  }

  function PlaceIn(h: Places, id: Id): Place {
    if id in h then h[id] else Creator
  }

  function NextIf(s: State, p: Place, a: Action, id: Id): Place {
    if About(a, id) then Next(s, p, a) else p
  }

  function Moved(s: State, h: Places, a: Action): Places
    requires Ordinary(a)
  {
    if a.Find? || a.Tick? || a.DeleteOrg? then h else h[a.id := Next(s, PlaceIn(h, a.id), a)]
  }

  lemma MovedAt(s: State, h: Places, a: Action, id: Id)
    requires Ordinary(a)
    ensures id in Moved(s, h, a) <==> id in h || About(a, id)
    ensures PlaceIn(Moved(s, h, a), id) == NextIf(s, PlaceIn(h, id), a, id)
  {
  }

  ghost function PlacesAt(r: Run): Places
    requires Faultless(r)
  {
    if r.Start? then map[] else Moved(End(r.prev), PlacesAt(r.prev), r.act)
  }

  // The scheduler's list

  lemma ListsTail(b: seq<Entry>, id: Id)
    requires b != [] && DistinctIds(b)
    ensures DistinctIds(b[1..])
    ensures Lists(b[1..], id) <==> Lists(b, id) && b[0].id != id
  {
    if Lists(b, id) && b[0].id != id {
      var j :| 0 <= j < |b| && b[j].id == id;
      assert b[1..][j - 1].id == id;
    }
    if Lists(b[1..], id) {
      var j :| 0 <= j < |b[1..]| && b[1..][j].id == id;
      assert b[j + 1].id == id;
    }
  }

  lemma HeadListed(s: State, id: Id)
    requires InWindow(s, id)
    ensures InTodo(s, id)
  {
    assert Todo(s)[0].id == id;
  }

  lemma AdvancedTodo(s: State, a: Action, id: Id)
    requires Tidy(s) && a.Mark? && a.k == 0 && Enabled(s, a)
    ensures Todo(Apply(s, a)) == Todo(s)[1..]
    ensures InTodo(Apply(s, a), id) <==> InTodo(s, id) && id != a.id
    ensures !InWindow(Apply(s, a), id)
  {
    ListsTail(Todo(s), id);
  }

  lemma PoppedQueue(q: seq<Id>, id: Id)
    requires q != [] && NoDup(q)
    ensures NoDup(q[..|q| - 1])
    ensures id in q[..|q| - 1] <==> id in q && id != q[|q| - 1]
  {
    if id in q && id != q[|q| - 1] {
      var i :| 0 <= i < |q| && q[i] == id;
      assert q[..|q| - 1][i] == id;
    }
  }

  // One action

  /** Tidiness needs the place of the action's subject and nothing else. */
  lemma TidyWorkerStep(s: State, a: Action, p: Place)
    requires Tidy(s) && Enabled(s, a) && Ordinary(a) && ByWorker(a)
    requires a.id in s.used && Placed(s, p, a.id)
    ensures Tidy(Apply(s, a))
  {
    if a.Pop? {
      PoppedQueue(s.queue, a.id);
    }
  }

  lemma TidyStep(s: State, a: Action, p: Place)
    requires Tidy(s) && Enabled(s, a) && Ordinary(a) && !ByWorker(a)
    requires a.Enqueue? || a.Requeue? || a.Mark? ==> a.id in s.used && Placed(s, p, a.id)
    ensures Tidy(Apply(s, a))
  {
    match a
    case Requeue(k, id) =>
      assert Todo(s)[0].id == id;
    case Mark(k, id) =>
      ListsTail(Todo(s), id);
    case _ =>
  }

  /** What a worker leaves as it is for the messages it does not work on. */
  lemma OtherWorkerRows(s: State, a: Action, id: Id)
    requires Tidy(s) && Enabled(s, a) && Ordinary(a) && !About(a, id) && ByWorker(a) && id in s.rows
    ensures var t := Apply(s, a);
      && id in t.rows && t.rows[id] == s.rows[id] && t.creating == s.creating && t.scheds == s.scheds
      && (forall w :: Holds(t, w, id) <==> Holds(s, w, id))
      && (!a.Pop? ==> t.queue == s.queue)
  {
  }

  lemma OtherWorkerStep(s: State, p: Place, a: Action, id: Id)
    requires Tidy(s) && Located(s, p, id) && Enabled(s, a) && Ordinary(a) && !About(a, id) && ByWorker(a)
    ensures Located(Apply(s, a), p, id)
    ensures Apply(s, a).rows[id] == s.rows[id]
  {
    if a.Pop? {
      PoppedQueue(s.queue, id);
    }
    OtherWorkerRows(s, a, id);
    assert Todo(Apply(s, a)) == Todo(s);
  }

  lemma FindStep(s: State, p: Place, batch: seq<Entry>, id: Id)
    requires Tidy(s) && Located(s, p, id) && Enabled(s, Find(0, batch))
    ensures Located(Apply(s, Find(0, batch)), p, id)
  {
    if Lists(batch, id) {
      var j :| 0 <= j < |batch| && batch[j].id == id;
      assert Due(s.rows, id, s.clock);
    }
    var t := Apply(s, Find(0, batch));
    forall w ensures Holds(t, w, id) <==> Holds(s, w, id) {}
  }

  lemma OtherSchedulerStep(s: State, p: Place, a: Action, id: Id)
    requires Tidy(s) && Located(s, p, id) && Enabled(s, a) && Ordinary(a) && !About(a, id) && ByScheduler(a)
    ensures Located(Apply(s, a), p, id)
    ensures Apply(s, a).rows[id] == s.rows[id]
  {
    var t := Apply(s, a);
    forall w ensures Holds(t, w, id) <==> Holds(s, w, id) {}
    match a
    case Find(k, batch) => FindStep(s, p, batch, id);
    case Mark(k, x) => AdvancedTodo(s, a, id);
    case Requeue(k, x) => assert Todo(t) == Todo(s);
  }

  /** Only its own organization's deletion removes a row. */
  predicate Deletes(s: State, a: Action, id: Id) {
    a.DeleteOrg? && id in s.rows && s.rows[id].org == a.org
  }

  lemma OtherStep(s: State, p: Place, a: Action, id: Id)
    requires Tidy(s) && Located(s, p, id) && Enabled(s, a) && Ordinary(a) && !About(a, id) && !Deletes(s, a, id)
    ensures Located(Apply(s, a), p, id)
    ensures Apply(s, a).rows[id] == s.rows[id]
  {
    if ByWorker(a) {
      OtherWorkerStep(s, p, a, id);
    } else if ByScheduler(a) {
      OtherSchedulerStep(s, p, a, id);
    } else {
      var t := Apply(s, a);
      forall w ensures Holds(t, w, id) <==> Holds(s, w, id) {}
    }
  }

  lemma DeletedStep(s: State, p: Place, a: Action, id: Id)
    requires Placed(s, p, id) && Enabled(s, a) && Deletes(s, a, id)
    ensures Placed(Apply(s, a), p, id) && id !in Apply(s, a).rows
  {
    var t := Apply(s, a);
    assert Todo(t) == Todo(s);
    forall w ensures Holds(t, w, id) <==> Holds(s, w, id) {}
  }

  // Ids whose row is gone

  lemma GonePopStep(s: State, p: Place, w: nat, x: Id, id: Id)
    requires Tidy(s) && Placed(s, p, id) && Enabled(s, Pop(w, x))
    ensures Placed(Apply(s, Pop(w, x)), NextIf(s, p, Pop(w, x), id), id)
  {
    var t := Apply(s, Pop(w, x));
    assert Todo(t) == Todo(s);
    PoppedQueue(s.queue, id);
    forall v ensures v != w ==> (Holds(t, v, id) <==> Holds(s, v, id)) {}
  }

  /** A turn of a worker after its pop touches the rows, the log and that worker. */
  lemma TurnFrame(s: State, a: Action)
    requires Enabled(s, a) && Ordinary(a) && ByWorker(a) && !a.Pop?
    ensures var t := Apply(s, a);
      t.queue == s.queue && t.creating == s.creating && t.scheds == s.scheds && Holds(s, a.w, a.id)
    ensures forall v, id :: v != a.w ==> (Holds(Apply(s, a), v, id) <==> Holds(s, v, id))
    ensures forall id :: Holds(Apply(s, a), a.w, id) ==> id == a.id
    ensures Holds(Apply(s, a), a.w, a.id) <==>
      !a.Commit? && !a.Reject? && (a.Load? ==> a.id in s.rows)
  {
  }

  lemma GoneTurnStep(s: State, p: Place, a: Action, id: Id)
    requires Placed(s, p, id) && id !in s.rows && Enabled(s, a) && Ordinary(a) && ByWorker(a) && !a.Pop?
    ensures Placed(Apply(s, a), NextIf(s, p, a, id), id)
  {
    TurnFrame(s, a);
    assert Todo(Apply(s, a)) == Todo(s);
  }

  lemma GoneWorkerStep(s: State, p: Place, a: Action, id: Id)
    requires Tidy(s) && Placed(s, p, id) && id in s.used && id !in s.rows && Enabled(s, a) && Ordinary(a) && ByWorker(a)
    ensures Placed(Apply(s, a), NextIf(s, p, a, id), id) && id !in Apply(s, a).rows
  {
    RowsAfter(s, a, id);
    if a.Pop? { GonePopStep(s, p, a.w, a.id, id); } else { GoneTurnStep(s, p, a, id); }
  }

  lemma GoneSchedulerStep(s: State, p: Place, a: Action, id: Id)
    requires Tidy(s) && Placed(s, p, id) && id in s.used && id !in s.rows && Enabled(s, a) && Ordinary(a) && ByScheduler(a)
    ensures Placed(Apply(s, a), NextIf(s, p, a, id), id) && id !in Apply(s, a).rows
  {
    var t := Apply(s, a);
    forall w ensures Holds(t, w, id) <==> Holds(s, w, id) {}
    match a
    case Find(_, batch) =>
    case Requeue(_, x) =>
      assert Todo(t) == Todo(s) && Todo(s)[0].id == x;
      assert InTodo(s, x);
    case Mark(_, x) =>
      HeadListed(s, x);
      AdvancedTodo(s, a, id);
  }

  lemma GoneStep(s: State, p: Place, a: Action, id: Id)
    requires Tidy(s) && Placed(s, p, id) && id in s.used && id !in s.rows && Enabled(s, a) && Ordinary(a)
    ensures Placed(Apply(s, a), NextIf(s, p, a, id), id) && id !in Apply(s, a).rows
  {
    if ByWorker(a) {
      GoneWorkerStep(s, p, a, id);
    } else if ByScheduler(a) {
      GoneSchedulerStep(s, p, a, id);
    } else {
      var t := Apply(s, a);
      assert Todo(t) == Todo(s);
      forall w ensures Holds(t, w, id) <==> Holds(s, w, id) {}
    }
  }

  lemma WorkerSubjectStep(s: State, p: Place, a: Action, id: Id)
    requires Tidy(s) && Enabled(s, a) && Ordinary(a) && ByWorker(a) && About(a, id) && Located(s, p, id)
    ensures Located(Apply(s, a), Next(s, p, a), id)
  {
    if a.Pop? { PoppedQueue(s.queue, id); } else { assert Holds(s, a.w, id); }
  }

  lemma MarkStep(s: State, p: Place, id: Id)
    requires Tidy(s) && Enabled(s, Mark(0, id)) && Located(s, p, id)
    ensures Located(Apply(s, Mark(0, id)), p, id)
  {
    HeadListed(s, id);
    AdvancedTodo(s, Mark(0, id), id);
  }

  lemma InsertStep(s: State, id: Id, org: OrgId, sendable: bool)
    requires Tidy(s) && Enabled(s, Create(id, org, sendable))
    ensures Located(Apply(s, Create(id, org, sendable)), Creator, id)
  {
    assert !Lists(Todo(s), id);
  }

  lemma SubjectStep(s: State, p: Place, a: Action, id: Id)
    requires Tidy(s) && Enabled(s, a) && Ordinary(a) && !ByWorker(a) && About(a, id)
    requires !a.Create? ==> Located(s, p, id)
    ensures Located(Apply(s, a), Next(s, p, a), id)
  {
    match a
    case Create(_, org, sendable) => InsertStep(s, id, org, sendable);
    case Enqueue(_) =>
    case Requeue(k, _) =>
      assert Todo(Apply(s, a)) == Todo(s);
      HeadListed(Apply(s, a), id);
    case Mark(k, _) => MarkStep(s, p, id);
    case _ => assert false;
  }

  /** An ordinary action other than the insert is about a message that was inserted. */
  lemma SubjectUsed(s: State, a: Action)
    requires Tidy(s) && Enabled(s, a) && Ordinary(a) && !a.Find? && !a.Tick? && !a.DeleteOrg? && !a.Create?
    ensures a.id in s.used
  {
    if a.Pop? { assert a.id in s.queue; }
    if a.Requeue? || a.Mark? { assert Todo(s)[0].id == a.id; }
  }

  lemma UsedAfter(s: State, a: Action)
    requires Enabled(s, a)
    ensures Apply(s, a).used == s.used + if a.Create? then {a.id} else {}
  {
  }

  /** Rows come from inserts only. */
  lemma RowsAfter(s: State, a: Action, id: Id)
    requires Enabled(s, a) && Ordinary(a)
    ensures id in Apply(s, a).rows ==> id in s.rows || (a.Create? && a.id == id)
    ensures id in s.rows && id !in Apply(s, a).rows ==> Deletes(s, a, id)
    ensures id in s.rows && Deletes(s, a, id) ==> id !in Apply(s, a).rows
    ensures id in Apply(s, a).used <==> id in s.used || (a.Create? && a.id == id)
  {
  }

  /** The place of one message after an action, whatever the action is about. */
  lemma MessageStep(s: State, p: Place, a: Action, id: Id)
    requires Tidy(s) && Enabled(s, a) && Ordinary(a) && id in Apply(s, a).rows
    requires id in s.rows ==> Located(s, p, id)
    ensures Located(Apply(s, a), NextIf(s, p, a, id), id)
  {
    RowsAfter(s, a, id);
    if About(a, id) {
      if ByWorker(a) { WorkerSubjectStep(s, p, a, id); } else { SubjectStep(s, p, a, id); }
    } else {
      OtherStep(s, p, a, id);
    }
  }

  lemma UsedStep(s: State, p: Place, a: Action, id: Id)
    requires Tidy(s) && Enabled(s, a) && Ordinary(a) && id in Apply(s, a).used
    requires id in s.used ==> Placed(s, p, id) && (id in s.rows ==> Located(s, p, id))
    ensures Placed(Apply(s, a), NextIf(s, p, a, id), id)
    ensures id in Apply(s, a).rows ==> Located(Apply(s, a), NextIf(s, p, a, id), id)
  {
    RowsAfter(s, a, id);
    if id in Apply(s, a).rows {
      MessageStep(s, p, a, id);
    } else if id in s.rows {
      DeletedStep(s, p, a, id);
    } else {
      GoneStep(s, p, a, id);
    }
  }

  lemma HolderStep(s: State, h: Places, a: Action)
    requires Inv(s, h) && Enabled(s, a) && Ordinary(a)
    ensures Inv(Apply(s, a), Moved(s, h, a))
  {
    InvTidy(s, h, a);
    SameKeys(s, h, a);
    forall id | id in Apply(s, a).used
      ensures Placed(Apply(s, a), Moved(s, h, a)[id], id)
      ensures id in Apply(s, a).rows ==> Located(Apply(s, a), Moved(s, h, a)[id], id)
    {
      MovedAt(s, h, a, id);
      UsedStep(s, PlaceIn(h, id), a, id);
    }
  }

  lemma InvTidy(s: State, h: Places, a: Action)
    requires Inv(s, h) && Enabled(s, a) && Ordinary(a)
    ensures Tidy(Apply(s, a))
  {
    if a.Find? || a.Tick? || a.Create? || a.DeleteOrg? {
      TidyStep(s, a, Creator);
    } else {
      SubjectUsed(s, a);
      if ByWorker(a) { TidyWorkerStep(s, a, h[a.id]); } else { TidyStep(s, a, h[a.id]); }
    }
  }

  lemma SameKeys(s: State, h: Places, a: Action)
    requires Inv(s, h) && Enabled(s, a) && Ordinary(a)
    ensures Moved(s, h, a).Keys == Apply(s, a).used
  {
    if !a.Find? && !a.Tick? && !a.DeleteOrg? && !a.Create? { SubjectUsed(s, a); }
  }

  lemma {:induction false} HoldersAlways(r: Run)
    requires Faultless(r)
    ensures Inv(End(r), PlacesAt(r))
  {
    if r.Then? {
      HoldersAlways(r.prev);
      HolderStep(End(r.prev), PlacesAt(r.prev), r.act);
    }
  }

  // What the run says about each message

  lemma LostSubject(s: State, p: Place, a: Action)
    requires Tidy(s) && Enabled(s, a) && Ordinary(a) && !a.Find? && !a.Tick? && !a.DeleteOrg? && !a.Create?
    requires Placed(s, p, a.id)
    ensures Next(s, p, a) == Lost <==> p == Lost || Overtakes(s, a)
  {
    if ByWorker(a) && !a.Pop? { assert Holds(s, a.w, a.id); }
    if a.Requeue? { assert Todo(s)[0].id == a.id; assert InTodo(s, a.id); }
  }

  lemma LostStep(s: State, h: Places, a: Action, id: Id)
    requires Inv(s, h) && Enabled(s, a) && Ordinary(a)
    ensures id in Moved(s, h, a) && Moved(s, h, a)[id] == Lost <==>
      (id in h && h[id] == Lost) || (Overtakes(s, a) && a.id == id)
  {
    if About(a, id) && !a.Create? {
      SubjectUsed(s, a);
      LostSubject(s, h[id], a);
    }
  }

  lemma {:induction false} LostMeansOvertaken(r: Run, id: Id)
    requires Faultless(r)
    ensures id in PlacesAt(r) && PlacesAt(r)[id] == Lost <==> Overtaken(r, id)
  {
    if r.Then? {
      LostMeansOvertaken(r.prev, id);
      HoldersAlways(r.prev);
      LostStep(End(r.prev), PlacesAt(r.prev), r.act, id);
    }
  }

  datatype Holder =
    | QueueMessageCall
    | QueueSlot(i: nat)
    | BusyWorker(w: nat)
    | RetryTimer
    | FinalStatus

  /** A row about to be overwritten by a mark is not held by what it says now. */
  predicate HeldBy(s: State, x: Holder, id: Id) {
    match x
    case QueueMessageCall => id in s.creating
    case QueueSlot(i) => i < |s.queue| && s.queue[i] == id
    case BusyWorker(w) => Holds(s, w, id)
    case RetryTimer => id in s.rows && s.rows[id].status == Retry && !InWindow(s, id)
    case FinalStatus => id in s.rows && s.rows[id].status in {Success, Failed} && !InWindow(s, id)
  }

  ghost predicate HasOneHolder(s: State, id: Id) {
    exists x :: HeldBy(s, x, id) && forall y :: HeldBy(s, y, id) ==> y == x
  }

  lemma PlaceIsHolder(s: State, p: Place, id: Id)
    requires Tidy(s) && Located(s, p, id) && p != Lost
    ensures HasOneHolder(s, id)
  {
    if InWindow(s, id) { HeadListed(s, id); }
    match p
    case Creator => OnlyHolder(s, QueueMessageCall, id);
    case Slot =>
      var i :| 0 <= i < |s.queue| && s.queue[i] == id;
      OnlyHolder(s, QueueSlot(i), id);
    case AtWorker(w) =>
      assert Holds(s, w, id);
      OnlyHolder(s, BusyWorker(w), id);
    case Timer => OnlyHolder(s, RetryTimer, id);
    case Final => OnlyHolder(s, FinalStatus, id);
  }

  lemma OnlyHolder(s: State, x: Holder, id: Id)
    requires HeldBy(s, x, id) && forall y :: HeldBy(s, y, id) ==> y == x
    ensures HasOneHolder(s, id)
  {
  }

  lemma LostIsUnheld(s: State, id: Id)
    requires Placed(s, Lost, id) && (id in s.rows ==> Located(s, Lost, id))
    ensures forall x :: !HeldBy(s, x, id)
  {
  }

  /** Neither lost nor duplicated, exactly when no commit overtook the mark; and a message
      that was overtaken is held nowhere from then on. */
  lemma ExactlyOneHolder(r: Run, id: Id)
    requires Faultless(r) && id in End(r).rows
    ensures HasOneHolder(End(r), id) <==> !Overtaken(r, id)
    ensures Overtaken(r, id) ==> forall x :: !HeldBy(End(r), x, id)
  {
    HoldersAlways(r);
    LostMeansOvertaken(r, id);
    var p := PlacesAt(r)[id];
    assert Located(End(r), p, id);
    if p == Lost { LostIsUnheld(End(r), id); } else { PlaceIsHolder(End(r), p, id); }
  }

  /** A longer run from the same start. */
  ghost predicate Extends(longer: Run, r: Run) {
    longer == r || (longer.Then? && Extends(longer.prev, r))
  }

  lemma {:induction false} OvertakenStays(longer: Run, r: Run, id: Id)
    requires Extends(longer, r) && Overtaken(r, id)
    ensures Overtaken(longer, id)
  {
    if longer != r { OvertakenStays(longer.prev, r, id); }
  }

  lemma OvertakenIsUnheld(r: Run, longer: Run, id: Id)
    requires Faultless(longer) && Extends(longer, r) && Overtaken(r, id)
    ensures forall x :: !HeldBy(End(longer), x, id)
  {
    OvertakenStays(longer, r, id);
    HoldersAlways(longer);
    LostMeansOvertaken(longer, id);
    LostIsUnheld(End(longer), id);
  }

  /** The row an overtaken message ends up with says pending, whatever the worker wrote. */
  lemma OvertakenReadsPending(r: Run, longer: Run, id: Id)
    requires Faultless(longer) && Extends(longer, r) && Overtaken(r, id) && 0 !in End(longer).scheds
    ensures id in End(longer).rows ==> End(longer).rows[id].status == Pending
    ensures forall x :: !HeldBy(End(longer), x, id)
  {
    OvertakenIsUnheld(r, longer, id);
    OvertakenStays(longer, r, id);
    HoldersAlways(longer);
    LostMeansOvertaken(longer, id);
    if id in End(longer).rows { assert Located(End(longer), Lost, id); }
  }

  /** The unlocked rows of a pass are still as the scheduler read them, unless they are deleted. */
  lemma PassRowsUnchanged(r: Run, j: nat)
    requires Faultless(r) && j < |Todo(End(r))|
    ensures var e := Todo(End(r))[j];
      e.id in End(r).rows && !Overtaken(r, e.id) ==> End(r).rows[e.id] == e.snap
  {
    HoldersAlways(r);
    var e := Todo(End(r))[j];
    LostMeansOvertaken(r, e.id);
    if e.id in End(r).rows { assert Located(End(r), PlacesAt(r)[e.id], e.id); }
  }
}
