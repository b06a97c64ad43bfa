/**
 What holds of every row, snapshot and logged attempt in every run whatsoever: duplicate
 deliveries, lost pushes and writes, crashes, several schedulers, deleted organizations.
 */
module RowInvariant {
  import opened Wrappers
  import opened MessageStore
  import opened WebhookWorker
  import opened Protocol

  predicate SoundRow(r: Row) {
    && 0 <= r.count <= MAX_ATTEMPTS
    && (r.count == 0 <==> r.next == None)
    && (r.status == Retry ==> r.count >= 1)
  }

  predicate SoundPhase(p: Phase) {
    p.Popped? || SoundRow(p.snap)
  }

  ghost predicate SoundPass(p: Pass) {
    && p.todo != []
    && forall j :: 0 <= j < |p.todo| ==> SoundRow(p.todo[j].snap) && p.todo[j].snap.status == Retry
  }

  ghost predicate Sound(s: State) {
    && (forall id :: id in s.rows ==> SoundRow(s.rows[id]))
    && (forall w :: w in s.workers ==> SoundPhase(s.workers[w]))
    && (forall k :: k in s.scheds ==> SoundPass(s.scheds[k]))
    && (forall id, i :: id in s.log && 0 <= i < |s.log[id]| ==> 1 <= s.log[id][i].number <= MAX_ATTEMPTS + 1)
  }

  /** The steps of a worker that write no row and no log. */
  lemma SoundMove(s: State, a: Action)
    requires Sound(s) && Enabled(s, a) && (a.Pop? || a.Load? || a.Send? || a.LoseRecord? || a.CrashWorker?)
    ensures Sound(Apply(s, a))
  {
    if !a.Pop? { assert SoundPhase(s.workers[a.w]); }
  }

  lemma SoundRecord(s: State, w: nat, id: Id)
    requires Sound(s) && Enabled(s, Record(w, id))
    ensures Sound(Apply(s, Record(w, id)))
  {
    assert SoundPhase(s.workers[w]);
  }

  lemma SettledSound(t: Table, id: Id, snap: Row, r: Result, at: int)
    requires SoundRow(snap) && forall x :: x in t ==> SoundRow(t[x])
    ensures forall x :: x in Settled(t, id, snap, r, at) ==> SoundRow(Settled(t, id, snap, r, at)[x])
  {
  }

  lemma SoundCommit(s: State, w: nat, id: Id, at: int)
    requires Sound(s) && Enabled(s, Commit(w, id, at))
    ensures Sound(Apply(s, Commit(w, id, at)))
  {
    var p := s.workers[w];
    assert SoundPhase(p);
    SettledSound(s.rows, id, p.snap, p.result, at);
    assert Apply(s, Commit(w, id, at)).rows == Settled(s.rows, id, p.snap, p.result, at);
  }

  lemma SoundWorkerStep(s: State, a: Action)
    requires Sound(s) && Enabled(s, a) && ByWorker(a)
    ensures Sound(Apply(s, a))
  {
    match a
    case Record(w, id) => SoundRecord(s, w, id);
    case Commit(w, id, at) => SoundCommit(s, w, id, at);
    case Reject(_, _) =>
    case _ => SoundMove(s, a);
  }

  lemma SoundAdvance(scheds: map<nat, Pass>, k: nat)
    requires k in scheds && scheds[k].todo != [] && forall j :: j in scheds ==> SoundPass(scheds[j])
    ensures forall j :: j in Advanced(scheds, k) ==> SoundPass(Advanced(scheds, k)[j])
  {
    assert SoundPass(scheds[k]);
  }

  lemma SoundMark(s: State, a: Action)
    requires Sound(s) && Enabled(s, a) && (a.Mark? || a.LoseMark?)
    ensures Sound(Apply(s, a))
  {
    assert SoundPass(s.scheds[a.k]);
    SoundAdvance(s.scheds, a.k);
  }

  lemma SoundSchedulerStep(s: State, a: Action)
    requires Sound(s) && Enabled(s, a) && ByScheduler(a)
    ensures Sound(Apply(s, a))
  {
    if a.Mark? || a.LoseMark? { SoundMark(s, a); }
  }

  lemma SoundStep(s: State, a: Action)
    requires Sound(s) && Enabled(s, a)
    ensures Sound(Apply(s, a))
  {
    if ByWorker(a) {
      SoundWorkerStep(s, a);
    } else if ByScheduler(a) {
      SoundSchedulerStep(s, a);
    }
  }

  lemma {:induction false} AlwaysSound(r: Run)
    requires Valid(r)
    ensures Sound(End(r))
  {
    if r.Then? {
      AlwaysSound(r.prev);
      SoundStep(End(r.prev), r.act);
    }
  }

  /** So for every row and every stored attempt, whatever goes wrong. */
  lemma RowsAreSound(r: Run, id: Id)
    requires Valid(r)
    ensures id in End(r).rows ==>
      var row := End(r).rows[id];
      && 0 <= row.count <= 5
      && (row.count == 0 <==> row.next == None)
      && (row.status == Retry ==> row.count >= 1 && row.next.Some?)
    ensures id in End(r).log ==>
      forall i :: 0 <= i < |End(r).log[id]| ==> 1 <= End(r).log[id][i].number <= 6
  {
    AlwaysSound(r);
  }

  /** The IS NOT NULL filter drops nothing: a retry row always carries its next time. */
  lemma RetryRowsAreSelectable(r: Run, id: Id, now: int)
    requires Valid(r) && id in End(r).rows && End(r).rows[id].status == Retry
    ensures End(r).rows[id].next.Some? && End(r).rows[id].count >= 1
    ensures Due(End(r).rows, id, now) <==> End(r).rows[id].next.value <= now
  {
    AlwaysSound(r);
  }
}
