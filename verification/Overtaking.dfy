/**
 Assumption G is needed: without it one worker and one scheduler, no fault anywhere, can
 leave a delivered message pending for ever.
 */
module Overtaking {
  import opened Wrappers
  import opened MessageStore
  import opened AttemptStore
  import opened WebhookWorker
  import opened RetryScheduler
  import opened Protocol
  import opened Holders

  ghost predicate Continues(longer: Run, r: Run) {
    Faultless(longer) && Extends(longer, r)
  }

  lemma OneMore(longer: Run, r: Run, a: Action)
    requires Continues(longer, r) && Enabled(End(longer), a) && Ordinary(a)
    ensures Continues(Then(longer, a), r) && End(Then(longer, a)) == Apply(End(longer), a)
    ensures Guarded(longer) && !Overtakes(End(longer), a) ==> Guarded(Then(longer, a))
  {
  }

  lemma SetTwice(workers: map<nat, Phase>, w: nat, p: Phase, q: Phase)
    ensures workers[w := p][w := q] == workers[w := q]
  {
  }

  lemma TakeNext(r: Run, w: nat, id: Id) returns (loaded: Run)
    requires Faultless(r) && w in End(r).fleet && w !in End(r).workers && id in End(r).rows
    requires End(r).queue != [] && End(r).queue[|End(r).queue| - 1] == id
    ensures Continues(loaded, r) && (Guarded(r) ==> Guarded(loaded))
    ensures var s := End(r);
      End(loaded) == s.(queue := s.queue[..|s.queue| - 1], workers := s.workers[w := Loaded(id, s.rows[id])])
  {
    var popped := Then(r, Pop(w, id));
    OneMore(r, r, popped.act);
    loaded := Then(popped, Load(w, id));
    OneMore(popped, r, loaded.act);
    SetTwice(End(r).workers, w, Popped(id), Loaded(id, End(r).rows[id]));
  }

  lemma SendAndRecord(loaded: Run, r: Run, w: nat, id: Id, result: Result) returns (sent: Run)
    requires Continues(loaded, r) && Enabled(End(loaded), Send(w, id, result)) && id in End(loaded).rows
    ensures Continues(sent, r) && (Guarded(loaded) ==> Guarded(sent))
    ensures var s := End(loaded); var p := Logged(id, s.workers[w].snap, result, s.clock, s.clock);
      End(sent) == s.(workers := s.workers[w := p], log := Appended(s.log, id, AttemptFor(p.snap, result, s.clock, s.clock)))
  {
    var s := End(loaded);
    var out := Then(loaded, Send(w, id, result));
    OneMore(loaded, r, out.act);
    sent := Then(out, Record(w, id));
    OneMore(out, r, sent.act);
    var snap := s.workers[w].snap;
    SetTwice(s.workers, w, Sent(id, snap, result, s.clock), Logged(id, snap, result, s.clock, s.clock));
  }

  /** An idle worker takes the next id of the queue up to the commit. */
  lemma WorkerTurn(r: Run, w: nat, id: Id, result: Result) returns (sent: Run)
    requires Faultless(r) && w in End(r).fleet && w !in End(r).workers
    requires End(r).queue != [] && End(r).queue[|End(r).queue| - 1] == id
    requires id in End(r).rows && End(r).rows[id].sendable
    ensures Continues(sent, r) && (Guarded(r) ==> Guarded(sent))
    ensures var s, p := End(r), Logged(id, End(r).rows[id], result, End(r).clock, End(r).clock);
      End(sent) == s.(queue := s.queue[..|s.queue| - 1], workers := s.workers[w := p],
                      log := Appended(s.log, id, AttemptFor(p.snap, result, s.clock, s.clock)))
  {
    var s := End(r);
    var loaded := TakeNext(r, w, id);
    sent := SendAndRecord(loaded, r, w, id, result);
    SetTwice(s.workers, w, Loaded(id, s.rows[id]), Logged(id, s.rows[id], result, s.clock, s.clock));
  }

  /** In every window whose id is next in the queue, an idle worker can overtake: the log
      then ends with a 2xx response, and once marked the row reads pending, held by nobody. */
  lemma EveryWindowCanBeOvertaken(r: Run, w: nat, id: Id) returns (bad: Run)
    requires Faultless(r) && InWindow(End(r), id)
    requires w in End(r).fleet && w !in End(r).workers
    requires End(r).queue != [] && End(r).queue[|End(r).queue| - 1] == id
    requires id in End(r).rows && End(r).rows[id].sendable
    ensures Continues(bad, r) && Overtaken(bad, id)
    ensures id in End(bad).rows && End(bad).rows[id].status == Pending
    ensures var l := AttemptsOf(End(bad).log, id); l != [] && Succeeded(l[|l| - 1])
    ensures !HasOneHolder(End(bad), id)
  {
    var sent := WorkerTurn(r, w, id, Response(200, 0));
    bad := CommitThenMark(sent, r, w, id);
    ExactlyOneHolder(bad, id);
  }

  lemma CommitThenMark(sent: Run, r: Run, w: nat, id: Id) returns (bad: Run)
    requires Continues(sent, r) && InWindow(End(sent), id) && id in End(sent).rows
    requires Enabled(End(sent), Commit(w, id, End(sent).clock))
    ensures Continues(bad, r) && Overtaken(bad, id)
    ensures id in End(bad).rows && End(bad).rows[id].status == Pending
    ensures End(bad).log == End(sent).log
  {
    var committed := Then(sent, Commit(w, id, End(sent).clock));
    OneMore(sent, r, committed.act);
    assert Overtaken(committed, id);
    bad := Then(committed, Mark(0, id));
    OneMore(committed, r, bad.act);
  }

  lemma FoundDue(t: Table, id: Id, now: int)
    requires Due(t, id, now) && forall x :: x in t ==> x == id
    ensures IsReadyBatch(t, now, BATCH, [Entry(id, t[id])])
  {
    assert [Entry(id, t[id])][0].id == id;
    assert Lists([Entry(id, t[id])], id);
  }

  /** Such a window is reached by one message that fails once. */
  lemma WindowReachable() returns (r: Run)
    ensures Guarded(r) && InWindow(End(r), 7) && End(r).queue == [7] && 0 in End(r).fleet && 0 !in End(r).workers
    ensures 7 in End(r).rows && End(r).rows[7].sendable
  {
    var failed := FirstFailure();
    var due := Then(failed, Tick(SECOND));
    OneMore(failed, failed, due.act);
    BackoffValues(0);
    FoundDue(End(due).rows, 7, End(due).clock);
    var found := Then(due, Find(0, [Entry(7, End(due).rows[7])]));
    OneMore(due, failed, found.act);
    r := Then(found, Requeue(0, 7));
    OneMore(found, failed, r.act);
  }

  lemma FirstQueued() returns (r: Run)
    ensures Guarded(r) && End(r) == Init({0}).(rows := map[7 := Row(1, true, Pending, 0, None)], queue := [7], used := {7})
  {
    var r0 := Start({0});
    var r1 := Then(r0, Create(7, 1, true));
    OneMore(r0, r0, r1.act);
    r := Then(r1, Enqueue(7));
    OneMore(r1, r0, r.act);
    assert End(r).queue == [7] && End(r).creating == {};
  }

  lemma FirstFailure() returns (r: Run)
    ensures Guarded(r) && 0 !in End(r).scheds && End(r).queue == [] && End(r).fleet == {0} && End(r).workers == map[]
    ensures End(r).clock == 0 && End(r).rows == map[7 := Row(1, true, Retry, 1, Some(Backoff(0)))]
  {
    var queued := FirstQueued();
    var sent := WorkerTurn(queued, 0, 7, Response(500, 0));
    r := Then(sent, Commit(0, 7, 0));
    OneMore(sent, queued, r.act);
  }

  /** Without G a faultless run can end with a delivered message that reads pending, is held
      by nobody, and stays so however the run goes on. */
  lemma GuardIsNecessary() returns (bad: Run)
    ensures Faultless(bad) && 7 in End(bad).rows && End(bad).rows[7].status == Pending
    ensures var l := AttemptsOf(End(bad).log, 7); l != [] && Succeeded(l[|l| - 1])
    ensures forall longer :: Continues(longer, bad) ==>
      && !HasOneHolder(End(longer), 7)
      && (7 in End(longer).rows && 0 !in End(longer).scheds ==> End(longer).rows[7].status == Pending)
  {
    var r := WindowReachable();
    GuardedNeverOvertaken(r, 7);
    bad := EveryWindowCanBeOvertaken(r, 0, 7);
    forall longer | Continues(longer, bad)
      ensures !HasOneHolder(End(longer), 7)
      ensures 7 in End(longer).rows && 0 !in End(longer).scheds ==> End(longer).rows[7].status == Pending
    {
      OvertakenIsUnheld(bad, longer, 7);
      if 0 !in End(longer).scheds { OvertakenReadsPending(bad, longer, 7); }
    }
  }
}
