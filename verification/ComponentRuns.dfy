/**
 The component methods are runs of the protocol: what a worker's delivery or a scheduler's
 pass writes when nothing comes in between is what the methods are proved to write.
 */
module ComponentRuns {
  import opened Wrappers
  import opened MessageStore
  import opened AttemptStore
  import opened WebhookWorker
  import opened RetryScheduler
  import opened Protocol
  import opened Overtaking

  /** An undisturbed call, from the insert to the push, as Service.QueueMessage. */
  lemma QueueAlone(r: Run, id: Id, org: OrgId, sendable: bool) returns (done: Run)
    requires Faultless(r) && Enabled(End(r), Create(id, org, sendable))
    ensures Continues(done, r)
    ensures var s, t := End(r), End(done);
      && t.rows == s.rows[id := Row(org, sendable, Pending, 0, None)]
      && t.queue == [id] + s.queue && t.workers == s.workers && t.scheds == s.scheds && t.log == s.log
  {
    var created := Then(r, Create(id, org, sendable));
    OneMore(r, r, created.act);
    done := Then(created, Enqueue(id));
    OneMore(created, r, done.act);
  }

  /** An undisturbed delivery, from the loaded snapshot to the commit, as Worker.Deliver. */
  lemma DeliveryAlone(loaded: Run, w: nat, id: Id, result: Result) returns (done: Run)
    requires Faultless(loaded) && Enabled(End(loaded), Send(w, id, result)) && id in End(loaded).rows
    ensures Continues(done, loaded)
    ensures var s, msg, t := End(loaded), End(loaded).workers[w].snap, End(done);
      && t.rows == Settled(s.rows, id, msg, result, s.clock)
      && t.log == Appended(s.log, id, AttemptFor(msg, result, s.clock, s.clock))
      && t.queue == s.queue && t.scheds == s.scheds && t.workers == s.workers - {w} && t.clock == s.clock
  {
    var s := End(loaded);
    var sent := SendAndRecord(loaded, loaded, w, id, result);
    done := Then(sent, Commit(w, id, s.clock));
    OneMore(sent, loaded, done.act);
    var ph := End(sent).workers[w];
    assert s.workers[w := ph] - {w} == s.workers - {w};
  }

  lemma CommitAlone(sent: Run, r: Run, w: nat, id: Id) returns (done: Run)
    requires Continues(sent, r) && Enabled(End(sent), Commit(w, id, End(sent).clock))
    ensures Continues(done, r)
    ensures var s, t, p := End(sent), End(done), End(sent).workers[w];
      && t.rows == Settled(s.rows, id, p.snap, p.result, s.clock) && t.workers == s.workers - {w}
      && t.queue == s.queue && t.scheds == s.scheds && t.clock == s.clock && t.log == s.log
  {
    done := Then(sent, Commit(w, id, End(sent).clock));
    OneMore(sent, r, done.act);
  }

  /** An undisturbed turn, from the pop at the right end to the commit, as Worker.Turn. */
  lemma TurnAlone(r: Run, w: nat, id: Id, result: Result) returns (done: Run)
    requires Faultless(r) && w in End(r).fleet && w !in End(r).workers
    requires End(r).queue != [] && End(r).queue[|End(r).queue| - 1] == id
    requires id in End(r).rows && End(r).rows[id].sendable
    ensures Continues(done, r)
    ensures var s, t, row := End(r), End(done), End(r).rows[id];
      && s.queue == t.queue + [id] && t.workers == s.workers && t.scheds == s.scheds && t.clock == s.clock
      && t.log == Appended(s.log, id, AttemptFor(row, result, s.clock, s.clock))
      && t.rows == Settled(s.rows, id, row, result, s.clock)
  {
    var s := End(r);
    var sent := WorkerTurn(r, w, id, result);
    done := CommitAlone(sent, r, w, id);
    assert s.workers[w := End(sent).workers[w]] - {w} == s.workers;
  }

  /** The state of a pass that has dealt with the first i entries and no more. */
  ghost predicate PassAt(s: State, t: State, batch: seq<Entry>, i: nat)
    requires i <= |batch|
  {
    t == s.(rows := MarkedAll(s.rows, batch[..i]), queue := PushedAll(s.queue, batch[..i]),
            scheds := if i == |batch| then s.scheds - {0} else s.scheds[0 := Pass(batch[i..], false)])
  }

  lemma PassStep(s: State, t: State, batch: seq<Entry>, i: nat)
    requires i < |batch| && PassAt(s, t, batch, i)
    ensures Enabled(t, Requeue(0, batch[i].id)) && Enabled(Apply(t, Requeue(0, batch[i].id)), Mark(0, batch[i].id))
    ensures PassAt(s, Apply(Apply(t, Requeue(0, batch[i].id)), Mark(0, batch[i].id)), batch, i + 1)
  {
    var u := Apply(t, Requeue(0, batch[i].id));
    var v := Apply(u, Mark(0, batch[i].id));
    assert batch[..i + 1][..i] == batch[..i];
    assert v.rows == MarkedAll(s.rows, batch[..i + 1]);
    assert v.queue == PushedAll(s.queue, batch[..i + 1]);
    assert u.scheds[0].todo == batch[i..] && batch[i..][1..] == batch[i + 1..];
    if i + 1 == |batch| {
      assert v.scheds == s.scheds - {0};
    } else {
      assert v.scheds == s.scheds[0 := Pass(batch[i + 1..], false)];
    }
  }

  lemma {:induction false} PassUpTo(found: Run, s: State, batch: seq<Entry>, i: nat) returns (done: Run)
    requires Faultless(found) && i <= |batch| && PassAt(s, End(found), batch, 0) && batch != []
    ensures Continues(done, found) && PassAt(s, End(done), batch, i)
  {
    if i == 0 {
      done := found;
    } else {
      var before := PassUpTo(found, s, batch, i - 1);
      var id := batch[i - 1].id;
      PassStep(s, End(before), batch, i - 1);
      var pushed := Then(before, Requeue(0, id));
      OneMore(before, found, pushed.act);
      done := Then(pushed, Mark(0, id));
      OneMore(pushed, found, done.act);
    }
  }

  /** An undisturbed pass, from the query to the last mark, as Scheduler.ProcessRetries. */
  lemma PassAlone(r: Run, batch: seq<Entry>) returns (done: Run)
    requires Faultless(r) && Enabled(End(r), Find(0, batch)) && batch != []
    ensures Faultless(done)
    ensures End(done) == End(r).(rows := MarkedAll(End(r).rows, batch), queue := PushedAll(End(r).queue, batch))
  {
    var s := End(r);
    var found := Then(r, Find(0, batch));
    OneMore(r, r, found.act);
    assert batch[..0] == [] && batch[0..] == batch;
    done := PassUpTo(found, s, batch, |batch|);
    assert batch[..|batch|] == batch;
    assert s.scheds - {0} == s.scheds;
  }
}
