/**
 Exponential backoff over whole runs: a message is never re-queued before its retry time,
 so consecutive sends are at least 1, 2, 4, 8 and 16 seconds apart.
 */
module Pacing {
  import opened Wrappers
  import opened MessageStore
  import opened AttemptStore
  import opened WebhookWorker
  import opened Protocol
  import opened Holders
  import opened Agreement

  /** hs[k] is when failure k+1 was handled; the next failure cannot be handled sooner. */
  ghost predicate Spaced(hs: seq<int>) {
    forall k :: 0 <= k < |hs| - 1 ==> hs[k] + Backoff(k) <= hs[k + 1]
  }

  /** Attempt n + 2 was sent after the wait that failure n + 1 asked for. */
  ghost predicate SentAfter(a: Attempt, hs: seq<int>) {
    var n := a.number - 2;
    0 <= n ==> n < |hs| && hs[n] + Backoff(n) <= a.sentAt
  }

  ghost predicate SentInTime(l: seq<Attempt>, hs: seq<int>) {
    forall i :: 0 <= i < |l| ==> SentAfter(l[i], hs)
  }

  /** The retry time of a row that has failed |hs| times. */
  function NextAfter(hs: seq<int>): Option<int> {
    if hs == [] then None else Some(hs[|hs| - 1] + Backoff(|hs| - 1))
  }

  predicate Reached(next: Option<int>, now: int) {
    next.Some? ==> next.value <= now
  }

  predicate WorkerPaced(ph: Phase, next: Option<int>, now: int) {
    match ph
    case Popped(_) => true
    case Loaded(_, _) => true
    case Sent(_, _, _, sentAt) => Reached(next, sentAt) && sentAt <= now
    case Logged(_, _, _, sentAt, loggedAt) => Reached(next, sentAt) && sentAt <= loggedAt <= now
  }

  ghost predicate Paced(s: State, p: Place, id: Id)
    requires Located(s, p, id) && Agrees(s, p, id)
  {
    var r, hs := s.rows[id], HandledOf(s.handled, id);
    p != Lost ==>
    && |hs| == r.count
    && r.next == NextAfter(hs)
    && Spaced(hs)
    && SentInTime(AttemptsOf(s.log, id), hs)
    && (p.Slot? || p.AtWorker? || InTodo(s, id) ==> Reached(r.next, s.clock))
    && (p.AtWorker? ==> WorkerPaced(s.workers[p.w], r.next, s.clock))
  }

  lemma OneMoreHandled(hs: seq<int>, l: seq<Attempt>, at: int)
    requires Spaced(hs) && SentInTime(l, hs) && Reached(NextAfter(hs), at)
    ensures Spaced(hs + [at]) && SentInTime(l, hs + [at]) && NextAfter(hs + [at]) == Some(at + Backoff(|hs|))
  {
  }

  lemma OneMoreSent(l: seq<Attempt>, hs: seq<int>, a: Attempt)
    requires SentInTime(l, hs) && a.number == |hs| + 1 && Reached(NextAfter(hs), a.sentAt)
    ensures SentInTime(l + [a], hs)
  {
  }

  lemma PacedCommit(s: State, p: Place, w: nat, id: Id, at: int)
    requires Tidy(s) && Located(s, p, id) && Agrees(s, p, id) && Paced(s, p, id)
    requires Enabled(s, Commit(w, id, at)) && !Overtakes(s, Commit(w, id, at))
    requires var t, q := Apply(s, Commit(w, id, at)), Next(s, p, Commit(w, id, at)); Located(t, q, id) && Agrees(t, q, id)
    ensures Paced(Apply(s, Commit(w, id, at)), Next(s, p, Commit(w, id, at)), id)
  {
    assert Holds(s, w, id);
    OneMoreHandled(HandledOf(s.handled, id), AttemptsOf(s.log, id), at);
    SettledIsOutcome(s.rows, id, s.workers[w].snap, s.workers[w].result, at);
  }

  lemma PacedWorkerSubject(s: State, p: Place, a: Action, id: Id)
    requires Tidy(s) && Located(s, p, id) && Agrees(s, p, id) && Paced(s, p, id)
    requires Enabled(s, a) && Ordinary(a) && ByWorker(a) && About(a, id) && !a.Commit? && !Overtakes(s, a)
    requires Located(Apply(s, a), Next(s, p, a), id) && Agrees(Apply(s, a), Next(s, p, a), id)
    ensures Paced(Apply(s, a), Next(s, p, a), id)
  {
    if a.Pop? { assert id in s.queue; } else { assert Holds(s, a.w, id); }
    if a.Record? {
      var ph := s.workers[a.w];
      OneMoreSent(AttemptsOf(s.log, id), HandledOf(s.handled, id), AttemptFor(ph.snap, ph.result, ph.sentAt, s.clock));
    }
  }

  lemma PacedSubject(s: State, p: Place, a: Action, id: Id)
    requires Tidy(s) && Enabled(s, a) && Ordinary(a) && !ByWorker(a) && About(a, id)
    requires if a.Create? then id !in s.log && id !in s.handled && id !in s.missed
             else Located(s, p, id) && Agrees(s, p, id) && Paced(s, p, id) && p != Lost
    requires Located(Apply(s, a), Next(s, p, a), id) && Agrees(Apply(s, a), Next(s, p, a), id)
    ensures Paced(Apply(s, a), Next(s, p, a), id)
  {
    match a
    case Create(_, _, _) =>
    case Enqueue(_) =>
    case Requeue(k, _) =>
      assert Todo(s)[0].id == id;
      assert InTodo(s, id);
    case Mark(k, _) =>
      HeadListed(s, id);
      assert Frozen(s, id) && Todo(s)[0].snap == s.rows[id];
      if p.AtWorker? { assert Holds(s, p.w, id); }
    case _ => assert false;
  }

  lemma PacedOther(s: State, p: Place, a: Action, id: Id)
    requires Tidy(s) && Located(s, p, id) && Agrees(s, p, id) && Paced(s, p, id)
    requires Enabled(s, a) && Ordinary(a) && !About(a, id) && !Deletes(s, a, id)
    requires Located(Apply(s, a), p, id) && Agrees(Apply(s, a), p, id)
    ensures Paced(Apply(s, a), p, id)
  {
    if ByScheduler(a) {
      PacedOtherScheduler(s, p, a, id);
    } else if ByWorker(a) {
      PacedOtherWorker(s, p, a, id);
    } else {
      OtherStep(s, p, a, id);
    }
  }

  /** What a worker leaves alone when it works on another message. */
  lemma OtherWorkerFrame(s: State, p: Place, a: Action, id: Id)
    requires Located(s, p, id) && Enabled(s, a) && Ordinary(a) && !About(a, id) && ByWorker(a)
    ensures var t := Apply(s, a);
      && AttemptsOf(t.log, id) == AttemptsOf(s.log, id) && HandledOf(t.handled, id) == HandledOf(s.handled, id)
      && t.clock == s.clock && Todo(t) == Todo(s)
      && (p.AtWorker? ==> p.w in t.workers && t.workers[p.w] == s.workers[p.w])
  {
    if p.AtWorker? { assert Holds(s, p.w, id); }
  }

  lemma PacedOtherWorker(s: State, p: Place, a: Action, id: Id)
    requires Tidy(s) && Located(s, p, id) && Agrees(s, p, id) && Paced(s, p, id)
    requires Enabled(s, a) && Ordinary(a) && !About(a, id) && ByWorker(a)
    requires Located(Apply(s, a), p, id) && Agrees(Apply(s, a), p, id)
    ensures Paced(Apply(s, a), p, id)
  {
    OtherStep(s, p, a, id);
    OtherWorkerFrame(s, p, a, id);
  }

  lemma PacedOtherScheduler(s: State, p: Place, a: Action, id: Id)
    requires Tidy(s) && Located(s, p, id) && Agrees(s, p, id) && Paced(s, p, id)
    requires Enabled(s, a) && Ordinary(a) && !About(a, id) && ByScheduler(a)
    requires Located(Apply(s, a), p, id) && Agrees(Apply(s, a), p, id)
    ensures Paced(Apply(s, a), p, id)
  {
    OtherStep(s, p, a, id);
    if p.AtWorker? { assert Holds(s, p.w, id); }
    match a
    case Find(k, batch) =>
      if Lists(batch, id) {
        var j :| 0 <= j < |batch| && batch[j].id == id;
        assert Due(s.rows, id, s.clock);
      }
    case Mark(k, x) =>
      AdvancedTodo(s, a, id);
    case Requeue(k, x) =>
  }

  lemma PacedAbout(s: State, p: Place, a: Action, id: Id)
    requires Tidy(s) && Enabled(s, a) && Ordinary(a) && !a.Create? && About(a, id)
    requires Located(s, p, id) && Agrees(s, p, id) && Paced(s, p, id)
    requires Located(Apply(s, a), Next(s, p, a), id) && Agrees(Apply(s, a), Next(s, p, a), id)
    ensures Paced(Apply(s, a), Next(s, p, a), id)
  {
    LostSubject(s, p, a);
    if Next(s, p, a) == Lost {
    } else if a.Commit? {
      PacedCommit(s, p, a.w, id, a.at);
    } else if ByWorker(a) {
      PacedWorkerSubject(s, p, a, id);
    } else {
      PacedSubject(s, p, a, id);
    }
  }

  lemma PacedStep(s: State, p: Place, a: Action, id: Id)
    requires Tidy(s) && Rooted(s) && Enabled(s, a) && Ordinary(a)
    requires id in s.rows ==> Located(s, p, id) && Agrees(s, p, id) && Paced(s, p, id)
    requires Located(Apply(s, a), NextIf(s, p, a, id), id) && Agrees(Apply(s, a), NextIf(s, p, a, id), id)
    ensures Paced(Apply(s, a), NextIf(s, p, a, id), id)
  {
    RowsAfter(s, a, id);
    if !About(a, id) {
      PacedOther(s, p, a, id);
    } else if a.Create? {
      PacedSubject(s, p, a, id);
    } else {
      PacedAbout(s, p, a, id);
    }
  }

  ghost predicate AllPaced(s: State, h: Places)
    requires Agreed(s, h)
  {
    forall id :: id in s.rows ==> Paced(s, h[id], id)
  }

  lemma AllPacedStep(s: State, h: Places, a: Action, t: State, h': Places)
    requires Agreed(s, h) && AllPaced(s, h) && Enabled(s, a) && Ordinary(a)
    requires t == Apply(s, a) && h' == Moved(s, h, a) && Agreed(t, h')
    ensures AllPaced(t, h')
  {
    forall id | id in t.rows ensures Paced(t, h'[id], id) {
      MovedAt(s, h, a, id);
      PacedStep(s, PlaceIn(h, id), a, id);
    }
  }

  lemma {:induction false} AlwaysPaced(r: Run)
    requires Faultless(r)
    ensures Agreed(End(r), PlacesAt(r)) && AllPaced(End(r), PlacesAt(r))
  {
    if r.Then? {
      AlwaysPaced(r.prev);
      AlwaysAgreed(r);
      AllPacedStep(End(r.prev), PlacesAt(r.prev), r.act, End(r), PlacesAt(r));
    }
  }

  lemma PacedAt(r: Run, id: Id) returns (p: Place)
    requires Faultless(r) && id in End(r).rows && !Overtaken(r, id)
    ensures p != Lost && Tidy(End(r)) && Located(End(r), p, id) && Agrees(End(r), p, id) && Paced(End(r), p, id)
  {
    AlwaysPaced(r);
    LostMeansOvertaken(r, id);
    p := PlacesAt(r)[id];
  }

  /** No message goes back to the queue before its retry time. */
  lemma NeverRequeuedEarly(r: Run, id: Id)
    requires Faultless(r) && !Overtaken(r, id) && Enabled(End(r), Requeue(0, id)) && id in End(r).rows
    ensures End(r).rows[id].next.Some? && End(r).rows[id].next.value <= End(r).clock
  {
    assert Todo(End(r))[0].id == id;
    assert InTodo(End(r), id);
    var p := PacedAt(r, id);
  }

  lemma {:induction false} TotalWait(hs: seq<int>, n: nat)
    requires Spaced(hs) && n < |hs|
    ensures hs[0] + SECOND * (Pow2(n) - 1) <= hs[n]
  {
    if n > 0 {
      TotalWait(hs, n - 1);
      assert hs[n - 1] + Backoff(n - 1) <= hs[n];
    }
  }

  /** Attempt n + 1 goes out at least 2^n - 1 seconds after the first failure was handled, and
      at least 2^(n-1) seconds after failure n was. */
  ghost predicate BackedOff(a: Attempt, hs: seq<int>) {
    var n := a.number - 1;
    0 <= n <= |hs| && (n >= 1 ==>
      && hs[n - 1] + 1_000_000 * Pow2(n - 1) <= a.sentAt
      && hs[0] + 1_000_000 * (Pow2(n) - 1) <= a.sentAt)
  }

  lemma WaitsAddUp(l: seq<Attempt>, hs: seq<int>)
    requires Spaced(hs) && SentInTime(l, hs) && forall i :: 0 <= i < |l| ==> 1 <= l[i].number
    ensures forall i :: 0 <= i < |l| ==> BackedOff(l[i], hs)
  {
    forall i | 0 <= i < |l| ensures BackedOff(l[i], hs) {
      assert SentAfter(l[i], hs);
      if l[i].number >= 2 { TotalWait(hs, l[i].number - 2); }
    }
  }

  lemma PacedLog(s: State, p: Place, id: Id)
    requires Located(s, p, id) && Agrees(s, p, id) && Paced(s, p, id) && p != Lost
    ensures Spaced(HandledOf(s.handled, id)) && SentInTime(AttemptsOf(s.log, id), HandledOf(s.handled, id))
  {
  }

  lemma NumbersFromOne(r: Run, id: Id)
    requires Faultless(r) && id in End(r).rows && !Overtaken(r, id)
    ensures var l := AttemptsOf(End(r).log, id);
      forall i :: 0 <= i < |l| ==> 1 <= l[i].number
  {
    LogMatchesRow(r, id);
  }

  /** The waits of a message, over whole runs. */
  lemma BackoffOverRuns(r: Run, id: Id)
    requires Faultless(r) && id in End(r).rows && !Overtaken(r, id)
    ensures var l, hs := AttemptsOf(End(r).log, id), HandledOf(End(r).handled, id);
      forall i :: 0 <= i < |l| ==> BackedOff(l[i], hs)
  {
    var p := PacedAt(r, id);
    PacedLog(End(r), p, id);
    NumbersFromOne(r, id);
    WaitsAddUp(AttemptsOf(End(r).log, id), HandledOf(End(r).handled, id));
  }
}
