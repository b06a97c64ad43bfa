/**
 The row, the snapshot and the attempt log of a message that was never overtaken agree:
 no commit loses an update, the attempts stored are numbered upwards with a gap for each
 that was not stored and for nothing else, and the last of them tells the outcome.
 */
module Agreement {
  import opened Wrappers
  import opened MessageStore
  import opened AttemptStore
  import opened WebhookWorker
  import opened Protocol
  import opened Holders

  ghost predicate Rising(l: seq<Attempt>) {
    forall i, j :: 0 <= i < j < |l| ==> l[i].number < l[j].number
  }

  /** Of the attempts 1..n all but `missed` are stored, and nothing else is. */
  ghost predicate Stores(l: seq<Attempt>, n: int, missed: nat) {
    && |l| + missed == n
    && Rising(l)
    && forall i :: 0 <= i < |l| ==> 1 <= l[i].number <= n
  }

  /** The first n attempts failed. */
  ghost predicate FailedUpTo(l: seq<Attempt>, n: int) {
    forall i :: 0 <= i < |l| && l[i].number <= n ==> !Succeeded(l[i])
  }

  ghost predicate Failures(l: seq<Attempt>, n: int, missed: nat) {
    Stores(l, n, missed) && FailedUpTo(l, n)
  }

  /** The delivery columns of a snapshot are those of the row. */
  predicate SameDelivery(snap: Row, r: Row) {
    snap.count == r.count && snap.next == r.next && snap.sendable == r.sendable && snap.org == r.org
  }

  ghost predicate WorkerAgrees(ph: Phase, r: Row, l: seq<Attempt>, missed: nat) {
    match ph
    case Popped(_) => Failures(l, r.count, missed)
    case Loaded(_, snap) => SameDelivery(snap, r) && Failures(l, r.count, missed)
    case Sent(_, snap, _, _) => SameDelivery(snap, r) && r.sendable && Failures(l, r.count, missed)
    case Logged(_, snap, result, sentAt, loggedAt) =>
      && SameDelivery(snap, r) && r.sendable
      && Stores(l, r.count + 1, missed) && FailedUpTo(l, r.count)
      && forall i :: 0 <= i < |l| && l[i].number == r.count + 1 ==> l[i] == AttemptFor(snap, result, sentAt, loggedAt)
  }

  ghost predicate FinalAgrees(r: Row, l: seq<Attempt>, missed: nat) {
    match r.status
    case Success =>
      && r.sendable && Stores(l, r.count + 1, missed) && FailedUpTo(l, r.count)
      && forall i :: 0 <= i < |l| && l[i].number == r.count + 1 ==> Succeeded(l[i])
    case Failed =>
      if r.sendable then r.count == MAX_ATTEMPTS && Failures(l, MAX_ATTEMPTS + 1, missed) else l == [] && missed == 0
    case _ => false
  }

  ghost predicate Agrees(s: State, p: Place, id: Id)
    requires Located(s, p, id)
  {
    var r, l, missed := s.rows[id], AttemptsOf(s.log, id), MissedOf(s.missed, id);
    p != Lost ==>
    && 0 <= r.count <= MAX_ATTEMPTS
    && (!r.sendable ==> r.count == 0)
    && match p
       case Creator => r.count == 0 && Failures(l, 0, missed)
       case Slot => Failures(l, r.count, missed)
       case Timer => r.count >= 1 && Failures(l, r.count, missed)
       case AtWorker(w) => Holds(s, w, id) && WorkerAgrees(s.workers[w], r, l, missed)
       case Final => FinalAgrees(r, l, missed)
  }

  lemma OneStored(l: seq<Attempt>, n: int, missed: nat, a: Attempt)
    requires Failures(l, n, missed) && a.number == n + 1
    ensures Stores(l + [a], n + 1, missed) && FailedUpTo(l + [a], n)
    ensures forall i :: 0 <= i <= |l| && (l + [a])[i].number == n + 1 ==> (l + [a])[i] == a
  {
  }

  /** The steps of a worker up to the log entry. */
  lemma AgreesWorkerMove(s: State, p: Place, a: Action, id: Id)
    requires Tidy(s) && Located(s, p, id) && Agrees(s, p, id)
    requires Enabled(s, a) && Ordinary(a) && ByWorker(a) && About(a, id) && !a.Reject? && !a.Commit?
    requires Located(Apply(s, a), Next(s, p, a), id)
    ensures Agrees(Apply(s, a), Next(s, p, a), id)
  {
    if a.Pop? { assert id in s.queue; } else { assert Holds(s, a.w, id); }
    assert Holds(Apply(s, a), a.w, id);
    if a.Record? {
      var l, ph := AttemptsOf(s.log, id), s.workers[a.w];
      OneStored(l, s.rows[id].count, MissedOf(s.missed, id), AttemptFor(ph.snap, ph.result, ph.sentAt, s.clock));
    }
  }

  /** The steps of a worker that write the row. */
  lemma AgreesWorkerWrite(s: State, p: Place, a: Action, id: Id)
    requires Tidy(s) && Located(s, p, id) && Agrees(s, p, id)
    requires Enabled(s, a) && Ordinary(a) && About(a, id) && (a.Reject? || a.Commit?) && !Overtakes(s, a)
    requires Located(Apply(s, a), Next(s, p, a), id)
    ensures Agrees(Apply(s, a), Next(s, p, a), id)
  {
    assert Holds(s, a.w, id);
    if a.Commit? {
      SettledIsOutcome(s.rows, id, s.workers[a.w].snap, s.workers[a.w].result, a.at);
    } else {
      assert AttemptsOf(Apply(s, a).log, id) == [];
    }
  }

  lemma AgreesSubject(s: State, p: Place, a: Action, id: Id)
    requires Tidy(s) && Enabled(s, a) && Ordinary(a) && !ByWorker(a) && About(a, id)
    requires if a.Create? then id !in s.log && id !in s.missed else Located(s, p, id) && Agrees(s, p, id) && p != Lost
    requires Located(Apply(s, a), Next(s, p, a), id)
    ensures Agrees(Apply(s, a), Next(s, p, a), id)
  {
    match a
    case Create(_, _, _) =>
    case Enqueue(_) =>
    case Requeue(k, _) => assert Todo(s)[0].id == id;
    case Mark(k, _) =>
      HeadListed(s, id);
      assert Frozen(s, id) && Todo(s)[0].snap == s.rows[id];
      if p.AtWorker? { assert Holds(Apply(s, a), p.w, id); }
    case _ => assert false;
  }

  /** What the actions about other messages leave alone. */
  lemma OtherFrame(s: State, p: Place, a: Action, id: Id)
    requires Located(s, p, id) && Enabled(s, a) && Ordinary(a) && !About(a, id) && !Deletes(s, a, id)
    ensures var t := Apply(s, a);
      && AttemptsOf(t.log, id) == AttemptsOf(s.log, id) && MissedOf(t.missed, id) == MissedOf(s.missed, id)
      && (p.AtWorker? ==> p.w in s.workers && p.w in t.workers && t.workers[p.w] == s.workers[p.w])
  {
    if p.AtWorker? { assert Holds(s, p.w, id); }
  }

  lemma AgreesOther(s: State, p: Place, a: Action, id: Id)
    requires Tidy(s) && Located(s, p, id) && Agrees(s, p, id)
    requires Enabled(s, a) && Ordinary(a) && !About(a, id) && !Deletes(s, a, id)
    ensures Located(Apply(s, a), p, id) && Agrees(Apply(s, a), p, id)
  {
    OtherStep(s, p, a, id);
    OtherFrame(s, p, a, id);
  }

  /** Logs and histories belong to inserted messages. */
  ghost predicate Rooted(s: State) {
    s.log.Keys <= s.used && s.handled.Keys <= s.used && s.missed.Keys <= s.used
  }

  lemma RootedStep(s: State, a: Action)
    requires Tidy(s) && Rooted(s) && Enabled(s, a) && Ordinary(a)
    ensures Rooted(Apply(s, a))
  {
    if ByWorker(a) && !a.Pop? { assert s.workers[a.w].id in s.used; }
  }

  lemma AgreesStep(s: State, p: Place, a: Action, id: Id)
    requires Tidy(s) && Rooted(s) && Enabled(s, a) && Ordinary(a)
    requires id in s.rows ==> Located(s, p, id) && Agrees(s, p, id)
    requires Located(Apply(s, a), NextIf(s, p, a, id), id)
    ensures Agrees(Apply(s, a), NextIf(s, p, a, id), id)
  {
    RowsAfter(s, a, id);
    if !About(a, id) {
      AgreesOther(s, p, a, id);
    } else if a.Create? {
      AgreesSubject(s, p, a, id);
    } else {
      LostSubject(s, p, a);
      if Next(s, p, a) == Lost {
      } else if a.Reject? || a.Commit? {
        AgreesWorkerWrite(s, p, a, id);
      } else if ByWorker(a) {
        AgreesWorkerMove(s, p, a, id);
      } else {
        AgreesSubject(s, p, a, id);
      }
    }
  }

  ghost predicate Agreed(s: State, h: Places) {
    && Inv(s, h)
    && Rooted(s)
    && forall id :: id in s.rows ==> Agrees(s, h[id], id)
  }

  lemma AgreedStep(s: State, h: Places, a: Action)
    requires Agreed(s, h) && Enabled(s, a) && Ordinary(a)
    ensures Agreed(Apply(s, a), Moved(s, h, a))
  {
    HolderStep(s, h, a);
    RootedStep(s, a);
    forall id | id in Apply(s, a).rows ensures Agrees(Apply(s, a), Moved(s, h, a)[id], id) {
      MovedAt(s, h, a, id);
      AgreesStep(s, PlaceIn(h, id), a, id);
    }
  }

  lemma {:induction false} AlwaysAgreed(r: Run)
    requires Faultless(r)
    ensures Agreed(End(r), PlacesAt(r))
  {
    if r.Then? {
      AlwaysAgreed(r.prev);
      AgreedStep(End(r.prev), PlacesAt(r.prev), r.act);
    }
  }

  // What the run says about each message

  ghost predicate AtNoWorker(s: State, id: Id) {
    forall w :: !Holds(s, w, id)
  }

  lemma AgreesAt(r: Run, id: Id) returns (p: Place)
    requires Faultless(r) && id in End(r).rows && !Overtaken(r, id)
    ensures p != Lost && Tidy(End(r)) && Located(End(r), p, id) && Agrees(End(r), p, id)
    ensures id in PlacesAt(r) && p == PlacesAt(r)[id]
    ensures p.AtWorker? <==> !AtNoWorker(End(r), id)
  {
    AlwaysAgreed(r);
    LostMeansOvertaken(r, id);
    p := PlacesAt(r)[id];
    if p.AtWorker? { assert Holds(End(r), p.w, id); }
  }

  lemma SnapshotIsRow(r: Run, w: nat, id: Id, at: int)
    requires Faultless(r) && !Overtaken(r, id) && Enabled(End(r), Commit(w, id, at)) && id in End(r).rows
    ensures SameDelivery(End(r).workers[w].snap, End(r).rows[id])
  {
    HoldersAlways(r);
    var p := AgreesAt(r, id);
    assert Holds(End(r), w, id);
  }

  /** What a delivery makes of the row it began with. */
  function Outcome(before: Row, result: Result, at: int): Row {
    if Delivered(result) then before.(status := Success)
    else if before.count < MAX_ATTEMPTS then
      before.(status := Retry, count := before.count + 1, next := Some(at + Backoff(before.count)))
    else before.(status := Failed)
  }

  lemma SettledIsOutcome(t: Table, id: Id, snap: Row, result: Result, at: int)
    requires id in t && SameDelivery(snap, t[id])
    ensures id in Settled(t, id, snap, result, at) && Settled(t, id, snap, result, at)[id] == Outcome(t[id], result, at)
  {
  }

  /** The row a worker overwrites is still the one it read, even if it read it between the
      push and the mark; so a failed delivery raises the count by exactly one.  A row that was
      deleted meanwhile does not come back. */
  lemma NoLostUpdate(r: Run, w: nat, id: Id, at: int)
    requires Faultless(r) && !Overtaken(r, id) && Enabled(End(r), Commit(w, id, at))
    ensures var rows, ph := End(r).rows, End(r).workers[w];
      && (id in rows ==> SameDelivery(ph.snap, rows[id]))
      && Apply(End(r), Commit(w, id, at)).rows == if id in rows then rows[id := Outcome(rows[id], ph.result, at)] else rows
  {
    if id in End(r).rows {
      SnapshotIsRow(r, w, id, at);
      SettledIsOutcome(End(r).rows, id, End(r).workers[w].snap, End(r).workers[w].result, at);
    }
  }

  /** How many attempts were made, as the row alone tells it. */
  function AttemptsMade(r: Row): int {
    match r.status
    case Pending => r.count
    case Retry => r.count
    case Success => r.count + 1
    case Failed => if r.sendable then MAX_ATTEMPTS + 1 else 0
  }

  /** When every attempt was stored they are numbered 1..k. */
  lemma {:induction false} AllStored(l: seq<Attempt>, n: int)
    requires Stores(l, n, 0)
    ensures forall i :: 0 <= i < |l| ==> l[i].number == i + 1
  {
    if l != [] {
      var init := l[..|l| - 1];
      forall i | 0 <= i < |init| ensures 1 <= init[i].number <= n - 1 { assert l[i].number < l[|l| - 1].number; }
      AllStored(init, n - 1);
      assert forall i :: 0 <= i < |init| ==> l[i] == init[i];
      if |l| > 1 { assert l[|l| - 2].number < l[|l| - 1].number; }
    }
  }

  lemma AgreesTellsLog(s: State, p: Place, id: Id)
    requires Located(s, p, id) && Agrees(s, p, id) && p != Lost
    ensures var l, missed, row := AttemptsOf(s.log, id), MissedOf(s.missed, id), s.rows[id];
      && Stores(l, |l| + missed, missed) && |l| + missed <= MAX_ATTEMPTS + 1
      && (!p.AtWorker? ==> Stores(l, AttemptsMade(row), missed))
      && (row.status == Failed && row.sendable ==> row.count == MAX_ATTEMPTS)
  {
  }

  /** The attempts stored and those missed add up to what the row tells, and with none missed
      the numbers are 1..k. */
  lemma LogMatchesRow(r: Run, id: Id)
    requires Faultless(r) && id in End(r).rows && !Overtaken(r, id)
    ensures var l, missed, row := AttemptsOf(End(r).log, id), MissedOf(End(r).missed, id), End(r).rows[id];
      && Stores(l, |l| + missed, missed) && |l| + missed <= MAX_ATTEMPTS + 1
      && (AtNoWorker(End(r), id) ==> Stores(l, AttemptsMade(row), missed))
      && (missed == 0 ==> forall i :: 0 <= i < |l| ==> l[i].number == i + 1)
      && (row.status == Failed && row.sendable ==> row.count == MAX_ATTEMPTS)
  {
    var p := AgreesAt(r, id);
    AgreesTellsLog(End(r), p, id);
    if MissedOf(End(r).missed, id) == 0 { AllStored(AttemptsOf(End(r).log, id), |AttemptsOf(End(r).log, id)|); }
  }

  /** Whether the outcome of the last attempt is in the log. */
  ghost predicate LastStored(l: seq<Attempt>, r: Row) {
    exists i :: 0 <= i < |l| && l[i].number == r.count + 1
  }

  lemma LastTellsOutcome(s: State, p: Place, id: Id)
    requires Tidy(s) && Located(s, p, id) && Agrees(s, p, id) && p != Lost && !p.AtWorker?
    ensures var l, row := AttemptsOf(s.log, id), s.rows[id];
      Rising(l) && (l != [] && Succeeded(l[|l| - 1]) <==> row.status == Success && LastStored(l, row))
  {
    var l, row := AttemptsOf(s.log, id), s.rows[id];
    if row.status == Success && LastStored(l, row) {
      var i :| 0 <= i < |l| && l[i].number == row.count + 1;
      assert l[i].number <= l[|l| - 1].number;
    }
  }

  lemma ShownIsLast(l: seq<Attempt>, code: int)
    requires Rising(l) && Shows(l, code)
    ensures 200 <= code < 300 <==> l != [] && Succeeded(l[|l| - 1])
  {
    if l != [] { HighestIsLast(l); }
  }

  /** The dashboard shows a 2xx code for a message at rest exactly when it says success and the
      attempt that succeeded was stored. */
  lemma DashboardTellsOutcome(r: Run, id: Id, code: int)
    requires Faultless(r) && id in End(r).rows && !Overtaken(r, id) && AtNoWorker(End(r), id)
    requires Shows(AttemptsOf(End(r).log, id), code)
    ensures var l, row := AttemptsOf(End(r).log, id), End(r).rows[id];
      && (200 <= code < 300 <==> row.status == Success && LastStored(l, row))
      && (row.status == Success && MissedOf(End(r).missed, id) == 0 ==> LastStored(l, row))
  {
    var p := AgreesAt(r, id);
    var l, row := AttemptsOf(End(r).log, id), End(r).rows[id];
    LastTellsOutcome(End(r), p, id);
    ShownIsLast(l, code);
    if row.status == Success && MissedOf(End(r).missed, id) == 0 {
      AllStored(l, row.count + 1);
      assert l[|l| - 1].number == row.count + 1;
    }
  }

  lemma HighestIsLast(l: seq<Attempt>)
    requires Rising(l)
    ensures forall i :: 0 <= i < |l| && IsHighest(l, i) ==> i == |l| - 1
  {
    forall i | 0 <= i < |l| && IsHighest(l, i) ensures i == |l| - 1 {
      assert l[|l| - 1].number <= l[i].number;
    }
  }
}
