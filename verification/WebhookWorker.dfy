/**
 The delivery worker: pop an id, snapshot the row, send, log the attempt, and write back
 a status computed from the snapshot.  The HTTP exchange and the clock are parameters.
 */
module WebhookWorker {
  import opened Wrappers
  import opened MessageStore
  import opened DeliveryQueue
  import opened AttemptStore

  const MAX_ATTEMPTS: int := 5

  /** What sending a request produced, a response code or no response at all, and how long it
      took in milliseconds. */
  datatype Result = Response(status: int, ms: nat) | NoResponse(ms: nat)

  predicate Delivered(r: Result) {
    r.Response? && 200 <= r.status < 300
  }

  function CodeOf(r: Result): Option<int> {
    match r
    case Response(c, _) => Some(c)
    case NoResponse(_) => None
  }

  function Pow2(n: nat): nat {
    if n == 0 then 1 else 2 * Pow2(n - 1)
  }

  /** The wait after the failure of a send whose row had counted n failures before. */
  function Backoff(n: int): int {
    if n < 0 then 0 else SECOND * Pow2(n)
  }

  /** The write that ends a delivery; `at` is the clock when the backoff was computed. */
  function Settled(t: Table, id: Id, snap: Row, r: Result, at: int): Table {
    if Delivered(r) then StatusSet(t, id, Success)
    else if snap.count < MAX_ATTEMPTS then
      Updated(t, id, Retry, snap.count + 1, Some(at + Backoff(snap.count)))
    else Updated(t, id, Failed, snap.count, snap.next)
  }

  function AttemptFor(snap: Row, r: Result, sentAt: int, at: int): Attempt {
    Attempt(snap.count + 1, CodeOf(r), r.ms, sentAt, at)
  }

  /** Every wait a row can ask for is one of 1, 2, 4, 8, 16 seconds, and in nanoseconds
      it is far inside a 64-bit duration. */
  lemma BackoffValues(n: int)
    requires 0 <= n < MAX_ATTEMPTS
    ensures Pow2(n) == [1, 2, 4, 8, 16][n] && Backoff(n) == 1_000_000 * Pow2(n)
    ensures SECOND <= Backoff(n) <= 16 * SECOND
    ensures 1000 * Backoff(n) < 0x7fff_ffff_ffff_ffff
  {
    assert Pow2(0) == 1 && Pow2(1) == 2 && Pow2(2) == 4 && Pow2(3) == 8 && Pow2(4) == 16;
  }

  class Worker {
    const messages: MessageRepository
    const attempts: AttemptRepository
    const queue: Queue

    constructor (messages: MessageRepository, attempts: AttemptRepository, queue: Queue)
      ensures this.messages == messages && this.attempts == attempts && this.queue == queue
    {
      this.messages := messages;
      this.attempts := attempts;
      this.queue := queue;
    }

    /** Delivers one snapshot.  A request that cannot be built fails the message unlogged; that
        the attempt is not stored goes unnoticed. */
    method Deliver(id: Id, msg: Row, result: Result, sentAt: int, loggedAt: int, stored: bool, at: int)
      requires 0 <= msg.count  // the shift by a negative count would panic
      modifies messages, attempts
      ensures messages.rows ==
        if msg.sendable then Settled(old(messages.rows), id, msg, result, at)
        else StatusSet(old(messages.rows), id, Failed)
      ensures attempts.log ==
        if msg.sendable && stored then Appended(old(attempts.log), id, AttemptFor(msg, result, sentAt, loggedAt))
        else old(attempts.log)
      // the same in full
      ensures attempts.log ==
        if msg.sendable && stored then
          old(attempts.log)[id := (if id in old(attempts.log) then old(attempts.log)[id] else []) +
            [Attempt(msg.count + 1, if result.Response? then Some(result.status) else None, result.ms, sentAt, loggedAt)]]
        else old(attempts.log)
      ensures messages.rows == if id !in old(messages.rows) then old(messages.rows) else
        var row := old(messages.rows)[id];
        old(messages.rows)[id :=
          if !msg.sendable then row.(status := Failed)
          else if result.Response? && 200 <= result.status < 300 then row.(status := Success)
          else if msg.count < 5 then
            row.(status := Retry, count := msg.count + 1, next := Some(at + 1_000_000 * Pow2(msg.count)))
          else row.(status := Failed, count := msg.count, next := msg.next)]
    {
      if !msg.sendable {
        messages.UpdateStatus(id, Failed);
        return;
      }
      var code: Option<int>;
      var success: bool;
      match result {
        case NoResponse(_) =>
          code, success := None, false;
        case Response(c, _) =>
          code := Some(c);
          success := c >= 200 && c < 300;
      }
      if stored { attempts.Create(id, Attempt(msg.count + 1, code, result.ms, sentAt, loggedAt)); }
      if success {
        messages.UpdateStatus(id, Success);
      } else {
        if msg.count < MAX_ATTEMPTS {
          var factor := ShiftLeft(msg.count);
          messages.Update(id, Retry, msg.count + 1, Some(at + SECOND * factor));
        } else {
          messages.Update(id, Failed, msg.count, msg.next);
        }
      }
    }

    static method ShiftLeft(n: nat) returns (p: nat)
      ensures p == Pow2(n)
    {
      p := 1;
      for i := 0 to n
        invariant p == Pow2(i)
      {
        p := 2 * p;
      }
    }

    /** One turn of the endless loop; it does nothing on an empty queue or a missing row. */
    method Turn(result: Result, sentAt: int, loggedAt: int, stored: bool, at: int) returns (handled: Option<Id>)
      requires forall id :: id in messages.rows ==> 0 <= messages.rows[id].count
      modifies queue, messages, attempts
      ensures handled.Some? ==>
        && old(queue.items) == queue.items + [handled.value]
        && handled.value in old(messages.rows)
        && var msg := old(messages.rows)[handled.value];
           if msg.sendable then
             && messages.rows == Settled(old(messages.rows), handled.value, msg, result, at)
             && attempts.log ==
                  (if stored then Appended(old(attempts.log), handled.value, AttemptFor(msg, result, sentAt, loggedAt))
                   else old(attempts.log))
           else
             && messages.rows == StatusSet(old(messages.rows), handled.value, Failed)
             && attempts.log == old(attempts.log)
      ensures handled.None? ==>
        && messages.rows == old(messages.rows) && attempts.log == old(attempts.log)
        && if old(queue.items) == [] then queue.items == []
           else old(queue.items) == queue.items + [old(queue.items)[|old(queue.items)| - 1]]
                && old(queue.items)[|old(queue.items)| - 1] !in old(messages.rows)
    {
      handled := None;
      var popped := queue.Pop();
      if popped.None? { return; }
      var found := messages.FindById(popped.value);
      if found.None? { return; }
      Deliver(popped.value, found.value, result, sentAt, loggedAt, stored, at);
      handled := popped;
    }
  }
}
