/** The retry scheduler: find up to ten due rows, then push each id and mark its row pending. */
module RetryScheduler {
  import opened MessageStore
  import opened DeliveryQueue

  const BATCH: nat := 10

  /** The row the scheduler writes back: its snapshot with the status set to pending. */
  function Marked(t: Table, e: Entry): Table {
    Updated(t, e.id, Pending, e.snap.count, e.snap.next)
  }

  function MarkedAll(t: Table, batch: seq<Entry>): Table {
    if batch == [] then t
    else Marked(MarkedAll(t, batch[..|batch| - 1]), batch[|batch| - 1])
  }

  function PushedAll(q: seq<Id>, batch: seq<Entry>): seq<Id> {
    if batch == [] then q
    else [batch[|batch| - 1].id] + PushedAll(q, batch[..|batch| - 1])
  }

  /** An undisturbed pass marks exactly the listed rows and changes nothing but their status. */
  lemma {:induction false} MarkedAllRows(t: Table, batch: seq<Entry>, id: Id)
    requires forall j :: 0 <= j < |batch| ==> batch[j].id in t && batch[j].snap == t[batch[j].id]
    ensures MarkedAll(t, batch).Keys == t.Keys
    ensures id in t ==> MarkedAll(t, batch)[id] == if Lists(batch, id) then t[id].(status := Pending) else t[id]
  {
    if batch == [] {
    } else {
      var init, last := batch[..|batch| - 1], batch[|batch| - 1];
      MarkedAllRows(t, init, id);
      MarkedAllRows(t, init, last.id);
      if Lists(batch, id) && last.id != id {
        var j :| 0 <= j < |batch| && batch[j].id == id;
        assert init[j].id == id;
      }
      if Lists(init, id) {
        var j :| 0 <= j < |init| && init[j].id == id;
        assert batch[j].id == id;
      }
      assert batch[|batch| - 1].id == last.id;
    }
  }

  /** The pushed ids stand before the old ones with the earliest due nearest to the popping end. */
  lemma {:induction false} PushedInOrder(q: seq<Id>, batch: seq<Entry>)
    ensures |PushedAll(q, batch)| == |batch| + |q| && PushedAll(q, batch)[|batch|..] == q
    ensures forall j :: 0 <= j < |batch| ==> PushedAll(q, batch)[|batch| - 1 - j] == batch[j].id
  {
    if batch != [] {
      var init := batch[..|batch| - 1];
      PushedInOrder(q, init);
      forall j | 0 <= j < |batch| ensures PushedAll(q, batch)[|batch| - 1 - j] == batch[j].id {
        if j < |init| { assert PushedAll(q, batch)[|batch| - 1 - j] == PushedAll(q, init)[|init| - 1 - j]; }
      }
    }
  }

  class Scheduler {
    const messages: MessageRepository
    const queue: Queue

    constructor (messages: MessageRepository, queue: Queue)
      ensures this.messages == messages && this.queue == queue
    {
      this.messages := messages;
      this.queue := queue;
    }

    method ProcessRetries(now: int) returns (batch: seq<Entry>)
      modifies messages, queue
      ensures IsReadyBatch(old(messages.rows), now, 10, batch)
      ensures messages.rows.Keys == old(messages.rows).Keys
      ensures forall id :: id in messages.rows ==>
        messages.rows[id] == if Lists(batch, id) then old(messages.rows)[id].(status := Pending) else old(messages.rows)[id]
      ensures |queue.items| == |batch| + |old(queue.items)| && queue.items[|batch|..] == old(queue.items)
      ensures forall j :: 0 <= j < |batch| ==> queue.items[|batch| - 1 - j] == batch[j].id
      ensures messages.rows == MarkedAll(old(messages.rows), batch)
      ensures queue.items == PushedAll(old(queue.items), batch)
    {
      batch := messages.FindRetryReady(now, BATCH);
      for i := 0 to |batch|
        invariant messages.rows == MarkedAll(old(messages.rows), batch[..i])
        invariant queue.items == PushedAll(old(queue.items), batch[..i])
      {
        var msg := batch[i];
        assert batch[..i + 1][..i] == batch[..i];
        queue.Push(msg.id);
        messages.Update(msg.id, Pending, msg.snap.count, msg.snap.next);
      }
      assert batch[..|batch|] == batch;
      PushedInOrder(old(queue.items), batch);
      forall id ensures messages.rows.Keys == old(messages.rows).Keys && (id in messages.rows ==>
        messages.rows[id] == if Lists(batch, id) then old(messages.rows)[id].(status := Pending) else old(messages.rows)[id])
      {
        MarkedAllRows(old(messages.rows), batch, id);
      }
    }
  }
}
