/** The gRPC entry point: insert the row, then push its id. */
module DeliveryService {
  import opened Wrappers
  import opened MessageStore
  import opened DeliveryQueue

  class Service {
    const messages: MessageRepository
    const queue: Queue

    constructor (messages: MessageRepository, queue: Queue)
      ensures this.messages == messages && this.queue == queue
    {
      this.messages := messages;
      this.queue := queue;
    }

    /** `org` is None when the request's organization id does not parse; `fresh` is the id
        the database draws. */
    method QueueMessage(org: Option<OrgId>, sendable: bool, newId: Id) returns (accepted: bool)
      requires newId !in messages.rows
      modifies messages, queue
      ensures accepted <==> org.Some?
      ensures !accepted ==> messages.rows == old(messages.rows) && queue.items == old(queue.items)
      ensures accepted ==>
        && messages.rows == old(messages.rows)[newId := Row(org.value, sendable, Pending, 0, None)]
        && queue.items == [newId] + old(queue.items)
    {
      if org.None? { return false; }
      messages.Create(newId, org.value, sendable);
      queue.Push(newId);
      return true;
    }
  }
}
