/** The shared Redis list: ids are pushed at the left end and popped at the right end. */
module DeliveryQueue {
  import opened Wrappers
  import opened MessageStore

  class Queue {
    var items: seq<Id>

    constructor ()
      ensures items == []
    {
      items := [];
    }

    method Push(id: Id)
      modifies this
      ensures items == [id] + old(items)
    {
      items := [id] + items;
    }

    /** None when the blocking pop timed out on an empty list. */
    method Pop() returns (id: Option<Id>)
      modifies this
      ensures old(items) == [] ==> id == None && items == []
      ensures old(items) != [] ==> id.Some? && old(items) == items + [id.value]
    {
      if items == [] {
        id := None;
      } else {
        id := Some(items[|items| - 1]);
        items := items[..|items| - 1];
      }
    }
  }
}
