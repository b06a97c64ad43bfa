/**
 The messages table and the repository calls that read and write it.  A table is a map
 from message ids to rows; every statement of the repository is a function on tables,
 and the methods of MessageRepository are proved to apply that function.

 The clock counts microseconds, the resolution of the table's timestamp columns.
 */
module MessageStore {
  import opened Wrappers

  type Id = nat
  type OrgId = nat

  const SECOND: int := 1_000_000

  datatype Status = Pending | Success | Failed | Retry

  /** `sendable` says whether the row's method and url make a well-formed HTTP request. */
  datatype Row = Row(org: OrgId, sendable: bool, status: Status, count: int, next: Option<int>)

  /** A row as a batch query returned it. */
  datatype Entry = Entry(id: Id, snap: Row)

  type Table = map<Id, Row>

  /** INSERT with the column defaults: pending, no attempt counted, no retry time. */
  function Inserted(t: Table, id: Id, org: OrgId, sendable: bool): Table {
    t[id := Row(org, sendable, Pending, 0, None)]
  }

  /** UPDATE of the three delivery columns; a missing id changes nothing. */
  function Updated(t: Table, id: Id, status: Status, count: int, next: Option<int>): Table {
    if id in t then t[id := t[id].(status := status, count := count, next := next)] else t
  }

  /** UPDATE of the status column alone. */
  function StatusSet(t: Table, id: Id, status: Status): Table {
    if id in t then t[id := t[id].(status := status)] else t
  }

  predicate Due(t: Table, id: Id, now: int) {
    id in t && t[id].status == Retry && t[id].next.Some? && t[id].next.value <= now
  }

  function NextTime(t: Table, id: Id): int {
    if id in t then t[id].next.GetOr(0) else 0
  }

  predicate Lists(batch: seq<Entry>, id: Id) {
    exists j :: 0 <= j < |batch| && batch[j].id == id
  }

  ghost predicate DistinctIds(batch: seq<Entry>) {
    forall i, j :: 0 <= i < j < |batch| ==> batch[i].id != batch[j].id
  }

  /** What `ORDER BY next_retry_at ASC LIMIT limit` over the due rows may return.  Rows
      with the same time may come in any order. */
  ghost predicate IsReadyBatch(t: Table, now: int, limit: nat, batch: seq<Entry>) {
    && |batch| <= limit
    && DistinctIds(batch)
    && (forall j :: 0 <= j < |batch| ==> Due(t, batch[j].id, now) && batch[j].snap == t[batch[j].id])
    && (forall i, j :: 0 <= i < j < |batch| ==> batch[i].snap.next.value <= batch[j].snap.next.value)
    && (forall id :: Due(t, id, now) && !Lists(batch, id) ==>
          |batch| == limit && forall j :: 0 <= j < |batch| ==> batch[j].snap.next.value <= t[id].next.value)
  }

  ghost predicate IsEarliest(t: Table, due: set<Id>, first: Id) {
    first in due && forall id :: id in due ==> NextTime(t, first) <= NextTime(t, id)
  }

  lemma {:induction false} EarliestExists(t: Table, due: set<Id>) returns (first: Id)
    requires due != {}
    ensures IsEarliest(t, due, first)
  {
    var x :| x in due;
    first := x;
    if due != {x} {
      var y := EarliestExists(t, due - {x});
      first := if NextTime(t, x) <= NextTime(t, y) then x else y;
      assert forall id :: id in due ==> id == x || id in due - {x};
    }
  }

  /** `batch` lists the earliest due rows in order, and `left` holds the due rows not listed. */
  ghost predicate IsPrefixBatch(t: Table, now: int, batch: seq<Entry>, left: set<Id>) {
    && DistinctIds(batch)
    && (forall j :: 0 <= j < |batch| ==> Due(t, batch[j].id, now) && batch[j].snap == t[batch[j].id])
    && (forall i, j :: 0 <= i < j < |batch| ==> batch[i].snap.next.value <= batch[j].snap.next.value)
    && (forall id :: id in left <==> Due(t, id, now) && !Lists(batch, id))
    && (forall id, j :: id in left && 0 <= j < |batch| ==> batch[j].snap.next.value <= NextTime(t, id))
  }

  lemma ListsAppended(batch: seq<Entry>, e: Entry, id: Id)
    ensures Lists(batch + [e], id) <==> Lists(batch, id) || id == e.id
  {
    var more := batch + [e];
    if Lists(batch, id) {
      var j :| 0 <= j < |batch| && batch[j].id == id;
      assert more[j].id == id;
    }
    assert more[|batch|].id == e.id;
  }

  lemma ExtendBatch(t: Table, now: int, batch: seq<Entry>, left: set<Id>, first: Id)
    requires IsPrefixBatch(t, now, batch, left) && IsEarliest(t, left, first)
    ensures first in t && IsPrefixBatch(t, now, batch + [Entry(first, t[first])], left - {first})
  {
    var e := Entry(first, t[first]);
    forall id ensures id in left - {first} <==> Due(t, id, now) && !Lists(batch + [e], id) {
      ListsAppended(batch, e, id);
    }
    forall j | 0 <= j < |batch| ensures batch[j].id != first {
      assert Lists(batch, batch[j].id);
    }
  }

  class MessageRepository {
    var rows: Table

    constructor ()
      ensures rows == map[]
    {
      rows := map[];
    }

    method Create(id: Id, org: OrgId, sendable: bool)
      requires id !in rows  // the database draws a fresh id
      modifies this
      ensures rows == Inserted(old(rows), id, org, sendable)
      ensures rows == old(rows)[id := Row(org, sendable, Pending, 0, None)]
    {
      rows := rows[id := Row(org, sendable, Pending, 0, None)];
    }

    method FindById(id: Id) returns (found: Option<Row>)
      ensures found == if id in rows then Some(rows[id]) else None
    {
      if id in rows { found := Some(rows[id]); } else { found := None; }
    }

    method Update(id: Id, status: Status, count: int, next: Option<int>)
      modifies this
      ensures rows == Updated(old(rows), id, status, count, next)
      ensures id !in old(rows) ==> rows == old(rows)
      ensures id in old(rows) ==>
        var row := old(rows)[id];
        rows == old(rows)[id := Row(row.org, row.sendable, status, count, next)]
    {
      if id in rows {
        rows := rows[id := rows[id].(status := status, count := count, next := next)];
      }
    }

    method UpdateStatus(id: Id, status: Status)
      modifies this
      ensures rows == StatusSet(old(rows), id, status)
      ensures id !in old(rows) ==> rows == old(rows)
      ensures id in old(rows) ==>
        var row := old(rows)[id];
        rows == old(rows)[id := Row(row.org, row.sendable, status, row.count, row.next)]
    {
      if id in rows {
        rows := rows[id := rows[id].(status := status)];
      }
    }

    /** The due rows, earliest first, at most `limit` of them. */
    method FindRetryReady(now: int, limit: nat) returns (batch: seq<Entry>)
      ensures IsReadyBatch(rows, now, limit, batch)
      ensures forall id :: id in rows && rows[id].status == Retry && rows[id].next.Some? && rows[id].next.value <= now ==>
        Lists(batch, id) || |batch| == limit
      ensures forall j :: 0 <= j < |batch| ==>
        var e := batch[j];
        e.id in rows && rows[e.id] == e.snap && e.snap.status == Retry && e.snap.next.Some? && e.snap.next.value <= now
    {
      batch := [];
      var left := set id | id in rows && Due(rows, id, now);
      while |batch| < limit && left != {}
        invariant |batch| <= limit
        invariant IsPrefixBatch(rows, now, batch, left)
        decreases left
      {
        ghost var earliest := EarliestExists(rows, left);
        var first :| first in left && forall id :: id in left ==> NextTime(rows, first) <= NextTime(rows, id);
        ExtendBatch(rows, now, batch, left, first);
        batch := batch + [Entry(first, rows[first])];
        left := left - {first};
      }
    }
  }
}
