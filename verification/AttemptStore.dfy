/** The delivery_attempts table, kept per message in insertion order. */
module AttemptStore {
  import opened Wrappers
  import opened MessageStore

  /** `ms` is the duration and `at` the moment of the insert.  `sentAt`, the moment the request
      went out, is history; the table does not store it. */
  datatype Attempt = Attempt(number: int, code: Option<int>, ms: int, sentAt: int, at: int)

  type AttemptLog = map<Id, seq<Attempt>>

  function AttemptsOf(log: AttemptLog, id: Id): seq<Attempt> {
    if id in log then log[id] else []
  }

  function Appended(log: AttemptLog, id: Id, a: Attempt): AttemptLog {
    log[id := AttemptsOf(log, id) + [a]]
  }

  predicate Succeeded(a: Attempt) {
    a.code.Some? && 200 <= a.code.value < 300
  }

  /** The code the dashboard may show: that of a highest-numbered attempt, 0 for none. */
  ghost predicate Shows(attempts: seq<Attempt>, code: int) {
    if attempts == [] then code == 0
    else exists i :: 0 <= i < |attempts| && IsHighest(attempts, i) && code == attempts[i].code.GetOr(0)
  }

  ghost predicate IsHighest(attempts: seq<Attempt>, i: int)
    requires 0 <= i < |attempts|
  {
    forall j :: 0 <= j < |attempts| ==> attempts[j].number <= attempts[i].number
  }

  ghost predicate SortedByNumber(attempts: seq<Attempt>) {
    forall i, j :: 0 <= i < j < |attempts| ==> attempts[i].number <= attempts[j].number
  }

  class AttemptRepository {
    var log: AttemptLog

    constructor ()
      ensures log == map[]
    {
      log := map[];
    }

    method Create(id: Id, a: Attempt)
      modifies this
      ensures log == Appended(old(log), id, a)
      ensures log == old(log)[id := (if id in old(log) then old(log)[id] else []) + [a]]
    {
      var before := if id in log then log[id] else [];
      log := log[id := before + [a]];
    }

    /** All attempts of a message, by rising attempt number. */
    method FindByMessageID(id: Id) returns (attempts: seq<Attempt>)
      ensures multiset(attempts) == multiset(if id in log then log[id] else [])
      ensures forall i, j :: 0 <= i < j < |attempts| ==> attempts[i].number <= attempts[j].number
    {
      var stored := if id in log then log[id] else [];
      attempts := [];
      for i := 0 to |stored|
        invariant multiset(attempts) == multiset(stored[..i])
        invariant SortedByNumber(attempts)
      {
        assert stored[..i + 1] == stored[..i] + [stored[i]];
        attempts := PlaceByNumber(attempts, stored[i]);
      }
      assert stored[..|stored|] == stored;
    }

    static function Spliced(s: seq<Attempt>, i: nat, a: Attempt): (r: seq<Attempt>)
      requires i <= |s|
      ensures multiset(r) == multiset(s) + multiset{a}
    {
      assert s == s[..i] + s[i..];
      s[..i] + [a] + s[i..]
    }

    static method PlaceByNumber(sorted: seq<Attempt>, a: Attempt) returns (r: seq<Attempt>)
      requires SortedByNumber(sorted)
      ensures SortedByNumber(r)
      ensures multiset(r) == multiset(sorted) + multiset{a}
    {
      var i := 0;
      while i < |sorted| && sorted[i].number <= a.number
        invariant 0 <= i <= |sorted|
        invariant forall j :: 0 <= j < i ==> sorted[j].number <= a.number
      {
        i := i + 1;
      }
      assert i < |sorted| ==> a.number < sorted[i].number;
      r := Spliced(sorted, i, a);
    }
  }
}
