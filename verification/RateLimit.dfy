/**
 The fixed-window rate limiter: one counter per address and clock minute, kept for two
 minutes after its first request.  Times are milliseconds of the one clock that names the
 window and expires the counters.
 */
module RateLimit {

  const MINUTE: int := 60_000
  const KEEP: int := 2 * MINUTE
  const LIMIT: nat := 100

  /** A counter without an expiry time is kept for ever. */
  datatype Counter = Counter(count: nat, expires: bool, at: int)

  type Address = nat
  type Counters = map<(Address, int), Counter>

  /** `counted` is false when the counter store did not answer. */
  datatype Request = Request(ip: Address, time: nat, counted: bool)

  function WindowOf(r: Request): int {
    r.time / MINUTE
  }

  predicate Live(cs: Counters, key: (Address, int), now: int) {
    key in cs && (cs[key].expires ==> now < cs[key].at)
  }

  /** INCR: an expired counter starts again without an expiry time. */
  function Incremented(cs: Counters, key: (Address, int), now: int): Counter {
    if Live(cs, key, now) then cs[key].(count := cs[key].count + 1) else Counter(1, false, 0)
  }

  function Touched(cs: Counters, r: Request): Counters {
    var key := (r.ip, WindowOf(r));
    var c := Incremented(cs, key, r.time);
    if !r.counted then cs
    else cs[key := if c.count == 1 then Counter(1, true, r.time + KEEP) else c]
  }

  predicate Admits(cs: Counters, r: Request) {
    r.counted ==> Incremented(cs, (r.ip, WindowOf(r)), r.time).count <= LIMIT
  }

  class RateLimiter {
    var counters: Counters

    constructor ()
      ensures counters == map[]
    {
      counters := map[];
    }

    /** True when the request goes on to the next handler. */
    method Handle(ip: Address, now: nat, storeUp: bool) returns (next: bool)
      modifies this
      ensures counters == Touched(old(counters), Request(ip, now, storeUp))
      ensures next == Admits(old(counters), Request(ip, now, storeUp))
      ensures !storeUp ==> next && counters == old(counters)
      ensures storeUp ==>
        var key := (ip, now / 60_000);
        var live := key in old(counters) && (old(counters)[key].expires ==> now < old(counters)[key].at);
        var count := if live then old(counters)[key].count + 1 else 1;
        && next == (count <= 100)
        && key in counters && counters[key].count == count
        && (count == 1 ==> counters[key] == Counter(1, true, now + 120_000))
        && (count != 1 ==> counters[key] == old(counters)[key].(count := count))
        && counters - {key} == old(counters) - {key}
    {
      if !storeUp { return true; }
      var key := (ip, now / MINUTE);
      var count := 1;
      if key in counters && (!counters[key].expires || now < counters[key].at) {
        count := counters[key].count + 1;
        counters := counters[key := counters[key].(count := count)];
      } else {
        counters := counters[key := Counter(1, false, 0)];
      }
      if count == 1 {
        counters := counters[key := counters[key].(expires := true, at := now + KEEP)];
      }
      return count <= 100;
    }
  }

  // Any sequence of requests

  function After(rs: seq<Request>): Counters {
    if rs == [] then map[] else Touched(After(rs[..|rs| - 1]), rs[|rs| - 1])
  }

  /** A request of an address in the clock minute w. */
  predicate InWindow(r: Request, ip: Address, w: int) {
    r.ip == ip && w * 60_000 <= r.time < (w + 1) * 60_000
  }

  /** The requests of a window that were counted. */
  function Requests(rs: seq<Request>, ip: Address, w: int): nat {
    if rs == [] then 0
    else Requests(rs[..|rs| - 1], ip, w) + if InWindow(rs[|rs| - 1], ip, w) && rs[|rs| - 1].counted then 1 else 0
  }

  /** The requests of a window that came while the counter store did not answer. */
  function Uncounted(rs: seq<Request>, ip: Address, w: int): nat {
    if rs == [] then 0
    else Uncounted(rs[..|rs| - 1], ip, w) + if InWindow(rs[|rs| - 1], ip, w) && !rs[|rs| - 1].counted then 1 else 0
  }

  predicate LastAdmitted(rs: seq<Request>)
    requires rs != []
  {
    Admits(After(rs[..|rs| - 1]), rs[|rs| - 1])
  }

  /** The requests of a window that were admitted, counted or not. */
  function Admissions(rs: seq<Request>, ip: Address, w: int): nat {
    if rs == [] then 0
    else Admissions(rs[..|rs| - 1], ip, w) + if InWindow(rs[|rs| - 1], ip, w) && LastAdmitted(rs) then 1 else 0
  }

  /** The admissions of an address in a span of time, whatever the windows. */
  function AdmissionsBetween(rs: seq<Request>, ip: Address, from: int, to: int): nat {
    if rs == [] then 0
    else AdmissionsBetween(rs[..|rs| - 1], ip, from, to) + if InSpan(rs[|rs| - 1], ip, from, to) && LastAdmitted(rs) then 1 else 0
  }

  function UncountedBetween(rs: seq<Request>, ip: Address, from: int, to: int): nat {
    if rs == [] then 0
    else
      var r := rs[|rs| - 1];
      UncountedBetween(rs[..|rs| - 1], ip, from, to) + if InSpan(r, ip, from, to) && !r.counted then 1 else 0
  }

  predicate InSpan(r: Request, ip: Address, from: int, to: int) {
    r.ip == ip && from <= r.time < to
  }

  lemma WindowBounds(r: Request)
    ensures WindowOf(r) * MINUTE <= r.time < (WindowOf(r) + 1) * MINUTE
    ensures forall ip, w :: InWindow(r, ip, w) <==> r.ip == ip && WindowOf(r) == w
  {
  }

  /** Expiry never resets a window that can still be hit: its counter is the exact number
      of requests and outlives the window. */
  lemma {:induction false} CounterIsExact(rs: seq<Request>, ip: Address, w: int)
    ensures (ip, w) in After(rs) <==> Requests(rs, ip, w) > 0
    ensures (ip, w) in After(rs) ==>
      var c := After(rs)[(ip, w)];
      c.count == Requests(rs, ip, w) && c.expires && c.at >= (w + 2) * 60_000
  {
    if rs != [] {
      var init, r := rs[..|rs| - 1], rs[|rs| - 1];
      CounterIsExact(init, ip, w);
      WindowBounds(r);
    }
  }

  /** A request is refused if and only if it is counted and 100 were counted in its minute before. */
  lemma AdmitsExactly(rs: seq<Request>, r: Request)
    ensures Admits(After(rs), r) <==> !r.counted || Requests(rs, r.ip, r.time / 60_000) < 100
  {
    CounterIsExact(rs, r.ip, WindowOf(r));
    WindowBounds(r);
  }

  /** Each address gets exactly min(requests, 100) admissions per clock minute, and one for every
      request that could not be counted. */
  lemma {:induction false} WindowAdmissions(rs: seq<Request>, ip: Address, w: int)
    ensures var counted := Requests(rs, ip, w);
      Admissions(rs, ip, w) == (if counted <= 100 then counted else 100) + Uncounted(rs, ip, w)
  {
    if rs != [] {
      var init, r := rs[..|rs| - 1], rs[|rs| - 1];
      WindowAdmissions(init, ip, w);
      CounterIsExact(init, ip, w);
      WindowBounds(r);
    }
  }

  /** The admissions of the n windows from w on that were counted. */
  function CountedOver(rs: seq<Request>, ip: Address, w: int, n: nat): int {
    if n == 0 then 0 else CountedOver(rs, ip, w, n - 1) + Admissions(rs, ip, w + n - 1) - Uncounted(rs, ip, w + n - 1)
  }

  lemma {:induction false} AtMostLimitEach(rs: seq<Request>, ip: Address, w: int, n: nat)
    ensures 0 <= CountedOver(rs, ip, w, n) <= LIMIT * n
  {
    if n > 0 {
      AtMostLimitEach(rs, ip, w, n - 1);
      WindowAdmissions(rs, ip, w + n - 1);
    }
  }

  lemma {:induction false} OverAppended(rs: seq<Request>, ip: Address, w: int, n: nat)
    requires rs != []
    ensures CountedOver(rs, ip, w, n) == CountedOver(rs[..|rs| - 1], ip, w, n) +
      var r := rs[|rs| - 1];
      if r.counted && r.ip == ip && w <= WindowOf(r) < w + n && LastAdmitted(rs) then 1 else 0
  {
    if n > 0 { OverAppended(rs, ip, w, n - 1); }
  }

  /** The counted admissions of a span fall into the windows that it touches. */
  lemma {:induction false} SpanWithinWindows(rs: seq<Request>, ip: Address, from: int, to: int, w: int, n: nat)
    requires w * MINUTE <= from && to <= (w + n) * MINUTE
    ensures AdmissionsBetween(rs, ip, from, to) <= CountedOver(rs, ip, w, n) + UncountedBetween(rs, ip, from, to)
  {
    if rs == [] {
      AtMostLimitEach(rs, ip, w, n);
    } else {
      SpanWithinWindows(rs[..|rs| - 1], ip, from, to, w, n);
      OverAppended(rs, ip, w, n);
      WindowBounds(rs[|rs| - 1]);
    }
  }

  /** Any span of `seconds` seconds admits at most 100 * (ceil(seconds / 60) + 1) requests
      beside those that could not be counted. */
  lemma SlidingBound(rs: seq<Request>, ip: Address, from: nat, seconds: nat)
    ensures var to := from + 1000 * seconds;
      AdmissionsBetween(rs, ip, from, to) <= 100 * ((seconds + 59) / 60 + 1) + UncountedBetween(rs, ip, from, to)
  {
    var w, n := from / MINUTE, (seconds + 59) / 60 + 1;
    assert from < (w + 1) * MINUTE && 1000 * seconds <= (n - 1) * MINUTE;
    SpanWithinWindows(rs, ip, from, from + 1000 * seconds, w, n);
    AtMostLimitEach(rs, ip, w, n);
  }

  // The bound for one minute is met

  function Burst(ip: Address, time: nat, n: nat): seq<Request> {
    if n == 0 then [] else Burst(ip, time, n - 1) + [Request(ip, time, true)]
  }

  lemma {:induction false} BurstRequests(rs: seq<Request>, ip: Address, time: nat, n: nat, w: int)
    ensures Requests(rs + Burst(ip, time, n), ip, w) == Requests(rs, ip, w) + if w == time / MINUTE then n else 0
  {
    if n == 0 {
      assert rs + [] == rs;
    } else {
      BurstRequests(rs, ip, time, n - 1, w);
      BurstGrows(rs, ip, time, n);
    }
  }

  lemma BurstGrows(rs: seq<Request>, ip: Address, time: nat, n: nat)
    requires n > 0
    ensures var all := rs + Burst(ip, time, n);
      all != [] && all[..|all| - 1] == rs + Burst(ip, time, n - 1) && all[|all| - 1] == Request(ip, time, true)
  {
  }

  lemma AdmittedAppended(rs: seq<Request>, r: Request, ip: Address, from: int, to: int)
    requires InSpan(r, ip, from, to) && Requests(rs, r.ip, WindowOf(r)) < LIMIT
    ensures AdmissionsBetween(rs + [r], ip, from, to) == AdmissionsBetween(rs, ip, from, to) + 1
  {
    assert (rs + [r])[..|rs|] == rs;
    RoomAdmits(rs, r);
  }

  lemma {:induction false} BurstAdmitted(rs: seq<Request>, ip: Address, time: nat, n: nat, from: int, to: int)
    requires from <= time < to && Requests(rs, ip, time / MINUTE) + n <= LIMIT
    ensures AdmissionsBetween(rs + Burst(ip, time, n), ip, from, to) == AdmissionsBetween(rs, ip, from, to) + n
  {
    if n == 0 {
      assert rs + [] == rs;
    } else {
      BurstAdmitted(rs, ip, time, n - 1, from, to);
      BurstRequests(rs, ip, time, n - 1, time / MINUTE);
      AdmittedAppended(rs + Burst(ip, time, n - 1), Request(ip, time, true), ip, from, to);
      assert rs + Burst(ip, time, n) == rs + Burst(ip, time, n - 1) + [Request(ip, time, true)];
    }
  }

  lemma RoomAdmits(rs: seq<Request>, r: Request)
    requires Requests(rs, r.ip, WindowOf(r)) < LIMIT
    ensures Admits(After(rs), r)
  {
    CounterIsExact(rs, r.ip, WindowOf(r));
  }

  lemma {:induction false} BurstCounted(rs: seq<Request>, ip: Address, time: nat, n: nat, from: int, to: int)
    ensures UncountedBetween(rs + Burst(ip, time, n), ip, from, to) == UncountedBetween(rs, ip, from, to)
  {
    if n == 0 {
      assert rs + [] == rs;
    } else {
      BurstCounted(rs, ip, time, n - 1, from, to);
      BurstGrows(rs, ip, time, n);
    }
  }

  /** 200 requests around the turn of a minute, all counted, pass within one second, so the bound
      of 200 for a minute cannot be lowered. */
  lemma TwoHundredInASecond(ip: Address)
    ensures exists rs :: AdmissionsBetween(rs, ip, 59_500, 60_500) == 200 && UncountedBetween(rs, ip, 59_500, 60_500) == 0
  {
    var early := [] + Burst(ip, 59_999, 100);
    BurstAdmitted([], ip, 59_999, 100, 59_500, 60_500);
    BurstRequests([], ip, 59_999, 100, 1);
    BurstAdmitted(early, ip, 60_000, 100, 59_500, 60_500);
    BurstCounted([], ip, 59_999, 100, 59_500, 60_500);
    BurstCounted(early, ip, 60_000, 100, 59_500, 60_500);
    assert AdmissionsBetween(early + Burst(ip, 60_000, 100), ip, 59_500, 60_500) == 200;
  }
}
