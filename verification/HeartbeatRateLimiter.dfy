/** The token bucket for heartbeats in src/main/plugins/experimental-runtime-ledger.ts. */
module HeartbeatRateLimiter {
  import opened Options

  const MAX_CAPACITY := 32
  const MIN_REFILL := 250.0

  datatype Bucket = Bucket(tokens: nat, lastRefill: real)

  /** The time of so many refills. */
  function Span(refills: int, refill: real): real
  {
    refills as real * refill
  }

  /** Whole refills in a time. */
  function Floor(time: real, refill: real): int
    requires refill > 0.0
  {
    (time / refill).Floor
  }

  /** Begun refills in a time. */
  function Ceiling(time: real, refill: real): int
    requires refill > 0.0
  {
    -Floor(-time, refill)
  }

  lemma SpanSum(a: int, b: int, refill: real)
    ensures Span(a + b, refill) == Span(a, refill) + Span(b, refill)
    ensures Span(1, refill) == refill && Span(0, refill) == 0.0
  {
  }

  lemma {:induction false} SpanAtLeast(a: nat, refill: real)
    requires refill > 0.0
    ensures Span(a, refill) >= 0.0 && (a > 0 ==> Span(a, refill) >= refill)
    decreases a
  {
    hide Span;
    SpanSum(a - 1, 1, refill);
    if a > 0 { SpanAtLeast(a - 1, refill); }
  }

  /** Multiplying by a positive number keeps the order. */
  lemma Dividing(time: real, refill: real, q: int)
    requires refill > 0.0
    ensures q as real <= time / refill <==> Span(q, refill) <= time
  {
    var x := time / refill;
    assert x * refill == time;
    var d := x - q as real;
    assert d * refill == time - Span(q, refill);
    if d > 0.0 { Positive(d, refill); } else if d < 0.0 { Positive(-d, refill); }
  }

  lemma Positive(d: real, m: real)
    requires d > 0.0 && m > 0.0
    ensures d * m > 0.0
  {
  }

  /** The whole refills are as many as fit. */
  lemma FloorFits(time: real, refill: real)
    requires refill > 0.0
    ensures 0.0 <= time - Span(Floor(time, refill), refill) < refill
  {
    hide Span;
    var q := Floor(time, refill);
    Dividing(time, refill, q);
    Dividing(time, refill, q + 1);
    SpanSum(q, 1, refill);
  }

  /** And nothing else fits so. */
  lemma FloorIs(time: real, refill: real, q: int)
    requires refill > 0.0 && 0.0 <= time - Span(q, refill) < refill
    ensures Floor(time, refill) == q
  {
    hide Span;
    Dividing(time, refill, q);
    Dividing(time, refill, q + 1);
    SpanSum(q, 1, refill);
  }

  /** Refills taken out of a time. */
  lemma FloorMinus(time: real, q: int, refill: real)
    requires refill > 0.0
    ensures Floor(time - Span(q, refill), refill) == Floor(time, refill) - q
  {
    hide Floor, Span;
    FloorFits(time, refill);
    var d := Floor(time, refill) - q;
    SpanSum(q, d, refill);
    FloorIs(time - Span(q, refill), refill, d);
  }

  lemma FloorMonotone(x: real, y: real, refill: real)
    requires refill > 0.0 && x <= y
    ensures Floor(x, refill) <= Floor(y, refill)
  {
    hide Floor, Span;
    FloorFits(x, refill);
    FloorFits(y, refill);
    var d := Floor(x, refill) - Floor(y, refill);
    SpanSum(Floor(y, refill), d, refill);
    if d > 0 { SpanAtLeast(d, refill); }
  }

  lemma FloorNatural(time: real, refill: real)
    requires refill > 0.0 && time >= 0.0
    ensures Floor(time, refill) >= 0 && Ceiling(time, refill) >= 0
  {
    hide Floor, Span;
    SpanSum(0, 0, refill);
    FloorIs(0.0, refill, 0);
    FloorMonotone(0.0, time, refill);
    FloorMonotone(-time, 0.0, refill);
  }

  // --- The bucket ---

  function Refilled(b: Bucket, capacity: nat, refill: real, now: real): Bucket
    requires refill > 0.0
  {
    var q := Floor(now - b.lastRefill, refill);
    if q <= 0 then b
    else Bucket(if b.tokens + q < capacity then b.tokens + q else capacity, b.lastRefill + Span(q, refill))
  }

  /** The bucket after a heartbeat, and whether it is accepted. */
  function Heartbeat(b: Bucket, capacity: nat, refill: real, now: real): (Bucket, bool)
    requires refill > 0.0
  {
    if now < b.lastRefill then (b, false)
    else
      var r := Refilled(b, capacity, refill, now);
      if r.tokens < 1 then (r, false) else (r.(tokens := r.tokens - 1), true)
  }

  /** ExperimentalRuntimeHeartbeatRateLimiter. Times are real numbers of milliseconds; a
      number that is not finite, or not a safe integer where one is wanted, is None. */
  class Limiter {
    const capacity: nat
    const refillMilliseconds: real
    var tokens: nat
    var lastRefill: real

    ghost predicate Valid()
      reads this
    {
      1 <= capacity <= MAX_CAPACITY && MIN_REFILL <= refillMilliseconds && tokens <= capacity
    }

    constructor (capacity: nat, refillMilliseconds: real, now: real)
      requires 1 <= capacity <= MAX_CAPACITY && MIN_REFILL <= refillMilliseconds
      ensures Valid() && Contents() == Bucket(capacity, now)
      ensures this.capacity == capacity && this.refillMilliseconds == refillMilliseconds
    {
      this.capacity, this.refillMilliseconds := capacity, refillMilliseconds;
      tokens, lastRefill := capacity, now;
    }

    /** What `new` gives, or null where it throws. */
    static method Create(capacity: Option<int>, refillMilliseconds: Option<real>, now: Option<real>) returns (limiter: Limiter?)
      ensures limiter != null <==>
        capacity.Some? && 1 <= capacity.value <= MAX_CAPACITY && refillMilliseconds.Some? && MIN_REFILL <= refillMilliseconds.value
        && now.Some?
      ensures limiter != null ==>
        fresh(limiter) && limiter.Valid() && limiter.Contents() == Bucket(capacity.value, now.value)
        && limiter.capacity == capacity.value && limiter.refillMilliseconds == refillMilliseconds.value
    {
      if capacity.None? || capacity.value < 1 || capacity.value > MAX_CAPACITY
         || refillMilliseconds.None? || refillMilliseconds.value < MIN_REFILL || now.None? {
        return null;
      }
      limiter := new Limiter(capacity.value, refillMilliseconds.value, now.value);
    }

    ghost function Contents(): Bucket
      reads this
    {
      Bucket(tokens, lastRefill)
    }

    method Accept(now: Option<real>) returns (accepted: bool)
      requires Valid()
      modifies this`tokens, this`lastRefill
      ensures Valid()
      ensures (Contents(), accepted) ==
        if now.None? then (old(Contents()), false) else Heartbeat(old(Contents()), capacity, refillMilliseconds, now.value)
    {
      if now.None? || now.value < lastRefill { return false; }
      var elapsed := now.value - lastRefill;
      var refill := Floor(elapsed, refillMilliseconds);
      if refill > 0 {
        tokens := if tokens + refill < capacity then tokens + refill else capacity;
        lastRefill := lastRefill + Span(refill, refillMilliseconds);
      }
      if tokens < 1 { return false; }
      tokens := tokens - 1;
      return true;
    }
  }

  // --- Whole runs ---

  /** How many of the heartbeats at these times are accepted. */
  function Accepted(b: Bucket, capacity: nat, refill: real, times: seq<real>): nat
    requires refill > 0.0
    decreases |times|
  {
    if times == [] then 0
    else
      var (next, ok) := Heartbeat(b, capacity, refill, times[0]);
      (if ok then 1 else 0) + Accepted(next, capacity, refill, times[1..])
  }

  /** The clock never runs backwards. */
  predicate Monotone(times: seq<real>)
  {
    forall i, j :: 0 <= i < j < |times| ==> times[i] <= times[j]
  }

  /** Refilling counts whole refills and keeps the rest of the time. */
  lemma RefilledBound(b: Bucket, capacity: nat, refill: real, now: real, end: real)
    requires refill > 0.0 && b.lastRefill <= now <= end && b.tokens <= capacity
    ensures var r := Refilled(b, capacity, refill, now);
            b.lastRefill <= r.lastRefill <= now && now - r.lastRefill < refill && r.tokens <= capacity
            && r.tokens + Floor(end - r.lastRefill, refill) <= b.tokens + Floor(end - b.lastRefill, refill)
  {
    hide Floor, Span;
    var q := Floor(now - b.lastRefill, refill);
    FloorNatural(now - b.lastRefill, refill);
    FloorFits(now - b.lastRefill, refill);
    FloorMonotone(now - b.lastRefill, end - b.lastRefill, refill);
    FloorMinus(end - b.lastRefill, q, refill);
    SpanSum(0, 0, refill);
    SpanAtLeast(q, refill);
  }

  /** No more are accepted than there are tokens and whole refills. */
  lemma {:induction false} TokensAndRefills(b: Bucket, capacity: nat, refill: real, times: seq<real>, end: real)
    requires refill > 0.0 && b.tokens <= capacity && b.lastRefill <= end && Monotone(times)
    requires forall i :: 0 <= i < |times| ==> times[i] <= end
    ensures Accepted(b, capacity, refill, times) <= b.tokens + Floor(end - b.lastRefill, refill)
    decreases |times|
  {
    hide Floor, Span, Refilled;
    FloorNatural(end - b.lastRefill, refill);
    if times != [] {
      var (next, ok) := Heartbeat(b, capacity, refill, times[0]);
      if b.lastRefill <= times[0] { RefilledBound(b, capacity, refill, times[0], end); }
      TokensAndRefills(next, capacity, refill, times[1..], end);
    }
  }

  lemma CeilingBound(short: real, long: real, refill: real)
    requires refill > 0.0 && long < short + refill
    ensures Floor(long, refill) <= Ceiling(short, refill)
  {
    hide Floor, Span;
    FloorFits(long, refill);
    FloorFits(-short, refill);
    var d := Floor(long, refill) - Ceiling(short, refill);
    SpanSum(Floor(long, refill), -Ceiling(short, refill), refill);
    if d > 0 { SpanAtLeast(d, refill); }
  }

  /** From time `start` to time `end` inclusive, whatever happened before, at most a
      bucketful and one for every begun refill are accepted. */
  lemma {:induction false} AcceptedBetween(b: Bucket, capacity: nat, refill: real, times: seq<real>, start: real, end: real)
    requires refill > 0.0 && b.tokens <= capacity && start <= end && Monotone(times)
    requires forall i :: 0 <= i < |times| ==> start <= times[i] <= end
    ensures Accepted(b, capacity, refill, times) <= capacity + Ceiling(end - start, refill)
    decreases |times|
  {
    hide Floor, Span, Refilled, Ceiling;
    FloorNatural(end - start, refill);
    if times != [] {
      var (next, ok) := Heartbeat(b, capacity, refill, times[0]);
      if times[0] < b.lastRefill {
        AcceptedBetween(next, capacity, refill, times[1..], start, end);
      } else {
        RefilledBound(b, capacity, refill, times[0], end);
        var r := Refilled(b, capacity, refill, times[0]);
        TokensAndRefills(next, capacity, refill, times[1..], end);
        CeilingBound(end - start, end - r.lastRefill, refill);
      }
    }
  }

  /** Each call comes at least one refill after the one before. */
  predicate Spaced(times: seq<real>, refill: real)
  {
    forall i :: 0 < i < |times| ==> times[i - 1] + refill <= times[i]
  }

  lemma {:induction false} SpacedFrom(b: Bucket, capacity: nat, refill: real, times: seq<real>)
    requires refill > 0.0 && 1 <= capacity && b.tokens <= capacity && Spaced(times, refill)
    requires times != [] ==> b.lastRefill <= times[0] && (b.tokens >= 1 || b.lastRefill + refill <= times[0])
    ensures Accepted(b, capacity, refill, times) == |times|
    decreases |times|
  {
    hide Floor, Span, Refilled;
    if times != [] {
      RefilledBound(b, capacity, refill, times[0], times[0]);
      SomeToken(b, capacity, refill, times[0]);
      var (next, ok) := Heartbeat(b, capacity, refill, times[0]);
      var rest := times[1..];
      forall i | 0 < i < |rest| ensures rest[i - 1] + refill <= rest[i] { var j := i + 1; assert times[j - 1] + refill <= times[j]; }
      if rest != [] { assert times[0] + refill <= times[1]; }
      SpacedFrom(next, capacity, refill, rest);
    }
  }

  lemma SomeToken(b: Bucket, capacity: nat, refill: real, now: real)
    requires refill > 0.0 && 1 <= capacity && b.lastRefill <= now && (b.tokens >= 1 || b.lastRefill + refill <= now)
    ensures Refilled(b, capacity, refill, now).tokens >= 1
  {
    if b.lastRefill + refill <= now {
      SpanSum(1, 0, refill);
      FloorMonotone(refill, now - b.lastRefill, refill);
      FloorIs(refill, refill, 1);
    }
  }

  /** Whoever calls no more often than the refill is never refused. */
  lemma NeverRefused(capacity: nat, refill: real, started: real, times: seq<real>)
    requires refill > 0.0 && 1 <= capacity && Spaced(times, refill)
    requires times != [] ==> started <= times[0]
    ensures Accepted(Bucket(capacity, started), capacity, refill, times) == |times|
  {
    SpacedFrom(Bucket(capacity, started), capacity, refill, times);
  }

  /** As many heartbeats at one time. */
  function Burst(n: nat, now: real): seq<real>
  {
    seq(n, i => now)
  }

  lemma BurstRest(n: nat, now: real)
    requires n > 0
    ensures Burst(n, now) != [] && Burst(n, now)[0] == now && Burst(n, now)[1..] == Burst(n - 1, now)
  {
  }

  /** Once a bucket has been refilled, no time is left for more. */
  lemma RefilledOnce(b: Bucket, capacity: nat, refill: real, now: real)
    requires refill > 0.0 && b.lastRefill <= now && now - b.lastRefill < refill
    ensures Refilled(b, capacity, refill, now) == b
  {
    SpanSum(0, 0, refill);
    FloorIs(now - b.lastRefill, refill, 0);
  }

  lemma {:induction false} BurstFromRefilled(b: Bucket, capacity: nat, refill: real, n: nat, now: real)
    requires refill > 0.0 && b.lastRefill <= now && now - b.lastRefill < refill
    ensures Accepted(b, capacity, refill, Burst(n, now)) == if n < b.tokens then n else b.tokens
    decreases n
  {
    hide Refilled, Burst;
    if n > 0 {
      BurstRest(n, now);
      RefilledOnce(b, capacity, refill, now);
      var (next, ok) := Heartbeat(b, capacity, refill, now);
      BurstFromRefilled(next, capacity, refill, n - 1, now);
    } else {
      assert Burst(0, now) == [] by { BurstNone(now); }
    }
  }

  lemma BurstNone(now: real)
    ensures Burst(0, now) == []
  {
  }

  /** Of a burst, exactly as many are accepted as there are tokens and whole refills since
      the last, up to the capacity. A full bucket therefore gives all of its capacity at once, and idle time
      adds a token for every refill until it is full. */
  lemma BurstExactly(b: Bucket, capacity: nat, refill: real, n: nat, now: real)
    requires refill > 0.0 && b.tokens <= capacity && b.lastRefill <= now
    ensures var tokens := b.tokens + Floor(now - b.lastRefill, refill);
            var ready := if tokens < capacity then tokens else capacity;
            Accepted(b, capacity, refill, Burst(n, now)) == if n < ready then n else ready
  {
    hide Floor, Span, Burst;
    RefilledBound(b, capacity, refill, now, now);
    FloorNatural(now - b.lastRefill, refill);
    var r := Refilled(b, capacity, refill, now);
    BurstFromRefilled(r, capacity, refill, n, now);
    if n > 0 {
      BurstRest(n, now);
      RefilledOnce(r, capacity, refill, now);
      assert Heartbeat(b, capacity, refill, now) == Heartbeat(r, capacity, refill, now);
    } else {
      BurstNone(now);
    }
  }
}
