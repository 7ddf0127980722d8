/** The rate limiter of job notifications: `NotifyBucket` (src/stratum.rs), over the reals; clocks are in
    milliseconds. */
module TokenBucket {
  import opened Reals

  datatype Bucket = Bucket(tokens: real, capacity: real, fillPerMs: real, lastFillMs: nat)

  function NewBucket(capacity: real, refillMs: real): Bucket {
    Bucket(capacity, capacity, if refillMs > 0.0 then 1.0 / refillMs else 1.0, 0)
  }

  predicate Valid(b: Bucket) {
    0.0 <= b.tokens <= b.capacity && b.fillPerMs > 0.0
  }

  /** How far the clock is ahead; never negative. */
  function Ahead(from: nat, to: nat): nat { if from < to then to - from else 0 }

  /** The tokens that time brings. */
  function Credit(fillPerMs: real, ms: nat): real { ms as real * fillPerMs }

  lemma CreditAdds(fillPerMs: real, m: nat, n: nat)
    ensures Credit(fillPerMs, m + n) == Credit(fillPerMs, m) + Credit(fillPerMs, n) && Credit(fillPerMs, 0) == 0.0
  {
  }

  lemma CreditIsPositive(fillPerMs: real, n: nat)
    requires fillPerMs > 0.0
    ensures Credit(fillPerMs, n) >= 0.0
  {
  }

  /** 0 stands for a bucket never asked. */
  function Refilled(b: Bucket, now: nat): Bucket {
    var last := if b.lastFillMs == 0 then now else b.lastFillMs;
    b.(tokens := Min(b.tokens + Credit(b.fillPerMs, Ahead(last, now)), b.capacity), lastFillMs := now)
  }

  function Consume(b: Bucket, now: nat): (Bucket, bool) {
    var full := Refilled(b, now);
    if full.tokens >= 1.0 then (full.(tokens := full.tokens - 1.0), true) else (full, false)
  }

  class NotifyBucket {
    const capacity: real
    const fillPerMs: real
    var tokens: real
    var lastFillMs: nat

    ghost function State(): Bucket
      reads this
    {
      Bucket(tokens, capacity, fillPerMs, lastFillMs)
    }

    constructor (capacity: real, refillMs: real)
      ensures State() == NewBucket(capacity, refillMs)
    {
      tokens, lastFillMs := capacity, 0;
      this.capacity := capacity;
      fillPerMs := if refillMs > 0.0 then 1.0 / refillMs else 1.0;
    }

    method TryConsume(now: nat) returns (granted: bool)
      modifies this
      ensures (State(), granted) == Consume(old(State()), now)
    {
      if lastFillMs == 0 {
        lastFillMs := now;
      }
      var elapsed := if now < lastFillMs then 0 else now - lastFillMs;
      tokens := tokens + elapsed as real * fillPerMs;
      if capacity < tokens {
        tokens := capacity;
      }
      lastFillMs := now;
      if tokens >= 1.0 {
        tokens := tokens - 1.0;
        return true;
      }
      return false;
    }
  }

  // Runs of calls

  function After(b: Bucket, clock: seq<nat>): Bucket {
    if clock == [] then b else Consume(After(b, clock[..|clock| - 1]), clock[|clock| - 1]).0
  }

  function Grants(b: Bucket, clock: seq<nat>): nat {
    if clock == [] then 0
    else
      var before := clock[..|clock| - 1];
      Grants(b, before) + if Consume(After(b, before), clock[|clock| - 1]).1 then 1 else 0
  }

  /** How much the clock goes forward over a run of calls, jumps back not counted. */
  function Rise(clock: seq<nat>): nat {
    if |clock| <= 1 then 0 else Rise(clock[..|clock| - 1]) + Ahead(clock[|clock| - 2], clock[|clock| - 1])
  }

  predicate NonDecreasing(clock: seq<nat>) {
    forall i, j :: 0 <= i < j < |clock| ==> clock[i] <= clock[j]
  }

  lemma TryKeepsValid(b: Bucket, now: nat)
    requires Valid(b)
    ensures var after := Consume(b, now);
            && Valid(after.0) && after.0.capacity == b.capacity && after.0.fillPerMs == b.fillPerMs
            && after.0.lastFillMs == now
            && after.0.tokens + (if after.1 then 1.0 else 0.0) <= b.capacity
            && after.0.tokens + (if after.1 then 1.0 else 0.0) <= b.tokens
                 + Credit(b.fillPerMs, Ahead(b.lastFillMs, now))
  {
    CreditIsPositive(b.fillPerMs, Ahead(b.lastFillMs, now));
    CreditAdds(b.fillPerMs, 0, 0);
    hide Credit;
  }

  lemma {:induction false} AfterIsValid(b: Bucket, clock: seq<nat>)
    requires Valid(b)
    ensures Valid(After(b, clock)) && After(b, clock).capacity == b.capacity && After(b, clock).fillPerMs == b.fillPerMs
    ensures clock != [] ==> After(b, clock).lastFillMs == clock[|clock| - 1]
  {
    if clock != [] {
      AfterIsValid(b, clock[..|clock| - 1]);
      TryKeepsValid(After(b, clock[..|clock| - 1]), clock[|clock| - 1]);
    }
  }

  /** Over any clock, even one that jumps back: what was granted, with what is left, fits the capacity and the refill
      of the forward steps. */
  lemma {:induction false} GrantsWithin(b: Bucket, clock: seq<nat>)
    requires Valid(b) && clock != []
    ensures Grants(b, clock) as real + After(b, clock).tokens <= b.capacity + Credit(b.fillPerMs, Rise(clock))
  {
    var before, now := clock[..|clock| - 1], clock[|clock| - 1];
    AfterIsValid(b, before);
    TryKeepsValid(After(b, before), now);
    CreditAdds(b.fillPerMs, 0, 0);
    hide Credit, Consume;
    if before != [] {
      GrantsWithin(b, before);
      var step := Ahead(before[|before| - 1], now);
      CreditAdds(b.fillPerMs, Rise(before), step);
      assert After(b, before).fillPerMs == b.fillPerMs;
    }
  }

  lemma {:induction false} RiseOfNonDecreasing(clock: seq<nat>)
    requires NonDecreasing(clock) && clock != []
    ensures Rise(clock) == clock[|clock| - 1] - clock[0]
  {
    if |clock| > 1 {
      RiseOfNonDecreasing(clock[..|clock| - 1]);
    }
  }

  /** In every stretch of calls of every run whose clock does not go back, no more calls succeed than the capacity and
      one per refill period elapsed; and the level stays between 0 and the capacity. */
  lemma StretchBound(capacity: real, refillMs: real, clock: seq<nat>, i: nat, j: nat)
    requires capacity >= 0.0 && refillMs > 0.0 && NonDecreasing(clock) && i < j <= |clock|
    ensures var b := After(NewBucket(capacity, refillMs), clock[..i]);
            && 0.0 <= b.tokens <= capacity
            && Grants(b, clock[i..j]) as real <= capacity + (clock[j - 1] - clock[i]) as real / refillMs
  {
    var start := NewBucket(capacity, refillMs);
    Reciprocal(refillMs);
    AfterIsValid(start, clock[..i]);
    var b := After(start, clock[..i]);
    GrantsWithin(b, clock[i..j]);
    AfterIsValid(b, clock[i..j]);
    RiseOfNonDecreasing(clock[i..j]);
    CreditIsTime(b, clock[j - 1] - clock[i], refillMs);
    hide Credit, Grants, After, Rise;
  }

  lemma CreditIsTime(b: Bucket, ms: nat, refillMs: real)
    requires refillMs > 0.0 && b.fillPerMs == 1.0 / refillMs
    ensures Credit(b.fillPerMs, ms) == ms as real / refillMs
  {
  }

  lemma Reciprocal(x: real)
    requires x > 0.0
    ensures 1.0 / x > 0.0
  {
  }

  /** For every capacity a configuration gives, calls i to j on a full bucket succeed no more often than the capacity
      and one per refill period elapsed. */
  ghost predicate ElapsedBounds(clock: seq<nat>, refillMs: real, i: nat, j: nat)
    requires refillMs > 0.0 && i < j <= |clock|
  {
    forall capacity: real :: capacity >= 1.0 ==>
      Grants(NewBucket(capacity, refillMs), clock[i..j]) as real
      <= capacity + (clock[j - 1] as int - clock[i] as int) as real / refillMs
  }

  /** The clocks under which elapsed time bounds the grants, exactly: those that never go back. */
  lemma ElapsedBoundExactly(clock: seq<nat>, refillMs: real)
    requires refillMs > 0.0
    ensures (forall i: nat, j: nat :: i < j <= |clock| ==> ElapsedBounds(clock, refillMs, i, j))
            <==> NonDecreasing(clock)
  {
    if NonDecreasing(clock) {
      forall i: nat, j: nat | i < j <= |clock|
        ensures ElapsedBounds(clock, refillMs, i, j)
      {
        ForwardStretch(clock, refillMs, i, j);
      }
    } else {
      var k := StepBack(clock);
      BackwardStretch(clock, refillMs, k);
    }
  }

  lemma ForwardStretch(clock: seq<nat>, refillMs: real, i: nat, j: nat)
    requires refillMs > 0.0 && NonDecreasing(clock) && i < j <= |clock|
    ensures ElapsedBounds(clock, refillMs, i, j)
  {
    var stretch := clock[i..j];
    assert NonDecreasing(stretch);
    assert stretch[0..|stretch|] == stretch;
    var elapsed := (clock[j - 1] as int - clock[i] as int) as real / refillMs;
    hide Grants, NewBucket, NonDecreasing;
    forall capacity: real | capacity >= 1.0
      ensures Grants(NewBucket(capacity, refillMs), stretch) as real <= capacity + elapsed
    {
      StretchBound(capacity, refillMs, stretch, 0, |stretch|);
    }
  }

  lemma BackwardStretch(clock: seq<nat>, refillMs: real, k: nat)
    requires refillMs > 0.0 && k + 1 < |clock| && clock[k + 1] < clock[k]
    ensures !ElapsedBounds(clock, refillMs, k, k + 2)
  {
    BackwardPair(clock[k..k + 2], refillMs);
    hide Grants, NewBucket;
  }

  lemma {:induction false} StepBack(clock: seq<nat>) returns (k: nat)
    requires !NonDecreasing(clock)
    ensures k + 1 < |clock| && clock[k + 1] < clock[k]
  {
    var init := clock[..|clock| - 1];
    if !NonDecreasing(init) {
      k := StepBack(init);
    } else {
      k := |clock| - 2;
    }
  }

  lemma BackwardPair(pair: seq<nat>, refillMs: real)
    requires refillMs > 0.0 && |pair| == 2 && pair[1] < pair[0]
    ensures Grants(NewBucket(1.0, refillMs), pair) == 1
    ensures (pair[1] as int - pair[0] as int) as real / refillMs < 0.0
  {
    var b := NewBucket(1.0, refillMs);
    assert pair[..1] == [pair[0]] && pair[..1][..0] == [];
    CreditAdds(b.fillPerMs, 0, 0);
    hide Credit;
    assert Consume(b, pair[0]) == (b.(tokens := 0.0, lastFillMs := pair[0]), true);
    var drained := b.(tokens := 0.0, lastFillMs := pair[0]);
    assert Consume(drained, pair[1]).1 == false;
    hide Consume;
    assert Grants(b, pair[..1][..0]) == 0 && After(b, pair[..1][..0]) == b;
    assert After(b, pair[..1]) == drained && Grants(b, pair[..1]) == 1;
    NegativeQuotient(pair[1] as int - pair[0] as int, refillMs);
  }

  lemma NegativeQuotient(n: int, r: real)
    requires n < 0 && r > 0.0
    ensures n as real / r < 0.0
  {
    var q := n as real / r;
    assert q * r == n as real;
  }

  /** A clock that does go back is credited twice: here 3 grants in 10 ms where 2 are allowed. */
  lemma ClockGoingBackIsCredited()
    ensures var clock := [10, 20, 10, 20]; var b := NewBucket(1.0, 10.0);
            Grants(b, clock) == 3 && Grants(b, clock) as real > 1.0 + (20 - 10) as real / 10.0
  {
    var b := NewBucket(1.0, 10.0);
    var clock := [10, 20, 10, 20];
    assert clock[..3] == [10, 20, 10] && clock[..2] == [10, 20] && clock[..1] == [10] && clock[..0] == [];
    assert clock[..3][..2] == clock[..2] && clock[..2][..1] == clock[..1] && clock[..1][..0] == [];
    assert Consume(b, 10) == (Bucket(0.0, 1.0, 0.1, 10), true);
    assert After(b, clock[..1]) == Bucket(0.0, 1.0, 0.1, 10) && Grants(b, clock[..1]) == 1;
    var b1 := Bucket(0.0, 1.0, 0.1, 10);
    assert Consume(b1, 20) == (Bucket(0.0, 1.0, 0.1, 20), true);
    assert After(b, clock[..2]) == Bucket(0.0, 1.0, 0.1, 20) && Grants(b, clock[..2]) == 2;
    assert Consume(Bucket(0.0, 1.0, 0.1, 20), 10) == (b1, false);
    assert After(b, clock[..3]) == b1 && Grants(b, clock[..3]) == 2;
  }

  /** Nobody starves: a call a full period after the last one succeeds, once the bucket holds one token at all. */
  lemma GrantedAfterPeriod(capacity: real, refillMs: real, clock: seq<nat>, now: nat)
    requires capacity >= 1.0 && refillMs > 0.0
    requires clock != [] && clock[|clock| - 1] > 0 && now as real >= clock[|clock| - 1] as real + refillMs
    ensures Consume(After(NewBucket(capacity, refillMs), clock), now).1
  {
    var start := NewBucket(capacity, refillMs);
    Reciprocal(refillMs);
    AfterIsValid(start, clock);
    var b := After(start, clock);
    FullPeriod(b, Ahead(b.lastFillMs, now), refillMs);
    hide Credit, After;
  }

  lemma FullPeriod(b: Bucket, ms: nat, refillMs: real)
    requires refillMs > 0.0 && b.fillPerMs == 1.0 / refillMs && ms as real >= refillMs
    ensures Credit(b.fillPerMs, ms) >= 1.0
  {
    CreditIsTime(b, ms, refillMs);
  }
}
