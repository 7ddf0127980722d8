/** The share-rate controller: `VardiffController` (src/vardiff.rs), over the reals. Times are in nanoseconds. */
module Vardiff {
  import opened ByteStrings
  import opened Reals

  const OFFLINE_SECS: int := 120
  const CACHE_SIZE: nat := 30

  // Powers of two

  function Pow2(e: int): (p: real)
    ensures p > 0.0
    decreases if e < 0 then -e else e
  {
    if e == 0 then 1.0 else if e > 0 then 2.0 * Pow2(e - 1) else Pow2(e + 1) / 2.0
  }

  lemma Pow2Doubles(e: int)
    ensures Pow2(e + 1) == 2.0 * Pow2(e)
  {
  }

  lemma {:induction false} Pow2Monotone(d: int, e: int)
    requires d <= e
    ensures Pow2(d) <= Pow2(e)
    decreases e - d
  {
    if d < e {
      Pow2Monotone(d, e - 1);
      Pow2Doubles(e - 1);
    }
  }

  /** floor(log2 c), by halving and doubling into [1, 2). */
  function FloorLog2(c: real): int
    requires c > 0.0
    decreases if c >= 2.0 then c.Floor else if c >= 1.0 then 0 else (1.0 / c).Floor
  {
    if c >= 2.0 then FloorLog2(c / 2.0) + 1
    else if c >= 1.0 then 0
    else (HalvesReciprocal(c); FloorLog2(2.0 * c) - 1)
  }

  lemma HalvesReciprocal(c: real)
    requires 0.0 < c < 1.0
    ensures (1.0 / c).Floor >= 1 && (2.0 * c < 1.0 ==> (1.0 / (2.0 * c)).Floor < (1.0 / c).Floor)
  {
    var r := 1.0 / c;
    assert r * c == 1.0;
    assert r > 1.0;
    if 2.0 * c < 1.0 {
      assert 1.0 / (2.0 * c) == r / 2.0;
      assert r > 2.0;
    }
  }

  lemma {:induction false} FloorLog2Meaning(c: real)
    requires c > 0.0
    ensures Pow2(FloorLog2(c)) <= c < Pow2(FloorLog2(c) + 1)
    decreases if c >= 2.0 then c.Floor else if c >= 1.0 then 0 else (1.0 / c).Floor
  {
    if c >= 2.0 {
      FloorLog2Meaning(c / 2.0);
      Pow2Doubles(FloorLog2(c / 2.0));
      Pow2Doubles(FloorLog2(c / 2.0) + 1);
    } else if c >= 1.0 {
      assert Pow2(1) == 2.0;
    } else {
      HalvesReciprocal(c);
      FloorLog2Meaning(2.0 * c);
      Pow2Doubles(FloorLog2(2.0 * c) - 1);
      Pow2Doubles(FloorLog2(2.0 * c));
    }
  }

  // Rounding to a power of two

  function Lower(c: real): real
    requires c > 0.0
  {
    Pow2(FloorLog2(c))
  }

  /** 2^ceil(log2 c). */
  function Upper(c: real): real
    requires c > 0.0
  {
    if c == Lower(c) then Lower(c) else Pow2(FloorLog2(c) + 1)
  }

  /** The nearer of the two, the lower on a tie. */
  function Chosen(c: real): real
    requires c > 0.0
  {
    if c - Lower(c) <= Upper(c) - c then Lower(c) else Upper(c)
  }

  function NearestP2(value: real, min: real, max: real): real
    requires 0.0 < min <= max
  {
    if value <= 0.0 then min else Clamp(Chosen(Clamp(value, min, max)), min, max)
  }

  /** No power of two is nearer. */
  lemma ChosenIsNearest(c: real, e: int)
    requires c > 0.0
    ensures Abs(Chosen(c) - c) <= Abs(Pow2(e) - c)
    ensures Chosen(c) == Pow2(FloorLog2(c)) || Chosen(c) == Pow2(FloorLog2(c) + 1)
  {
    FloorLog2Meaning(c);
    if e <= FloorLog2(c) {
      Pow2Monotone(e, FloorLog2(c));
    } else {
      Pow2Monotone(FloorLog2(c) + 1, e);
    }
  }

  lemma ChosenBounds(c: real)
    requires c > 0.0
    ensures 2.0 * c <= 3.0 * Chosen(c) && 3.0 * Chosen(c) <= 4.0 * c
  {
    FloorLog2Meaning(c);
    Pow2Doubles(FloorLog2(c));
  }

  /** The result is within the bounds and within 2/3 and 4/3 of the clamped value. */
  lemma NearestBounds(value: real, min: real, max: real)
    requires 0.0 < min <= max
    ensures var r, c := NearestP2(value, min, max), Clamp(value, min, max);
            min <= r <= max && 2.0 * c <= 3.0 * r && 3.0 * r <= 4.0 * c
  {
    if value > 0.0 {
      ChosenBounds(Clamp(value, min, max));
    }
  }

  lemma ChosenMonotone(a: real, b: real)
    requires 0.0 < a <= b
    ensures Chosen(a) <= Chosen(b)
  {
    FloorLog2Meaning(a);
    FloorLog2Meaning(b);
    Pow2Doubles(FloorLog2(a));
    Pow2Doubles(FloorLog2(b));
    if FloorLog2(a) < FloorLog2(b) {
      Pow2Monotone(FloorLog2(a) + 1, FloorLog2(b));
    } else if FloorLog2(b) < FloorLog2(a) {
      Pow2Monotone(FloorLog2(b) + 1, FloorLog2(a));
    }
  }

  lemma NearestMonotone(a: real, b: real, min: real, max: real)
    requires 0.0 < min <= max && a <= b
    ensures NearestP2(a, min, max) <= NearestP2(b, min, max)
  {
    NearestBounds(b, min, max);
    if a > 0.0 {
      ChosenMonotone(Clamp(a, min, max), Clamp(b, min, max));
    }
  }

  // The controller

  datatype Sample = Sample(at: int, difficulty: real)

  datatype Controller = Controller(
    targetShareTime: real,
    retargetTime: real,
    min: real,
    max: real,
    lastRetarget: int,
    sessionStart: int,
    ema: real,
    seeded: bool,
    samples: seq<Sample>)

  /** f64::MIN_POSITIVE. */
  function MinPositive(): (r: real)
    ensures r > 0.0
  {
    Pow2(-1022)
  }

  function NewController(targetShareTime: real, retargetTime: real, min: real, max: real, now: int): Controller {
    var low := Max(min, MinPositive());
    Controller(Max(targetShareTime, 1.0), Max(retargetTime, 1.0), low, Max(max, low), now, now, 0.0, false, [])
  }

  /** What `new` establishes and nothing undoes. */
  predicate Valid(v: Controller) {
    0.0 < v.min <= v.max && v.targetShareTime >= 1.0 && v.retargetTime >= 1.0 && |v.samples| <= CACHE_SIZE
  }

  function WithShare(v: Controller, at: int, difficulty: real): Controller {
    var longer := v.samples + [Sample(at, difficulty)];
    v.(samples := if |longer| > CACHE_SIZE then longer[1..] else longer)
  }

  /** Whole units of a duration, rounded toward zero. */
  function Truncated(duration: int, unit: int): int
    requires unit > 0
  {
    if duration >= 0 then duration / unit else -(-duration / unit)
  }

  function Millis(duration: int): int { Truncated(duration, 1_000_000) }

  function Seconds(duration: int): int { Truncated(duration, 1_000_000_000) }

  function SumDifficulty(samples: seq<Sample>): real {
    if samples == [] then 0.0 else SumDifficulty(samples[..|samples| - 1]) + samples[|samples| - 1].difficulty
  }

  function SpanSecs(samples: seq<Sample>): real
    requires samples != []
  {
    Millis(samples[|samples| - 1].at - samples[0].at) as real / 1000.0
  }

  /** Difficulty per second over the cached shares; none while they span no time. */
  function InstantRate(samples: seq<Sample>): Option<real> {
    if samples == [] || SpanSecs(samples) <= 0.0 then None else Some(SumDifficulty(samples) / SpanSecs(samples))
  }

  function NextEma(ema: real, seeded: bool, rate: real): real {
    if seeded then 0.25 * rate + 0.75 * ema else rate
  }

  /** The difficulty a rate asks for, unrounded. */
  function Ideal(ema: real, targetShareTime: real, min: real, max: real): real {
    Clamp(ema * targetShareTime, min, max)
  }

  /** The difficulty a rate asks for. */
  function TargetDifficulty(ema: real, targetShareTime: real, min: real, max: real): real
    requires 0.0 < min <= max
  {
    NearestP2(Ideal(ema, targetShareTime, min, max), min, max)
  }

  predicate Changes(target: real, current: real) {
    target >= current * 1.5 || target <= current / 1.5
  }

  function OfflineStep(v: Controller, current: real): real
    requires Valid(v)
  {
    NearestP2(Max(current / 6.0, v.min), v.min, v.max)
  }

  /** `now` is at least a retarget period after the last retarget. */
  predicate Due(v: Controller, now: int) {
    Millis(now - v.lastRetarget) >= (v.retargetTime * 1000.0).Floor
  }

  predicate PastOfflineAge(v: Controller, now: int) { Seconds(now - v.sessionStart) > OFFLINE_SECS }

  function Retargeted(v: Controller, current: real, now: int): (Controller, Option<real>)
    requires Valid(v)
  {
    if !Due(v, now) then (v, None)
    else
      var due := v.(lastRetarget := now);
      if v.samples == [] then
        var stepped := OfflineStep(v, current);
        (due, if PastOfflineAge(v, now) && Abs(stepped - current) > F64_EPSILON then Some(stepped) else None)
      else if InstantRate(v.samples).None? then (due, None)
      else
        var ema := NextEma(v.ema, v.seeded, InstantRate(v.samples).value);
        var target := TargetDifficulty(ema, v.targetShareTime, v.min, v.max);
        (due.(ema := ema, seeded := true), if Changes(target, current) then Some(target) else None)
  }

  class VardiffController {
    const targetShareTime: real
    const retargetTime: real
    const min: real
    const max: real
    const sessionStart: int
    var lastRetarget: int
    var ema: real
    var seeded: bool
    var samples: seq<Sample>

    ghost function State(): Controller
      reads this
    {
      Controller(targetShareTime, retargetTime, min, max, lastRetarget, sessionStart, ema, seeded, samples)
    }

    constructor (targetShareTime: real, retargetTime: real, min: real, max: real, now: int)
      ensures State() == NewController(targetShareTime, retargetTime, min, max, now) && Valid(State())
    {
      var low := Max(min, MinPositive());
      this.targetShareTime, this.retargetTime := Max(targetShareTime, 1.0), Max(retargetTime, 1.0);
      this.min, this.max := low, Max(max, low);
      lastRetarget, sessionStart, ema, seeded, samples := now, now, 0.0, false, [];
    }

    method RecordShare(at: int, difficulty: real)
      requires Valid(State())
      modifies this`samples
      ensures State() == WithShare(old(State()), at, difficulty) && Valid(State())
    {
      samples := samples + [Sample(at, difficulty)];
      if |samples| > CACHE_SIZE {
        samples := samples[1..];
      }
    }

    /** Any answer is within the bounds. */
    method MaybeRetarget(current: real, now: int) returns (answer: Option<real>)
      requires Valid(State())
      modifies this`lastRetarget, this`ema, this`seeded
      ensures (State(), answer) == Retargeted(old(State()), current, now) && Valid(State())
      ensures answer.Some? ==> min <= answer.value <= max
    {
      RetargetInBounds(State(), current, now);
      hide NearestP2, Clamp, Max, Abs, Truncated, SumDifficulty, SpanSecs, TargetDifficulty, Changes;
      var since := Millis(now - lastRetarget);
      if since < (retargetTime * 1000.0).Floor {
        return None;
      }
      lastRetarget := now;
      if samples == [] {
        var age := Seconds(now - sessionStart);
        if age > OFFLINE_SECS {
          var stepped := NearestP2(Max(current / 6.0, min), min, max);
          if Abs(stepped - current) > F64_EPSILON {
            return Some(stepped);
          }
        }
        return None;
      }
      var sum := SumSamples(samples);
      var span := SpanSecs(samples);
      if span <= 0.0 {
        return None;
      }
      var rate := sum / span;
      assert InstantRate(samples) == Some(rate);
      hide InstantRate;
      if seeded {
        ema := 0.25 * rate + 0.75 * ema;
      } else {
        ema, seeded := rate, true;
      }
      var target := TargetDifficulty(ema, targetShareTime, min, max);
      return if Changes(target, current) then Some(target) else None;
    }
  }

  method SumSamples(samples: seq<Sample>) returns (sum: real)
    ensures sum == SumDifficulty(samples)
  {
    sum := 0.0;
    for i := 0 to |samples|
      invariant sum == SumDifficulty(samples[..i])
    {
      assert samples[..i + 1][..i] == samples[..i];
      sum := sum + samples[i].difficulty;
    }
    assert samples[..|samples|] == samples;
  }

  lemma RetargetInBounds(v: Controller, current: real, now: int)
    requires Valid(v)
    ensures Valid(Retargeted(v, current, now).0)
    ensures var answer := Retargeted(v, current, now).1; answer.Some? ==> v.min <= answer.value <= v.max
  {
    NearestBounds(Max(current / 6.0, v.min), v.min, v.max);
    if InstantRate(v.samples).Some? {
      var ema := NextEma(v.ema, v.seeded, InstantRate(v.samples).value);
      NearestBounds(Ideal(ema, v.targetShareTime, v.min, v.max), v.min, v.max);
    }
    hide NearestP2, Ideal;
  }

  // A constant measured rate

  /** What successive retargets carry: the average, and the difficulty the session works at. */
  datatype Loop = Loop(ema: real, seeded: bool, difficulty: real)

  function LoopTarget(v: Controller, ema: real): real
    requires Valid(v)
  {
    TargetDifficulty(ema, v.targetShareTime, v.min, v.max)
  }

  /** One retarget that measures `rate`. */
  function Evaluated(v: Controller, rate: real, s: Loop): Loop
    requires Valid(v)
  {
    var ema := NextEma(s.ema, s.seeded, rate);
    Loop(ema, true, if Changes(LoopTarget(v, ema), s.difficulty) then LoopTarget(v, ema) else s.difficulty)
  }

  function Evaluations(v: Controller, rate: real, s: Loop, n: nat): Loop
    requires Valid(v)
  {
    if n == 0 then s else Evaluated(v, rate, Evaluations(v, rate, s, n - 1))
  }

  predicate Adopts(v: Controller, rate: real, s: Loop)
    requires Valid(v)
  {
    Changes(LoopTarget(v, NextEma(s.ema, s.seeded, rate)), s.difficulty)
  }

  function ChangeCount(v: Controller, rate: real, s: Loop, n: nat): nat
    requires Valid(v)
  {
    if n == 0 then 0
    else ChangeCount(v, rate, s, n - 1) + if Adopts(v, rate, Evaluations(v, rate, s, n - 1)) then 1 else 0
  }

  /** A due retarget over cached shares is one evaluation of their rate. */
  lemma RetargetEvaluates(v: Controller, current: real, now: int)
    requires Valid(v) && InstantRate(v.samples).Some? && Due(v, now)
    ensures var r := Retargeted(v, current, now);
            Loop(r.0.ema, r.0.seeded, if r.1.Some? then r.1.value else current)
            == Evaluated(v, InstantRate(v.samples).value, Loop(v.ema, v.seeded, current))
  {
    hide NearestP2, TargetDifficulty;
  }

  /** The average closes a quarter of the gap each time. */
  lemma {:induction false} GapShrinks(v: Controller, rate: real, s: Loop, n: nat)
    requires Valid(v) && s.seeded
    ensures var last := Evaluations(v, rate, s, n); last.seeded && last.ema - rate == Multiplied(0.75, s.ema - rate, n)
  {
    if n > 0 {
      GapShrinks(v, rate, s, n - 1);
      hide LoopTarget;
    }
  }

  lemma LoopTargetMonotone(v: Controller, a: real, b: real)
    requires Valid(v) && a <= b
    ensures v.min <= LoopTarget(v, a) <= LoopTarget(v, b) <= v.max
  {
    var low, high := Ideal(a, v.targetShareTime, v.min, v.max), Ideal(b, v.targetShareTime, v.min, v.max);
    IdealMonotone(a, b, v.targetShareTime, v.min, v.max);
    hide Ideal;
    NearestMonotone(low, high, v.min, v.max);
    NearestBounds(low, v.min, v.max);
    NearestBounds(high, v.min, v.max);
    hide NearestP2;
  }

  lemma IdealMonotone(a: real, b: real, targetShareTime: real, min: real, max: real)
    requires a <= b && targetShareTime > 0.0 && min <= max
    ensures min <= Ideal(a, targetShareTime, min, max) <= Ideal(b, targetShareTime, min, max) <= max
  {
    ScaledRight(a, b, targetShareTime);
    var x, y := a * targetShareTime, b * targetShareTime;
    assert x <= y;
    ClampMonotone(x, y, min, max);
    hide Clamp;
  }

  lemma ScaledRight(a: real, b: real, p: real)
    requires p > 0.0 && a <= b
    ensures a * p <= b * p
  {
    assert (b - a) * p >= 0.0;
    assert (b - a) * p == b * p - a * p;
  }

  lemma ClampMonotone(x: real, y: real, low: real, high: real)
    requires x <= y && low <= high
    ensures low <= Clamp(x, low, high) <= Clamp(y, low, high) <= high
  {
  }

  predicate Rising(v: Controller, rate: real, s: Loop)
    requires Valid(v)
  {
    s.seeded && s.ema <= rate && v.min <= s.difficulty <= LoopTarget(v, s.ema)
  }

  predicate Falling(v: Controller, rate: real, s: Loop)
    requires Valid(v)
  {
    s.seeded && s.ema >= rate && LoopTarget(v, s.ema) <= s.difficulty <= v.max
  }

  lemma RisingStep(v: Controller, rate: real, s: Loop)
    requires Valid(v) && Rising(v, rate, s)
    ensures var next := Evaluated(v, rate, s);
            && Rising(v, rate, next) && next.difficulty <= v.max
            && (if Adopts(v, rate, s) then next.difficulty >= 1.5 * s.difficulty else next.difficulty == s.difficulty)
  {
    LoopTargetMonotone(v, s.ema, NextEma(s.ema, s.seeded, rate));
    hide LoopTarget;
  }

  lemma FallingStep(v: Controller, rate: real, s: Loop)
    requires Valid(v) && Falling(v, rate, s)
    ensures var next := Evaluated(v, rate, s);
            && Falling(v, rate, next) && next.difficulty >= v.min
            && (if Adopts(v, rate, s) then 1.5 * next.difficulty <= s.difficulty else next.difficulty == s.difficulty)
  {
    LoopTargetMonotone(v, NextEma(s.ema, s.seeded, rate), s.ema);
    hide LoopTarget;
  }

  lemma {:induction false} RisingRun(v: Controller, rate: real, s: Loop, n: nat)
    requires Valid(v) && Rising(v, rate, s) && s.difficulty <= v.max
    ensures var last := Evaluations(v, rate, s, n);
            && Rising(v, rate, last) && last.difficulty <= v.max
            && Multiplied(1.5, s.difficulty, ChangeCount(v, rate, s, n)) <= last.difficulty
  {
    hide Rising, Evaluated, Adopts;
    if n > 0 {
      RisingRun(v, rate, s, n - 1);
      RisingStep(v, rate, Evaluations(v, rate, s, n - 1));
    }
  }

  lemma {:induction false} FallingRun(v: Controller, rate: real, s: Loop, n: nat)
    requires Valid(v) && Falling(v, rate, s) && s.difficulty >= v.min
    ensures var last := Evaluations(v, rate, s, n);
            && Falling(v, rate, last) && last.difficulty >= v.min
            && Multiplied(1.5, last.difficulty, ChangeCount(v, rate, s, n)) <= s.difficulty
  {
    hide Falling, Adopts, Evaluated, Multiplied;
    MultipliedZero(1.5, s.difficulty);
    if n == 0 {
      assert Falling(v, rate, s);
    } else {
      FallingRun(v, rate, s, n - 1);
      var before := Evaluations(v, rate, s, n - 1);
      FallingStep(v, rate, before);
      DividedOnce(1.5, Evaluated(v, rate, before).difficulty, before.difficulty, s.difficulty,
                  ChangeCount(v, rate, s, n - 1));
    }
  }

  /** d times the n-th power of the factor. */
  function Multiplied(factor: real, d: real, n: nat): real {
    if n == 0 then d else factor * Multiplied(factor, d, n - 1)
  }

  lemma MultipliedZero(factor: real, d: real)
    ensures Multiplied(factor, d, 0) == d
  {
  }

  lemma {:induction false} MultipliedOnce(factor: real, d: real, n: nat)
    ensures Multiplied(factor, factor * d, n) == Multiplied(factor, d, n + 1)
  {
    if n > 0 {
      MultipliedOnce(factor, d, n - 1);
    }
  }

  lemma {:induction false} MultipliedMonotone(factor: real, a: real, b: real, n: nat)
    requires factor > 0.0 && a <= b
    ensures Multiplied(factor, a, n) <= Multiplied(factor, b, n)
  {
    if n > 0 {
      MultipliedMonotone(factor, a, b, n - 1);
      Scaled(factor, Multiplied(factor, a, n - 1), Multiplied(factor, b, n - 1));
    }
  }

  lemma DividedOnce(factor: real, next: real, before: real, start: real, n: nat)
    requires factor > 0.0 && Multiplied(factor, before, n) <= start
    ensures factor * next <= before ==> Multiplied(factor, next, n + 1) <= start
  {
    MultipliedOnce(factor, next, n);
    if factor * next <= before {
      MultipliedMonotone(factor, factor * next, before, n);
    }
  }

  lemma Scaled(p: real, a: real, b: real)
    requires p > 0.0 && a <= b
    ensures p * a <= p * b
  {
  }

  /** A difficulty moves only up while the average is below the rate, only down while it is above, by half as much
      again at least. */
  predicate OneWay(ema: real, rate: real, before: real, after: real, changed: bool) {
    && (ema <= rate ==> if changed then after >= 1.5 * before else after == before)
    && (ema >= rate ==> if changed then 1.5 * after <= before else after == before)
  }

  /** No oscillation: under a constant measured rate, after the first adopted change every later change goes the same
      way - up when the average is still below the rate, down when above - by at least half as much again, so with k
      of them 1.5^k * min <= max. */
  lemma NoOscillation(v: Controller, rate: real, s: Loop, n: nat)
    requires Valid(v) && Adopts(v, rate, s)
    ensures var first := Evaluated(v, rate, s);
            var before, after := Evaluations(v, rate, first, n), Evaluations(v, rate, first, n + 1);
            && OneWay(first.ema, rate, before.difficulty, after.difficulty, Adopts(v, rate, before))
            && Multiplied(1.5, v.min, ChangeCount(v, rate, first, n)) <= v.max
  {
    var first := Evaluated(v, rate, s);
    LoopTargetMonotone(v, first.ema, first.ema);
    var before := Evaluations(v, rate, first, n);
    var k := ChangeCount(v, rate, first, n);
    assert first.ema <= rate ==> Rising(v, rate, first);
    assert first.ema >= rate ==> Falling(v, rate, first);
    assert v.min <= first.difficulty <= v.max;
    hide Evaluated, Adopts, Rising, Falling;
    if first.ema <= rate {
      RisingRun(v, rate, first, n);
      RisingStep(v, rate, before);
      MultipliedMonotone(1.5, v.min, first.difficulty, k);
    }
    if first.ema >= rate {
      FallingRun(v, rate, first, n);
      FallingStep(v, rate, before);
      MultipliedMonotone(1.5, v.min, before.difficulty, k);
    }
  }

  /** After any evaluation the session works within 4/9 and 2 of what the average asks for, clamped. */
  lemma SettledAccuracy(v: Controller, rate: real, s: Loop)
    requires Valid(v)
    ensures var next := Evaluated(v, rate, s);
            var ideal := Ideal(next.ema, v.targetShareTime, v.min, v.max);
            4.0 * ideal <= 9.0 * next.difficulty && next.difficulty <= 2.0 * ideal
  {
    var next := Evaluated(v, rate, s);
    var ideal := Ideal(next.ema, v.targetShareTime, v.min, v.max);
    IdealMonotone(next.ema, next.ema, v.targetShareTime, v.min, v.max);
    NearestBounds(ideal, v.min, v.max);
    hide NearestP2, Ideal;
  }

  // Runs: shares recorded between retargets

  /** Shares recorded since the last round, then a retarget. */
  datatype Round = Round(shares: seq<Sample>, now: int)

  /** The controller, the session's difficulty, and how many retargets have answered. */
  datatype Play = Play(controller: Controller, difficulty: real, answers: nat)

  function Recorded(v: Controller, shares: seq<Sample>): (w: Controller)
    ensures Valid(v) ==> Valid(w)
    ensures shares == [] ==> w == v
  {
    if shares == [] then v
    else
      var last := shares[|shares| - 1];
      WithShare(Recorded(v, shares[..|shares| - 1]), last.at, last.difficulty)
  }

  function PlayedRound(p: Play, round: Round): (after: Play)
    requires Valid(p.controller)
    ensures Valid(after.controller)
  {
    var v := Recorded(p.controller, round.shares);
    var r := Retargeted(v, p.difficulty, round.now);
    RetargetInBounds(v, p.difficulty, round.now);
    match r.1
    case Some(difficulty) => Play(r.0, difficulty, p.answers + 1)
    case None => Play(r.0, p.difficulty, p.answers)
  }

  function Played(v: Controller, current: real, rounds: seq<Round>): (p: Play)
    requires Valid(v)
    ensures Valid(p.controller)
  {
    if rounds == [] then Play(v, current, 0)
    else PlayedRound(Played(v, current, rounds[..|rounds| - 1]), rounds[|rounds| - 1])
  }

  /** After the first n rounds. */
  function PlayAt(v: Controller, current: real, rounds: seq<Round>, n: nat): (p: Play)
    requires Valid(v) && n <= |rounds|
    ensures Valid(p.controller)
  {
    Played(v, current, rounds[..n])
  }

  predicate MeasuresWhenDue(v: Controller, round: Round, rate: real) {
    var w := Recorded(v, round.shares);
    Due(w, round.now) && InstantRate(w.samples) == Some(rate)
  }

  /** Every round's retarget is due and measures `rate`. */
  predicate Steady(v: Controller, current: real, rounds: seq<Round>, rate: real)
    requires Valid(v)
  {
    forall k :: 0 <= k < |rounds| ==> MeasuresWhenDue(PlayAt(v, current, rounds, k).controller, rounds[k], rate)
  }

  predicate SameSettings(v: Controller, w: Controller) {
    v.targetShareTime == w.targetShareTime && v.min == w.min && v.max == w.max
  }

  lemma {:induction false} RecordingKeeps(v: Controller, shares: seq<Sample>)
    ensures var w := Recorded(v, shares);
            SameSettings(v, w) && w.ema == v.ema && w.seeded == v.seeded
  {
    if shares != [] {
      RecordingKeeps(v, shares[..|shares| - 1]);
    }
  }

  function LoopOf(p: Play): Loop { Loop(p.controller.ema, p.controller.seeded, p.difficulty) }

  lemma RoundEvaluates(v: Controller, p: Play, round: Round, rate: real)
    requires Valid(v) && Valid(p.controller) && SameSettings(v, p.controller)
    requires MeasuresWhenDue(p.controller, round, rate)
    ensures var after := PlayedRound(p, round);
            && SameSettings(v, after.controller) && LoopOf(after) == Evaluated(v, rate, LoopOf(p))
            && after.answers == p.answers + if Adopts(v, rate, LoopOf(p)) then 1 else 0
  {
    var w := Recorded(p.controller, round.shares);
    RecordingKeeps(p.controller, round.shares);
    hide Recorded, NearestP2, Ideal, Due, SumDifficulty, SpanSecs, Changes;
  }

  /** A steady run is that many evaluations of its rate. */
  lemma {:induction false} SteadyRunEvaluates(v: Controller, current: real, rounds: seq<Round>, rate: real)
    requires Valid(v) && Steady(v, current, rounds, rate)
    ensures var p, s := Played(v, current, rounds), Loop(v.ema, v.seeded, current);
            && SameSettings(v, p.controller) && LoopOf(p) == Evaluations(v, rate, s, |rounds|)
            && p.answers == ChangeCount(v, rate, s, |rounds|)
  {
    hide MeasuresWhenDue, PlayedRound, Evaluated, Adopts;
    if rounds != [] {
      var k := |rounds| - 1;
      var init := rounds[..k];
      assert forall i :: 0 <= i < k ==> init[..i] == rounds[..i];
      SteadyRunEvaluates(v, current, init, rate);
      RoundEvaluates(v, Played(v, current, init), rounds[k], rate);
    }
  }

  /** Evaluations counted from the second one. */
  lemma {:induction false} AfterFirst(v: Controller, rate: real, s: Loop, n: nat)
    requires Valid(v)
    ensures Evaluations(v, rate, s, n + 1) == Evaluations(v, rate, Evaluated(v, rate, s), n)
    ensures ChangeCount(v, rate, s, n + 1)
            == ChangeCount(v, rate, Evaluated(v, rate, s), n) + if Adopts(v, rate, s) then 1 else 0
  {
    hide Evaluated, Adopts;
    if n == 0 {
      assert Evaluations(v, rate, s, 0) == s;
    } else {
      AfterFirst(v, rate, s, n - 1);
    }
  }

  /** No oscillation in any run whose retargets are due and measure the same rate, whatever shares are recorded in
      between: once the first has answered, every later answer goes the same way, by at least half as much again, and
      k answers in all mean 1.5^(k - 1) * min <= max. */
  lemma {:induction false} RunsDoNotOscillate(v: Controller, current: real, rounds: seq<Round>, rate: real)
    requires Valid(v) && |rounds| > 1 && Steady(v, current, rounds, rate) && PlayAt(v, current, rounds, 1).answers == 1
    ensures var first, after := PlayAt(v, current, rounds, 1), Played(v, current, rounds);
            var before := PlayAt(v, current, rounds, |rounds| - 1);
            && OneWay(first.controller.ema, rate, before.difficulty, after.difficulty, after.answers > before.answers)
            && after.answers > 0 && Multiplied(1.5, v.min, after.answers - 1) <= v.max
  {
    var n, s := |rounds|, Loop(v.ema, v.seeded, current);
    assert rounds[..n] == rounds;
    assert Played(v, current, rounds) == PlayAt(v, current, rounds, n);
    hide *;
    SteadyPrefix(v, current, rounds, rate, 1);
    SteadyPrefix(v, current, rounds, rate, n - 1);
    SteadyPrefix(v, current, rounds, rate, n);
    SteadyLoop(v, rate, s, n);
  }

  lemma SteadyLoop(v: Controller, rate: real, s: Loop, n: nat)
    requires Valid(v) && n > 1 && ChangeCount(v, rate, s, 1) == 1
    ensures var before, after := Evaluations(v, rate, s, n - 1), Evaluations(v, rate, s, n);
            var changes := ChangeCount(v, rate, s, n);
            && OneWay(Evaluations(v, rate, s, 1).ema, rate, before.difficulty, after.difficulty,
                      changes > ChangeCount(v, rate, s, n - 1))
            && changes > 0 && Multiplied(1.5, v.min, changes - 1) <= v.max
  {
    hide Valid, Adopts, Evaluated, Evaluations, ChangeCount, Multiplied, OneWay;
    OneEvaluation(v, rate, s, 0);
    AfterFirst(v, rate, s, n - 2);
    AfterFirst(v, rate, s, n - 1);
    OneEvaluation(v, rate, Evaluated(v, rate, s), n - 2);
    NoOscillation(v, rate, s, n - 2);
    NoOscillation(v, rate, s, n - 1);
  }

  lemma OneEvaluation(v: Controller, rate: real, s: Loop, n: nat)
    requires Valid(v)
    ensures var before := Evaluations(v, rate, s, n);
            && Evaluations(v, rate, s, n + 1) == Evaluated(v, rate, before)
            && ChangeCount(v, rate, s, n + 1) == ChangeCount(v, rate, s, n) + if Adopts(v, rate, before) then 1 else 0
    ensures Evaluations(v, rate, s, 0) == s && ChangeCount(v, rate, s, 0) == 0
  {
  }

  lemma {:induction false} SteadyPrefix(v: Controller, current: real, rounds: seq<Round>, rate: real, n: nat)
    requires Valid(v) && Steady(v, current, rounds, rate) && n <= |rounds|
    ensures var p, s := PlayAt(v, current, rounds, n), Loop(v.ema, v.seeded, current);
            && p.controller.ema == Evaluations(v, rate, s, n).ema
            && p.difficulty == Evaluations(v, rate, s, n).difficulty
            && p.answers == ChangeCount(v, rate, s, n)
  {
    assert forall k :: 0 <= k < n ==> rounds[..n][..k] == rounds[..k];
    hide Played, MeasuresWhenDue, Evaluations, ChangeCount, Valid;
    SteadyRunEvaluates(v, current, rounds[..n], rate);
  }

  // A miner that never submitted

  /** One offline step divides by at least 4.5, or lands on the rounded minimum. */
  lemma OfflineStepDrops(v: Controller, current: real)
    requires Valid(v) && v.min <= current <= v.max
    ensures var step, floor := OfflineStep(v, current), NearestP2(v.min, v.min, v.max);
            && v.min <= step <= v.max
            && (if current / 6.0 >= v.min then 4.5 * step <= current else step == floor)
            && (step > current <==> floor > current)
  {
    NearestBounds(Max(current / 6.0, v.min), v.min, v.max);
    NearestMonotone(v.min, Max(current / 6.0, v.min), v.min, v.max);
    hide NearestP2;
  }

  /** The rounded minimum is the minimum exactly when the minimum rounds down to a power of two, as a power of two
      does, or leaves no room above. */
  lemma MinimumIsKept(v: Controller)
    requires Valid(v)
    ensures NearestP2(v.min, v.min, v.max) == v.min <==> 2.0 * v.min <= 3.0 * Lower(v.min) || v.min == v.max
  {
    FloorLog2Meaning(v.min);
    Pow2Doubles(FloorLog2(v.min));
  }

  lemma PowerOfTwoRoundsDown(e: int)
    ensures Lower(Pow2(e)) == Pow2(e)
  {
    FloorLog2Meaning(Pow2(e));
    var f := FloorLog2(Pow2(e));
    if f < e {
      Pow2Monotone(f + 1, e);
    } else {
      Pow2Monotone(e, f);
    }
  }

  function OfflineNext(v: Controller, current: real): real
    requires Valid(v)
  {
    if Abs(OfflineStep(v, current) - current) > F64_EPSILON then OfflineStep(v, current) else current
  }

  function OfflineRun(v: Controller, current: real, n: nat): real
    requires Valid(v)
  {
    if n == 0 then current else OfflineNext(v, OfflineRun(v, current, n - 1))
  }

  lemma {:induction false} OfflineRunDrops(v: Controller, current: real, n: nat)
    requires Valid(v) && v.min <= current <= v.max
    ensures var last := OfflineRun(v, current, n);
            && v.min <= last <= v.max
            && (Multiplied(4.5, last, n) <= current || OfflineNext(v, last) == last)
  {
    hide OfflineNext, Multiplied;
    MultipliedZero(4.5, current);
    if n > 0 {
      OfflineRunDrops(v, current, n - 1);
      var before := OfflineRun(v, current, n - 1);
      OfflineNextCases(v, before);
      var next := OfflineRun(v, current, n);
      if next != before && 4.5 * next <= before {
        DividedOnce(4.5, next, before, current, n - 1);
      }
    }
  }

  lemma OfflineNextCases(v: Controller, before: real)
    requires Valid(v) && v.min <= before <= v.max
    ensures var next := OfflineNext(v, before);
            v.min <= next <= v.max && (next == before || 4.5 * next <= before || OfflineNext(v, next) == next)
  {
    var next := OfflineNext(v, before);
    OfflineStepDrops(v, before);
    if next != before && before / 6.0 < v.min {
      NearestBounds(v.min, v.min, v.max);
      OfflineStepDrops(v, next);
    }
    hide OfflineStep, NearestP2;
  }

  /** A due retarget past the offline age, with nothing cached, takes the session to the next offline difficulty and
      only notes the time. */
  lemma RetargetStepsOffline(v: Controller, current: real, now: int)
    requires Valid(v) && v.samples == [] && Due(v, now) && PastOfflineAge(v, now)
    ensures var r := Retargeted(v, current, now);
            r.0 == v.(lastRetarget := now) && (if r.1.Some? then r.1.value else current) == OfflineNext(v, current)
  {
    hide NearestP2;
  }

  predicate Silent(rounds: seq<Round>) { forall r :: r in rounds ==> r.shares == [] }

  function LastOf(v: Controller, rounds: seq<Round>): int {
    if rounds == [] then v.lastRetarget else rounds[|rounds| - 1].now
  }

  /** Each round's time is due after the one before it and past the offline age. */
  predicate DueInTurn(v: Controller, rounds: seq<Round>) {
    rounds == [] ||
    var init, now := rounds[..|rounds| - 1], rounds[|rounds| - 1].now;
    DueInTurn(v, init) && PastOfflineAge(v, now) && Due(v.(lastRetarget := LastOf(v, init)), now)
  }

  lemma {:induction false} SilentRun(v: Controller, current: real, rounds: seq<Round>)
    requires Valid(v) && v.samples == [] && Silent(rounds) && DueInTurn(v, rounds)
    ensures var p := Played(v, current, rounds);
            p.controller == v.(lastRetarget := LastOf(v, rounds)) && p.difficulty == OfflineRun(v, current, |rounds|)
  {
    if rounds != [] {
      var init, last := rounds[..|rounds| - 1], rounds[|rounds| - 1];
      assert last in rounds && Silent(init);
      SilentRun(v, current, init);
      var before := Played(v, current, init);
      RetargetStepsOffline(before.controller, before.difficulty, last.now);
      SameOffline(v, before.controller, before.difficulty);
      hide Retargeted, OfflineNext, Due, PastOfflineAge, Silent;
    }
  }

  lemma SameOffline(v: Controller, w: Controller, current: real)
    requires Valid(v) && Valid(w) && v.min == w.min && v.max == w.max
    ensures OfflineNext(v, current) == OfflineNext(w, current)
  {
    hide NearestP2;
  }

  lemma OfflineStops(v: Controller, current: real, n: nat)
    requires Valid(v) && v.min <= current <= v.max && Multiplied(4.5, v.min, n) > current
    ensures OfflineNext(v, OfflineRun(v, current, n)) == OfflineRun(v, current, n)
  {
    OfflineRunDrops(v, current, n);
    MultipliedMonotone(4.5, v.min, OfflineRun(v, current, n), n);
    hide OfflineNext;
  }

  /** A miner that never submits: retargets due in turn past the offline age divide its difficulty, and once there are
      as many as 4.5 divides it down to the minimum, one more changes nothing. */
  lemma {:induction false} SilentMinerSettles(v: Controller, current: real, rounds: seq<Round>, last: Round)
    requires Valid(v) && v.samples == [] && v.min <= current <= v.max
    requires Silent(rounds + [last]) && DueInTurn(v, rounds + [last]) && Multiplied(4.5, v.min, |rounds|) > current
    ensures Played(v, current, rounds + [last]).difficulty == Played(v, current, rounds).difficulty
    ensures v.min <= Played(v, current, rounds).difficulty <= v.max
  {
    assert (rounds + [last])[..|rounds|] == rounds;
    assert forall r :: r in rounds ==> r in rounds + [last];
    SilentRun(v, current, rounds);
    SilentRun(v, current, rounds + [last]);
    OfflineStops(v, current, |rounds|);
    OfflineRunDrops(v, current, |rounds|);
    hide OfflineNext, Played, DueInTurn, Silent, Multiplied;
  }

  /** With a minimum that rounds up, the offline step raises a miner at the minimum: from 7 to 8. */
  lemma OfflineStepCanRaise()
    ensures var v := NewController(10.0, 30.0, 7.0, 100.0, 0); Valid(v) && v.min == 7.0 && OfflineStep(v, 7.0) == 8.0
  {
    Pow2Monotone(-1022, 0);
    assert Pow2(0) == 1.0 && Pow2(1) == 2.0 && Pow2(2) == 4.0 && Pow2(3) == 8.0;
    var f := FloorLog2(7.0);
    FloorLog2Meaning(7.0);
    if f < 2 {
      Pow2Monotone(f + 1, 2);
    } else if f > 2 {
      Pow2Monotone(3, f);
    }
  }

  /** The first due time, in nanoseconds. */
  function FirstDue(v: Controller): int
    requires Valid(v)
  {
    v.lastRetarget + (v.retargetTime * 1000.0).Floor * 1_000_000
  }

  lemma DueFromFirst(v: Controller, now: int)
    requires Valid(v)
    ensures Due(v, now) <==> now >= FirstDue(v)
  {
    assert (v.retargetTime * 1000.0).Floor >= 1000;
  }

  /** When the time that passed can matter to a due retarget: exactly when nothing was ever cached, the offline step
      would change the difficulty, and a retarget can fall due before the offline age. Cached shares are never dropped
      for age, so once a miner has submitted, how long it has been silent makes no difference. */
  lemma SilenceMattersExactly(v: Controller, current: real)
    requires Valid(v)
    ensures (exists sooner: int, later: int ::
               Due(v, sooner) && Due(v, later) && TimesDiffer(v, current, sooner, later))
            <==> v.samples == [] && Abs(OfflineStep(v, current) - current) > F64_EPSILON
                 && !PastOfflineAge(v, FirstDue(v))
  {
    var first := FirstDue(v);
    DueFromFirst(v, first);
    if v.samples == [] && Abs(OfflineStep(v, current) - current) > F64_EPSILON && !PastOfflineAge(v, first) {
      var later := Latest(first, v.sessionStart + (OFFLINE_SECS + 1) * 1_000_000_000);
      DueFromFirst(v, later);
      AgeInOrder(v, v.sessionStart + (OFFLINE_SECS + 1) * 1_000_000_000, later);
      assert PastOfflineAge(v, later);
      hide OfflineStep, Due, PastOfflineAge;
      assert TimesDiffer(v, current, first, later);
    }
    if sooner, later :| Due(v, sooner) && Due(v, later) && TimesDiffer(v, current, sooner, later) {
      DueFromFirst(v, sooner);
      DueFromFirst(v, later);
      AgeInOrder(v, first, sooner);
      AgeInOrder(v, first, later);
      hide OfflineStep, NearestP2, TargetDifficulty, Due, PastOfflineAge;
    }
  }

  /** The answers, or what is left of the controllers but for the time noted, differ. */
  predicate TimesDiffer(v: Controller, current: real, sooner: int, later: int)
    requires Valid(v)
  {
    var a, b := Retargeted(v, current, sooner), Retargeted(v, current, later);
    a.1 != b.1 || a.0.(lastRetarget := v.lastRetarget) != b.0.(lastRetarget := v.lastRetarget)
  }

  function Latest(a: int, b: int): int { if a < b then b else a }

  lemma AgeInOrder(v: Controller, a: int, b: int)
    requires a <= b
    ensures PastOfflineAge(v, a) ==> PastOfflineAge(v, b)
  {
  }
}
