/** The two backoff loops and their closed forms. */
module Backoff {

  /** time.Duration: 64-bit nanoseconds.  Every operation below is proved to stay in range. */
  newtype Duration = d: int | -0x8000_0000_0000_0000 <= d < 0x8000_0000_0000_0000

  const MILLISECOND: Duration := 1_000_000

  function Pow(b: nat, e: nat): nat {
    if e == 0 then 1 else b * Pow(b, e - 1)
  }

  function Least(a: int, b: int): int {
    if a <= b then a else b
  }

  // ----------------------------------------------------------- lease retries

  /** In nanoseconds: 25 milliseconds unless configured. */
  function BackoffMin(min: Duration): (r: Duration)
    ensures r > 0 && (min > 0 ==> r == min) && (min <= 0 ==> r == 25_000_000)
  {
    if min <= 0 then 25 * MILLISECOND else min
  }

  /** 500 milliseconds unless configured, and never below the lower bound. */
  function BackoffMax(min: Duration, max: Duration): (r: Duration)
    ensures r >= BackoffMin(min)
    ensures max > 0 ==> r == (if max < BackoffMin(min) then BackoffMin(min) else max)
    ensures max <= 0 ==> r == (if 500_000_000 < BackoffMin(min) then BackoffMin(min) else 500_000_000)
  {
    var m := if max <= 0 then 500 * MILLISECOND else max;
    if m < BackoffMin(min) then BackoffMin(min) else m
  }

  /** min * 2^attempt, capped. */
  function Step(min: Duration, max: Duration, attempt: nat): int {
    Least(BackoffMax(min, max) as int, BackoffMin(min) as int * Pow(2, attempt))
  }

  /** The first step is the lower bound, and each next one is the double, up to the cap. */
  lemma StepDoubles(min: Duration, max: Duration, attempt: nat)
    ensures Step(min, max, 0) == BackoffMin(min) as int
    ensures Step(min, max, attempt + 1) == Least(BackoffMax(min, max) as int, 2 * Step(min, max, attempt))
  {
    var lo, hi := BackoffMin(min) as int, BackoffMax(min, max) as int;
    Doubled(lo, Pow(2, attempt));
    assert Pow(2, attempt + 1) == 2 * Pow(2, attempt);
    assert lo * Pow(2, attempt + 1) == 2 * (lo * Pow(2, attempt));
  }

  lemma Doubled(a: int, x: int)
    ensures a * (2 * x) == 2 * (a * x)
  {
  }

  lemma {:induction false} PowGrows(b: nat, i: nat, j: nat)
    requires b >= 1 && i <= j
    ensures 1 <= Pow(b, i) <= Pow(b, j)
    decreases j
  {
    if i < j {
      PowGrows(b, i, j - 1);
      assert Pow(b, j) == b * Pow(b, j - 1) >= Pow(b, j - 1);
    } else if i > 0 {
      PowGrows(b, i - 1, j - 1);
    }
  }

  lemma Scaled(a: nat, x: nat, y: nat)
    requires x <= y
    ensures a * x <= a * y
  {
  }

  /** Once the cap is reached it stays reached. */
  lemma CapStays(a: nat, b: nat, i: nat, j: nat, cap: int)
    requires b >= 1 && i <= j && a * Pow(b, i) >= cap
    ensures a * Pow(b, j) >= cap
  {
    PowGrows(b, i, j);
    Scaled(a, Pow(b, i), Pow(b, j));
  }

  method RetryStep(min: Duration, max: Duration, attempt: nat) returns (delay: Duration)
    ensures delay as int == Step(min, max, attempt)
    ensures BackoffMin(min) <= delay <= BackoffMax(min, max)
  {
    var lo, hi := BackoffMin(min), BackoffMax(min, max);
    delay := lo;
    var i := 0;
    while i < attempt && delay < hi
      invariant 0 <= i <= attempt && lo <= delay <= hi
      invariant delay as int == lo as int * Pow(2, i)
      decreases attempt - i
    {
      if delay > hi / 2 {
        assert lo as int * Pow(2, i + 1) >= hi as int;
        CapStays(lo as int, 2, i + 1, attempt, hi as int);
        return hi;
      }
      delay := delay * 2;
      i := i + 1;
    }
    CapStays(lo as int, 2, i, attempt, if delay < hi then delay as int else hi as int);
  }

  /** draw is what the random source gives; ok is false when it fails. */
  method Jitter(min: Duration, max: Duration, draw: nat, ok: bool) returns (d: Duration)
    requires 0 <= min
    ensures max <= min || !ok ==> d == min
    ensures min < max ==> min <= d < max
    ensures min < max && ok ==> d as int == min as int + draw % (max as int - min as int)
  {
    if max <= min || !ok {
      return min;
    }
    var span := max - min;
    d := min + (draw % (span as int)) as Duration;
  }

  /** The wait is in the upper half of the step and never outside the configured bounds. */
  method RetryDelay(min: Duration, max: Duration, attempt: nat, draw: nat, ok: bool) returns (d: Duration)
    ensures BackoffMin(min) <= d <= BackoffMax(min, max)
    ensures Step(min, max, attempt) / 2 <= d as int <= Step(min, max, attempt)
    ensures var step, least := Step(min, max, attempt), BackoffMin(min) as int;
            var low := if step / 2 < least then least else step / 2;
            d as int == if ok && low < step then low + draw % (step - low) else low
  {
    var delay := RetryStep(min, max, attempt);
    var low := delay / 2;
    if low < BackoffMin(min) {
      low := BackoffMin(min);
    }
    d := Jitter(low, delay, draw, ok);
  }

  // ----------------------------------------------------------- write retries

  /** Delays in seconds; rounding to nanoseconds is not modelled. */
  datatype RetryPolicy =
    RetryPolicy(fixedDelay: real, fixedRetries: int, multiplier: real, maxDelay: real, maxTotal: real)

  const DEFAULT_POLICY := RetryPolicy(1.0, 10, 2.0, 64.0, 64.0)
  const ZERO_POLICY := RetryPolicy(0.0, 0, 0.0, 0.0, 0.0)

  /** A policy without a total budget is the zero policy; otherwise every field is usable. */
  function WithDefaults(p: RetryPolicy): (r: RetryPolicy)
    ensures p.maxTotal <= 0.0 ==> r == RetryPolicy(0.0, 0, 0.0, 0.0, 0.0)
    ensures p.maxTotal > 0.0 ==>
              && r.maxTotal == p.maxTotal
              && (if p.fixedDelay > 0.0 then r.fixedDelay == p.fixedDelay else r.fixedDelay == 1.0)
              && (if p.fixedRetries >= 0 then r.fixedRetries == p.fixedRetries else r.fixedRetries == 0)
              && (if p.multiplier > 0.0 then r.multiplier == p.multiplier else r.multiplier == 2.0)
              && (if p.maxDelay > 0.0 then r.maxDelay == p.maxDelay else r.maxDelay == 64.0)
  {
    if p.maxTotal <= 0.0 then ZERO_POLICY
    else RetryPolicy(
      if p.fixedDelay <= 0.0 then DEFAULT_POLICY.fixedDelay else p.fixedDelay,
      if p.fixedRetries < 0 then 0 else p.fixedRetries,
      if p.multiplier <= 0.0 then DEFAULT_POLICY.multiplier else p.multiplier,
      if p.maxDelay <= 0.0 then DEFAULT_POLICY.maxDelay else p.maxDelay,
      p.maxTotal)
  }

  function Power(m: real, k: nat): real {
    if k == 0 then 1.0 else Power(m, k - 1) * m
  }

  function Capped(p: RetryPolicy, d: real): real {
    if p.maxDelay > 0.0 && d > p.maxDelay then p.maxDelay else d
  }

  /** How many times retry n has been multiplied. */
  function Steps(p: RetryPolicy, n: int): nat {
    if n > p.fixedRetries then n - p.fixedRetries else 0
  }

  /** fixedDelay * multiplier^k. */
  function Grown(p: RetryPolicy, k: nat): real {
    p.fixedDelay * Power(p.multiplier, k)
  }

  /** Some multiplication up to the k-th reaches the cap. */
  ghost predicate HitsCap(p: RetryPolicy, k: nat) {
    p.maxDelay > 0.0 && exists j :: 1 <= j <= k && Grown(p, j) >= p.maxDelay
  }

  /** For every policy and every retry: the cap once it has been reached, else the capped power. */
  method BaseDelay(p: RetryPolicy, n: int) returns (delay: real)
    ensures n <= 0 ==> delay == 0.0
    ensures n > 0 && HitsCap(p, Steps(p, n)) ==> delay == p.maxDelay
    ensures n > 0 && !HitsCap(p, Steps(p, n)) ==> delay == Capped(p, Grown(p, Steps(p, n)))
  {
    if n <= 0 {
      return 0.0;
    }
    delay := p.fixedDelay;
    assert delay == Grown(p, 0);
    if n > p.fixedRetries {
      var steps := n - p.fixedRetries;
      var i := 0;
      while i < steps
        invariant 0 <= i <= steps && delay == Grown(p, i) && !HitsCap(p, i)
      {
        GrownNext(p, i);
        delay := delay * p.multiplier;
        i := i + 1;
        if p.maxDelay > 0.0 && delay >= p.maxDelay {
          assert HitsCap(p, steps);
          return p.maxDelay;
        }
      }
    }
    if p.maxDelay > 0.0 && delay > p.maxDelay {
      delay := p.maxDelay;
    }
  }

  lemma GrownNext(p: RetryPolicy, k: nat)
    ensures Grown(p, k) * p.multiplier == Grown(p, k + 1)
  {
    Associate(p.fixedDelay, Power(p.multiplier, k), p.multiplier);
  }

  lemma Associate(a: real, b: real, c: real)
    ensures (a * b) * c == a * (b * c)
  {
  }

  lemma {:induction false} GrownRises(p: RetryPolicy, i: nat, j: nat)
    requires p.fixedDelay >= 0.0 && p.multiplier >= 1.0 && i <= j
    ensures 0.0 <= Grown(p, i) <= Grown(p, j)
    decreases j
  {
    if i < j {
      GrownRises(p, i, j - 1);
      GrownNext(p, j - 1);
      AtLeast(Grown(p, j - 1), p.multiplier);
    } else if i > 0 {
      GrownRises(p, i - 1, i - 1);
      GrownNext(p, i - 1);
      AtLeast(Grown(p, i - 1), p.multiplier);
    }
  }

  lemma AtLeast(a: real, m: real)
    requires a >= 0.0 && m >= 1.0
    ensures a * m >= a
  {
    assert a * (m - 1.0) >= 0.0;
  }

  /** What BaseDelay returns. */
  ghost function Base(p: RetryPolicy, n: int): real {
    if n <= 0 then 0.0 else if HitsCap(p, Steps(p, n)) then p.maxDelay else Capped(p, Grown(p, Steps(p, n)))
  }

  /**
   With a multiplier of at least one it is the capped power, later retries never
   wait less, and none waits longer than the cap.
   */
  lemma BaseDelayGrows(p: RetryPolicy, i: int, j: int)
    requires p.fixedDelay >= 0.0 && p.multiplier >= 1.0 && 0 < i <= j
    ensures Base(p, j) == Capped(p, Grown(p, Steps(p, j)))
    ensures Base(p, i) <= Base(p, j) && (p.maxDelay > 0.0 ==> Base(p, j) <= p.maxDelay)
  {
    GrownRises(p, Steps(p, i), Steps(p, j));
    CapIsLast(p, Steps(p, i));
    CapIsLast(p, Steps(p, j));
  }

  lemma CapIsLast(p: RetryPolicy, k: nat)
    requires p.fixedDelay >= 0.0 && p.multiplier >= 1.0
    ensures HitsCap(p, k) ==> Grown(p, k) >= p.maxDelay
  {
    if HitsCap(p, k) {
      var j :| 1 <= j <= k && Grown(p, j) >= p.maxDelay;
      GrownRises(p, j, k);
    }
  }

  /** Retry i never waits longer than retry j. */
  ghost predicate NoLonger(p: RetryPolicy, i: int, j: int) {
    Base(p, i) <= Base(p, j)
  }

  /**
   For a policy as WithDefaults leaves it, later retries never wait less exactly
   when the multiplier is at least one or the first multiplication is at the cap.
   */
  lemma DelaysRiseIff(p: RetryPolicy)
    requires p.fixedDelay > 0.0 && p.fixedRetries >= 0 && p.multiplier > 0.0
    ensures (forall i, j :: 0 < i <= j ==> NoLonger(p, i, j))
       <==> p.multiplier >= 1.0 || (p.maxDelay > 0.0 && p.fixedDelay * p.multiplier >= p.maxDelay)
  {
    if p.multiplier >= 1.0 {
      forall i, j | 0 < i <= j ensures NoLonger(p, i, j) {
        BaseDelayGrows(p, i, j);
      }
    } else if p.maxDelay > 0.0 && p.fixedDelay * p.multiplier >= p.maxDelay {
      forall i | 0 < i ensures Base(p, i) == p.maxDelay {
        CappedAtOnce(p, i);
      }
    } else {
      DelayFalls(p);
    }
  }

  lemma FirstGrown(p: RetryPolicy)
    ensures Grown(p, 0) == p.fixedDelay && Grown(p, 1) == p.fixedDelay * p.multiplier
  {
    GrownNext(p, 0);
  }

  lemma CappedAtOnce(p: RetryPolicy, i: int)
    requires p.fixedDelay > 0.0 && 0.0 < p.multiplier < 1.0 && i > 0
    requires p.maxDelay > 0.0 && p.fixedDelay * p.multiplier >= p.maxDelay
    ensures Base(p, i) == p.maxDelay
  {
    FirstGrown(p);
    Less(p.fixedDelay, p.fixedDelay * p.multiplier, p.multiplier);
    if Steps(p, i) >= 1 {
      assert Grown(p, 1) >= p.maxDelay;
    } else {
      assert !HitsCap(p, 0) && Grown(p, 0) > p.maxDelay;
    }
  }

  lemma Less(a: real, b: real, m: real)
    requires a > 0.0 && 0.0 < m && m < 1.0 && a * m == b
    ensures 0.0 < b && b < a
  {
    assert a * m < a by {
      assert a * (1.0 - m) > 0.0;
    }
    assert !(b >= a);
  }

  lemma {:induction false} GrownFalls(p: RetryPolicy, k: nat)
    requires p.fixedDelay > 0.0 && 0.0 < p.multiplier < 1.0
    ensures 0.0 < Grown(p, k + 1) < Grown(p, k)
  {
    GrownNext(p, k);
    if k == 0 {
      FirstGrown(p);
    } else {
      GrownFalls(p, k - 1);
    }
    Less(Grown(p, k), Grown(p, k + 1), p.multiplier);
  }

  lemma {:induction false} NeverCapped(p: RetryPolicy, k: nat)
    requires p.fixedDelay > 0.0 && 0.0 < p.multiplier < 1.0 && k >= 1
    requires p.maxDelay > 0.0 ==> Grown(p, 1) < p.maxDelay
    ensures !HitsCap(p, k) && (p.maxDelay > 0.0 ==> Grown(p, k) < p.maxDelay)
  {
    if k > 1 {
      NeverCapped(p, k - 1);
      GrownFalls(p, k - 1);
    }
  }

  /** The second multiplied retry waits less than the first. */
  lemma DelayFalls(p: RetryPolicy)
    requires p.fixedDelay > 0.0 && p.fixedRetries >= 0 && 0.0 < p.multiplier < 1.0
    requires p.maxDelay > 0.0 ==> p.fixedDelay * p.multiplier < p.maxDelay
    ensures !NoLonger(p, p.fixedRetries + 1, p.fixedRetries + 2)
  {
    var one := Steps(p, p.fixedRetries + 1);
    FirstGrown(p);
    NeverCapped(p, one);
    NeverCapped(p, one + 1);
    GrownFalls(p, one);
  }

  /**
   factor is the jitter.  The wait is within a fifth of the base delay; a longer
   Retry-After hint wins over it, and the cap wins over both.
   */
  method Delay(p: RetryPolicy, n: int, factor: real, hint: real) returns (delay: real)
    requires 0.8 <= factor <= 1.2
    ensures p.maxDelay > 0.0 ==> delay <= p.maxDelay
    ensures Capped(p, hint) <= delay
    ensures Base(p, n) > 0.0 ==> Capped(p, 0.8 * Base(p, n)) <= delay
    ensures Base(p, n) > 0.0 && hint <= 0.8 * Base(p, n) ==> delay <= 1.2 * Base(p, n)
    ensures Base(p, n) > 0.0 && hint <= Base(p, n) * factor ==> delay == Capped(p, Base(p, n) * factor)
    ensures Base(p, n) > 0.0 && hint > Base(p, n) * factor ==> delay == Capped(p, hint)
  {
    var base := BaseDelay(p, n);
    delay := base;
    if base > 0.0 {
      Jittered(base, factor);
      delay := base * factor;
    }
    if hint > delay {
      delay := hint;
    }
    if p.maxDelay > 0.0 && delay > p.maxDelay {
      delay := p.maxDelay;
    }
  }

  lemma Jittered(base: real, factor: real)
    requires base > 0.0 && 0.8 <= factor <= 1.2
    ensures 0.8 * base <= base * factor <= 1.2 * base
  {
    assert base * (factor - 0.8) >= 0.0;
    assert base * (1.2 - factor) >= 0.0;
  }
}
