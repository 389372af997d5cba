/** Delay arithmetic shared by the retry owners. Durations are integers
    (nanoseconds); the random sample is a real, so rounding of the floating
    point product is not modelled. */
module Backoff {

  datatype RetryConfig = RetryConfig(initial: int, max: int, cooldownAfter: int, cooldown: int)

  predicate Validated(c: RetryConfig) {
    c.initial > 0 && c.max >= c.initial && c.cooldown >= c.max && c.cooldownAfter >= 1
  }

  function Pow2(n: nat): nat {
    if n == 0 then 1 else 2 * Pow2(n - 1)
  }

  /** Division by two and conversion to an integer round toward zero. */
  function Half(x: int): int {
    if x >= 0 then x / 2 else -(-x / 2)
  }

  function Truncated(x: real): int {
    if x >= 0.0 then x.Floor else -(-x).Floor
  }

  function Clamped(sample: real): real {
    if sample < 0.0 then 0.0 else if sample > 1.0 then 1.0 else sample
  }

  function Share(amount: int, part: real): int {
    Truncated(amount as real * part)
  }

  function Jittered(base: int, sample: real): int {
    Half(base) + Share(base - Half(base), Clamped(sample))
  }

  function Grown(c: RetryConfig, n: nat): int {
    c.initial * Pow2(n)
  }

  /** The delay before jitter: the initial delay doubled per failure, capped. */
  function Base(c: RetryConfig, failures: nat): int
    requires failures >= 1
  {
    if Grown(c, failures - 1) < c.max then Grown(c, failures - 1) else c.max
  }

  function DelayOf(c: RetryConfig, failures: int, sample: real): int {
    if failures <= 0 then 0
    else if failures >= c.cooldownAfter then c.cooldown
    else Jittered(Base(c, failures), sample)
  }

  lemma {:induction false} GrownDoubles(c: RetryConfig, n: nat)
    requires Validated(c)
    ensures Grown(c, n + 1) == 2 * Grown(c, n)
    ensures Grown(c, n) >= c.initial
  {
    assert Pow2(n + 1) == 2 * Pow2(n);
    assert Grown(c, n + 1) == 2 * Grown(c, n) by {
      var i, p := c.initial, Pow2(n);
      assert i * (2 * p) == 2 * (i * p);
    }
    if n > 0 {
      GrownDoubles(c, n - 1);
    }
  }

  lemma {:induction false} GrowthIsMonotone(c: RetryConfig, n: nat, m: nat)
    requires Validated(c) && n <= m
    ensures c.initial <= Grown(c, n) <= Grown(c, m)
    decreases m - n
  {
    GrownDoubles(c, n);
    if n < m {
      GrowthIsMonotone(c, n + 1, m);
    }
  }

  /** One more failure doubles the base, up to the maximum. */
  lemma BaseDoubles(c: RetryConfig, n: nat)
    requires Validated(c) && n >= 1
    ensures 1 <= Base(c, n) <= c.max
    ensures Base(c, n + 1) == if 2 * Base(c, n) < c.max then 2 * Base(c, n) else c.max
  {
    GrownDoubles(c, n - 1);
  }

  lemma {:induction false} BaseStaysAtMaximum(c: RetryConfig, n: nat, m: nat)
    requires Validated(c) && 1 <= n <= m && Base(c, n) == c.max
    ensures Base(c, m) == c.max
    decreases m - n
  {
    if n < m {
      BaseDoubles(c, n);
      BaseStaysAtMaximum(c, n + 1, m);
    }
  }

  /** `peak` is the largest value the running delay takes: for a validated
      configuration nothing above the maximum is ever computed. */
  method Delay(failures: int, c: RetryConfig, sample: real) returns (r: int, ghost peak: int)
    ensures failures <= 0 ==> r == 0
    ensures failures >= c.cooldownAfter && failures > 0 ==> r == c.cooldown
    ensures Validated(c) ==> r == DelayOf(c, failures, sample) && peak <= c.max
  {
    peak := 0;
    if failures <= 0 {
      return 0, 0;
    }
    if failures >= c.cooldownAfter {
      return c.cooldown, 0;
    }
    var delay := c.initial;
    peak := delay;
    var n := 1;
    while n < failures && delay < c.max
      invariant 1 <= n <= failures
      invariant Validated(c) ==> peak <= c.max && delay == Base(c, n)
    {
      if Validated(c) {
        BaseDoubles(c, n);
      }
      if delay > Half(c.max) {
        delay := c.max;
        n := n + 1;
        break;
      }
      delay := delay * 2;
      peak := if delay > peak then delay else peak;
      n := n + 1;
    }
    if Validated(c) {
      if n < failures {
        BaseStaysAtMaximum(c, n, failures);
      }
      BaseDoubles(c, n);
    }
    if delay > c.max {
      delay := c.max;
    }
    var s := sample;
    if s < 0.0 {
      s := 0.0;
    }
    if s > 1.0 {
      s := 1.0;
    }
    r := Half(delay) + Share(delay - Half(delay), s);
  }

  lemma PartOfAmount(x: real, s: real)
    requires x >= 0.0 && 0.0 <= s <= 1.0
    ensures 0.0 <= x * s <= x
  {
    assert x * (1.0 - s) >= 0.0;
    assert x * (1.0 - s) == x - x * s;
  }

  lemma ShareBounds(a: nat, b: nat, s: real)
    requires a <= b && 0.0 <= s <= 1.0
    ensures 0 <= Share(a, s) <= a
    ensures Share(a, s) <= Share(b, s)
  {
    PartOfAmount(a as real, s);
    PartOfAmount((b - a) as real, 1.0 - s);
    assert (b - a) as real * s >= 0.0;
    assert b as real * s == a as real * s + (b - a) as real * s;
  }

  /** For every sample the delay lies between half the base and the base. */
  lemma JitterBounds(base: nat, sample: real)
    ensures base / 2 <= Jittered(base, sample) <= base
  {
    ShareBounds(base - Half(base), base - Half(base), Clamped(sample));
  }

  /** The delay is half the base and the sample's share of the other half, cut to a
      whole number. */
  lemma JitterIsShare(base: nat, sample: real)
    requires 0.0 <= sample <= 1.0
    ensures var rest := (base - base / 2) as real * sample;
            (Jittered(base, sample) - base / 2) as real <= rest < (Jittered(base, sample) - base / 2 + 1) as real
  {
    assert (base - base / 2) as real * sample >= 0.0;
  }

  /** Half the base for a sample of 0, all of it for a sample of 1; samples outside
      the unit interval count as its ends. */
  lemma JitterEnds(base: nat, sample: real)
    ensures sample <= 0.0 ==> Jittered(base, sample) == base / 2
    ensures sample >= 1.0 ==> Jittered(base, sample) == base
  {
    var rest := (base - Half(base)) as real;
    assert rest * 0.0 == 0.0 && rest * 1.0 == rest;
  }

  lemma ShareGrows(a: nat, s: real, t: real)
    requires 0.0 <= s <= t
    ensures Share(a, s) <= Share(a, t)
  {
    var x := a as real;
    assert x * (t - s) >= 0.0 && x * t == x * s + x * (t - s) && x * s >= 0.0;
  }

  /** A larger sample never shortens the delay. */
  lemma JitterGrowsWithSample(base: nat, s: real, t: real)
    requires s <= t
    ensures Jittered(base, s) <= Jittered(base, t)
  {
    ShareGrows(base - Half(base), Clamped(s), Clamped(t));
  }

  lemma JitterIsMonotone(a: nat, b: nat, sample: real)
    requires a <= b
    ensures Jittered(a, sample) <= Jittered(b, sample)
  {
    ShareBounds(a - Half(a), b - Half(b), Clamped(sample));
  }

  /** For one sample the delay never shrinks from failure to failure, the step
      into the cooldown included. */
  lemma DelayIsMonotone(c: RetryConfig, n: nat, m: nat, sample: real)
    requires Validated(c) && 1 <= n <= m
    ensures DelayOf(c, n, sample) <= DelayOf(c, m, sample)
  {
    GrowthIsMonotone(c, n - 1, m - 1);
    JitterBounds(Base(c, n), sample);
    if m < c.cooldownAfter {
      JitterIsMonotone(Base(c, n), Base(c, m), sample);
    }
  }
}
