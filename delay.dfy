/** The delay before the next tick (`Timer.prototype.__nextDelay`). */
module Delay {
  import opened Wrappers
  import opened Strategy
  import opened Options

  /** The attempt index after clamping to `maxAttempts`. */
  function ClampedIndex(o: Options, n: nat): (k: nat)
    requires o.maxAttempts >= 1
    ensures 1 <= k <= o.maxAttempts || k == n == 0
    ensures k <= n
  {
    if n < o.maxAttempts then n else o.maxAttempts
  }

  /** `value` limited by an optional cap. */
  function Capped(value: int, cap: Option<int>): int {
    if cap.Some? && cap.value < value then cap.value else value
  }

  /**
   * The delay for attempt index `n`: the series value at the clamped index,
   * times the seed, limited by `maxDelay`.
   */
  function NextDelay(o: Options, n: nat): int
    requires o.maxAttempts >= 1
  {
    Capped(Series(o.strategy, ClampedIndex(o, n)) * o.seed, o.maxDelay)
  }

  /** The delay never exceeds a bounded `maxDelay`, and equals it or the uncapped product. */
  lemma NextDelayCapped(o: Options, n: nat)
    requires o.maxAttempts >= 1
    ensures o.maxDelay.Some? ==> NextDelay(o, n) <= o.maxDelay.value
    ensures var product := Series(o.strategy, if n < o.maxAttempts then n else o.maxAttempts) * o.seed;
      NextDelay(o, n) == product || (o.maxDelay.Some? && NextDelay(o, n) == o.maxDelay.value < product)
  {
  }

  /** From `maxAttempts` on, the delay no longer changes. */
  lemma NextDelaySaturates(o: Options, n: nat)
    requires o.maxAttempts >= 1
    requires n >= o.maxAttempts
    ensures NextDelay(o, n) == NextDelay(o, o.maxAttempts)
  {
  }

  lemma MultiplyMonotone(a: int, b: int, seed: int)
    requires a <= b && seed >= 0
    ensures a * seed <= b * seed
  {
    assert b * seed - a * seed == (b - a) * seed;
  }

  /** With a non-negative seed, the delay is non-decreasing in the attempt index. */
  lemma NextDelayMonotone(o: Options, n: nat, m: nat)
    requires ValidOptions(o)
    requires 1 <= n <= m
    ensures NextDelay(o, n) <= NextDelay(o, m)
  {
    SeriesMonotone(o.strategy, ClampedIndex(o, n), ClampedIndex(o, m));
    MultiplyMonotone(Series(o.strategy, ClampedIndex(o, n)), Series(o.strategy, ClampedIndex(o, m)), o.seed);
  }

  /** The delay is never negative unless `maxDelay` itself is. */
  lemma NextDelayNonNegative(o: Options, n: nat)
    requires ValidOptions(o)
    requires n >= 1
    requires o.maxDelay.Some? ==> o.maxDelay.value >= 0
    ensures NextDelay(o, n) >= 0
  {
    SeriesPositive(o.strategy, ClampedIndex(o, n));
    MultiplyMonotone(0, Series(o.strategy, ClampedIndex(o, n)), o.seed);
  }

  /**
   * With `maxAttempts` within the strategy's ceiling (as normalisation
   * guarantees), the delay stays at or below 10000 times the seed.
   */
  lemma NextDelayWithinCeiling(o: Options, n: nat)
    requires ValidOptions(o)
    requires o.maxAttempts <= DefaultMaxAttempts(o.strategy)
    requires n >= 1
    ensures NextDelay(o, n) <= 10000 * o.seed
  {
    SeriesWithinCeiling(o.strategy, ClampedIndex(o, n));
    MultiplyMonotone(Series(o.strategy, ClampedIndex(o, n)), 10000, o.seed);
  }

  /**
   * With the default options, the delay for index `n` (up to the ceiling
   * 141) is 1000 times the "da yan" value; index 1 gives no delay at all.
   */
  lemma DefaultDelays(n: nat)
    requires 1 <= n <= 141
    ensures NextDelay(Normalize(NoOptions), n) == 1000 * ((n * n - n % 2) / 2)
    ensures NextDelay(Normalize(NoOptions), 1) == 0
    ensures NextDelay(Normalize(NoOptions), 2) == 2000 && NextDelay(Normalize(NoOptions), 3) == 4000
  {
  }
}
