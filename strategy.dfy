/**
 * The delay series of a timer (`Timer.strategy` in lib/timer.js) and the
 * per-series ceiling on the attempt index. The Fibonacci and Lucas numbers
 * are computed by their integer recurrences; the source evaluates the
 * rounded closed forms, which agree with them up to index 20.
 */
module Strategy {

  datatype Strategy = Procession | Dayan | Fibonacci | Lucas

  /** The odd numbers 1, 3, 5, ... */
  function ProcessionAt(n: nat): int {
    2 * n - 1
  }

  /** The "da yan" series 0, 2, 4, 8, 12, ...: half of n*n, rounded down. */
  function DayanAt(n: nat): int {
    (n * n - n % 2) / 2
  }

  function FibonacciAt(n: nat): nat {
    if n < 2 then n else FibonacciAt(n - 1) + FibonacciAt(n - 2)
  }

  function LucasAt(n: nat): nat {
    if n == 0 then 2 else if n == 1 then 1 else LucasAt(n - 1) + LucasAt(n - 2)
  }

  /** The series value of strategy `s` at attempt index `n`. */
  function Series(s: Strategy, n: nat): int {
    match s
    case Procession => ProcessionAt(n)
    case Dayan => DayanAt(n)
    case Fibonacci => FibonacciAt(n)
    case Lucas => LucasAt(n)
  }

  /** The default (and largest accepted) `maxAttempts` of each strategy. */
  function DefaultMaxAttempts(s: Strategy): (c: nat)
    ensures c >= 19
  {
    match s
    case Procession => 5000
    case Dayan => 141
    case Fibonacci => 20
    case Lucas => 19
  }

  /** The numerator of the "da yan" formula is even, so the division is exact. */
  lemma DayanExact(n: nat)
    ensures (n * n - n % 2) % 2 == 0
    ensures 2 * DayanAt(n) == n * n - n % 2
    ensures DayanAt(n) >= 0
  {
    var q, r := n / 2, n % 2;
    assert n == 2 * q + r;
    assert n * n == 4 * q * q + 4 * q * r + r * r;
    assert r * r == r;
    assert n * n - r == 2 * (2 * q * q + 2 * q * r);
  }

  lemma {:induction false} FibonacciPositive(n: nat)
    requires n >= 1
    ensures FibonacciAt(n) >= 1
  {
    if n > 2 {
      FibonacciPositive(n - 1);
    }
  }

  lemma {:induction false} LucasPositive(n: nat)
    requires n >= 1
    ensures LucasAt(n) >= 1
  {
    if n > 2 {
      LucasPositive(n - 1);
    }
  }

  /** Every series value at an index of at least 1 is at least 1, except "da yan" at index 1, which is 0. */
  lemma SeriesPositive(s: Strategy, n: nat)
    requires n >= 1
    ensures Series(s, n) >= 0
    ensures Series(s, n) == 0 <==> s == Dayan && n == 1
  {
    match s
    case Procession =>
    case Dayan =>
      DayanExact(n);
      if n >= 2 {
        assert n * n >= 2 * n by {
          assert n * n == n * (n - 2) + 2 * n;
        }
      }
    case Fibonacci => FibonacciPositive(n);
    case Lucas => LucasPositive(n);
  }

  /** One step along any series, from index 1 on, never decreases it. */
  lemma SeriesStep(s: Strategy, n: nat)
    requires n >= 1
    ensures Series(s, n) <= Series(s, n + 1)
  {
  }

  /** Every series is non-decreasing from index 1 on. */
  lemma {:induction false} SeriesMonotone(s: Strategy, n: nat, m: nat)
    requires 1 <= n <= m
    ensures Series(s, n) <= Series(s, m)
    decreases m - n
  {
    if n < m {
      SeriesStep(s, n);
      SeriesMonotone(s, n + 1, m);
    }
  }

  /** The series values at the default ceilings. */
  lemma CeilingValues()
    ensures Series(Procession, DefaultMaxAttempts(Procession)) == 9999
    ensures Series(Dayan, DefaultMaxAttempts(Dayan)) == 9940
    ensures Series(Fibonacci, DefaultMaxAttempts(Fibonacci)) == 6765
    ensures Series(Lucas, DefaultMaxAttempts(Lucas)) == 9349
  {
  }

  /**
   * Each ceiling is the largest index whose series value does not exceed
   * 10000: the value at the ceiling is at most 10000, the next one is above.
   */
  lemma CeilingIsTight(s: Strategy)
    ensures Series(s, DefaultMaxAttempts(s)) <= 10000 < Series(s, DefaultMaxAttempts(s) + 1)
  {
    CeilingValues();
  }

  /** Up to the ceiling, every series value lies between 0 and 10000. */
  lemma SeriesWithinCeiling(s: Strategy, n: nat)
    requires 1 <= n <= DefaultMaxAttempts(s)
    ensures 0 <= Series(s, n) <= 10000
  {
    SeriesPositive(s, n);
    SeriesMonotone(s, n, DefaultMaxAttempts(s));
    CeilingIsTight(s);
  }
}
