/** The backoff arithmetic of go-api/internal/service/processor.go: a float64 product,
    truncated to an integer count of milliseconds and scaled to int64 nanoseconds. */
module Backoff {
  import opened Common

  const NS_PER_MS: int := 1_000_000
  const TWO52: int := 0x10_0000_0000_0000
  const TWO53: int := 0x20_0000_0000_0000

  function Pow2(n: nat): (r: int)
    ensures r >= 1
  {
    if n == 0 then 1 else 2 * Pow2(n - 1)
  }

  /** m + rest/unit rounded to 53 significant bits, ties to even. */
  function Nearest(m: nat, rest: nat, unit: nat): int {
    if m < TWO53 then
      if 2 * rest > unit || (2 * rest == unit && m % 2 == 1) then m + 1 else m
    else 2 * Nearest(m / 2, if m % 2 == 1 then rest + unit else rest, 2 * unit)
  }

  /** The float64 nearest to n. */
  function Float64(n: int): int { if n < 0 then -Nearest(-n, 0, 1) else Nearest(n, 0, 1) }

  /** Round to nearest, ties to even, with 53 significant bits: the result is q steps of size 2^k, at most half
      a step away, with q of full width unless k is zero. */
  lemma {:induction false} NearestRounds(m: nat, rest: nat, unit: nat) returns (q: int, k: nat)
    requires rest < unit
    ensures Nearest(m, rest, unit) == q * Pow2(k) && 0 <= q <= TWO53
    ensures var step, x := unit * Pow2(k), m * unit + rest;
            2 * Abs(x - q * step) <= step && (2 * Abs(x - q * step) == step ==> q % 2 == 0)
    ensures k > 0 || m >= TWO52 ==> q >= TWO52
  {
    if m < TWO53 {
      q, k := Nearest(m, rest, unit), 0;
      RoundsHere(m, rest, unit, q);
    } else {
      var r := if m % 2 == 1 then rest + unit else rest;
      q, k := NearestRounds(m / 2, r, 2 * unit);
      HalvedSame(m, rest, unit);
      StepDoubles(unit, Pow2(k), q);
      k := k + 1;
    }
  }

  lemma RoundsHere(m: nat, rest: nat, unit: nat, q: int)
    requires rest < unit
    requires q == if 2 * rest > unit || (2 * rest == unit && m % 2 == 1) then m + 1 else m
    ensures q * 1 == q && unit * 1 == unit
    ensures var x := m * unit + rest;
            2 * Abs(x - q * unit) <= unit && (2 * Abs(x - q * unit) == unit ==> q % 2 == 0)
  {
    assert (m + 1) * unit == m * unit + unit;
  }

  lemma HalvedSame(m: nat, rest: nat, unit: nat)
    ensures (m / 2) * (2 * unit) + (if m % 2 == 1 then rest + unit else rest) == m * unit + rest
  {
    var h, b := m / 2, m % 2;
    assert m == 2 * h + b;
    assert (2 * h + b) * unit == h * (2 * unit) + b * unit;
  }

  lemma StepDoubles(unit: nat, p: int, q: int)
    ensures 2 * unit * p == unit * (2 * p) && 2 * (q * p) == q * (2 * p)
  {
  }

  lemma Float64Rounds(n: nat) returns (q: int, k: nat)
    ensures Float64(n) == q * Pow2(k) && 0 <= q <= TWO53 && (k > 0 ==> q >= TWO52)
    ensures 2 * Abs(n - Float64(n)) <= Pow2(k) && (2 * Abs(n - Float64(n)) == Pow2(k) ==> q % 2 == 0)
  {
    q, k := NearestRounds(n, 0, 1);
    assert n * 1 + 0 == n && 1 * Pow2(k) == Pow2(k);
  }

  /** float64 to int64; a value out of range gives the smallest int64, as on amd64. */
  function ToInt64(x: int): int {
    if FitsInt64(x) then x else -TWO63
  }

  /** A float64 times math.Pow(2, n), which only moves the exponent. */
  function Doubled(x: int, n: nat): int { if n == 0 then x else 2 * Doubled(x, n - 1) }

  lemma {:induction false} DoubledIsProduct(x: int, n: nat)
    ensures Doubled(x, n) == x * Pow2(n)
  {
    if n > 0 {
      var k := Pow2(n - 1);
      DoubledIsProduct(x, n - 1);
      assert 2 * (x * k) == x * (2 * k);
    }
  }

  /** backoffDuration in nanoseconds, for a 1-based attempt. */
  function BackoffNs(baseMs: int, attempt: nat): int
    requires attempt >= 1
  {
    Wrap64(ToInt64(Doubled(Float64(baseMs), attempt - 1)) * NS_PER_MS)
  }

  /** time.After fires at once for a duration that is not positive. */
  function SleepNs(baseMs: int, attempt: nat): nat
    requires attempt >= 1
  {
    Max(0, BackoffNs(baseMs, attempt))
  }

  /** Sleep after the first n failed attempts. */
  function TotalSleepNs(baseMs: int, n: nat): nat {
    if n == 0 then 0 else TotalSleepNs(baseMs, n - 1) + SleepNs(baseMs, n)
  }

  /** The delay is base * 2^(attempt-1) ms exactly when that many nanoseconds fit an int64. */
  lemma BackoffExactIffFits(baseMs: int, attempt: nat)
    requires baseMs >= 0 && attempt >= 1
    ensures BackoffNs(baseMs, attempt) == baseMs * Pow2(attempt - 1) * NS_PER_MS
       <==> baseMs * Pow2(attempt - 1) * NS_PER_MS < TWO63
  {
    var k := Pow2(attempt - 1);
    DoubledIsProduct(Float64(baseMs), attempt - 1);
    if baseMs * k * NS_PER_MS < TWO63 {
      assert baseMs <= baseMs * k by { GrowsBy(baseMs, k); }
      assert Float64(baseMs) == baseMs;
      assert FitsInt64(baseMs * k);
    }
  }

  /** When the product does not fit: below 2^63 ms the nanoseconds wrap around, and from there on the pause
      vanishes. */
  lemma BackoffOverflows(baseMs: int, attempt: nat)
    requires baseMs >= 0 && attempt >= 1
    ensures var ms := Float64(baseMs) * Pow2(attempt - 1);
            && FitsInt64(BackoffNs(baseMs, attempt))
            && (0 <= ms < TWO63 ==> (BackoffNs(baseMs, attempt) - ms * 1_000_000) % TWO64 == 0)
            && (ms >= TWO63 ==> BackoffNs(baseMs, attempt) == 0 && SleepNs(baseMs, attempt) == 0)
  {
    DoubledIsProduct(Float64(baseMs), attempt - 1);
  }

  /** A negative base pauses for no time, as long as it does not wrap around. */
  lemma NegativeBaseNeverPauses(baseMs: int, attempt: nat)
    requires baseMs < 0 && attempt >= 1
    requires -TWO63 <= Float64(baseMs) * Pow2(attempt - 1) * NS_PER_MS
    ensures SleepNs(baseMs, attempt) == 0
  {
    var q, k := NearestRounds(-baseMs, 0, 1);
    DoubledIsProduct(Float64(baseMs), attempt - 1);
    NotPositive(Float64(baseMs), Pow2(attempt - 1));
    NotPositive(-q, Pow2(k));
  }

  lemma NotPositive(a: int, b: int)
    ensures a <= 0 <= b ==> a * b <= 0
  {
  }

  lemma GrowsBy(b: int, k: int)
    requires b >= 0 && k >= 1
    ensures b <= b * k
  {
    assert b * k - b == b * (k - 1);
  }

  lemma {:induction false} Pow2Mono(a: nat, b: nat)
    requires a <= b
    ensures Pow2(a) <= Pow2(b)
    decreases b
  {
    if a < b {
      Pow2Mono(a, b - 1);
    }
  }

  /** All the sleeps of n failed attempts together last base * (2^n - 1) ms. */
  lemma {:induction false} TotalSleepClosedForm(baseMs: int, n: nat)
    requires baseMs >= 0
    requires n >= 1 ==> baseMs * Pow2(n - 1) * NS_PER_MS < TWO63
    ensures TotalSleepNs(baseMs, n) == baseMs * (Pow2(n) - 1) * NS_PER_MS
  {
    if n >= 1 {
      var k := Pow2(n - 1);
      if n >= 2 {
        var h := Pow2(n - 2);
        Pow2Mono(n - 2, n - 1);
        Scaled(baseMs, h, k);
      }
      TotalSleepClosedForm(baseMs, n - 1);
      BackoffExactIffFits(baseMs, n);
      assert baseMs * (k - 1) + baseMs * k == baseMs * (2 * k - 1) by { Distribute(baseMs, k); }
      assert baseMs * k >= 0;
    }
  }

  lemma Scaled(b: int, h: int, k: int)
    requires b >= 0 && h <= k
    ensures b * h <= b * k
  {
    assert b * k - b * h == b * (k - h);
  }

  lemma Distribute(b: int, k: int)
    ensures b * (k - 1) + b * k == b * (2 * k - 1)
  {
  }
}
