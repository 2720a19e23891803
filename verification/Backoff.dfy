/** Exponential backoff (internal/webhook/dispatcher.go, backoff). The source
    computes InitialWait * 2^(n-1) in float64 and converts it to int64. That is
    exact while InitialWait fits the 53-bit significand and the product fits
    int64; outside that range the Go conversion is unspecified, so the wait is
    a relation: only the final minimum with MaxWait is known there. */
module Backoff {
  import opened Models

  const EXACT_FLOAT: int := 0x20_0000_0000_0000
  const TWO_63: int := 0x8000_0000_0000_0000

  function Pow2(n: nat): nat {
    if n == 0 then 1 else 2 * Pow2(n - 1)
  }

  ghost predicate InRange(retry: RetryConfig, n: nat)
    requires n >= 1
  {
    && 0 <= retry.initialWait <= EXACT_FLOAT
    && retry.initialWait * Pow2(n - 1) < TWO_63
  }

  /** `wait` is a value that backoff may return before retry number n. */
  ghost predicate IsBackoff(retry: RetryConfig, n: nat, wait: Duration)
    requires n >= 1
  {
    && wait <= retry.maxWait
    && (InRange(retry, n) ==> wait == Min(retry.initialWait * Pow2(n - 1), retry.maxWait))
  }

  /** The waits before retries 1, 2, ..., |waits|. */
  ghost predicate AreBackoffs(retry: RetryConfig, waits: seq<Duration>) {
    forall i :: 0 <= i < |waits| ==> IsBackoff(retry, i + 1, waits[i])
  }

  function Total(waits: seq<Duration>): int {
    if waits == [] then 0 else Total(waits[..|waits| - 1]) + waits[|waits| - 1]
  }

  lemma {:induction false} ScaleMonotone(x: nat, m: nat, n: nat)
    requires m <= n
    ensures x * Pow2(m) <= x * Pow2(n)
    decreases n - m
  {
    if m < n {
      ScaleMonotone(x, m + 1, n);
      assert x * Pow2(m + 1) == 2 * (x * Pow2(m));
    }
  }

  /** Waits never decrease while the arithmetic is exact, and every earlier retry
      is then in range too. */
  lemma WaitsNeverDecrease(retry: RetryConfig, m: nat, n: nat, early: Duration, late: Duration)
    requires 1 <= m <= n && InRange(retry, n)
    requires IsBackoff(retry, m, early) && IsBackoff(retry, n, late)
    ensures InRange(retry, m)
    ensures early <= late
  {
    ScaleMonotone(retry.initialWait, m - 1, n - 1);
  }

  /** The first wait is the initial one, each further wait is twice the one before, and none
      exceeds the maximum: so it is up to 2^53 nanoseconds of initial wait, until the
      maximum is reached or doubling leaves int64. */
  lemma {:induction false} WaitsDouble(retry: RetryConfig, waits: seq<Duration>, i: nat)
    requires AreBackoffs(retry, waits) && 0 <= retry.initialWait <= 9_007_199_254_740_992 && i < |waits|
    requires forall j :: 0 <= j < i ==> waits[j] < retry.maxWait && 2 * waits[j] < 9_223_372_036_854_775_808
    ensures waits[i] <= retry.maxWait
    ensures i == 0 ==> waits[i] == if retry.initialWait < retry.maxWait then retry.initialWait else retry.maxWait
    ensures i > 0 ==> waits[i] == if 2 * waits[i - 1] < retry.maxWait then 2 * waits[i - 1] else retry.maxWait
    ensures waits[i] < retry.maxWait ==> waits[i] == retry.initialWait * Pow2(i)
  {
    assert IsBackoff(retry, i + 1, waits[i]);
    if i > 0 {
      WaitsDouble(retry, waits, i - 1);
      Scaled(retry.initialWait, i);
      NextWait(retry, i, waits[i - 1], waits[i], retry.initialWait * Pow2(i));
    } else {
      assert Pow2(0) == 1;
    }
  }

  /** Beyond, nothing but the maximum is known: any wait up to it is possible. */
  lemma BeyondRange(retry: RetryConfig, n: nat, wait: Duration)
    requires n >= 1 && wait <= retry.maxWait
    requires retry.initialWait > 9_007_199_254_740_992 || retry.initialWait * Pow2(n - 1) >= 9_223_372_036_854_775_808
    ensures IsBackoff(retry, n, wait)
  {
  }

  lemma NextWait(retry: RetryConfig, i: nat, early: Duration, late: Duration, exact: int)
    requires exact == retry.initialWait * Pow2(i) && exact == 2 * early && early < retry.maxWait
    requires 0 <= retry.initialWait <= 9_007_199_254_740_992 && exact < 9_223_372_036_854_775_808
    requires IsBackoff(retry, i + 1, late)
    ensures late == if exact < retry.maxWait then exact else retry.maxWait
  {
    assert InRange(retry, i + 1);
  }

  lemma Scaled(x: int, i: nat)
    requires i > 0
    ensures x * Pow2(i) == 2 * (x * Pow2(i - 1))
  {
    var p: int := Pow2(i - 1);
    assert x * (2 * p) == 2 * (x * p);
  }

  lemma EarlierInRange(retry: RetryConfig, n: nat)
    requires n >= 2 && InRange(retry, n)
    ensures InRange(retry, n - 1)
  {
    ScaleMonotone(retry.initialWait, n - 2, n - 1);
  }

  /** n retries wait at most n * MaxWait in any case, ... */
  lemma {:induction false} TotalBoundedByMax(retry: RetryConfig, waits: seq<Duration>)
    requires forall i :: 0 <= i < |waits| ==> waits[i] <= retry.maxWait
    ensures Total(waits) <= |waits| * retry.maxWait
  {
    if waits != [] {
      var n := |waits|;
      TotalBoundedByMax(retry, waits[..n - 1]);
      assert n * retry.maxWait == (n - 1) * retry.maxWait + retry.maxWait;
    }
  }

  lemma Telescopes(x: int, n: nat)
    requires n >= 1
    ensures x * (Pow2(n) - 1) == x * (Pow2(n - 1) - 1) + x * Pow2(n - 1)
  {
    var p: int := Pow2(n - 1);
    assert x * (2 * p - 1) == x * (p - 1) + x * p;
  }

  lemma ExactWait(retry: RetryConfig, n: nat, wait: Duration)
    requires n >= 1 && InRange(retry, n) && IsBackoff(retry, n, wait)
    ensures wait <= retry.initialWait * Pow2(n - 1)
  {
  }

  /** ... and at most InitialWait * (2^n - 1) while the arithmetic is exact. */
  lemma {:induction false} TotalBoundedBySum(retry: RetryConfig, waits: seq<Duration>)
    requires AreBackoffs(retry, waits) && waits != [] && InRange(retry, |waits|)
    ensures Total(waits) <= retry.initialWait * (Pow2(|waits|) - 1)
  {
    var n := |waits|;
    Telescopes(retry.initialWait, n);
    ExactWait(retry, n, waits[n - 1]);
    if n > 1 {
      EarlierInRange(retry, n);
      TotalBoundedBySum(retry, waits[..n - 1]);
    } else {
      assert Total(waits[..0]) == 0;
    }
  }

  /** Both bounds on what n retries wait in all. */
  lemma TotalBounded(retry: RetryConfig, waits: seq<Duration>)
    requires AreBackoffs(retry, waits)
    ensures Total(waits) <= |waits| * retry.maxWait
    ensures waits != [] && InRange(retry, |waits|) ==> Total(waits) <= retry.initialWait * (Pow2(|waits|) - 1)
  {
    forall i | 0 <= i < |waits| ensures waits[i] <= retry.maxWait {
      assert IsBackoff(retry, i + 1, waits[i]);
    }
    TotalBoundedByMax(retry, waits);
    if waits != [] && InRange(retry, |waits|) {
      TotalBoundedBySum(retry, waits);
    }
  }
}
