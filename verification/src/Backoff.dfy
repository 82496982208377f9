/** Retry backoff: retryDelay of internal/core/workflow_transitions.go. */
module Backoff {
  import opened Base
  import opened Model

  function Pow(b: nat, e: nat): (r: nat)
    ensures b >= 1 ==> r >= 1
  {
    if e == 0 then 1 else b * Pow(b, e - 1)
  }

  function Min(a: int, b: int): int {
    if a <= b then a else b
  }

  /** validateRetry, with the timeout it checks alongside. */
  predicate ValidRetry(policy: RetryPolicy, timeout: int64) {
    && policy.maxAttempts >= 1
    && policy.initialBackoff >= 0 && policy.maxBackoff >= 0 && timeout >= 0
    && policy.multiplier >= 1
    && (policy.maxBackoff > 0 ==> policy.initialBackoff <= policy.maxBackoff)
  }

  /** The delay that the policy would give with unbounded integers and no maximum. */
  function Uncapped(policy: RetryPolicy, retries: nat): int {
    if policy.initialBackoff <= 0 || policy.multiplier <= 1 then policy.initialBackoff
    else policy.initialBackoff * Pow(policy.multiplier, retries)
  }

  function Cap(policy: RetryPolicy): int64 {
    if policy.maxBackoff > 0 then policy.maxBackoff else MAX_INT64
  }

  /** The delay before retry number `retries`, in closed form. */
  function RetryDelay(policy: RetryPolicy, retries: nat): int64 {
    UncappedLow(policy, retries);
    Min(Cap(policy), Uncapped(policy, retries))
  }

  lemma {:induction false} UncappedLow(policy: RetryPolicy, retries: nat)
    ensures Uncapped(policy, retries) >= policy.initialBackoff
  {
    if policy.initialBackoff > 0 && policy.multiplier > 1 {
      ScaleUp(policy.initialBackoff, Pow(policy.multiplier, retries));
    }
  }

  lemma {:induction false} ScaleUp(x: nat, k: nat)
    requires k >= 1
    ensures x * k >= x
  {
    assert x * k == x + x * (k - 1);
  }

  lemma {:induction false} UncappedStep(policy: RetryPolicy, retries: nat)
    requires policy.initialBackoff > 0 && policy.multiplier > 1
    ensures Uncapped(policy, retries + 1) == Uncapped(policy, retries) * policy.multiplier
    ensures Uncapped(policy, retries + 1) >= Uncapped(policy, retries) > 0
  {
    var i, m, p := policy.initialBackoff, policy.multiplier, Pow(policy.multiplier, retries);
    assert Pow(m, retries + 1) == m * p;
    assert i * (m * p) == (i * p) * m by { Associate(i, m, p); }
    ScaleUp(i, p);
    ScaleUp(i * p, m);
  }

  lemma {:induction false} Associate(i: int, m: int, p: int)
    ensures i * (m * p) == (i * p) * m
  {
    assert m * p == p * m;
  }

  lemma {:induction false} UncappedMonotone(policy: RetryPolicy, fewer: nat, more: nat)
    requires fewer <= more
    ensures Uncapped(policy, fewer) <= Uncapped(policy, more)
    decreases more - fewer
  {
    if fewer < more && policy.initialBackoff > 0 && policy.multiplier > 1 {
      UncappedStep(policy, fewer);
      UncappedMonotone(policy, fewer + 1, more);
    }
  }

  /** More retries never wait less. */
  lemma {:induction false} RetryDelayMonotone(policy: RetryPolicy, fewer: nat, more: nat)
    requires fewer <= more
    ensures RetryDelay(policy, fewer) <= RetryDelay(policy, more)
  {
    UncappedMonotone(policy, fewer, more);
  }

  /** For a validated policy the delay is min(cap, initial * multiplier^retries), between the initial
      backoff and the cap. */
  lemma {:induction false} RetryDelayValidated(policy: RetryPolicy, timeout: int64, retries: nat)
    requires ValidRetry(policy, timeout)
    ensures RetryDelay(policy, retries) == Min(Cap(policy), policy.initialBackoff * Pow(policy.multiplier, retries))
    ensures 0 <= policy.initialBackoff <= RetryDelay(policy, retries) <= Cap(policy)
  {
    if policy.multiplier == 1 { PowOne(retries); }
    UncappedLow(policy, retries);
  }

  lemma {:induction false} PowOne(n: nat)
    ensures Pow(1, n) == 1
  {
    if n > 0 { PowOne(n - 1); }
  }

  /** A delay past the 64-bit range saturates instead of wrapping: x > MAX/m means x*m > MAX. */
  lemma {:induction false} Saturates(x: nat, m: nat)
    requires m > 0
    ensures x > MAX_INT64 / m ==> x * m > MAX_INT64
    ensures x <= MAX_INT64 / m ==> x * m <= MAX_INT64
  {
    var q := MAX_INT64 / m;
    assert q * m <= MAX_INT64 < (q + 1) * m;
    if x > q { Scale(q + 1, x, m); } else { Scale(x, q, m); }
  }

  lemma {:induction false} Scale(a: nat, b: nat, m: nat)
    requires a <= b
    ensures a * m <= b * m
  {
    assert b * m == a * m + (b - a) * m;
  }

  /** The loop of retryDelay computes the closed form with every intermediate value in range. */
  method ComputeRetryDelay(policy: RetryPolicy, retryCount: uint32) returns (result: int64)
    ensures result == RetryDelay(policy, retryCount)
  {
    var delay: int64 := policy.initialBackoff;
    var count: uint32 := 0;
    while count < retryCount && delay > 0 && policy.multiplier > 1
      invariant count <= retryCount
      invariant delay == Uncapped(policy, count)
    {
      ghost var before := delay;
      Saturates(delay, policy.multiplier);
      UncappedStep(policy, count);
      UncappedMonotone(policy, count + 1, retryCount);
      if delay > MAX_INT64 / policy.multiplier {
        delay := MAX_INT64;
        break;
      }
      delay := delay * policy.multiplier;
      if policy.maxBackoff > 0 && delay >= policy.maxBackoff {
        delay := policy.maxBackoff;
        break;
      }
      count := count + 1;
    }
    if policy.maxBackoff > 0 && delay > policy.maxBackoff {
      return policy.maxBackoff;
    }
    return delay;
  }
}
