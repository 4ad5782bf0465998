/** How long a worker waits before each retry. */
module Backoffs {

  datatype Backoff = Backoff(seconds: real, multiplier: real)

  function Power(b: real, e: nat): real {
    if e == 0 then 1.0 else b * Power(b, e - 1)
  }

  function Delay(policy: Backoff, retryCount: nat): real {
    policy.seconds * Power(policy.multiplier, retryCount)
  }

  // The delays of retries lo, lo+1, ..., hi-1.
  function Delays(policy: Backoff, lo: nat, hi: nat): real
    decreases hi - lo
  {
    if lo >= hi then 0.0 else Delay(policy, lo) + Delays(policy, lo + 1, hi)
  }

  // The first wait is the configured one, and each further wait that of the last retry times the
  // multiplier.
  lemma DelayGrows(policy: Backoff, retryCount: nat)
    ensures Delay(policy, 0) == policy.seconds
    ensures Delay(policy, retryCount + 1) == policy.multiplier * Delay(policy, retryCount)
  {
  }

  // The sum of these delays in closed form, by seconds, multiplier and number of retries.
  predicate IsGeometric(policy: Backoff, lo: nat, hi: nat, sum: real) {
    (policy.multiplier - 1.0) * sum == policy.seconds * Power(policy.multiplier, hi) - policy.seconds * Power(policy.multiplier, lo)
  }

  lemma {:induction false} DelaysSum(policy: Backoff, lo: nat, hi: nat)
    requires lo <= hi
    ensures IsGeometric(policy, lo, hi, Delays(policy, lo, hi))
    decreases hi - lo
  {
    var k, rest := policy.multiplier - 1.0, Delays(policy, lo + 1, hi);
    if lo < hi {
      DelaysSum(policy, lo + 1, hi);
      DelayGrows(policy, lo);
      assert k * (Delay(policy, lo) + rest) == policy.multiplier * Delay(policy, lo) - Delay(policy, lo) + k * rest;
    }
  }

  lemma {:induction false} PowerNonNegative(b: real, e: nat)
    requires b >= 0.0
    ensures Power(b, e) >= 0.0
  {
    if e > 0 {
      PowerNonNegative(b, e - 1);
    }
  }

  lemma {:induction false} DelaysNonNegative(policy: Backoff, lo: nat, hi: nat)
    requires policy.seconds >= 0.0 && policy.multiplier >= 0.0
    ensures Delays(policy, lo, hi) >= 0.0
    decreases hi - lo
  {
    if lo < hi {
      PowerNonNegative(policy.multiplier, lo);
      DelaysNonNegative(policy, lo + 1, hi);
    }
  }
}
