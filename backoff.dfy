/**
 * The wait before a retry of the batch write (ddb_eventprocessor.js line 90):
 * `Math.min(Math.pow(2, retries) * 100, context.getRemainingTimeInMillis() - 200)`.
 * The value is used as it is: nothing guards against a negative result.
 */
module Backoff {

  /** 2 to the power n. */
  function Pow2(n: nat): nat {
    if n == 0 then 1 else 2 * Pow2(n - 1)
  }

  /** Delay in milliseconds before retry number `retries + 1`, given the remaining time budget. */
  function Delay(retries: nat, remainingMs: int): (d: int)
    ensures d <= Pow2(retries) * 100
    ensures d <= remainingMs - 200
    ensures d == Pow2(retries) * 100 || d == remainingMs - 200
  {
    if Pow2(retries) * 100 <= remainingMs - 200 then Pow2(retries) * 100 else remainingMs - 200
  }

  /** With enough time left, the delay is the plain exponential one. */
  lemma ExactBackoff(retries: nat, remainingMs: int)
    requires remainingMs - 200 >= Pow2(retries) * 100
    ensures Delay(retries, remainingMs) == 100 * Pow2(retries)
  {
  }

  /** With enough time left at both attempts, each delay is twice the previous one. */
  lemma BackoffDoubles(retries: nat, remainingMs: int, nextRemainingMs: int)
    requires remainingMs - 200 >= Pow2(retries) * 100
    requires nextRemainingMs - 200 >= Pow2(retries + 1) * 100
    ensures Delay(retries + 1, nextRemainingMs) == 2 * Delay(retries, remainingMs)
  {
  }

  /** Less than 200 ms left gives a negative delay: the code has no deadline guard. */
  lemma NegativeDelayWhenLate(retries: nat, remainingMs: int)
    requires remainingMs < 200
    ensures Delay(retries, remainingMs) < 0
  {
  }
}
