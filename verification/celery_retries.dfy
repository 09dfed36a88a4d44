/** What Celery does with an exception a bound task hands to `self.retry`
    (directly or through `autoretry_for`): schedule another attempt while
    the attempt count allows, otherwise re-raise the exception. The broker
    and the clock are not modelled; a retry is its delay. */
module CeleryRetries {
  import opened Wrappers
  import opened Failures

  /** The delay before the next attempt: a fixed countdown, or a uniformly
      random whole number of seconds from 0 to `upTo` (full jitter). */
  datatype Delay = Fixed(seconds: int) | Jittered(upTo: int)

  /** What becomes of one attempt. */
  datatype Verdict =
    | Done
    | Retry(delay: Delay, exc: Exn)
    | Fail(exc: Exn)

  /** `self.retry(exc=exc, ...)` during attempt number `retries` (0 for the
      first run): a new attempt while fewer than `maxRetries` retries have
      been made, the exception itself once they are used up. */
  function CeleryRetry(retries: nat, maxRetries: nat, exc: Exn, delay: Delay): (v: Verdict)
    ensures v.Retry? <==> retries < maxRetries
    ensures v.Retry? ==> v == Retry(delay, exc)
    ensures v.Fail? ==> v.exc == exc
    ensures !v.Done?
  {
    if retries < maxRetries then Retry(delay, exc) else Fail(exc)
  }

  function Pow2(k: nat): (p: nat)
    ensures p >= 1
  {
    if k == 0 then 1 else 2 * Pow2(k - 1)
  }

  /** `get_exponential_backoff_interval(factor=1, retries, maximum, full_jitter=True)`:
      the upper bound doubles with each retry until it reaches `maximum`. */
  function BackoffDelay(retries: nat, maximum: int): (d: Delay)
    ensures d.Jittered?
    ensures d.upTo <= maximum
    ensures d.upTo == maximum || d.upTo == Pow2(retries)
    ensures d.upTo <= Pow2(retries)
  {
    Jittered(if maximum <= Pow2(retries) then maximum else Pow2(retries))
  }

  /** The bound grows with the retry count and never exceeds the cap. */
  lemma {:induction false} BackoffMonotone(r1: nat, r2: nat, maximum: int)
    requires r1 <= r2
    ensures BackoffDelay(r1, maximum).upTo <= BackoffDelay(r2, maximum).upTo
    decreases r2
  {
    if r1 < r2 {
      BackoffMonotone(r1, r2 - 1, maximum);
      assert Pow2(r2) == 2 * Pow2(r2 - 1);
    }
  }

  /** Runs attempts `0, 1, ...` of a task, `attempt(k)` being what attempt
      `k` raised, and lets `decide` judge each one, until an attempt is not
      retried. A policy that retries only below `maxRetries` makes at most
      `maxRetries + 1` attempts. */
  method Drive(decide: (Option<Exn>, nat) -> Verdict, maxRetries: nat, attempt: nat -> Option<Exn>)
    returns (attempts: nat, final: Verdict)
    requires forall raised: Option<Exn>, k: nat :: decide(raised, k).Retry? ==> k < maxRetries
    ensures 1 <= attempts <= maxRetries + 1
    ensures !final.Retry?
    ensures final == decide(attempt(attempts - 1), attempts - 1)
    ensures forall k: nat | k < attempts - 1 :: decide(attempt(k), k).Retry?
  {
    attempts := 1;
    final := decide(attempt(0), 0);
    while final.Retry?
      invariant 1 <= attempts <= maxRetries + 1
      invariant final == decide(attempt(attempts - 1), attempts - 1)
      invariant forall k: nat | k < attempts - 1 :: decide(attempt(k), k).Retry?
      decreases maxRetries + 1 - attempts
    {
      attempts := attempts + 1;
      final := decide(attempt(attempts - 1), attempts - 1);
    }
  }
}
