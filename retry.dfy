/**
 * `retryWithBackoff` (cron-job/job.js): a bounded retry loop that retries only
 * rate-limit failures, waiting RETRY_DELAY * 2^attempt ms after a failed attempt.
 *
 * The wrapped operation is modelled as a function from the 0-based attempt
 * number to what that call of `fn` produces; the waits are recorded as the
 * sequence of requested delays instead of being slept.
 */
module Retry {
  import opened Wrappers
  import opened Strings

  /** A thrown error: its `message` (empty when it has none) and its `code`. */
  datatype Error = Error(message: string, code: Option<int>)

  /** What one call of a remote operation produces: a value, or a thrown error. */
  datatype Outcome<+T> = Ok(value: T) | Err(error: Error)

  const RATE_LIMIT_DELAY: nat := 200
  const MAX_RETRIES: int := 3
  const RETRY_DELAY: nat := 2000

  /** The error thrown after the loop when it never ran (`maxRetries < 0`). */
  const MAX_RETRIES_EXCEEDED: Error := Error("Max retries exceeded", None)

  /** The only errors the loop retries: "rate limit", "too many requests" or code 429. */
  predicate IsRateLimit(e: Error) {
    Contains(e.message, "rate limit") || Contains(e.message, "too many requests") || e.code == Some(429)
  }

  /**
   * The message test is case-sensitive: an error without code 429 whose message lacks
   * some character of each lower-case pattern is not retried. "Too Many Requests",
   * for one, holds neither a lower-case 'r' nor a lower-case 'm'.
   */
  lemma NotRateLimit(e: Error, c1: char, c2: char)
    requires c1 in "rate limit" && c1 !in e.message
    requires c2 in "too many requests" && c2 !in e.message
    requires e.code != Some(429)
    ensures !IsRateLimit(e)
  {
    MissingCharNotFound(e.message, "rate limit", c1);
    MissingCharNotFound(e.message, "too many requests", c2);
  }

  /** The lower-case message is retried. */
  lemma LowerCaseMessageRateLimit()
    ensures IsRateLimit(Error("too many requests", None))
  {
    ContainsSelf("too many requests");
  }

  predicate RateLimited<T>(o: Outcome<T>) {
    o.Err? && IsRateLimit(o.error)
  }

  function Pow2(k: nat): (r: nat)
    ensures r >= 1
  {
    if k == 0 then 1 else 2 * Pow2(k - 1)
  }

  /** The wait requested after the failed attempt `attempt` (0-based). */
  function BackoffDelay(attempt: nat): nat {
    RETRY_DELAY * Pow2(attempt)
  }

  /** The first wait is 2000 ms and each later one is twice the one before. */
  lemma BackoffDoubles(attempt: nat)
    ensures BackoffDelay(0) == RETRY_DELAY
    ensures attempt > 0 ==> BackoffDelay(attempt) == 2 * BackoffDelay(attempt - 1)
  {
  }

  /** The waits requested after the first `k` failed attempts. */
  function Schedule(k: nat): (s: seq<nat>)
    ensures |s| == k
    ensures forall j :: 0 <= j < k ==> s[j] == BackoffDelay(j)
  {
    if k == 0 then [] else Schedule(k - 1) + [BackoffDelay(k - 1)]
  }

  /** One run of the retry loop: what it returns or throws, how often it called `fn`, the waits. */
  datatype Run<+T> = Run(result: Outcome<T>, calls: nat, delays: seq<nat>)

  /** The run of the loop from attempt `attempt` on. */
  function RetryFrom<T>(fn: nat -> Outcome<T>, maxRetries: int, attempt: nat): Run<T>
    decreases maxRetries - attempt
  {
    if attempt > maxRetries then Run(Err(MAX_RETRIES_EXCEEDED), 0, [])
    else
      match fn(attempt)
      case Ok(v) => Run(Ok(v), 1, [])
      case Err(e) =>
        if attempt == maxRetries || !IsRateLimit(e) then Run(Err(e), 1, [])
        else
          var rest := RetryFrom(fn, maxRetries, attempt + 1);
          Run(rest.result, rest.calls + 1, [BackoffDelay(attempt)] + rest.delays)
  }

  /** The run of `retryWithBackoff(fn, maxRetries)`. */
  function Retry<T>(fn: nat -> Outcome<T>, maxRetries: int): Run<T> {
    RetryFrom(fn, maxRetries, 0)
  }

  /** The retry loop itself. */
  method RetryWithBackoff<T>(fn: nat -> Outcome<T>, maxRetries: int)
    returns (r: Outcome<T>, ghost calls: nat, ghost delays: seq<nat>)
    ensures r == Retry(fn, maxRetries).result
    ensures calls == Retry(fn, maxRetries).calls && delays == Retry(fn, maxRetries).delays
  {
    calls, delays := 0, [];
    var attempt: nat := 0;
    while attempt <= maxRetries
      invariant calls == attempt && delays == Schedule(attempt)
      invariant
        var rest := RetryFrom(fn, maxRetries, attempt);
        Retry(fn, maxRetries) == Run(rest.result, attempt + rest.calls, delays + rest.delays)
      decreases maxRetries - attempt
    {
      var outcome := fn(attempt);
      calls := calls + 1;
      match outcome {
        case Ok(v) =>
          r := Ok(v);
          return;
        case Err(e) =>
          var isLastAttempt := attempt == maxRetries;
          if isLastAttempt || !IsRateLimit(e) {
            r := Err(e);
            return;
          }
      }
      ghost var rest := RetryFrom(fn, maxRetries, attempt + 1);
      assert delays + [BackoffDelay(attempt)] + rest.delays == delays + ([BackoffDelay(attempt)] + rest.delays);
      delays := delays + [BackoffDelay(attempt)];
      attempt := attempt + 1;
    }
    r := Err(MAX_RETRIES_EXCEEDED);
  }

  /**
   * Soundness: a run that called `fn` returns exactly what its last call produced;
   * every earlier call failed with a rate-limit error; the last call was either
   * decisive (a success or a non-rate-limit error) or the final allowed attempt;
   * so `fn` is called at most `maxRetries + 1` times, and one wait doubling from
   * 2000 ms precedes each call after the first. A run that never called `fn`
   * happens exactly when `maxRetries < 0` and throws "Max retries exceeded".
   */
  lemma {:induction false} RetrySound<T>(fn: nat -> Outcome<T>, maxRetries: int)
    ensures var run := Retry(fn, maxRetries);
      (run.calls == 0 <==> maxRetries < 0) &&
      (run.calls == 0 ==> run.result == Err(MAX_RETRIES_EXCEEDED) && run.delays == []) &&
      (run.calls > 0 ==>
        run.calls <= maxRetries + 1 &&
        run.result == fn(run.calls - 1) &&
        (forall j :: 0 <= j < run.calls - 1 ==> RateLimited(fn(j))) &&
        (run.calls - 1 == maxRetries || !RateLimited(fn(run.calls - 1))) &&
        run.delays == Schedule(run.calls - 1))
  {
    if maxRetries >= 0 {
      RetryFromSound(fn, maxRetries, 0);
    }
  }

  lemma {:induction false} RetryFromSound<T>(fn: nat -> Outcome<T>, maxRetries: int, attempt: nat)
    requires attempt <= maxRetries
    ensures var run := RetryFrom(fn, maxRetries, attempt);
      var last := attempt + run.calls - 1;
      run.calls >= 1 && last <= maxRetries &&
      run.result == fn(last) &&
      (forall j :: attempt <= j < last ==> RateLimited(fn(j))) &&
      (last == maxRetries || !RateLimited(fn(last))) &&
      |run.delays| == run.calls - 1 &&
      forall j :: 0 <= j < |run.delays| ==> run.delays[j] == BackoffDelay(attempt + j)
  {
    RetryFromStops(fn, maxRetries, attempt);
    RetryFromRetriesRateLimits(fn, maxRetries, attempt);
    RetryFromWaits(fn, maxRetries, attempt);
  }

  /** The run from `attempt` ends with a call that is decisive or the last allowed one, and returns what it produced. */
  lemma {:induction false} RetryFromStops<T>(fn: nat -> Outcome<T>, maxRetries: int, attempt: nat)
    requires attempt <= maxRetries
    ensures var run := RetryFrom(fn, maxRetries, attempt);
      var last := attempt + run.calls - 1;
      run.calls >= 1 && last <= maxRetries && run.result == fn(last) &&
      (last == maxRetries || !RateLimited(fn(last)))
    decreases maxRetries - attempt
  {
    if fn(attempt).Err? && attempt < maxRetries && IsRateLimit(fn(attempt).error) {
      RetryFromStops(fn, maxRetries, attempt + 1);
    }
  }

  /** Every call of the run before its last one was rate-limited. */
  lemma {:induction false} RetryFromRetriesRateLimits<T>(fn: nat -> Outcome<T>, maxRetries: int, attempt: nat)
    requires attempt <= maxRetries
    ensures var run := RetryFrom(fn, maxRetries, attempt);
      forall j :: attempt <= j < attempt + run.calls - 1 ==> RateLimited(fn(j))
    decreases maxRetries - attempt
  {
    if fn(attempt).Err? && attempt < maxRetries && IsRateLimit(fn(attempt).error) {
      RetryFromRetriesRateLimits(fn, maxRetries, attempt + 1);
    }
  }

  /** The run waits once after each call but its last, doubling from the wait after `attempt`. */
  lemma {:induction false} RetryFromWaits<T>(fn: nat -> Outcome<T>, maxRetries: int, attempt: nat)
    requires attempt <= maxRetries
    ensures var run := RetryFrom(fn, maxRetries, attempt);
      |run.delays| == run.calls - 1 &&
      forall j :: 0 <= j < |run.delays| ==> run.delays[j] == BackoffDelay(attempt + j)
    decreases maxRetries - attempt
  {
    var run := RetryFrom(fn, maxRetries, attempt);
    if fn(attempt).Err? && attempt < maxRetries && IsRateLimit(fn(attempt).error) {
      var rest := RetryFrom(fn, maxRetries, attempt + 1);
      assert run.calls == rest.calls + 1 && run.delays == [BackoffDelay(attempt)] + rest.delays;
      RetryFromWaits(fn, maxRetries, attempt + 1);
    } else {
      assert run.calls == 1 && run.delays == [];
    }
  }

  /**
   * Completeness: when the first `k` calls fail with rate-limit errors and call `k`
   * is decisive (or is the last allowed one), the loop makes exactly `k + 1` calls,
   * waits 2000, 4000, ... ms before the retries, and returns or throws what call `k`
   * produced. In particular a non-rate-limit error at call `k` is thrown at once,
   * and when every allowed call is rate-limited the last error is thrown.
   */
  lemma {:induction false} RetryStopsAtFirstDecisive<T>(fn: nat -> Outcome<T>, maxRetries: int, k: nat)
    requires k <= maxRetries
    requires forall j :: 0 <= j < k ==> RateLimited(fn(j))
    requires k == maxRetries || !RateLimited(fn(k))
    ensures Retry(fn, maxRetries) == Run(fn(k), k + 1, Schedule(k))
  {
    RetrySound(fn, maxRetries);
  }

  /** With the default `MAX_RETRIES = 3` the waits are 2000, 4000 and 8000 ms. */
  lemma DefaultSchedule()
    ensures Schedule(MAX_RETRIES) == [2000, 4000, 8000]
  {
    assert Pow2(2) == 4;
  }

  /** An operation that never throws is called once and its value is returned. */
  lemma {:induction false} RetryTransparent<T>(fn: nat -> Outcome<T>, maxRetries: int)
    requires maxRetries >= 0
    requires fn(0).Ok?
    ensures Retry(fn, maxRetries) == Run(fn(0), 1, [])
  {
    RetryStopsAtFirstDecisive(fn, maxRetries, 0);
  }
}
