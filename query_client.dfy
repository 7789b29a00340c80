/**
 * The retry policy of the query client (src/lib/queryClient.ts): the `retry` and
 * `retryDelay` callbacks, which read the failure through `toApiError`.
 */
module QueryClient {
  import opened Wrappers
  import opened JsonValue
  import opened ApiErrorType
  import ToApiError
  import NormalizeApiError

  /** `2 ** n`. */
  function Pow2(n: nat): (p: nat)
    ensures p >= 1
  {
    if n == 0 then 1 else 2 * Pow2(n - 1)
  }

  function Min(a: int, b: int): int {
    if a <= b then a else b
  }

  lemma {:induction false} Pow2Monotone(m: nat, n: nat)
    requires m <= n
    ensures Pow2(m) <= Pow2(n)
    decreases n
  {
    if m < n {
      Pow2Monotone(m, n - 1);
    }
  }

  /** `retry(failureCount, error)`: only a recognised, retriable error, and fewer than three failures so far. */
  function ShouldRetry(failureCount: int, error: Json): (retry: bool)
    ensures retry ==> failureCount < 3 && ToApiError.Recognise(error) == Some(error)
  {
    match ToApiError.Recognise(error)
    case None => false
    case Some(apiError) => if Get(apiError, "retriable") != JBool(true) then false else failureCount < 3
  }

  /** `apiError?.status === 429`. */
  predicate IsTooManyRequests(error: Json) {
    var apiError := ToApiError.Recognise(error);
    apiError.Some? && Get(apiError.value, "status") == JNum(429)
  }

  /** `retryDelay(attempt, error)` in milliseconds: capped exponential backoff, with a longer base and cap for 429. */
  function RetryDelay(attempt: nat, error: Json): (delay: int)
    ensures 500 <= delay <= 10000
  {
    if IsTooManyRequests(error) then Min(1000 * Pow2(attempt), 10000) else Min(500 * Pow2(attempt), 8000)
  }

  /** A retry happens exactly for a recognised error whose `retriable` is true, while fewer than three failures have occurred. */
  lemma ShouldRetryIff(failureCount: int, error: Json)
    ensures ShouldRetry(failureCount, error) <==>
      ToApiError.Recognise(error).Some? && Get(error, "retriable") == JBool(true) && failureCount < 3
  {
  }

  /** An unrecognised error, or one not retriable, is never retried, whatever the count. */
  lemma NeverRetried(failureCount: int, error: Json)
    requires ToApiError.Recognise(error).None? || Get(error, "retriable") == JBool(false)
    ensures !ShouldRetry(failureCount, error)
  {
  }

  /** For a retriable canonical error, the second retry is allowed and the third is refused. */
  lemma RetryCap(e: ApiError)
    requires e.retriable
    ensures ShouldRetry(2, ToJson(e)) && !ShouldRetry(3, ToJson(e))
    ensures !ShouldRetry(0, ToJson(e.(retriable := false)))
  {
    ToApiError.RecognisesCanonical(e);
    ToApiError.RecognisesCanonical(e.(retriable := false));
  }

  /** The retry decision on a built error depends only on its status: 429, 500, 502, 503 or 0. */
  lemma RetryFollowsStatus(failureCount: int, failure: Json)
    requires NormalizeApiError.WellFormedFailure(failure) && !NormalizeApiError.PassesThrough(failure)
    ensures var status := NormalizeApiError.Build(failure).status;
      ShouldRetry(failureCount, NormalizeApiError.Normalize(failure)) <==>
        status in {429, 500, 502, 503, 0} && failureCount < 3
  {
    ToApiError.RecognisesNormalized(failure);
    ToJsonShape(NormalizeApiError.Build(failure));
    NormalizeApiError.RetriableIff(failure);
  }

  /** For 429: 1000 ms at attempt 0, doubling, 10000 ms from attempt 4 on. */
  lemma TooManyRequestsDelay(attempt: nat, error: Json)
    requires IsTooManyRequests(error)
    ensures RetryDelay(attempt, error) == Min(1000 * Pow2(attempt), 10000)
    ensures attempt == 0 ==> RetryDelay(attempt, error) == 1000
    ensures attempt >= 4 ==> RetryDelay(attempt, error) == 10000
  {
    if attempt >= 4 {
      Pow2Monotone(4, attempt);
    }
  }

  /** For every other error, recognised or not: 500 ms at attempt 0, doubling, 8000 ms from attempt 4 on. */
  lemma OtherDelay(attempt: nat, error: Json)
    requires !IsTooManyRequests(error)
    ensures RetryDelay(attempt, error) == Min(500 * Pow2(attempt), 8000)
    ensures attempt == 0 ==> RetryDelay(attempt, error) == 500
    ensures attempt >= 4 ==> RetryDelay(attempt, error) == 8000
  {
    if attempt >= 4 {
      Pow2Monotone(4, attempt);
    }
  }

  /** The delay never shrinks as attempts grow, and stays between 500 and 10000 ms. */
  lemma DelayMonotoneAndBounded(a: nat, b: nat, error: Json)
    requires a <= b
    ensures RetryDelay(a, error) <= RetryDelay(b, error)
    ensures 500 <= RetryDelay(a, error) <= 10000
  {
    Pow2Monotone(a, b);
  }
}
