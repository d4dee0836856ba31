/**
 * with_retry: calls a remote operation up to a fixed number of times, giving up
 * at once on permanent client errors and on unclassified statuses, and
 * sleeping base_sleep * 2^i after the i-th transient failure.
 */
module Retry {
  import opened Wrappers

  /** What one call of the wrapped operation does. */
  datatype Attempt<T> =
    | Returned(value: T)
      /** An APIResponseError; `status` is None when the error carries no status. */
    | ApiError(status: Option<int>)
      /** Any other exception, which with_retry does not catch. */
    | OtherError

  /** What propagates out of with_retry when it does not return a value. */
  datatype Raised =
    | ApiRaised(status: Option<int>)
    | OtherRaised
      /** `raise None` when the loop never ran: Python raises a TypeError. */
    | NothingToRaise

  datatype RetryResult<T> = Success(value: T) | Failure(raised: Raised)

  /** Statuses that are re-raised at once without another attempt. */
  predicate IsPermanent(status: Option<int>) {
    status == Some(400) || status == Some(403) || status == Some(404)
  }

  /** Statuses that are retried after a back-off: rate limits, server errors, no status. */
  predicate IsTransient(status: Option<int>) {
    status.None? || status == Some(429) || status == Some(500) || status == Some(502)
    || status == Some(503) || status == Some(504)
  }

  /** An attempt after which with_retry sleeps and tries again. */
  predicate Retries<T>(a: Attempt<T>) {
    a.ApiError? && !IsPermanent(a.status) && IsTransient(a.status)
  }

  /**
   * The retry loop. `fn(i)` is the outcome of the i-th call; `calls` is how many
   * calls were made and `sleeps` the exponents i of the back-off delays
   * base_sleep * 2^i, in the order they were slept.
   */
  method WithRetry<T>(fn: nat -> Attempt<T>, maxTries: int)
    returns (result: RetryResult<T>, calls: nat, sleeps: seq<nat>)
    // never more calls than the budget, and at least one when there is a budget
    ensures maxTries <= 0 ==> calls == 0 && result == Failure(NothingToRaise) && sleeps == []
    ensures maxTries > 0 ==> 1 <= calls <= maxTries
    // every call but the last was a transient failure, each followed by a sleep
    ensures forall j :: 0 <= j < calls - 1 ==> Retries(fn(j))
    ensures forall k :: 0 <= k < |sleeps| ==> sleeps[k] == k
    ensures calls > 0 ==> |sleeps| == if Retries(fn(calls - 1)) then calls else calls - 1
    // the loop stops early only on a success or on an error it does not retry
    ensures 0 < calls < maxTries ==> !Retries(fn(calls - 1))
    // what the last call decides
    ensures calls > 0 && fn(calls - 1).Returned? ==> result == Success(fn(calls - 1).value)
    ensures calls > 0 && fn(calls - 1).ApiError? ==> result == Failure(ApiRaised(fn(calls - 1).status))
    ensures calls > 0 && fn(calls - 1).OtherError? ==> result == Failure(OtherRaised)
  {
    var lastErr: Option<Raised> := None;
    calls, sleeps := 0, [];
    var i := 0;
    while i < maxTries
      invariant 0 <= i && (if maxTries > 0 then i <= maxTries else i == 0)
      invariant calls == i && |sleeps| == i
      invariant forall j :: 0 <= j < i ==> Retries(fn(j))
      invariant forall k :: 0 <= k < i ==> sleeps[k] == k
      invariant lastErr == if i > 0 then Some(ApiRaised(fn(i - 1).status)) else None
    {
      var outcome := fn(i);
      calls := calls + 1;
      match outcome {
        case Returned(v) =>
          return Success(v), calls, sleeps;
        case OtherError =>
          return Failure(OtherRaised), calls, sleeps;
        case ApiError(status) =>
          lastErr := Some(ApiRaised(status));
          if IsPermanent(status) {
            return Failure(ApiRaised(status)), calls, sleeps;
          }
          if IsTransient(status) {
            sleeps := sleeps + [i];
            i := i + 1;
            continue;
          }
          return Failure(ApiRaised(status)), calls, sleeps;
      }
    }
    result := if lastErr.Some? then Failure(lastErr.value) else Failure(NothingToRaise);
  }
}
