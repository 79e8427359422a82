/**
 * The retry executor (retry.go): runs an operation up to a bounded number of
 * times, retrying only a `*retryableError` whose status is transient (429 as in
 * section 4 of RFC 6585; 500, 502, 503, 504 as in sections 15.6.1 and 15.6.3-15.6.5
 * of RFC 9110), with exponential backoff plus jitter and a cancellable wait.
 *
 * Time is integer nanoseconds. The operation is an oracle `fn(i)`: the error the
 * i-th call returns (None for nil). `cancelled(i)` says whether the context is done
 * before the timer of the wait after call i fires; `ctxErr` is `ctx.Err()`.
 */
module Retry {
  import opened Base
  import opened Errors

  /** retryableStatusCodes: Go map from status to true. */
  const RetryableStatusCodes: map<int, bool> :=
    map[429 := true, 500 := true, 502 := true, 503 := true, 504 := true]

  /** `retryableStatusCodes[code]`: a missing key reads as false. */
  predicate IsRetryableStatus(code: int)
  {
    code in RetryableStatusCodes && RetryableStatusCodes[code]
  }

  /** The retryable set is exactly {429, 500, 502, 503, 504}. */
  lemma RetryableStatusSet(code: int)
    ensures IsRetryableStatus(code) <==> code in {429, 500, 502, 503, 504}
  {
  }

  /**
   * Whether withRetry tries again after an error: only when the error is itself a
   * `*retryableError` (a type assertion, not errors.As) with a retryable status.
   */
  predicate ShouldRetry(e: Error)
  {
    e.Retryable? && IsRetryableStatus(e.status)
  }

  /** A retryableError hidden behind any wrapper is not retried, even with status 503. */
  lemma WrappedRetryableNotRetried(p: string, inner: Error, status: int)
    ensures !ShouldRetry(Prefixed(p, Retryable(inner, status)))
    ensures ShouldRetry(Retryable(inner, status)) <==> IsRetryableStatus(status)
  {
  }

  const Millisecond: nat := 1_000_000

  function Pow2(n: nat): (r: nat)
    ensures r >= 1
  {
    if n == 0 then 1 else 2 * Pow2(n - 1)
  }

  /** `time.Duration(1<<uint(attempt)) * 500 * time.Millisecond`, in nanoseconds. */
  function Backoff(attempt: nat): nat
  {
    Pow2(attempt) * 500 * Millisecond
  }

  /** The number of calls allowed: a non-positive maxAttempts is treated as 1. */
  function Attempts(maxAttempts: int): (n: nat)
    ensures n >= 1
  {
    if maxAttempts <= 0 then 1 else maxAttempts
  }

  /**
   * How a run of withRetry ends: the error returned (None for nil), how many times
   * `fn` was called, and whether it ended because the context fired during a wait.
   */
  datatype RetryRun = RetryRun(err: Option<Error>, calls: nat, cancelledWait: bool)

  /** The reference definition of withRetry from call index `i` on, out of `n` calls. */
  function RetryFrom(n: nat, fn: nat -> Option<Error>, cancelled: nat -> bool, ctxErr: Error, i: nat): RetryRun
    requires i < n
    decreases n - i
  {
    var e := fn(i);
    if e.None? then RetryRun(None, i + 1, false)
    else if !ShouldRetry(e.value) then RetryRun(e, i + 1, false)
    else if i == n - 1 then RetryRun(e, i + 1, false)
    else if cancelled(i) then RetryRun(Some(ctxErr), i + 1, true)
    else RetryFrom(n, fn, cancelled, ctxErr, i + 1)
  }

  /** The reference definition of a whole withRetry call. */
  function Retry(maxAttempts: int, fn: nat -> Option<Error>, cancelled: nat -> bool, ctxErr: Error): RetryRun
  {
    RetryFrom(Attempts(maxAttempts), fn, cancelled, ctxErr, 0)
  }

  /**
   * What a run from call `i` looks like: every call before the last failed with a
   * retryable error and its wait completed; the last call decides the result.
   */
  lemma {:induction false} RetryFromShape(n: nat, fn: nat -> Option<Error>, cancelled: nat -> bool, ctxErr: Error, i: nat)
    requires i < n
    ensures var r := RetryFrom(n, fn, cancelled, ctxErr, i);
      && i < r.calls <= n
      && (forall j :: i <= j < r.calls - 1 ==> fn(j).Some? && ShouldRetry(fn(j).value) && !cancelled(j))
      && (fn(r.calls - 1).None? ==> r.err.None? && !r.cancelledWait)
      && (fn(r.calls - 1).Some? && !ShouldRetry(fn(r.calls - 1).value) ==> r.err == fn(r.calls - 1) && !r.cancelledWait)
      && (fn(r.calls - 1).Some? && ShouldRetry(fn(r.calls - 1).value) && r.calls == n ==>
            r.err == fn(r.calls - 1) && !r.cancelledWait)
      && (fn(r.calls - 1).Some? && ShouldRetry(fn(r.calls - 1).value) && r.calls < n ==>
            cancelled(r.calls - 1) && r.err == Some(ctxErr) && r.cancelledWait)
    decreases n - i
  {
    var e := fn(i);
    if e.Some? && ShouldRetry(e.value) && i < n - 1 && !cancelled(i) {
      RetryFromShape(n, fn, cancelled, ctxErr, i + 1);
    }
  }

  /** Calls never exceed max(maxAttempts, 1); a success is the last call made. */
  lemma CallsBounded(maxAttempts: int, fn: nat -> Option<Error>, cancelled: nat -> bool, ctxErr: Error)
    ensures var r := Retry(maxAttempts, fn, cancelled, ctxErr);
      && 1 <= r.calls <= Attempts(maxAttempts)
      && (r.err.None? <==> fn(r.calls - 1).None?)
      && (forall j :: 0 <= j < r.calls - 1 ==> fn(j).Some?)
  {
    RetryFromShape(Attempts(maxAttempts), fn, cancelled, ctxErr, 0);
  }

  /** With maxAttempts <= 0, fn runs exactly once, whatever it returns (retry_test.go:117-129). */
  lemma NonPositiveMaxAttemptsRunsOnce(maxAttempts: int, fn: nat -> Option<Error>, cancelled: nat -> bool, ctxErr: Error)
    requires maxAttempts <= 0
    ensures Retry(maxAttempts, fn, cancelled, ctxErr) == RetryRun(fn(0), 1, false)
  {
  }

  /** An error that is not directly a retryable *retryableError ends the run at once. */
  lemma NonRetryableStopsImmediately(maxAttempts: int, fn: nat -> Option<Error>, cancelled: nat -> bool, ctxErr: Error)
    requires fn(0).Some? && !ShouldRetry(fn(0).value)
    ensures Retry(maxAttempts, fn, cancelled, ctxErr) == RetryRun(fn(0), 1, false)
  {
  }

  /**
   * When every call fails with a retryable error and no wait is cancelled, fn runs
   * exactly max(maxAttempts, 1) times and the last error comes back unchanged
   * (retry_test.go:76-94).
   */
  lemma {:induction false} ExhaustsAttempts(maxAttempts: int, fn: nat -> Option<Error>, cancelled: nat -> bool, ctxErr: Error)
    requires forall j :: 0 <= j < Attempts(maxAttempts) ==> fn(j).Some? && ShouldRetry(fn(j).value) && !cancelled(j)
    ensures var n := Attempts(maxAttempts);
      Retry(maxAttempts, fn, cancelled, ctxErr) == RetryRun(fn(n - 1), n, false)
  {
    var n := Attempts(maxAttempts);
    RetryFromShape(n, fn, cancelled, ctxErr, 0);
  }

  /**
   * A cancelled wait returns the context's error, and fn is not called again:
   * the run stops right after the call whose wait was cancelled.
   */
  lemma CancelledWaitStops(maxAttempts: int, fn: nat -> Option<Error>, cancelled: nat -> bool, ctxErr: Error)
    ensures var r := Retry(maxAttempts, fn, cancelled, ctxErr);
      r.calls >= 1 && (r.cancelledWait ==> r.err == Some(ctxErr) && cancelled(r.calls - 1) && r.calls < Attempts(maxAttempts))
  {
    RetryFromShape(Attempts(maxAttempts), fn, cancelled, ctxErr, 0);
  }

  /**
   * withRetry (retry.go:30-63). Returns what Retry defines, and the durations of the
   * waits it armed: wait i lasts Backoff(i) plus a jitter in [0, Backoff(i)/2), and no
   * wait follows the final call.
   */
  method WithRetry(maxAttempts: int, fn: nat -> Option<Error>, cancelled: nat -> bool, ctxErr: Error)
    returns (err: Option<Error>, calls: nat, waits: seq<nat>)
    ensures Retry(maxAttempts, fn, cancelled, ctxErr) == RetryRun(err, calls, |waits| == calls)
    ensures |waits| == calls - 1 || |waits| == calls
    ensures forall i :: 0 <= i < |waits| ==> Backoff(i) <= waits[i] < Backoff(i) + Backoff(i) / 2
  {
    var n := maxAttempts;
    if n <= 0 {
      n := 1;
    }
    var lastErr: Option<Error> := None;
    calls, waits := 0, [];
    var attempt := 0;
    while attempt < n
      invariant 0 <= attempt <= n && calls == attempt
      invariant attempt < n ==> |waits| == attempt
      invariant attempt < n ==> Retry(maxAttempts, fn, cancelled, ctxErr) == RetryFrom(n, fn, cancelled, ctxErr, attempt)
      invariant attempt == n ==> |waits| == n - 1 && Retry(maxAttempts, fn, cancelled, ctxErr) == RetryRun(lastErr, n, false)
      invariant forall i :: 0 <= i < |waits| ==> Backoff(i) <= waits[i] < Backoff(i) + Backoff(i) / 2
    {
      lastErr := fn(attempt);
      calls := calls + 1;
      if lastErr.None? {
        return None, calls, waits;
      }
      if !ShouldRetry(lastErr.value) {
        return lastErr, calls, waits;
      }
      if attempt < n - 1 {
        var backoff := Backoff(attempt);
        var jitter :| 0 <= jitter < backoff / 2;
        waits := waits + [backoff + jitter];
        if cancelled(attempt) {
          return Some(ctxErr), calls, waits;
        }
      }
      attempt := attempt + 1;
    }
    return lastErr, calls, waits;
  }
}
