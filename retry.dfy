/**
 * The `async_retry` decorator of utils/retry.py, and the exception values
 * that flow through it. An exception is its class tag and its `str()` text.
 * `PermanentError` and `TemporaryError` are the two tags the rest of the
 * code imports from this module; they are distinct from each other and
 * from Playwright's timeout.
 */
module Retry {

  datatype ExceptionKind =
    | PermanentError
    | TemporaryError
    | PlaywrightTimeout   // playwright's TimeoutError
    | UnboundLocal        // Python's UnboundLocalError
    | OtherException      // any other Exception subclass

  datatype Exception = Exception(kind: ExceptionKind, message: string)

  /** What one call of the wrapped coroutine does: return a value or raise. */
  datatype Outcome<T> = Returned(value: T) | Raised(error: Exception)

  /** What the wrapper does: return a value, re-raise, or fall off the loop and return `None`. */
  datatype RetryResult<T> = Value(value: T) | Propagated(error: Exception) | NoneReturned

  /** A finished retry run: its result and how many times the wrapped function was called. */
  datatype Run<T> = Run(result: RetryResult<T>, calls: nat)

  function Power(b: real, n: nat): real {
    if n == 0 then 1.0 else Power(b, n - 1) * b
  }

  /** The value of `delay` after `n` multiplications by `factor`. */
  function Delay(baseDelay: real, factor: real, n: nat): real {
    if n == 0 then baseDelay else Delay(baseDelay, factor, n - 1) * factor
  }

  /** `delay` grows geometrically: after `n` updates it is `baseDelay * factor^n`. */
  lemma {:induction false} DelayIsGeometric(baseDelay: real, factor: real, n: nat)
    ensures Delay(baseDelay, factor, n) == baseDelay * Power(factor, n)
  {
    if n > 0 {
      DelayIsGeometric(baseDelay, factor, n - 1);
      calc {
        Delay(baseDelay, factor, n);
        (baseDelay * Power(factor, n - 1)) * factor;
        baseDelay * (Power(factor, n - 1) * factor);
      }
    }
  }

  /** The loop from `attempt` on, the first `attempt - 1` calls having raised. */
  function RunFrom<T>(attempt: nat, maxAttempts: int, call: nat -> Outcome<T>): Run<T>
    requires attempt >= 1
    decreases maxAttempts - attempt
  {
    if attempt > maxAttempts then Run(NoneReturned, attempt - 1)
    else match call(attempt - 1)
      case Returned(v) => Run(Value(v), attempt)
      case Raised(e) =>
        if attempt == maxAttempts then Run(Propagated(e), attempt)
        else RunFrom(attempt + 1, maxAttempts, call)
  }

  /**
   * The specification of a wrapped call: `call(k)` is what attempt `k + 1`
   * does. The wrapped function is called at most `maxAttempts` times (never
   * when `maxAttempts <= 0`, in which case the wrapper returns `None`);
   * every call but the last raised; a returned value is the last call's; a
   * propagated exception is the last call's and comes after `maxAttempts`
   * calls.
   */
  function Retried<T>(maxAttempts: int, call: nat -> Outcome<T>): (r: Run<T>)
    ensures maxAttempts <= 0 ==> r == Run(NoneReturned, 0)
    ensures maxAttempts >= 1 ==> 1 <= r.calls <= maxAttempts && !r.result.NoneReturned?
    ensures RaisedBefore(call, r.calls - 1)
    ensures r.result.Value? ==> call(r.calls - 1) == Returned(r.result.value)
    ensures r.result.Propagated? ==> r.calls == maxAttempts && call(r.calls - 1) == Raised(r.result.error)
  {
    RunFromShape(1, maxAttempts, call);
    RunFrom(1, maxAttempts, call)
  }

  /**
   * The wrapper: `delay` starts at `baseDelay`; after a raising attempt that
   * is not the last it sleeps `delay` plus `jitter(k)` (the `random.random() * 0.1`
   * of the k-th sleep) and multiplies `delay` by `factor`. Every exception is
   * retried alike. `sleeps` lists the durations slept, in order.
   */
  method AsyncRetry<T>(maxAttempts: int, baseDelay: real, factor: real,
                       call: nat -> Outcome<T>, jitter: nat -> real)
      returns (result: RetryResult<T>, calls: nat, sleeps: seq<real>)
    requires forall k :: 0.0 <= jitter(k) < 0.1
    ensures Run(result, calls) == Retried(maxAttempts, call)
    ensures |sleeps| == if calls == 0 then 0 else calls - 1
    ensures forall k :: 0 <= k < |sleeps| ==> sleeps[k] == Delay(baseDelay, factor, k) + jitter(k)
  {
    var delay := baseDelay;
    var attempt := 1;
    calls, sleeps := 0, [];
    while attempt <= maxAttempts
      invariant 1 <= attempt && calls == attempt - 1 && |sleeps| == calls
      invariant maxAttempts >= 1 ==> attempt <= maxAttempts
      invariant delay == Delay(baseDelay, factor, attempt - 1)
      invariant forall k {:trigger sleeps[k]} :: 0 <= k < |sleeps| ==> sleeps[k] == Delay(baseDelay, factor, k) + jitter(k)
      invariant Retried(maxAttempts, call) == RunFrom(attempt, maxAttempts, call)
      decreases maxAttempts - attempt
    {
      var outcome := call(attempt - 1);
      calls := calls + 1;
      if outcome.Returned? {
        result := Value(outcome.value);
        return;
      }
      if attempt == maxAttempts {
        result := Propagated(outcome.error);
        return;
      }
      assert RunFrom(attempt, maxAttempts, call) == RunFrom(attempt + 1, maxAttempts, call);
      sleeps := sleeps + [delay + jitter(attempt - 1)];
      delay := delay * factor;
      attempt := attempt + 1;
    }
    result := NoneReturned;
  }

  // ---------------------------------------------------------------------
  // Properties of the retry specification

  /** Every call before `attempt` raised: the invariant of the loop. */
  ghost predicate RaisedBefore<T>(call: nat -> Outcome<T>, n: int) {
    forall k :: 0 <= k < n ==> call(k).Raised?
  }

  lemma {:induction false} RunFromShape<T>(attempt: nat, maxAttempts: int, call: nat -> Outcome<T>)
    requires 1 <= attempt
    requires RaisedBefore(call, attempt - 1)
    ensures var r := RunFrom(attempt, maxAttempts, call);
      && (maxAttempts < attempt ==> r == Run(NoneReturned, attempt - 1))
      && (attempt <= maxAttempts ==> attempt <= r.calls <= maxAttempts && !r.result.NoneReturned?)
      && RaisedBefore(call, r.calls - 1)
      && (r.result.Value? ==> r.calls >= 1 && call(r.calls - 1) == Returned(r.result.value))
      && (r.result.Propagated? ==> r.calls == maxAttempts && call(r.calls - 1) == Raised(r.result.error))
    decreases maxAttempts - attempt
  {
    if attempt <= maxAttempts && call(attempt - 1).Raised? && attempt < maxAttempts {
      RunFromShape(attempt + 1, maxAttempts, call);
    }
  }

  /** The first attempt that returns decides the result, and no later attempt is made. */
  lemma {:induction false} FirstReturnWins<T>(maxAttempts: int, call: nat -> Outcome<T>, k: nat)
    requires k < maxAttempts && call(k).Returned? && RaisedBefore(call, k)
    ensures Retried(maxAttempts, call) == Run(Value(call(k).value), k + 1)
  {
    RunFromReturn(1, maxAttempts, call, k);
  }

  lemma {:induction false} RunFromReturn<T>(attempt: nat, maxAttempts: int, call: nat -> Outcome<T>, k: nat)
    requires 1 <= attempt <= k + 1 && k < maxAttempts && call(k).Returned? && RaisedBefore(call, k)
    ensures RunFrom(attempt, maxAttempts, call) == Run(Value(call(k).value), k + 1)
    decreases k + 1 - attempt
  {
    if attempt <= k {
      RunFromReturn(attempt + 1, maxAttempts, call, k);
    }
  }

  /** When every one of the `maxAttempts` calls raises, the last exception propagates. */
  lemma {:induction false} AllRaisedPropagates<T>(maxAttempts: int, call: nat -> Outcome<T>)
    requires maxAttempts >= 1 && RaisedBefore(call, maxAttempts)
    ensures Retried(maxAttempts, call) == Run(Propagated(call(maxAttempts - 1).error), maxAttempts)
  {
    RunFromRaise(1, maxAttempts, call);
  }

  lemma {:induction false} RunFromRaise<T>(attempt: nat, maxAttempts: int, call: nat -> Outcome<T>)
    requires 1 <= attempt <= maxAttempts && RaisedBefore(call, maxAttempts)
    ensures RunFrom(attempt, maxAttempts, call) == Run(Propagated(call(maxAttempts - 1).error), maxAttempts)
    decreases maxAttempts - attempt
  {
    if attempt < maxAttempts {
      RunFromRaise(attempt + 1, maxAttempts, call);
    }
  }

  /**
   * No exception short-circuits the loop: a first attempt that raises a
   * `PermanentError` is followed by a second attempt whenever one is allowed.
   */
  lemma PermanentErrorIsRetried<T>(maxAttempts: int, call: nat -> Outcome<T>)
    requires maxAttempts >= 2 && call(0).Raised? && call(0).error.kind == PermanentError
    ensures Retried(maxAttempts, call).calls >= 2
  {
  }

  /** Raising twice and then returning, under three attempts, makes three calls. */
  lemma FlakyThenSuccess(v: string, e: Exception)
    ensures var call := (k: nat) => if k < 2 then Raised(e) else Returned(v);
      Retried(3, call) == Run(Value(v), 3)
  {
  }

  /** A wrapped function that never raises is called exactly once. */
  lemma NeverRaisingCalledOnce<T>(maxAttempts: int, call: nat -> Outcome<T>)
    requires maxAttempts >= 1 && call(0).Returned?
    ensures Retried(maxAttempts, call) == Run(Value(call(0).value), 1)
  {
    FirstReturnWins(maxAttempts, call, 0);
  }

  /**
   * The sleep before attempt `k + 2` is `baseDelay * factor^k` plus a jitter
   * in `[0, 0.1)`.
   */
  lemma SleepBounds(baseDelay: real, factor: real, jitter: nat -> real, sleeps: seq<real>)
    requires forall k :: 0.0 <= jitter(k) < 0.1
    requires forall k :: 0 <= k < |sleeps| ==> sleeps[k] == Delay(baseDelay, factor, k) + jitter(k)
    ensures forall k :: 0 <= k < |sleeps| ==>
      baseDelay * Power(factor, k) <= sleeps[k] < baseDelay * Power(factor, k) + 0.1
  {
    forall k | 0 <= k < |sleeps|
      ensures baseDelay * Power(factor, k) <= sleeps[k] < baseDelay * Power(factor, k) + 0.1
    {
      DelayIsGeometric(baseDelay, factor, k);
    }
  }
}
