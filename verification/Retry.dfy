/** Bounded retry and saturating backoff: retry/backoff.go, retry/policy.go and the shared
    retry loop of runtime.go. */
module Retry {
  import opened Basics

  // Durations and attempt numbers are 64-bit. Every operation on this type carries a
  // proof obligation that it stays in range.
  newtype Int64 = x: int | -0x8000_0000_0000_0000 <= x < 0x8000_0000_0000_0000

  const MAX_DURATION: Int64 := 0x7FFF_FFFF_FFFF_FFFF

  function ClampDuration(delay: Int64): Int64 {
    if delay < 0 then 0 else delay
  }

  function Min(a: int, b: int): int { if a < b then a else b }
  function Max(a: int, b: int): int { if a < b then b else a }

  /** The cap a linear backoff saturates at. */
  function LinearLimit(max: Int64): Int64 {
    if ClampDuration(max) > 0 then ClampDuration(max) else MAX_DURATION
  }

  /** The delay of Linear(step, max) after the given failed attempt. */
  function LinearDelay(step: Int64, max: Int64, attempt: Int64): (delay: Int64)
    ensures delay as int
         == Min(Max(attempt as int, 1) * ClampDuration(step) as int, LinearLimit(max) as int)
  {
    var step := ClampDuration(step);
    var attempt := if attempt < 1 then 1 else attempt;
    if step == 0 then 0
    else
      var limit := LinearLimit(max);
      QuotientBound(attempt as int, step as int, limit as int);
      if attempt > limit / step then limit else attempt * step
  }

  /** The saturation test by division decides exactly whether the product passes the limit. */
  lemma QuotientBound(attempt: int, step: int, limit: int)
    requires attempt >= 1 && step >= 1 && limit >= 0
    ensures attempt > limit / step <==> attempt * step > limit
  {
    var q := limit / step;
    assert limit == q * step + limit % step;
    if attempt > q {
      assert attempt * step >= (q + 1) * step;
    } else {
      assert attempt * step <= q * step;
    }
  }

  datatype Backoff =
    | Constant(delay: Int64)
    | Linear(step: Int64, max: Int64)
    | BackoffFunc(f: Int64 -> Int64)
  {
    function Delay(attempt: Int64): Int64 {
      match this
      case Constant(delay) => ClampDuration(delay)
      case Linear(step, max) => ClampDuration(LinearDelay(step, max, attempt))
      case BackoffFunc(f) => ClampDuration(f(attempt))
    }
  }

  /** The retry policies the package constructs. A jitter is an arbitrary function of the
      base delay and the attempt. */
  datatype Policy =
    | Never
    | Config(maxAttempts: Int64, backoff: Option<Backoff>, jitter: Option<(Int64, Int64) -> Int64>,
             retryable: Option<Error -> bool>)
  {
    /** The delay before the next attempt, or None when the policy gives up. */
    function NextDelay(attempt: Int64, err: Error): Option<Int64> {
      match this
      case Never => None
      case Config(maxAttempts, backoff, jitter, retryable) =>
        var attempt := if attempt < 1 then 1 else attempt;
        if maxAttempts < 2 || attempt >= maxAttempts then None
        else if retryable.Some? && !retryable.value(err) then None
        else
          var base := if backoff.Some? then backoff.value.Delay(attempt) else 0;
          var delay := if jitter.Some? then jitter.value(base, attempt) else base;
          Some(if delay < 0 then 0 else delay)
    }

    /** The number of calls the policy can ever lead to. */
    function Bound(): (m: int)
      ensures 1 <= m < 0x8000_0000_0000_0000
    {
      match this
      case Never => 1
      case Config(maxAttempts, _, _, _) => Max(maxAttempts as int, 1)
    }
  }

  function Attempts(maxAttempts: Int64, backoff: Option<Backoff>, jitter: Option<(Int64, Int64) -> Int64>): Policy {
    Config(maxAttempts, backoff, jitter, None)
  }

  function AttemptsIf(maxAttempts: Int64, backoff: Option<Backoff>, jitter: Option<(Int64, Int64) -> Int64>,
                      retryable: Option<Error -> bool>): Policy {
    if retryable.None? then Never else Config(maxAttempts, backoff, jitter, retryable)
  }

  /** Bounded policies allow another attempt exactly while attempts are left, and for the
      failures their predicate accepts, after a delay that is never negative. */
  lemma BoundedPoliciesRetry(m: Int64, backoff: Option<Backoff>, jitter: Option<(Int64, Int64) -> Int64>,
                             retryable: Option<Error -> bool>, attempt: Int64, err: Error)
    ensures Attempts(m, backoff, jitter).NextDelay(attempt, err).Some? <==> Max(attempt as int, 1) < m as int
    ensures AttemptsIf(m, backoff, jitter, retryable).NextDelay(attempt, err).Some? <==>
              retryable.Some? && retryable.value(err) && Max(attempt as int, 1) < m as int
    ensures var next := AttemptsIf(m, backoff, jitter, retryable).NextDelay(attempt, err);
            next.Some? ==> next.value >= 0
  {
  }

  /** The delay of each backoff, as a number: never negative, the same after every attempt for a
      constant one, and whatever the function says for a custom one. */
  lemma BackoffDelays(delay: Int64, step: Int64, max: Int64, f: Int64 -> Int64, attempt: Int64)
    ensures Constant(delay).Delay(attempt) as int == Max(delay as int, 0)
    ensures BackoffFunc(f).Delay(attempt) as int == Max(f(attempt) as int, 0)
    ensures Linear(step, max).Delay(attempt) as int
         == Min(Max(attempt as int, 1) * Max(step as int, 0),
                if max > 0 then max as int else 0x7FFF_FFFF_FFFF_FFFF)
  {
  }

  /** The delay the loop waits: none without backoff, else that of the backoff after the same
      attempt, and the first attempt's for anything below it; a jitter is given that base and
      the attempt, and what it answers is not waited if negative. */
  lemma NextDelayIsJittered(policy: Policy, attempt: Int64, err: Error)
    requires policy.NextDelay(attempt, err).Some?
    ensures policy.Config?
    ensures var k: Int64 := if attempt < 1 then 1 else attempt;
            var base := if policy.backoff.None? then 0 else policy.backoff.value.Delay(k);
            policy.NextDelay(attempt, err).value as int
            == if policy.jitter.None? then base as int else Max(policy.jitter.value(base, k) as int, 0)
  {
  }

  /** The wait of n failed attempts under Attempts(m, Constant(delay)) without jitter. */
  lemma {:induction false} ConstantTotalWait(m: Int64, delay: Int64, operation: Int64 -> Option<Error>, n: Int64)
    requires 0 <= n < m
    requires forall k: Int64 :: 1 <= k <= n ==> operation(k).Some?
    ensures TotalWait(Attempts(m, Some(Constant(delay)), None), operation, n) == n as int * Max(delay as int, 0)
    decreases n as int
  {
    if n > 0 {
      ConstantTotalWait(m, delay, operation, n - 1);
      Distributes(Max(delay as int, 0), n as int - 1, 1);
    }
  }

  lemma LinearIsMonotone(step: Int64, max: Int64, earlier: Int64, later: Int64)
    requires earlier <= later
    ensures LinearDelay(step, max, earlier) <= LinearDelay(step, max, later)
  {
    var s := ClampDuration(step) as int;
    assert Max(earlier as int, 1) * s <= Max(later as int, 1) * s;
  }

  // ---------------------------------------------------------------------------
  // The shared retry loop.

  /** A context as the loop sees it: cancelled from some point on, or never. Point 2k lies
      after attempt k, point 2k+1 inside the wait that follows it. */
  predicate Cancelled(cancelPoint: Option<nat>, point: nat) {
    cancelPoint.Some? && cancelPoint.value <= point
  }

  /** The loop goes on past attempt k. */
  predicate RetriedAfter(policy: Policy, operation: Int64 -> Option<Error>, cancelPoint: Option<nat>, k: Int64)
    requires 1 <= k
  {
    && operation(k).Some?
    && !Cancelled(cancelPoint, 2 * (k as nat))
    && var next := policy.NextDelay(k, operation(k).value);
       next.Some? && (next.value > 0 ==> !Cancelled(cancelPoint, 2 * (k as nat) + 1))
  }

  /** The loop's answer when it does not go on past attempt k. */
  function FinalError(policy: Policy, operation: Int64 -> Option<Error>, cancelPoint: Option<nat>,
                      k: Int64): Option<Error>
    requires 1 <= k
  {
    if operation(k).None? then None
    else if Cancelled(cancelPoint, 2 * (k as nat)) then Some(ContextDone)
    else if policy.NextDelay(k, operation(k).value).None? then operation(k)
    else Some(ContextDone)
  }

  /** The waits after attempts 1..n, added up. */
  function TotalWait(policy: Policy, operation: Int64 -> Option<Error>, n: Int64): int
    requires 0 <= n
    decreases n as int
  {
    if n == 0 then 0
    else
      TotalWait(policy, operation, n - 1) +
      (if operation(n).Some? && policy.NextDelay(n, operation(n).value).Some?
       then policy.NextDelay(n, operation(n).value).value as int else 0)
  }

  /** runWithRetry: the first attempt after which the loop does not go on decides the result. */
  method RunWithRetry(policy: Policy, operation: Int64 -> Option<Error>, cancelPoint: Option<nat>)
    returns (err: Option<Error>, attempts: Int64, waited: int)
    ensures 1 <= attempts && attempts as int <= policy.Bound()
    ensures forall k: Int64 :: 1 <= k < attempts ==> RetriedAfter(policy, operation, cancelPoint, k)
    ensures !RetriedAfter(policy, operation, cancelPoint, attempts)
    ensures err == FinalError(policy, operation, cancelPoint, attempts)
    ensures waited == TotalWait(policy, operation, attempts - 1)
  {
    attempts, waited := 1, 0;
    while true
      invariant 1 <= attempts && attempts as int <= policy.Bound()
      invariant forall k: Int64 :: 1 <= k < attempts ==> RetriedAfter(policy, operation, cancelPoint, k)
      invariant waited == TotalWait(policy, operation, attempts - 1)
      decreases policy.Bound() - attempts as int
    {
      err := operation(attempts);
      if err.None? {
        return;
      }
      if Cancelled(cancelPoint, 2 * (attempts as nat)) {
        err := Some(ContextDone);
        return;
      }
      var next := policy.NextDelay(attempts, err.value);
      if next.None? {
        return;
      }
      if next.value > 0 && Cancelled(cancelPoint, 2 * (attempts as nat) + 1) {
        err := Some(ContextDone);
        return;
      }
      waited := waited + next.value as int;
      attempts := attempts + 1;
    }
  }

  /** What the answer means. Nil is the operation's own; an error that is not the last attempt's
      is the context's, and the context was done by the end of the wait; an operation is given
      up with its context alive only because its policy says so; and every earlier attempt
      failed, was found worth retrying, and left the context alive. */
  lemma RetryAnswers(policy: Policy, operation: Int64 -> Option<Error>, cancelPoint: Option<nat>, attempts: Int64,
                     err: Option<Error>, k: Int64)
    requires 1 <= k <= attempts
    requires k < attempts ==> RetriedAfter(policy, operation, cancelPoint, k)
    requires !RetriedAfter(policy, operation, cancelPoint, attempts)
    requires err == FinalError(policy, operation, cancelPoint, attempts)
    ensures err.None? <==> operation(attempts).None?
    ensures err.Some? && err != operation(attempts) ==>
              err == Some(ContextDone) && Cancelled(cancelPoint, 2 * (attempts as nat) + 1)
    ensures err.Some? && Cancelled(cancelPoint, 2 * (attempts as nat)) ==> err == Some(ContextDone)
    ensures err.Some? && !Cancelled(cancelPoint, 2 * (attempts as nat) + 1) ==>
              err == operation(attempts) && policy.NextDelay(attempts, err.value).None?
    ensures k < attempts ==>
            && operation(k).Some? && policy.NextDelay(k, operation(k).value).Some?
              && !Cancelled(cancelPoint, 2 * (k as nat))
  {
  }

  /** Twice the wait of n failed attempts: linear growth up to attempt k, the limit from
      there on. */
  function TwiceLinearWait(step: int, limit: int, k: int, n: int): int {
    if n <= k then step * (n * (n + 1)) else step * (k * (k + 1)) + 2 * ((n - k) * limit)
  }

  lemma TwiceLinearWaitStep(step: int, limit: int, k: int, n: int)
    requires 1 <= n
    ensures TwiceLinearWait(step, limit, k, n)
         == TwiceLinearWait(step, limit, k, n - 1) + 2 * (if n <= k then n * step else limit)
  {
    if n <= k {
      calc {
        step * (n * (n + 1));
      == { assert n * (n + 1) == (n - 1) * n + 2 * n; }
        step * ((n - 1) * n + 2 * n);
      == { Distributes(step, (n - 1) * n, 2 * n); }
        step * ((n - 1) * n) + step * (2 * n);
      == { assert step * (2 * n) == 2 * (n * step); }
        step * ((n - 1) * n) + 2 * (n * step);
      }
    } else {
      Distributes(limit, n - 1 - k, 1);
      if n - 1 == k {
        assert (n - k) * limit == limit;
      }
    }
  }

  lemma Distributes(a: int, b: int, c: int)
    ensures a * (b + c) == a * b + a * c && (b + c) * a == b * a + c * a
  {
  }

  /** The wait of n failed attempts under Attempts(m, Linear(step, max)) without jitter, in
      closed form. */
  lemma {:induction false} LinearTotalWait(m: Int64, step: Int64, max: Int64, operation: Int64 -> Option<Error>,
                                           n: Int64)
    requires step > 0 && 0 <= n < m
    requires forall k: Int64 :: 1 <= k <= n ==> operation(k).Some?
    ensures var limit := LinearLimit(max) as int;
            2 * TotalWait(Attempts(m, Some(Linear(step, max)), None), operation, n)
            == TwiceLinearWait(step as int, limit, limit / step as int, n as int)
    decreases n as int
  {
    var limit := LinearLimit(max) as int;
    var k := limit / step as int;
    if n == 0 {
      QuotientBound(1, step as int, limit);
    } else {
      LinearTotalWait(m, step, max, operation, n - 1);
      QuotientBound(n as int, step as int, limit);
      TwiceLinearWaitStep(step as int, limit, k, n as int);
      assert LinearDelay(step, max, n) as int == if n as int <= k then n as int * step as int else limit;
    }
  }
}
