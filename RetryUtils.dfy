/**
 * Retry and fault-handling helpers: the retry delay schedule, the bounded retry loop, a
 * circuit breaker, and required-field validation. Delays and times are real numbers (seconds).
 */
module RetryUtils {
  import opened Wrappers
  import opened Text

  datatype RetryStrategy = Exponential | Linear | Fixed

  datatype RetryConfig = RetryConfig(
    maxAttempts: int, initialDelay: real, maxDelay: real, multiplier: real, strategy: RetryStrategy)

  /** The defaults of `RetryConfig()`. */
  const DefaultRetryConfig := RetryConfig(3, 1.0, 60.0, 2.0, Exponential)

  function Min(a: real, b: real): real { if a <= b then a else b }

  /** One step of the strategy, before the cap. */
  function Step(c: RetryConfig, current: real): real
  {
    match c.strategy
    case Exponential => current * c.multiplier
    case Linear => current + c.initialDelay
    case Fixed => c.initialDelay
  }

  /** `_calculate_next_delay`: the strategy's next delay, capped at `max_delay`. */
  function NextDelay(current: real, c: RetryConfig): (d: real)
    ensures d <= c.maxDelay
    ensures c.strategy == Exponential ==> d == Min(current * c.multiplier, c.maxDelay)
    ensures c.strategy == Linear ==> d == Min(current + c.initialDelay, c.maxDelay)
    ensures c.strategy == Fixed ==> d == Min(c.initialDelay, c.maxDelay)
  {
    Min(Step(c, current), c.maxDelay)
  }

  function Pow(x: real, n: nat): real
  {
    if n == 0 then 1.0 else x * Pow(x, n - 1)
  }

  /** The delay after `k` updates from `initial_delay`. */
  function DelayAfter(c: RetryConfig, k: nat): real
  {
    if k == 0 then c.initialDelay else NextDelay(DelayAfter(c, k - 1), c)
  }

  /** The schedule without the cap: each strategy's step applied `k` times to `initial_delay`. */
  function Uncapped(c: RetryConfig, k: nat): real
  {
    if k == 0 then c.initialDelay else Step(c, Uncapped(c, k - 1))
  }

  lemma GrowsBy(u: real, m: real)
    requires u >= 0.0 && m >= 1.0
    ensures u * m >= u
  {
  }

  /** Multiplying by at least 1 and capping commutes with capping first. */
  lemma CapCommutes(u: real, m: real, cap: real)
    requires u >= 0.0 && m >= 1.0 && cap >= 0.0
    ensures Min(Min(u, cap) * m, cap) == Min(u * m, cap)
  {
    GrowsBy(u, m);
    GrowsBy(cap, m);
  }

  /** Capping before a step and after it is the same as capping only after it. */
  lemma StepCapCommutes(c: RetryConfig, u: real)
    requires 0.0 <= c.initialDelay <= c.maxDelay && u >= 0.0
    requires c.strategy == Exponential ==> c.multiplier >= 1.0
    ensures Min(Step(c, Min(u, c.maxDelay)), c.maxDelay) == Min(Step(c, u), c.maxDelay)
  {
    if c.strategy == Exponential {
      CapCommutes(u, c.multiplier, c.maxDelay);
    }
  }

  /** The uncapped schedule never decreases and stays non-negative. */
  lemma {:induction false} UncappedGrows(c: RetryConfig, k: nat)
    requires 0.0 <= c.initialDelay
    requires c.strategy == Exponential ==> c.multiplier >= 1.0
    ensures 0.0 <= c.initialDelay <= Uncapped(c, k)
  {
    if k > 0 {
      UncappedGrows(c, k - 1);
      if c.strategy == Exponential {
        GrowsBy(Uncapped(c, k - 1), c.multiplier);
      }
      assert Uncapped(c, k) == Step(c, Uncapped(c, k - 1));
    }
  }

  /**
   * Capping at every step is the same as capping once: the k-th delay is the uncapped
   * schedule's k-th value or `max_delay`, whichever is smaller (for a non-negative initial
   * delay within the cap, and a multiplier of at least 1).
   */
  lemma {:induction false} DelayIsCappedSchedule(c: RetryConfig, k: nat)
    requires 0.0 <= c.initialDelay <= c.maxDelay
    requires c.strategy == Exponential ==> c.multiplier >= 1.0
    ensures DelayAfter(c, k) == Min(Uncapped(c, k), c.maxDelay)
  {
    if k > 0 {
      DelayIsCappedSchedule(c, k - 1);
      UncappedGrows(c, k - 1);
      StepCapCommutes(c, Uncapped(c, k - 1));
    }
  }

  lemma Distribute(a: real, k: nat)
    ensures a * (k + 1) as real == a * k as real + a
  {
  }

  /** The linear schedule in closed form: initial·(k+1). */
  lemma {:induction false} UncappedLinear(c: RetryConfig, k: nat)
    requires c.strategy == Linear
    ensures Uncapped(c, k) == c.initialDelay * (k + 1) as real
  {
    if k > 0 {
      UncappedLinear(c, k - 1);
      Distribute(c.initialDelay, k - 1);
    }
  }

  /** The exponential schedule in closed form: initial·multiplier^k. */
  lemma {:induction false} UncappedExponential(c: RetryConfig, k: nat)
    requires c.strategy == Exponential
    ensures Uncapped(c, k) == c.initialDelay * Pow(c.multiplier, k)
  {
    if k > 0 {
      UncappedExponential(c, k - 1);
      Regroup(c.initialDelay, c.multiplier, Pow(c.multiplier, k - 1));
    }
  }

  lemma Regroup(a: real, m: real, p: real)
    ensures a * (m * p) == (a * p) * m
  {
  }

  /** What one call of the wrapped function does. */
  datatype CallOutcome<V> =
    | Returns(value: V, flagged: bool)       // returned; `flagged` = retry_on_result says retry
    | Throws(error: string, retryable: bool) // raised; `retryable` = matches retry_on_exceptions

  /** What the decorated call ends with: a value, an exception, or None. */
  datatype RetryResult<V> = Value(value: V) | Raise(error: string) | NoValue

  /** The end result, how many times the function ran, and the sleeps taken in between. */
  datatype RetryRun<V> = RetryRun(result: RetryResult<V>, calls: nat, sleeps: seq<real>)

  /**
   * The retry loop from attempt `attempt` on, with the current delay and the last retryable
   * exception seen; `call(i)` is what the i-th call does.
   */
  function RetryFrom<V>(c: RetryConfig, call: nat -> CallOutcome<V>, attempt: nat, delay: real, last: Option<string>)
    : RetryRun<V>
    requires attempt >= 1
    decreases if attempt <= c.maxAttempts then c.maxAttempts - attempt + 1 else 0
  {
    if attempt > c.maxAttempts then RetryRun(if last.Some? then Raise(last.value) else NoValue, 0, [])
    else
      var rest := if attempt < c.maxAttempts then RetryFrom(c, call, attempt + 1, NextDelay(delay, c), last) else RetryRun(NoValue, 0, []);
      match call(attempt)
      case Returns(v, flagged) =>
        if flagged && attempt < c.maxAttempts then
          RetryRun(rest.result, rest.calls + 1, [delay] + rest.sleeps)
        else RetryRun(Value(v), 1, [])
      case Throws(e, retryable) =>
        if !retryable then RetryRun(Raise(e), 1, [])
        else if attempt < c.maxAttempts then
          var more := RetryFrom(c, call, attempt + 1, NextDelay(delay, c), Some(e));
          RetryRun(more.result, more.calls + 1, [delay] + more.sleeps)
        else RetryRun(Raise(e), 1, [])
  }

  /** The whole decorated call. */
  function Retry<V>(c: RetryConfig, call: nat -> CallOutcome<V>): RetryRun<V>
  {
    RetryFrom(c, call, 1, c.initialDelay, None)
  }

  /** `r` preceded by `calls` earlier calls and the sleeps `sleeps` between them. */
  function After<V>(calls: nat, sleeps: seq<real>, r: RetryRun<V>): RetryRun<V>
  {
    RetryRun(r.result, calls + r.calls, sleeps + r.sleeps)
  }

  /** One attempt that goes on to the next: it counts one call and sleeps the current delay. */
  lemma RetryStep<V>(c: RetryConfig, call: nat -> CallOutcome<V>, attempt: nat, delay: real, last: Option<string>)
    requires 1 <= attempt < c.maxAttempts
    requires (call(attempt).Returns? && call(attempt).flagged) || (call(attempt).Throws? && call(attempt).retryable)
    ensures var next := if call(attempt).Throws? then Some(call(attempt).error) else last;
      RetryFrom(c, call, attempt, delay, last) == After(1, [delay], RetryFrom(c, call, attempt + 1, NextDelay(delay, c), next))
  {
  }

  lemma AfterAfter<V>(n: nat, s: seq<real>, m: nat, t: seq<real>, r: RetryRun<V>)
    ensures After(n, s, After(m, t, r)) == After(n + m, s + t, r)
  {
    assert s + (t + r.sleeps) == (s + t) + r.sleeps;
  }

  /**
   * `retry_async`'s attempt loop: calls the function at most `max_attempts` times, sleeping
   * the current delay between attempts.
   */
  method RetryAsync<V>(c: RetryConfig, call: nat -> CallOutcome<V>) returns (run: RetryRun<V>)
    ensures run == Retry(c, call)
  {
    var lastException: Option<string> := None;
    var delay := c.initialDelay;
    var calls := 0;
    var sleeps: seq<real> := [];
    var attempt := 1;
    assert sleeps + Retry(c, call).sleeps == Retry(c, call).sleeps;
    while attempt <= c.maxAttempts
      invariant attempt >= 1 && calls == attempt - 1
      invariant Retry(c, call) == After(calls, sleeps, RetryFrom(c, call, attempt, delay, lastException))
      decreases c.maxAttempts - attempt + 1
    {
      var outcome := call(attempt);
      if outcome.Returns? && !(outcome.flagged && attempt < c.maxAttempts) {
        return RetryRun(Value(outcome.value), calls + 1, sleeps);
      }
      if outcome.Throws? && !outcome.retryable {
        return RetryRun(Raise(outcome.error), calls + 1, sleeps);
      }
      if outcome.Throws? {
        lastException := Some(outcome.error);
      }
      if attempt < c.maxAttempts {
        RetryStep(c, call, attempt, delay, lastException);
        AfterAfter(calls, sleeps, 1, [delay], RetryFrom(c, call, attempt + 1, NextDelay(delay, c), lastException));
        sleeps := sleeps + [delay];
        delay := NextDelay(delay, c);
      }
      calls := calls + 1;
      attempt := attempt + 1;
    }
    run := RetryRun(if lastException.Some? then Raise(lastException.value) else NoValue, calls, sleeps);
  }

  /**
   * The function runs at most `max_attempts` times (at least once when that is positive), and
   * there is one sleep between consecutive calls.
   */
  lemma {:induction false} RetryCallsBounded<V>(c: RetryConfig, call: nat -> CallOutcome<V>, attempt: nat, delay: real,
                                                last: Option<string>)
    requires attempt >= 1
    ensures var r := RetryFrom(c, call, attempt, delay, last);
      (attempt <= c.maxAttempts ==> 1 <= r.calls <= c.maxAttempts - attempt + 1 && |r.sleeps| == r.calls - 1)
      && (attempt > c.maxAttempts ==> r.calls == 0 && r.sleeps == [])
    decreases if attempt <= c.maxAttempts then c.maxAttempts - attempt + 1 else 0
  {
    if attempt < c.maxAttempts {
      RetryCallsBounded(c, call, attempt + 1, NextDelay(delay, c), last);
      match call(attempt) {
        case Returns(_, _) =>
        case Throws(e, _) => RetryCallsBounded(c, call, attempt + 1, NextDelay(delay, c), Some(e));
      }
    }
  }

  /** Every sleep after the first is within `max_delay`; the first is `initial_delay`. */
  lemma {:induction false} RetrySleepsCapped<V>(c: RetryConfig, call: nat -> CallOutcome<V>, attempt: nat, delay: real,
                                                last: Option<string>)
    requires attempt >= 1 && (attempt > 1 ==> delay <= c.maxDelay)
    ensures var r := RetryFrom(c, call, attempt, delay, last);
      (forall i :: 0 <= i < |r.sleeps| && (i > 0 || attempt > 1) ==> r.sleeps[i] <= c.maxDelay)
      && (|r.sleeps| > 0 ==> r.sleeps[0] == delay)
    decreases if attempt <= c.maxAttempts then c.maxAttempts - attempt + 1 else 0
  {
    if attempt < c.maxAttempts {
      RetrySleepsCapped(c, call, attempt + 1, NextDelay(delay, c), last);
      match call(attempt) {
        case Returns(_, _) =>
        case Throws(e, _) => RetrySleepsCapped(c, call, attempt + 1, NextDelay(delay, c), Some(e));
      }
    }
  }

  /** When every attempt raises a retryable exception, the last one is re-raised. */
  lemma {:induction false} RetryExhaustedRaisesLast<V>(c: RetryConfig, call: nat -> CallOutcome<V>, attempt: nat,
                                                       delay: real, last: Option<string>)
    requires 1 <= attempt <= c.maxAttempts
    requires forall i :: attempt <= i <= c.maxAttempts ==> call(i).Throws? && call(i).retryable
    ensures RetryFrom(c, call, attempt, delay, last).result == Raise(call(c.maxAttempts).error)
    ensures RetryFrom(c, call, attempt, delay, last).calls == c.maxAttempts - attempt + 1
    decreases c.maxAttempts - attempt
  {
    if attempt < c.maxAttempts {
      RetryExhaustedRaisesLast(c, call, attempt + 1, NextDelay(delay, c), Some(call(attempt).error));
    }
  }

  /** A result flagged for retry on the final attempt is returned as it is. */
  lemma {:induction false} RetryFinalFlaggedReturned<V>(c: RetryConfig, call: nat -> CallOutcome<V>, attempt: nat,
                                                        delay: real, last: Option<string>)
    requires 1 <= attempt <= c.maxAttempts
    requires forall i :: attempt <= i < c.maxAttempts ==>
      (call(i).Returns? && call(i).flagged) || (call(i).Throws? && call(i).retryable)
    requires call(c.maxAttempts).Returns?
    ensures RetryFrom(c, call, attempt, delay, last).result == Value(call(c.maxAttempts).value)
    decreases c.maxAttempts - attempt
  {
    if attempt < c.maxAttempts {
      var next := if call(attempt).Throws? then Some(call(attempt).error) else last;
      RetryFinalFlaggedReturned(c, call, attempt + 1, NextDelay(delay, c), next);
    }
  }

  // ---------------------------------------------------------------------------
  // Circuit breaker
  // ---------------------------------------------------------------------------

  datatype BreakerState = Closed | Open | HalfOpen

  /** How the protected function ends when it is called. */
  datatype GuardedOutcome = Completes | Fails(expected: bool)

  /** How a call through the breaker ends. */
  datatype BreakerResult = Rejected(message: string) | Completed | Reraised(expected: bool)

  class CircuitBreaker {
    const failureThreshold: int
    const recoveryTimeout: real
    var failureCount: nat
    var lastFailureTime: Option<real>
    var state: BreakerState

    /** A breaker that is not closed has reached its threshold and has a failure time. */
    ghost predicate Valid()
      reads this
    {
      state != Closed ==> failureCount >= failureThreshold && lastFailureTime.Some?
    }

    constructor (failureThreshold: int, recoveryTimeout: real)
      ensures this.failureThreshold == failureThreshold && this.recoveryTimeout == recoveryTimeout
      ensures failureCount == 0 && lastFailureTime == None && state == Closed && Valid()
    {
      this.failureThreshold := failureThreshold;
      this.recoveryTimeout := recoveryTimeout;
      failureCount := 0;
      lastFailureTime := None;
      state := Closed;
    }

    /** `_should_attempt_reset` at clock reading `now`. */
    predicate ShouldAttemptReset(now: real)
      reads this
    {
      lastFailureTime.None? || now - lastFailureTime.value >= recoveryTimeout
    }

    /** `_on_success`: clears the count and closes a half-open breaker. */
    method OnSuccess()
      modifies this
      ensures failureCount == 0 && lastFailureTime == old(lastFailureTime)
      ensures state == (if old(state) == HalfOpen then Closed else old(state))
    {
      if state == HalfOpen {
        state := Closed;
      }
      failureCount := 0;
    }

    /** `_on_failure`: counts the failure, records its time, and opens at the threshold. */
    method OnFailure(now: real)
      modifies this
      ensures failureCount == old(failureCount) + 1 && lastFailureTime == Some(now)
      ensures state == (if failureCount >= failureThreshold then Open else old(state))
    {
      failureCount := failureCount + 1;
      lastFailureTime := Some(now);
      if failureCount >= failureThreshold {
        state := Open;
      }
    }

    /** `reset`. */
    method Reset()
      modifies this
      ensures failureCount == 0 && lastFailureTime == None && state == Closed && Valid()
    {
      failureCount := 0;
      lastFailureTime := None;
      state := Closed;
    }

    /**
     * A call through the breaker at clock reading `now`: an open breaker rejects it unless the
     * recovery timeout has passed, in which case it turns half-open and lets the call through.
     * `outcome` is how the function ends; unexpected exceptions pass through uncounted.
     */
    method Call(name: string, now: real, outcome: GuardedOutcome) returns (result: BreakerResult)
      requires Valid()
      modifies this
      ensures Valid()
      ensures old(state) == Open && !old(ShouldAttemptReset(now)) ==>
        result == Rejected("Circuit breaker open for " + name) && unchanged(this)
      ensures result.Rejected? <==> old(state) == Open && !old(ShouldAttemptReset(now))
      ensures !result.Rejected? && outcome.Completes? ==>
        result == Completed && failureCount == 0 && state == Closed && lastFailureTime == old(lastFailureTime)
      ensures !result.Rejected? && outcome == Fails(true) ==>
        result == Reraised(true) && failureCount == old(failureCount) + 1 && lastFailureTime == Some(now)
        && (failureCount >= failureThreshold ==> state == Open)
        && (failureCount < failureThreshold ==> state == old(state))
      ensures !result.Rejected? && outcome == Fails(false) ==>
        result == Reraised(false) && failureCount == old(failureCount) && lastFailureTime == old(lastFailureTime)
        && state == (if old(state) == Open then HalfOpen else old(state))
    {
      if state == Open {
        if ShouldAttemptReset(now) {
          state := HalfOpen;
        } else {
          return Rejected("Circuit breaker open for " + name);
        }
      }
      match outcome {
        case Completes =>
          OnSuccess();
          return Completed;
        case Fails(expected) =>
          if expected {
            OnFailure(now);
          }
          return Reraised(expected);
      }
    }
  }

  // ---------------------------------------------------------------------------
  // Error handler
  // ---------------------------------------------------------------------------

  /** The fields of `required` that `data` lacks, in the order given, repeats kept. */
  function Missing(keys: set<string>, required: seq<string>): (m: seq<string>)
    ensures forall f :: f in m <==> f in required && f !in keys
    ensures |m| <= |required|
  {
    if required == [] then []
    else (if required[0] in keys then [] else [required[0]]) + Missing(keys, required[1..])
  }

  /** Each missing field is listed as often as it is required. */
  lemma {:induction false} MissingCounts(keys: set<string>, required: seq<string>, f: string)
    ensures multiset(Missing(keys, required))[f] == if f in keys then 0 else multiset(required)[f]
  {
    if required != [] {
      var head := if required[0] in keys then [] else [required[0]];
      var rest := Missing(keys, required[1..]);
      assert multiset(Missing(keys, required))[f] == multiset(head)[f] + multiset(rest)[f] by {
        assert Missing(keys, required) == head + rest;
      }
      assert multiset(required)[f] == multiset([required[0]])[f] + multiset(required[1..])[f] by {
        assert required == [required[0]] + required[1..];
      }
      MissingCounts(keys, required[1..], f);
    }
  }

  /**
   * The list comprehension keeps order: the missing fields of a concatenation are those of
   * each part in turn. With `MissingOne` this determines `Missing` completely.
   */
  lemma {:induction false} MissingConcat(keys: set<string>, a: seq<string>, b: seq<string>)
    ensures Missing(keys, a + b) == Missing(keys, a) + Missing(keys, b)
  {
    if a != [] {
      assert (a + b)[1..] == a[1..] + b;
      MissingConcat(keys, a[1..], b);
    } else {
      assert a + b == b;
    }
  }

  /** A single required field is missing exactly when it is not a key. */
  lemma MissingOne(keys: set<string>, f: string)
    ensures Missing(keys, [f]) == if f in keys then [] else [f]
  {
    assert [f][1..] == [];
  }

  /** `validate_required_fields` over the key set of `data`. */
  function ValidateRequiredFields(keys: set<string>, required: seq<string>): (r: (bool, Option<string>))
    ensures r.0 <==> forall f :: f in required ==> f in keys
    ensures r.0 <==> r.1.None?
    ensures !r.0 ==> r.1 == Some("Missing required fields: " + Join(Missing(keys, required), ", "))
  {
    var missing := Missing(keys, required);
    if missing != [] then
      assert missing[0] in missing;
      (false, Some("Missing required fields: " + Join(missing, ", ")))
    else
      (true, None)
  }
}
