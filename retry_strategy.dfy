/**
  The bounded retry loop with exponential backoff of
  src/services/retry_strategy.py.

  A strategy is configuration only (its fields are never updated after
  construction), so it is a datatype here.  The callable is given as the
  outcome of each of its invocations (`func(i)` for the i-th, counting from
  zero), retryability as a predicate on exceptions, and `random.randint` as an
  oracle `draw` whose value for (attempt, hi) lies in [0, hi].  Sleeping is
  not performed: the delays the loop would sleep are returned in order.
*/
module Retry {
  import opened Wrappers

  function Pow(b: nat, e: nat): nat {
    if e == 0 then 1 else b * Pow(b, e - 1)
  }

  lemma {:induction false} PowPositive(b: nat, e: nat)
    requires b >= 1
    ensures Pow(b, e) >= 1
    decreases e
  {
    if e > 0 {
      PowPositive(b, e - 1);
      assert b * Pow(b, e - 1) >= Pow(b, e - 1);
    }
  }

  /** For a base of at least one, powers do not decrease as the exponent grows. */
  lemma {:induction false} PowMonotone(b: nat, i: nat, j: nat)
    requires b >= 1 && i <= j
    ensures Pow(b, i) <= Pow(b, j)
    decreases j - i
  {
    if i < j {
      PowMonotone(b, i, j - 1);
      assert Pow(b, j) == b * Pow(b, j - 1);
      assert b * Pow(b, j - 1) >= Pow(b, j - 1);
    }
  }

  /** What `execute` ends with: the callable's value, an exception raised, or `None` when no attempt was made. */
  datatype RetryResult<+T, +E> = Success(value: T) | Failure(error: E) | NoResult

  /** The dictionary returned by `get_retry_info`. */
  datatype RetryInfo = RetryInfo(attempt: nat, maxAttempts: int, delayMs: nat, canRetry: bool)

  /** The default `retryable_exceptions=(Exception,)`: every exception is retried. */
  predicate AnyException<E>(e: E) { true }

  datatype RetryStrategy = RetryStrategy(
    maxAttempts: int := 3,
    initialDelayMs: nat := 100,
    multiplier: nat := 2,
    maxDelayMs: nat := 5000,
    jitter: bool := true)
  {
    /** The most times `execute` invokes the callable. */
    function MaxCalls(): nat {
      if maxAttempts < 0 then 0 else maxAttempts
    }

    /** The delay before retry number `attempt`, before jitter: exponential growth, capped at `maxDelayMs`. */
    function BaseDelay(attempt: nat): (d: nat)
      requires attempt >= 1
      ensures d <= maxDelayMs
      ensures d <= initialDelayMs * Pow(multiplier, attempt - 1)
      ensures d == maxDelayMs || d == initialDelayMs * Pow(multiplier, attempt - 1)
    {
      var uncapped := initialDelayMs * Pow(multiplier, attempt - 1);
      if uncapped < maxDelayMs then uncapped else maxDelayMs
    }

    /**
      `_calculate_delay(attempt)` with `jitterMs` as the value `randint(0,
      d // 2)` picked, `d` being the capped delay.  Jitter is added after the
      cap, so with jitter on the result may exceed `maxDelayMs` by up to half.
    */
    function CalculateDelay(attempt: nat, jitterMs: nat): (d: nat)
      requires attempt >= 1
      requires jitterMs <= BaseDelay(attempt) / 2
      ensures BaseDelay(attempt) <= d <= BaseDelay(attempt) + BaseDelay(attempt) / 2
      ensures !jitter ==> d == BaseDelay(attempt)
      ensures jitter ==> d == BaseDelay(attempt) + jitterMs
      ensures d <= maxDelayMs + maxDelayMs / 2
    {
      var delayMs := BaseDelay(attempt);
      if jitter then delayMs + jitterMs else delayMs
    }

    /** The jitter `execute` uses before retry number `attempt`, drawn from the oracle only when jitter is on. */
    function JitterFor(draw: (nat, nat) -> nat, attempt: nat): (j: nat)
      requires attempt >= 1
      requires forall a, hi :: draw(a, hi) <= hi
      ensures j <= BaseDelay(attempt) / 2
    {
      if jitter then draw(attempt, BaseDelay(attempt) / 2) else 0
    }

    /** Without jitter, a later retry never waits less than an earlier one when the multiplier is at least one. */
    lemma BaseDelayMonotone(a: nat, b: nat)
      requires 1 <= a <= b
      requires multiplier >= 1
      ensures BaseDelay(a) <= BaseDelay(b)
    {
      PowMonotone(multiplier, a - 1, b - 1);
      assert initialDelayMs * Pow(multiplier, a - 1) <= initialDelayMs * Pow(multiplier, b - 1);
    }

    /** While the cap is not reached and the multiplier exceeds one, each retry waits strictly longer than the one before. */
    lemma BaseDelayStrictlyIncreasing(a: nat)
      requires a >= 1
      requires multiplier > 1 && initialDelayMs > 0
      requires initialDelayMs * Pow(multiplier, a) < maxDelayMs
      ensures BaseDelay(a) < BaseDelay(a + 1)
    {
      PowPositive(multiplier, a - 1);
      var p := Pow(multiplier, a - 1);
      assert Pow(multiplier, a) == multiplier * p;
      ScaledGrowth(initialDelayMs, p, multiplier);
    }

    /** With a multiplier of one the delay is the same for every retry (capped). */
    lemma ConstantDelayForMultiplierOne(a: nat)
      requires a >= 1 && multiplier == 1
      ensures BaseDelay(a) == (if initialDelayMs < maxDelayMs then initialDelayMs else maxDelayMs)
    {
      PowOne(a - 1);
    }

    /** `get_retry_info(attempt)`: reports the attempt, the unchanged budget, the delay `_calculate_delay(attempt)` and whether a retry remains. */
    function GetRetryInfo(attempt: nat, jitterMs: nat): (info: RetryInfo)
      requires attempt >= 1
      requires jitterMs <= BaseDelay(attempt) / 2
      ensures info.attempt == attempt && info.maxAttempts == maxAttempts
      ensures info.canRetry <==> attempt < maxAttempts
      ensures info.delayMs == CalculateDelay(attempt, jitterMs)
      ensures !jitter ==> info.delayMs == BaseDelay(attempt)
      ensures BaseDelay(attempt) <= info.delayMs <= BaseDelay(attempt) + BaseDelay(attempt) / 2
    {
      RetryInfo(attempt, maxAttempts, CalculateDelay(attempt, jitterMs), attempt < maxAttempts)
    }

    /**
      `execute(func, retryable_exceptions)`.  Returns the result, the number
      of invocations of the callable and the delays slept, in order.

      The callable is invoked at most `maxAttempts` times, and never when
      `maxAttempts <= 0` (the result is then `None`).  Every invocation but the
      last raised a retryable exception.  The last one decides the result: its
      value, or its exception, which is non-retryable or else the budget is
      used up.  A sleep comes after every invocation but the last, and the
      i-th sleep (from one) is `_calculate_delay(i)`.
    */
    method Execute<T, E>(func: nat -> Outcome<T, E>, draw: (nat, nat) -> nat, retryable: E -> bool := AnyException)
      returns (r: RetryResult<T, E>, calls: nat, delays: seq<nat>)
      requires forall a, hi :: draw(a, hi) <= hi
      ensures calls <= MaxCalls()
      ensures r.NoResult? <==> maxAttempts <= 0
      ensures maxAttempts <= 0 ==> calls == 0 && delays == []
      ensures maxAttempts > 0 ==> calls >= 1
      ensures forall i :: 0 <= i < calls - 1 ==> func(i).Err? && retryable(func(i).error)
      ensures calls >= 1 && func(calls - 1).Ok? ==> r == Success(func(calls - 1).value)
      ensures calls >= 1 && func(calls - 1).Err? ==> r == Failure(func(calls - 1).error)
      ensures calls >= 1 && func(calls - 1).Err? && retryable(func(calls - 1).error) ==> calls == maxAttempts
      ensures |delays| == (if calls == 0 then 0 else calls - 1)
      ensures forall i :: 0 <= i < |delays| ==> delays[i] == CalculateDelay(i + 1, JitterFor(draw, i + 1))
    {
      var attempt: nat := 0;
      var lastException: Option<E> := None;
      calls := 0;
      delays := [];
      while attempt < maxAttempts
        invariant attempt <= MaxCalls() && calls == attempt
        invariant forall i :: 0 <= i < attempt ==> func(i).Err? && retryable(func(i).error)
        invariant lastException == if attempt == 0 then None else Some(func(attempt - 1).error)
        invariant |delays| == (if 0 < attempt == maxAttempts then attempt - 1 else attempt)
        invariant forall i :: 0 <= i < |delays| ==> delays[i] == CalculateDelay(i + 1, JitterFor(draw, i + 1))
      {
        var outcome := func(attempt);
        calls := calls + 1;
        match outcome
        case Ok(v) =>
          return Success(v), calls, delays;
        case Err(e) =>
          if !retryable(e) {
            return Failure(e), calls, delays;
          }
          lastException := Some(e);
          attempt := attempt + 1;
          if attempt < maxAttempts {
            var delay := CalculateDelay(attempt, JitterFor(draw, attempt));
            delays := delays + [delay];
          }
      }
      if lastException.Some? {
        r := Failure(lastException.value);
      } else {
        r := NoResult;
      }
    }
  }

  /** Multiplying by more than one makes a positive product larger. */
  lemma ScaledGrowth(x: nat, p: nat, m: nat)
    requires x > 0 && p >= 1 && m > 1
    ensures x * p < x * (m * p)
  {
    var q := x * p;
    assert q >= 1;
    assert x * (m * p) == q * m;
    assert q * m == q + q * (m - 1);
    assert q * (m - 1) >= 1;
  }

  lemma {:induction false} PowOne(e: nat)
    ensures Pow(1, e) == 1
    decreases e
  {
    if e > 0 {
      PowOne(e - 1);
    }
  }

  /** The defaults of `__init__` with a 150 ms cap: the second retry's delay of 200 ms is capped to 150 and jitter of 75 lifts it to 225. */
  lemma JitterMayExceedCap()
    ensures var s := RetryStrategy(3, 100, 2, 150, true);
      s.BaseDelay(2) == 150 && s.CalculateDelay(2, 75) == 225 > s.maxDelayMs
  {
    var s := RetryStrategy(3, 100, 2, 150, true);
    assert Pow(2, 1) == 2;
  }

  /**
    Two transient failures followed by a success, with three attempts: the
    value comes back after three invocations and two sleeps of 100 and 200 ms
    (no jitter).
  */
  method RecoversAfterTwoFailuresScenario() returns (r: RetryResult<string, string>, calls: nat, delays: seq<nat>)
    ensures r == Success("ok") && calls == 3 && delays == [100, 200]
  {
    var strategy := RetryStrategy(3, 100, 2, 5000, false);
    var func := (i: nat) => if i < 2 then Err("timeout") else Ok("ok");
    r, calls, delays := strategy.Execute(func, (a: nat, hi: nat) => 0);
    assert Pow(2, 1) == 2;
  }

  /** Every attempt failing: the last exception is raised after three invocations and only two sleeps. */
  method AllAttemptsFailScenario() returns (r: RetryResult<int, nat>, calls: nat, delays: seq<nat>)
    ensures r == Failure(2) && calls == 3 && |delays| == 2
  {
    var strategy := RetryStrategy(3, 100, 2, 5000, true);
    r, calls, delays := strategy.Execute((i: nat) => Err(i), (a: nat, hi: nat) => hi);
  }
}
