/**
  The decision flow of `proxy_data` in src/api/proxy_routes.py: the rate
  limiter first, then a read of the breaker's state, then the retry loop
  around the downstream post, and one outcome recorded on the breaker for
  the whole retry run.  HTTP is reduced to the status code; the downstream
  post is given as the outcome of each of its invocations.
*/
module Proxy {
  import opened Wrappers
  import opened Breaker
  import opened Limiter
  import opened Retry

  const TooManyRequests: int := 429
  const ServiceUnavailable: int := 503
  const StatusOk: int := 200
  const InternalError: int := 500

  /** Some invocation among the first `n` of the post returns a value instead of raising. */
  predicate SucceedsWithin<T, E>(post: nat -> Outcome<T, E>, n: int) {
    exists i: nat :: i < n && post(i).Ok?
  }

  /**
    `proxy_data` for a request from `clientId` at time `now`, as written.
    Returns the status code and the number of times the post was invoked.

    The limiter is always consulted and its entry for the client updated.  A
    denial answers 429 and touches nothing else.  An admitted request that
    finds the breaker OPEN answers 503, keeps its limiter slot and leaves the
    breaker as it is.  Otherwise the retry loop runs, and exactly one
    `_on_success` (200) or `_on_failure` (500) is recorded however many
    attempts were made.  Only `get_state` is used, never `call`, so an OPEN
    breaker stays OPEN, with every field unchanged, through every call.
  */
  method ProxyData<T, E>(limiter: RateLimiter, breaker: CircuitBreaker, retry: RetryStrategy,
                         clientId: string, now: int, post: nat -> Outcome<T, E>,
                         draw: (nat, nat) -> nat)
    returns (status: int, calls: nat)
    requires limiter.Valid() && breaker.Valid()
    requires forall a, hi :: draw(a, hi) <= hi
    modifies limiter, breaker
    ensures limiter.Valid() && breaker.Valid()
    ensures var ts := Lookup(old(limiter.requests), clientId);
      limiter.requests == old(limiter.requests)[clientId := Record(ts, now, limiter.windowSize, limiter.maxRequests)]
    ensures var admitted := Admits(Lookup(old(limiter.requests), clientId), now - limiter.windowSize, limiter.maxRequests);
      && (!admitted ==> status == TooManyRequests && calls == 0 && breaker.View() == old(breaker.View()))
      && (admitted && old(breaker.state) == Open ==>
            status == ServiceUnavailable && calls == 0 && breaker.View() == old(breaker.View()))
      && (admitted && old(breaker.state) != Open ==> status == StatusOk || status == InternalError)
      && (admitted && old(breaker.state) != Open && retry.maxAttempts > 0 ==>
            calls >= 1 && (status == StatusOk <==> SucceedsWithin(post, retry.maxAttempts)))
    ensures forall i :: 0 <= i < calls - 1 ==> post(i).Err?
    ensures status == InternalError ==> calls == retry.maxAttempts
    ensures status == StatusOk ==>
              breaker.View() == Succeeded(breaker.Config(), old(breaker.View()))
              && (calls >= 1 ==> post(calls - 1).Ok?)
    ensures status == InternalError ==>
              breaker.View() == Failed(breaker.Config(), old(breaker.View()), now)
              && calls >= 1 && post(calls - 1).Err?
    ensures calls <= retry.MaxCalls()
    ensures old(breaker.state) == Open ==> breaker.View() == old(breaker.View()) && status != StatusOk
  {
    var allowed := limiter.IsAllowed(clientId, now);
    if !allowed {
      var remaining := limiter.GetRemainingRequests(clientId, now);
      var resetTime := limiter.GetResetTime(clientId, now);
      return TooManyRequests, 0;
    }
    var cbState := breaker.GetState();
    if cbState == Open {
      return ServiceUnavailable, 0;
    }
    var result, delays;
    result, calls, delays := retry.Execute(post, draw);
    if result.Failure? {
      breaker.OnFailure(now);
      status := InternalError;
    } else {
      breaker.OnSuccess();
      status := StatusOk;
    }
  }

  /**
    `proxy_data` with the breaker gate of `call` in place of the bare state
    read: an OPEN breaker whose reset timeout has elapsed lets the request
    through as a HALF_OPEN probe.  Everything else is as in `ProxyData`.
  */
  method ProxyDataProbing<T, E>(limiter: RateLimiter, breaker: CircuitBreaker, retry: RetryStrategy,
                                clientId: string, now: int, post: nat -> Outcome<T, E>,
                                draw: (nat, nat) -> nat)
    returns (status: int, calls: nat)
    requires limiter.Valid() && breaker.Valid()
    requires forall a, hi :: draw(a, hi) <= hi
    modifies limiter, breaker
    ensures limiter.Valid() && breaker.Valid()
    ensures var ts := Lookup(old(limiter.requests), clientId);
      limiter.requests == old(limiter.requests)[clientId := Record(ts, now, limiter.windowSize, limiter.maxRequests)]
    ensures var admitted := Admits(Lookup(old(limiter.requests), clientId), now - limiter.windowSize, limiter.maxRequests);
      var gate := Gate(breaker.Config(), old(breaker.View()), now);
      && (!admitted ==> status == TooManyRequests && calls == 0 && breaker.View() == old(breaker.View()))
      && (admitted && gate.None? ==>
            status == ServiceUnavailable && calls == 0 && breaker.View() == old(breaker.View()))
      && (admitted && gate.Some? ==>
            (status == StatusOk && breaker.View() == Succeeded(breaker.Config(), gate.value))
            || (status == InternalError && breaker.View() == Failed(breaker.Config(), gate.value, now)
                && calls >= 1 && post(calls - 1).Err?))
      && (admitted && gate.Some? && retry.maxAttempts > 0 ==>
            calls >= 1 && (status == StatusOk <==> post(calls - 1).Ok?)
            && (status == StatusOk <==> SucceedsWithin(post, retry.maxAttempts)))
    ensures forall i :: 0 <= i < calls - 1 ==> post(i).Err?
    ensures status == InternalError ==> calls == retry.maxAttempts
    ensures calls <= retry.MaxCalls()
  {
    var allowed := limiter.IsAllowed(clientId, now);
    if !allowed {
      var remaining := limiter.GetRemainingRequests(clientId, now);
      var resetTime := limiter.GetResetTime(clientId, now);
      return TooManyRequests, 0;
    }
    var admittedByBreaker := breaker.AllowRequest(now);
    if !admittedByBreaker {
      return ServiceUnavailable, 0;
    }
    var result, delays;
    result, calls, delays := retry.Execute(post, draw);
    if result.Failure? {
      breaker.OnFailure(now);
      status := InternalError;
    } else {
      breaker.OnSuccess();
      status := StatusOk;
    }
  }

  /**
    The application's wiring (the constructors' defaults): a downstream post
    that fails once and then succeeds is hidden by the retry loop.  The
    request answers 200 after two invocations, and the breaker records one
    success and no failure.
  */
  method TransientFailureHiddenScenario() returns (status: int, calls: nat, st: CircuitState, failures: nat)
    ensures status == StatusOk && calls == 2
    ensures st == Closed && failures == 0
  {
    var limiter := new RateLimiter();
    var breaker := new CircuitBreaker(5, 30);
    var retry := RetryStrategy(3, 100, 2);
    var flaky: nat -> Outcome<string, string> := (i: nat) => if i == 0 then Err("timeout") else Ok("data");
    var anyJitter := (a: nat, hi: nat) => hi;
    assert flaky(1).Ok?;
    status, calls := ProxyData(limiter, breaker, retry, "10.0.0.1", 0, flaky, anyJitter);
    st := breaker.GetState();
    failures := breaker.failureCount;
  }

  /**
    As written: one failed request opens a breaker with threshold 1 and a 30
    second timeout; a healthy downstream is then refused with 503 after 10
    seconds and still after 1000 seconds, and the breaker stays OPEN.
  */
  method OpenCircuitNeverRecoversScenario() returns (first: int, early: int, late: int, st: CircuitState)
    ensures first == InternalError && early == ServiceUnavailable && late == ServiceUnavailable
    ensures st == Open
  {
    var limiter := new RateLimiter(60, 10);
    var breaker := new CircuitBreaker(1, 30, 2);
    var retry := RetryStrategy(1, 100, 2, 5000, false);
    var down: nat -> Outcome<string, string> := (i: nat) => Err("connection refused");
    var up: nat -> Outcome<string, string> := (i: nat) => Ok("data");
    var noJitter := (a: nat, hi: nat) => 0;
    var calls;
    first, calls := ProxyData(limiter, breaker, retry, "10.0.0.1", 0, down, noJitter);
    assert limiter.requests["10.0.0.1"] == [0];
    assert breaker.state == Open && breaker.lastOpenTime == Some(0);
    early, calls := ProxyData(limiter, breaker, retry, "10.0.0.1", 10, up, noJitter);
    assert limiter.requests["10.0.0.1"] == [0, 10];
    late, calls := ProxyData(limiter, breaker, retry, "10.0.0.1", 1000, up, noJitter);
    st := breaker.GetState();
  }

  /**
    Corrected: the same requests, but after the timeout the healthy
    downstream is reached through a HALF_OPEN probe and answers 200.
  */
  method ProbingRecoversScenario() returns (first: int, early: int, late: int, st: CircuitState)
    ensures first == InternalError && early == ServiceUnavailable && late == StatusOk
    ensures st == HalfOpen
  {
    var limiter := new RateLimiter(60, 10);
    var breaker := new CircuitBreaker(1, 30, 2);
    var retry := RetryStrategy(1, 100, 2, 5000, false);
    var down: nat -> Outcome<string, string> := (i: nat) => Err("connection refused");
    var up: nat -> Outcome<string, string> := (i: nat) => Ok("data");
    var noJitter := (a: nat, hi: nat) => 0;
    var calls;
    first, calls := ProxyDataProbing(limiter, breaker, retry, "10.0.0.1", 0, down, noJitter);
    assert limiter.requests["10.0.0.1"] == [0];
    assert breaker.state == Open && breaker.lastOpenTime == Some(0);
    early, calls := ProxyDataProbing(limiter, breaker, retry, "10.0.0.1", 10, up, noJitter);
    assert limiter.requests["10.0.0.1"] == [0, 10];
    assert breaker.state == Open && breaker.lastOpenTime == Some(0);
    assert up(0).Ok?;
    late, calls := ProxyDataProbing(limiter, breaker, retry, "10.0.0.1", 1000, up, noJitter);
    st := breaker.GetState();
  }
}
