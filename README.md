# Resilience guards of the service proxy, modelled in Dafny

This project models the client-side resilience middleware of the service
proxy: a sliding-window rate limiter, a three-state circuit breaker, a
bounded retry loop with exponential backoff and jitter, and the
`proxy_data` route that chains them (limiter, then breaker state, then
retry, then one success or failure recorded on the breaker).

- `wrappers.dfy` (module `Wrappers`): `Option` for Python's `None`, and
  `Outcome` for one invocation of a callable (a value returned or an
  exception raised).
- `circuit_breaker.dfy` (module `Breaker`): the class `CircuitBreaker` with
  the fields of the source (`state`, `failure_count`, `success_count`,
  `last_failure_time`, `last_open_time`) and the three settings as
  constants. Its state is also given as a value, `Snapshot`, with one pure
  function per transition (`Gate`, `Succeeded`, `Failed`, `Cleared`). Each
  method ties its new state to one of these functions and keeps the
  invariant `Inv`: OPEN implies an open time is set, CLOSED implies no
  pending probe successes, and CLOSED implies either no failures or fewer
  failures than the threshold (a threshold of 0 or less still allows a
  CLOSED breaker with no failures). Lemmas state the transition table and
  what sequences of events do. Client methods replay the unit tests and the
  application's wiring on the class.
- `rate_limiter.dfy` (module `Limiter`): the class `RateLimiter`, whose table
  is a `map<string, seq<int>>` from client id to admitted request times.
  Pure functions give what each operation computes (`Prune`, `Record`,
  `Remaining`, `ResetSeconds`, `Sweep`). The class keeps the bound "no list
  is longer than `max_requests`".
- `retry_strategy.dfy` (module `Retry`): `RetryStrategy` is a datatype,
  because its fields are set once by `__init__` (the datatype constructor)
  and never updated. `Execute` is the `while` loop of `execute`, proved
  against a full description of which invocations happen, what is
  returned and which delays are slept. The backoff is `BaseDelay` (capped)
  and `CalculateDelay` (with jitter).
- `proxy_routes.dfy` (module `Proxy`): `ProxyData`, the decision flow of
  `proxy_data` over the three objects, returning the status code
  (429, 503, 200 or 500) and the number of downstream invocations.

Time is an integer parameter `now` wherever the source reads `time.time()`.
The callable given to `call` is the outcome of its one invocation. The
callable given to `execute` is a function from the invocation number (from
0) to its outcome. `retryable_exceptions` is a predicate on exceptions;
its default `(Exception,)` is `AnyException`, which holds for every exception.
The constructors and `cleanup_old_entries` keep the source's default
arguments: `CircuitBreaker(5, 30, 2)`, `RateLimiter(60, 10)`,
`RetryStrategy(3, 100, 2, 5000, true)` and `max_age` 3600.
`random.randint(0, hi)` is an oracle `draw(attempt, hi)` whose value lies in
`[0, hi]`. Sleeping is replaced by returning the delays in order.

Some behaviour of the code that a reader might not expect, followed as
written:
- Entering HALF_OPEN does not reset `failure_count`. Only `success_count` is
  reset (circuit_breaker.py:45-46).
- A failure in HALF_OPEN does not clear `success_count`
  (circuit_breaker.py:77-89). It is cleared the next time the breaker enters
  HALF_OPEN (circuit_breaker.py:46), when a success closes it
  (circuit_breaker.py:72-74), or by `reset()` (circuit_breaker.py:99).
- A denied `is_allowed` still stores the pruned list (rate_limiter.py:32-35).
- `get_remaining_requests` and `get_reset_time` prune nothing
  (rate_limiter.py:44-64). Reading through the `defaultdict` adds an empty
  list for an unknown client.
- `get_reset_time` works on the stored list as it is, not on the pruned one
  (rate_limiter.py:58-64).
- `max_attempts <= 0` is accepted: nothing is invoked and `execute` returns
  `None` (retry_strategy.py:38-40, 62-64).
- The application wiring (src/main.py:26-29) leaves `success_threshold` at 2.
  A breaker built with those settings and driven through `call` stays
  HALF_OPEN after one successful probe past the timeout; a second success
  closes it (`Breaker.DefaultWiringScenario`). The route itself never probes
  (see Findings).

## Model

| member | source | states |
|---|---|---|
| `Breaker.CircuitBreaker.constructor` | src/services/circuit_breaker.py:21-39 | the settings are stored and the breaker starts CLOSED with both counters at 0, no timestamps, and the invariant holding |
| `Breaker.CircuitBreaker.GetState` | src/services/circuit_breaker.py:91-93 | returns the current state; whenever it is OPEN an open time is recorded |
| `Breaker.CircuitBreaker.ShouldAttemptReset` | src/services/circuit_breaker.py:59-64 | never true with no open time; with one, true exactly when at least `reset_timeout` has elapsed since it; for an OPEN breaker, true exactly when `call` would let a request through |
| `Breaker.CircuitBreaker.AllowRequest` | src/services/circuit_breaker.py:43-49 | the gate that `call` runs first: OPEN before the timeout rejects with nothing changed; OPEN after the timeout becomes HALF_OPEN with `success_count` 0; any other state passes unchanged |
| `Breaker.CircuitBreaker.Call` | src/services/circuit_breaker.py:41-57 | a rejected call reports the circuit-open error, does not reach the callable and changes nothing; otherwise the callable's value is returned after `_on_success`, or its exception is re-raised unchanged after `_on_failure` at `now`; the invariant is kept |
| `Breaker.CircuitBreaker.OnSuccess` | src/services/circuit_breaker.py:66-75 | the new state is `Succeeded` of the old one, and the invariant is kept |
| `Breaker.CircuitBreaker.OnFailure` | src/services/circuit_breaker.py:77-89 | the new state is `Failed` of the old one at `now`, and the invariant is kept |
| `Breaker.CircuitBreaker.Reset` | src/services/circuit_breaker.py:95-99 | the new state is `Cleared` of the old one (CLOSED, counters 0, timestamps kept), and the invariant is kept |
| `Breaker.FreshIsValid` | src/services/circuit_breaker.py:35-39 | a fresh breaker is CLOSED with both counters at 0 and no open time, and satisfies the invariant for any settings |
| `Breaker.GateFacts` | src/services/circuit_breaker.py:43-49 | the gate rejects exactly when OPEN and the timeout has not elapsed; with no open time an OPEN breaker is never let through; after the timeout it lets through as HALF_OPEN with no successes; outside OPEN it passes the state as it is |
| `Breaker.SuccessFacts` | src/services/circuit_breaker.py:66-75 | every success zeroes `failure_count` and keeps the timestamps; outside HALF_OPEN state and `success_count` stay; in HALF_OPEN it closes (with `success_count` 0) exactly when `success_count + 1` reaches the threshold, and otherwise stays HALF_OPEN with one more success |
| `Breaker.FailureFacts` | src/services/circuit_breaker.py:77-89 | every failure adds one to `failure_count` and stamps `last_failure_time`; in HALF_OPEN it reopens at once with open time `now`; in CLOSED it opens exactly when the new count reaches the threshold and otherwise keeps the open time |
| `Breaker.ResetFacts` | src/services/circuit_breaker.py:95-99 | `reset` gives CLOSED with both counters 0 and leaves both timestamps untouched |
| `Breaker.StepKeepsInv` | src/services/circuit_breaker.py:41-99 | each operation (a call, a recorded success or failure, a reset) keeps: OPEN implies an open time, CLOSED implies `success_count` 0, CLOSED implies no failures or fewer than the threshold |
| `Breaker.RunKeepsInv` | src/services/circuit_breaker.py:41-99 | any sequence of operations keeps the invariant |
| `Breaker.FailuresOpenAtThreshold` | src/services/circuit_breaker.py:77-89 | from CLOSED, n failing calls at one instant raise the count by n and open the breaker, with that instant as open time, exactly when the count reaches the threshold |
| `Breaker.SuccessesCloseAtThreshold` | src/services/circuit_breaker.py:66-75 | in HALF_OPEN, n recorded successes raise `success_count` by n and close the breaker, with `success_count` back at 0, exactly when the count reaches the threshold |
| `Breaker.RejectedWhileCooling` | src/services/circuit_breaker.py:43-49 | while OPEN, any number of calls made before the timeout leave the whole state unchanged |
| `Breaker.InitialStateScenario` | tests/unit/test_circuit_breaker.py:8-11 | a breaker built with the default arguments reads CLOSED |
| `Breaker.OpensAfterFailuresScenario` | tests/unit/test_circuit_breaker.py:14-29 | with threshold 2, the first failing call re-raises and leaves CLOSED, and the second re-raises and leaves OPEN |
| `Breaker.RejectsWhenOpenScenario` | tests/unit/test_circuit_breaker.py:32-46 | with threshold 1, after one failure the next call is rejected with the circuit-open error |
| `Breaker.HalfOpenSuccessScenario` | tests/unit/test_circuit_breaker.py:49-70 | with threshold 1, timeout 1 and success threshold 1, a succeeding call after the timeout returns its value and closes the breaker |
| `Breaker.DefaultWiringScenario` | src/main.py:26-29 | with threshold 5, timeout 30 and the default success threshold 2: five failures open the breaker, a call 10 s later is rejected, a succeeding call 31 s later returns its value but leaves HALF_OPEN, and a second success closes it |
| `Limiter.Lookup` | src/services/rate_limiter.py:24 | reading the `defaultdict` table gives the stored list, or the empty list for an unknown client |
| `Limiter.Touch` | src/services/rate_limiter.py:24 | after a read through the `defaultdict` the table holds the same lists, plus an empty list for a client that was unknown |
| `Limiter.Prune` | src/services/rate_limiter.py:28-35 | keeps exactly the timestamps strictly after the window start, each as often as before and in their original order; never longer; a list all inside the window is unchanged and one all outside becomes empty |
| `Limiter.PruneDropsStale` | src/services/rate_limiter.py:32-35 | a list holding any timestamp at or before the window start gets strictly shorter |
| `Limiter.RecordFacts` | src/services/rate_limiter.py:28-42 | the stored list holds only timestamps strictly inside the window besides `now`, so one exactly `window_size` old is dropped; `now` is appended exactly on admission and a denial stores the pruned list; the list never exceeds `max_requests`; `max_requests <= 0` always denies; a client whose every timestamp aged out is admitted when `max_requests >= 1` |
| `Limiter.Remaining` | src/services/rate_limiter.py:44-54 | the free slots are never negative and never above `max_requests`; they are 0 exactly when the next request would be denied, and otherwise they and the active requests add up to `max_requests` |
| `Limiter.Min` | src/services/rate_limiter.py:61 | the result is an element of the list and no element is smaller |
| `Limiter.ResetSeconds` | src/services/rate_limiter.py:56-64 | never negative, and 0 for an empty list |
| `Limiter.ResetSecondsIsOldestExpiry` | src/services/rate_limiter.py:56-64 | the reset time is the first moment at which the oldest stored entry is outside the window; one second earlier it was still inside, when the reset time is positive |
| `Limiter.DeniedClientWaitsResetSeconds` | src/services/rate_limiter.py:26-64 | a client that was just denied has a positive reset time; it is denied at every moment before that time has passed and admitted at the moment it has |
| `Limiter.WindowElapsedRestoresQuota` | src/services/rate_limiter.py:26-54 | once a whole window has passed since a client's last request, it is admitted again and has all `max_requests` slots free |
| `Limiter.Sweep` | src/services/rate_limiter.py:66-77 | the clients kept are exactly those with a timestamp after the cutoff, each with an identical list; clients with empty lists are removed |
| `Limiter.SweepAgreesWithPrune` | src/services/rate_limiter.py:66-77 | a client survives the cleanup exactly when its list, pruned at the cutoff, is non-empty |
| `Limiter.RateLimiter.constructor` | src/services/rate_limiter.py:14-24 | the settings are stored and the table is empty |
| `Limiter.RateLimiter.IsAllowed` | src/services/rate_limiter.py:26-42 | admits exactly when fewer than `max_requests` timestamps are inside the window; the client's entry becomes the pruned list with `now` appended on admission; every other client's list is untouched; the length bound is kept |
| `Limiter.RateLimiter.GetRemainingRequests` | src/services/rate_limiter.py:44-54 | returns `Remaining` of the stored list; the stored lists are unchanged, except that an unknown client gains an empty list |
| `Limiter.RateLimiter.GetResetTime` | src/services/rate_limiter.py:56-64 | returns `ResetSeconds` of the stored list; the stored lists are unchanged, except that an unknown client gains an empty list |
| `Limiter.RateLimiter.CleanupOldEntries` | src/services/rate_limiter.py:66-77 | the table becomes `Sweep` of the old table at cutoff `now - max_age`: exactly the clients with no timestamp after the cutoff are deleted, and the others keep identical lists |
| `Limiter.BurstScenario` | src/services/rate_limiter.py:26-54 | fifteen requests from one client at one instant, with window 60 and capacity 10: ten are admitted, five denied, and no slot remains |
| `Retry.PowMonotone` | src/services/retry_strategy.py:68-70 | for a base of at least one, a larger exponent never gives a smaller power |
| `Retry.RetryStrategy.BaseDelay` | src/services/retry_strategy.py:68-73 | the delay before jitter never exceeds `max_delay_ms` or `initial_delay_ms * multiplier^(attempt-1)`, and equals one of the two |
| `Retry.RetryStrategy.CalculateDelay` | src/services/retry_strategy.py:66-80 | without jitter the delay is the capped delay `d`; with jitter it is `d` plus the drawn amount, so it lies in `[d, d + d div 2]` and may exceed `max_delay_ms` by up to half of it |
| `Retry.RetryStrategy.JitterFor` | src/services/retry_strategy.py:76-78 | the jitter used before a retry lies in `[0, d div 2]` |
| `Retry.RetryStrategy.BaseDelayMonotone` | src/services/retry_strategy.py:68-73 | with a multiplier of at least one, a later retry never waits less than an earlier one (before jitter) |
| `Retry.RetryStrategy.BaseDelayStrictlyIncreasing` | src/services/retry_strategy.py:68-73 | with a multiplier above one and a positive initial delay, each retry waits strictly longer than the previous one until the cap is reached |
| `Retry.RetryStrategy.ConstantDelayForMultiplierOne` | src/services/retry_strategy.py:68-73 | a multiplier of one gives the same delay, `min(initial_delay_ms, max_delay_ms)`, before every retry |
| `Retry.RetryStrategy.GetRetryInfo` | src/services/retry_strategy.py:82-89 | reports the attempt and `max_attempts` unchanged, `can_retry` exactly when `attempt < max_attempts`, and the delay `_calculate_delay(attempt)` for the drawn jitter: exactly the capped delay `d` with jitter off, and in `[d, d + d div 2]` in any case |
| `Retry.RetryStrategy.Execute` | src/services/retry_strategy.py:33-64 | at most `max_attempts` invocations, none when `max_attempts <= 0` (then the result is `None`); every invocation but the last raised a retryable exception; the last decides: its value is returned at once, a non-retryable exception propagates at once, a retryable one is raised only when all `max_attempts` are used; one sleep after each invocation but the last, the i-th sleeping `_calculate_delay(i)` |
| `Retry.JitterMayExceedCap` | src/services/retry_strategy.py:73-78 | jitter is added after the cap: with a 150 ms cap, the second retry's 200 ms is capped to 150 and a jitter of 75 gives 225 |
| `Retry.RecoversAfterTwoFailuresScenario` | src/services/retry_strategy.py:40-56 | two retryable failures then a success, with three attempts: the value is returned after three invocations and sleeps of 100 and 200 ms |
| `Retry.AllAttemptsFailScenario` | src/services/retry_strategy.py:40-64 | three retryable failures: the third exception is raised after three invocations and two sleeps |
| `Proxy.ProxyData` | src/api/proxy_routes.py:12-74 | the limiter is always consulted first and its entry updated; a denial gives 429 with no downstream call and the breaker untouched; an admitted request that reads OPEN gives 503 with no downstream call, keeps its limiter slot and leaves the breaker unchanged; otherwise the retry runs and exactly one `_on_success` (200) or one `_on_failure` (500) is recorded. Every post before the last one raised. The answer is 200 exactly when one of the first `max_attempts` posts returns (a retry success yields 200), and 500 only after all `max_attempts` posts raised, the last one included. An OPEN breaker stays OPEN, unchanged, through any call |
| `Proxy.ProxyDataProbing` | src/api/proxy_routes.py:31-37 | the corrected route: an admitted request goes through the breaker's gate, so an OPEN breaker past its timeout lets the request through as a HALF_OPEN probe, whose success or failure alone is recorded; before the timeout it still gives 503. As in `ProxyData`, every post before the last one raised, the answer is 200 exactly when one of the first `max_attempts` posts returns, and 500 only after the whole budget raised |
| `Proxy.TransientFailureHiddenScenario` | src/api/proxy_routes.py:43-56 | with the settings src/main.py:26-40 wires (the constructors' defaults), a post that fails once and then returns answers 200 after two invocations, and the breaker stays CLOSED with no failure counted |
| `Proxy.OpenCircuitNeverRecoversScenario` | src/api/proxy_routes.py:31-37 | as written: a failure opens a breaker with threshold 1 and timeout 30, after which a healthy downstream is refused with 503 at 10 s and still at 1000 s, and the breaker stays OPEN |
| `Proxy.ProbingRecoversScenario` | src/api/proxy_routes.py:31-37 | corrected: the same requests give 500, 503, then 200 at 1000 s through a HALF_OPEN probe |

## Left out

- Logging everywhere, the `health` route, the Flask/JSON layer of `proxy_data` and `request.get_json`: I/O with no decision to verify. The outer `except` of `proxy_data` (src/api/proxy_routes.py:69-74) is not modelled: no modelled step raises there, but `request.get_json()` (src/api/proxy_routes.py:28), which is left out, can raise. That path answers 500 after the limiter has already recorded the request, and it leaves the breaker untouched.
- src/services/external_service_client.py, external_mock_service/app.py, src/config.py, src/main.py and src/__init__.py are not part of this model. `client.post` becomes the scripted outcomes `post`. Only the settings src/main.py:26-40 wires appear: the breaker's in `Breaker.DefaultWiringScenario`, and all three in `Proxy.TransientFailureHiddenScenario`.
- Concurrency: the source has no locks. The model is sequential and claims nothing about interleaved calls.
- The wall clock and `time.sleep`: time is the integer `now`. When a single `now` is used for the breaker's gate and for the failure stamp, the time the callable and the retry sleeps take is not modelled.
- Floating point: timestamps are integers; `backoff_multiplier` is a natural number, so `int()` of the float product is exact; the `int()` in `get_reset_time` has nothing to truncate.
- `Retry.RetryStrategy.CalculateDelay`: requires `attempt >= 1`, because `_calculate_delay(0)` uses a negative exponent, which only the float arithmetic handles. `Retry.RetryStrategy.GetRetryInfo` and `Retry.RetryStrategy.BaseDelay` have the same restriction.
- `Retry.RetryStrategy`: `initial_delay_ms` and `max_delay_ms` are natural numbers. A negative capped delay would make `randint(0, d // 2)` raise `ValueError`, and that is not modelled.
- `random.randint`: the oracle `draw(attempt, hi)` stands for whatever values the generator returns. One `execute` call draws at most once per attempt number, so any sequence of draws is covered.
- `*args`/`**kwargs` of `call` and `execute`: arguments are hidden inside the outcomes of the callable.
- `get_state` returns the enum's string value; the model returns the enum itself, and `proxy_data`'s comparison with `'OPEN'` becomes a comparison with `Open`.
- On denial, `proxy_data` computes the remaining quota and the reset time but does not send them; the model makes both calls and drops the results, as the source does.

## Findings

| source | as written | input that shows it | evidently intended | confidence | as-written member | corrected member |
|---|---|---|---|---|---|---|
| src/api/proxy_routes.py:31-37 | the route only reads `get_state()` and answers 503 whenever it is OPEN; it never calls `circuit_breaker.call`, so the OPEN to HALF_OPEN transition after `reset_timeout` never happens on this path, and nothing in the route calls `reset()` | breaker with threshold 1 and timeout 30; a request at 0 with the downstream failing (500, breaker OPEN); requests at 10 and at 1000 with the downstream healthy both get 503 | after the reset timeout an OPEN breaker lets one request through as a HALF_OPEN probe, as `call` does (src/services/circuit_breaker.py:43-47) | medium, not executed | `Proxy.OpenCircuitNeverRecoversScenario` | `Proxy.ProxyDataProbing` |
