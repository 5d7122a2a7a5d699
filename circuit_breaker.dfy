/**
  The circuit breaker of src/services/circuit_breaker.py: a three-state machine
  (CLOSED, OPEN, HALF_OPEN) with two counters and two timestamps.

  The mutable part of a breaker is also given as a value, `Snapshot`, together
  with one pure function per transition (`Gate`, `Succeeded`, `Failed`,
  `Cleared`).  The class `CircuitBreaker` updates its fields step by step, as the
  source does, and each of its methods is tied to the matching function.  The
  lemmas at the end are about those functions.
*/
module Breaker {
  import opened Wrappers

  datatype CircuitState = Closed | Open | HalfOpen

  /** The three constructor arguments, fixed for the life of a breaker. */
  datatype Settings = Settings(failureThreshold: int, resetTimeout: int, successThreshold: int)

  /** The fields that the breaker's operations update. */
  datatype Snapshot = Snapshot(
    state: CircuitState,
    failureCount: nat,
    successCount: nat,
    lastFailureTime: Option<int>,
    lastOpenTime: Option<int>)

  /** What `call` hands back: the callable's value, its exception re-raised, or the breaker's own rejection. */
  datatype CallResult<+T, +E> = Returned(value: T) | Raised(error: E) | CircuitOpen

  /** The state of a newly constructed breaker. */
  const Fresh: Snapshot := Snapshot(Closed, 0, 0, None, None)

  /**
    The facts that every operation keeps: an open breaker knows when it
    opened, a closed breaker has no probation successes pending, and a closed
    breaker has fewer failures than the threshold (or none at all).
  */
  predicate Inv(cfg: Settings, s: Snapshot) {
    && (s.state == Open ==> s.lastOpenTime.Some?)
    && (s.state == Closed ==> s.successCount == 0)
    && (s.state == Closed ==> s.failureCount == 0 || s.failureCount < cfg.failureThreshold)
  }

  /** `_should_attempt_reset`: an open time is recorded and at least `resetTimeout` has passed since. */
  predicate ResetDue(cfg: Settings, s: Snapshot, now: int) {
    s.lastOpenTime.Some? && now - s.lastOpenTime.value >= cfg.resetTimeout
  }

  /**
    The check `call` makes before it invokes the callable: `None` when the
    call is rejected, otherwise the state in which the callable runs.
  */
  function Gate(cfg: Settings, s: Snapshot, now: int): Option<Snapshot> {
    if s.state != Open then Some(s)
    else if ResetDue(cfg, s, now) then Some(s.(state := HalfOpen, successCount := 0))
    else None
  }

  /** `_on_success`. */
  function Succeeded(cfg: Settings, s: Snapshot): Snapshot {
    if s.state == HalfOpen then
      if s.successCount + 1 >= cfg.successThreshold then
        s.(state := Closed, failureCount := 0, successCount := 0)
      else
        s.(failureCount := 0, successCount := s.successCount + 1)
    else
      s.(failureCount := 0)
  }

  /** `_on_failure` at time `now`. */
  function Failed(cfg: Settings, s: Snapshot, now: int): Snapshot {
    var counted := s.(failureCount := s.failureCount + 1, lastFailureTime := Some(now));
    if s.state == HalfOpen || counted.failureCount >= cfg.failureThreshold then
      counted.(state := Open, lastOpenTime := Some(now))
    else
      counted
  }

  /** `reset`. */
  function Cleared(s: Snapshot): Snapshot {
    s.(state := Closed, failureCount := 0, successCount := 0)
  }

  /** One thing that can happen to a breaker. */
  datatype Event =
    | Attempt(now: int, succeeds: bool)   // `call` with a callable that returns or raises
    | RecordSuccess                       // `_on_success` called directly
    | RecordFailure(now: int)             // `_on_failure` called directly
    | ManualReset                         // `reset`

  function Step(cfg: Settings, s: Snapshot, e: Event): Snapshot {
    match e
    case Attempt(now, succeeds) =>
      (match Gate(cfg, s, now)
       case None => s
       case Some(g) => if succeeds then Succeeded(cfg, g) else Failed(cfg, g, now))
    case RecordSuccess => Succeeded(cfg, s)
    case RecordFailure(now) => Failed(cfg, s, now)
    case ManualReset => Cleared(s)
  }

  function Run(cfg: Settings, s: Snapshot, events: seq<Event>): Snapshot
    decreases |events|
  {
    if events == [] then s else Run(cfg, Step(cfg, s, events[0]), events[1..])
  }

  function Repeat(e: Event, n: nat): (r: seq<Event>)
    ensures |r| == n
  {
    if n == 0 then [] else [e] + Repeat(e, n - 1)
  }

  class CircuitBreaker {
    const failureThreshold: int
    const resetTimeout: int
    const successThreshold: int

    var state: CircuitState
    var failureCount: nat
    var successCount: nat
    var lastFailureTime: Option<int>
    var lastOpenTime: Option<int>

    function Config(): Settings {
      Settings(failureThreshold, resetTimeout, successThreshold)
    }

    function View(): Snapshot
      reads this
    {
      Snapshot(state, failureCount, successCount, lastFailureTime, lastOpenTime)
    }

    ghost predicate Valid()
      reads this
    {
      Inv(Config(), View())
    }

    /** `__init__`: CLOSED, both counters at zero, no timestamps. */
    constructor (failureThreshold: int := 5, resetTimeout: int := 30, successThreshold: int := 2)
      ensures Valid()
      ensures Config() == Settings(failureThreshold, resetTimeout, successThreshold)
      ensures View() == Fresh
    {
      this.failureThreshold := failureThreshold;
      this.resetTimeout := resetTimeout;
      this.successThreshold := successThreshold;
      state := Closed;
      failureCount := 0;
      successCount := 0;
      lastFailureTime := None;
      lastOpenTime := None;
    }

    /** `get_state`. */
    function GetState(): (st: CircuitState)
      reads this
      requires Valid()
      ensures st == View().state
      ensures st == Open ==> lastOpenTime.Some?
    {
      state
    }

    /** `_should_attempt_reset` at time `now`; never true while no open time is recorded. */
    predicate ShouldAttemptReset(now: int)
      reads this
      ensures lastOpenTime.None? ==> !ShouldAttemptReset(now)
      ensures lastOpenTime.Some? ==> (ShouldAttemptReset(now) <==> now >= lastOpenTime.value + resetTimeout)
      ensures state == Open ==> (ShouldAttemptReset(now) <==> Gate(Config(), View(), now).Some?)
    {
      ResetDue(Config(), View(), now)
    }

    /**
      The first lines of `call`: an open breaker whose timeout has elapsed moves
      to HALF_OPEN with a fresh success count; one whose timeout has not
      elapsed rejects, and nothing changes.
    */
    method AllowRequest(now: int) returns (allowed: bool)
      requires Valid()
      modifies this
      ensures Valid()
      ensures allowed <==> Gate(Config(), old(View()), now).Some?
      ensures allowed ==> View() == Gate(Config(), old(View()), now).value
      ensures !allowed ==> View() == old(View())
    {
      allowed := true;
      if state == Open {
        if ShouldAttemptReset(now) {
          state := HalfOpen;
          successCount := 0;
        } else {
          allowed := false;
        }
      }
    }

    /**
      `call` at time `now` with a callable whose invocation has the outcome
      `func`.  A rejected call never reaches the callable; otherwise the
      callable's value is returned after a success is recorded, or its
      exception is re-raised unchanged after a failure is recorded.
    */
    method Call<T, E>(now: int, func: Outcome<T, E>) returns (r: CallResult<T, E>)
      requires Valid()
      modifies this
      ensures Valid()
      ensures r.CircuitOpen? <==> Gate(Config(), old(View()), now).None?
      ensures r.CircuitOpen? ==> View() == old(View())
      ensures !r.CircuitOpen? ==>
                var g := Gate(Config(), old(View()), now).value;
                match func
                case Ok(v) => r == Returned(v) && View() == Succeeded(Config(), g)
                case Err(e) => r == Raised(e) && View() == Failed(Config(), g, now)
    {
      var allowed := AllowRequest(now);
      if !allowed {
        return CircuitOpen;
      }
      match func
      case Ok(v) =>
        OnSuccess();
        r := Returned(v);
      case Err(e) =>
        OnFailure(now);
        r := Raised(e);
    }

    /** `_on_success`. */
    method OnSuccess()
      requires Valid()
      modifies this
      ensures Valid()
      ensures View() == Succeeded(Config(), old(View()))
    {
      failureCount := 0;
      if state == HalfOpen {
        successCount := successCount + 1;
        if successCount >= successThreshold {
          state := Closed;
          successCount := 0;
        }
      }
    }

    /** `_on_failure` at time `now`. */
    method OnFailure(now: int)
      requires Valid()
      modifies this
      ensures Valid()
      ensures View() == Failed(Config(), old(View()), now)
    {
      failureCount := failureCount + 1;
      lastFailureTime := Some(now);
      if state == HalfOpen {
        state := Open;
        lastOpenTime := Some(now);
      } else if failureCount >= failureThreshold {
        state := Open;
        lastOpenTime := Some(now);
      }
    }

    /** `reset`: CLOSED with both counters at zero; the timestamps stay as they were. */
    method Reset()
      requires Valid()
      modifies this
      ensures Valid()
      ensures View() == Cleared(old(View()))
    {
      state := Closed;
      failureCount := 0;
      successCount := 0;
    }
  }

  // ---------------------------------------------------------------------------
  // Properties of the transition functions
  // ---------------------------------------------------------------------------

  /** A fresh breaker satisfies the invariant, whatever its settings. */
  lemma FreshIsValid(cfg: Settings)
    ensures Inv(cfg, Fresh) && Fresh.state == Closed
    ensures Fresh.failureCount == 0 && Fresh.successCount == 0 && Fresh.lastOpenTime.None?
  {
  }

  /** A rejected call changes nothing; a call it lets through is either not OPEN or becomes HALF_OPEN with no successes. */
  lemma GateFacts(cfg: Settings, s: Snapshot, now: int)
    ensures Gate(cfg, s, now).None? <==> s.state == Open && !ResetDue(cfg, s, now)
    ensures s.lastOpenTime.None? && s.state == Open ==> Gate(cfg, s, now).None?
    ensures s.state == Open && ResetDue(cfg, s, now) ==>
              Gate(cfg, s, now) == Some(s.(state := HalfOpen, successCount := 0))
    ensures s.state != Open ==> Gate(cfg, s, now) == Some(s)
  {
  }

  /**
    Every success zeroes the failure count.  In HALF_OPEN it adds one success
    and closes (with the success count back at zero) exactly when the count
    reaches the threshold; outside HALF_OPEN the state and success count stay.
    The timestamps never change.
  */
  lemma SuccessFacts(cfg: Settings, s: Snapshot)
    ensures var t := Succeeded(cfg, s);
      && t.failureCount == 0
      && t.lastOpenTime == s.lastOpenTime && t.lastFailureTime == s.lastFailureTime
      && (s.state != HalfOpen ==> t.state == s.state && t.successCount == s.successCount)
      && (s.state == HalfOpen ==>
            (t.state == Closed <==> s.successCount + 1 >= cfg.successThreshold)
            && (t.state == Closed ==> t.successCount == 0)
            && (t.state != Closed ==> t.state == HalfOpen && t.successCount == s.successCount + 1))
  {
  }

  /**
    Every failure adds one to the failure count and stamps the failure time.
    In HALF_OPEN it reopens at once; otherwise the breaker is OPEN afterwards
    exactly when the new count reaches the threshold (or it was already OPEN).
    Whenever the failure opens the breaker, the open time is `now`.
  */
  lemma FailureFacts(cfg: Settings, s: Snapshot, now: int)
    ensures var t := Failed(cfg, s, now);
      && t.failureCount == s.failureCount + 1
      && t.lastFailureTime == Some(now)
      && t.successCount == s.successCount
      && (s.state == HalfOpen ==> t.state == Open && t.lastOpenTime == Some(now))
      && (s.state == Closed ==>
            (t.state == Open <==> s.failureCount + 1 >= cfg.failureThreshold)
            && (t.state != Open ==> t.state == Closed && t.lastOpenTime == s.lastOpenTime))
      && (t.state == Open && s.state != Open ==> t.lastOpenTime == Some(now))
  {
  }

  /** `reset` closes and zeroes both counters but keeps both timestamps. */
  lemma ResetFacts(s: Snapshot)
    ensures var t := Cleared(s);
      t.state == Closed && t.failureCount == 0 && t.successCount == 0
      && t.lastOpenTime == s.lastOpenTime && t.lastFailureTime == s.lastFailureTime
  {
  }

  /** Each single event keeps the invariant. */
  lemma StepKeepsInv(cfg: Settings, s: Snapshot, e: Event)
    requires Inv(cfg, s)
    ensures Inv(cfg, Step(cfg, s, e))
  {
  }

  /** Any sequence of events keeps the invariant. */
  lemma {:induction false} RunKeepsInv(cfg: Settings, s: Snapshot, events: seq<Event>)
    requires Inv(cfg, s)
    ensures Inv(cfg, Run(cfg, s, events))
    decreases |events|
  {
    if events != [] {
      StepKeepsInv(cfg, s, events[0]);
      RunKeepsInv(cfg, Step(cfg, s, events[0]), events[1..]);
    }
  }

  /**
    From CLOSED, consecutive failing calls at one instant count up one by one,
    and the breaker opens, with that instant as its open time, exactly on the
    call that brings the count to the threshold.
  */
  lemma {:induction false} FailuresOpenAtThreshold(cfg: Settings, s: Snapshot, now: int, n: nat)
    requires s.state == Closed && s.failureCount < cfg.failureThreshold
    requires s.failureCount + n <= cfg.failureThreshold
    ensures var t := Run(cfg, s, Repeat(Attempt(now, false), n));
      && t.failureCount == s.failureCount + n
      && t.state == (if s.failureCount + n == cfg.failureThreshold then Open else Closed)
      && (t.state == Open ==> t.lastOpenTime == Some(now))
      && (t.state == Closed ==> t.lastOpenTime == s.lastOpenTime)
    decreases n
  {
    if n > 0 {
      var e := Attempt(now, false);
      assert Repeat(e, n)[0] == e && Repeat(e, n)[1..] == Repeat(e, n - 1);
      var s1 := Step(cfg, s, e);
      assert s1 == Failed(cfg, s, now);
      if s.failureCount + 1 == cfg.failureThreshold {
        assert s1.state == Open;
        assert n == 1;
        assert Repeat(e, 0) == [];
      } else {
        FailuresOpenAtThreshold(cfg, s1, now, n - 1);
      }
    }
  }

  /**
    In HALF_OPEN, consecutive recorded successes count up one by one, and the
    breaker closes, with both counters at zero, exactly on the success that
    brings the count to the threshold.
  */
  lemma {:induction false} SuccessesCloseAtThreshold(cfg: Settings, s: Snapshot, n: nat)
    requires s.state == HalfOpen && s.successCount < cfg.successThreshold
    requires s.successCount + n <= cfg.successThreshold
    ensures var t := Run(cfg, s, Repeat(RecordSuccess, n));
      && (n > 0 ==> t.failureCount == 0)
      && t.state == (if s.successCount + n == cfg.successThreshold then Closed else HalfOpen)
      && t.successCount == (if t.state == Closed then 0 else s.successCount + n)
    decreases n
  {
    if n > 0 {
      assert Repeat(RecordSuccess, n)[0] == RecordSuccess;
      assert Repeat(RecordSuccess, n)[1..] == Repeat(RecordSuccess, n - 1);
      var s1 := Succeeded(cfg, s);
      if s.successCount + 1 == cfg.successThreshold {
        assert n == 1 && Repeat(RecordSuccess, 0) == [];
      } else {
        SuccessesCloseAtThreshold(cfg, s1, n - 1);
        if n - 1 == 0 {
          assert Repeat(RecordSuccess, 0) == [];
        }
      }
    }
  }

  /**
    While OPEN and before the timeout, no number of call attempts changes
    anything: the callable is never reached, so neither its successes nor its
    failures count.
  */
  lemma {:induction false} RejectedWhileCooling(cfg: Settings, s: Snapshot, events: seq<Event>)
    requires s.state == Open
    requires forall i :: 0 <= i < |events| ==> events[i].Attempt? && !ResetDue(cfg, s, events[i].now)
    ensures Run(cfg, s, events) == s
    decreases |events|
  {
    if events != [] {
      assert Step(cfg, s, events[0]) == s;
      RejectedWhileCooling(cfg, s, events[1..]);
    }
  }

  // ---------------------------------------------------------------------------
  // Client scenarios over the class: the unit tests (tests/unit/test_circuit_breaker.py)
  // and the application's wiring (src/main.py)
  // ---------------------------------------------------------------------------

  /** A new breaker with the default arguments reads CLOSED. */
  method InitialStateScenario() returns (st: CircuitState)
    ensures st == Closed
  {
    var cb := new CircuitBreaker();
    st := cb.GetState();
  }

  /** With threshold 2, one failure keeps the breaker CLOSED and the second opens it; both re-raise. */
  method OpensAfterFailuresScenario() returns (r1: CallResult<int, string>, first: CircuitState,
                                               r2: CallResult<int, string>, second: CircuitState)
    ensures r1 == Raised("Test failure") && first == Closed
    ensures r2 == Raised("Test failure") && second == Open
  {
    var cb := new CircuitBreaker(2, 30, 2);
    r1 := cb.Call(0, Err("Test failure"));
    first := cb.GetState();
    r2 := cb.Call(0, Err("Test failure"));
    second := cb.GetState();
  }

  /** With threshold 1, the breaker opens on one failure and then rejects the next call at once. */
  method RejectsWhenOpenScenario() returns (r: CallResult<int, string>)
    ensures r == CircuitOpen
  {
    var cb := new CircuitBreaker(1, 30, 2);
    var ignored: CallResult<int, string> := cb.Call(0, Err("Test failure"));
    r := cb.Call(0, Err("Test failure"));
  }

  /** Timeout 1, success threshold 1: after the open period a succeeding call returns its value and closes. */
  method HalfOpenSuccessScenario() returns (openState: CircuitState, r: CallResult<string, string>, st: CircuitState)
    ensures openState == Open
    ensures r == Returned("success") && st == Closed
  {
    var cb := new CircuitBreaker(1, 1, 1);
    var ignored: CallResult<int, string> := cb.Call(0, Err("Test failure"));
    openState := cb.GetState();
    r := cb.Call(2, Ok("success"));
    st := cb.GetState();
  }

  /**
    The wiring of src/main.py (failure threshold 5, timeout 30, success
    threshold left at its default 2): five failures open the breaker; a call
    10 seconds later is rejected; a succeeding call 31 seconds later goes
    through, but one success leaves the breaker in HALF_OPEN, and a second
    one closes it.
  */
  method DefaultWiringScenario() returns (openState: CircuitState, early: CallResult<int, string>,
                                          probe: CallResult<int, string>, afterOne: CircuitState,
                                          afterTwo: CircuitState)
    ensures openState == Open && early == CircuitOpen
    ensures probe == Returned(1) && afterOne == HalfOpen && afterTwo == Closed
  {
    var cb := new CircuitBreaker(5, 30, 2);
    var i := 0;
    while i < 5
      invariant 0 <= i <= 5
      invariant cb.Valid() && cb.Config() == Settings(5, 30, 2)
      invariant cb.state == (if i == 5 then Open else Closed) && cb.failureCount == i
      invariant i == 5 ==> cb.lastOpenTime == Some(0)
    {
      var ignored: CallResult<int, string> := cb.Call(0, Err("down"));
      i := i + 1;
    }
    openState := cb.GetState();
    early := cb.Call(10, Ok(0));
    probe := cb.Call(31, Ok(1));
    afterOne := cb.GetState();
    var ignored: CallResult<int, string> := cb.Call(32, Ok(2));
    afterTwo := cb.GetState();
  }
}
