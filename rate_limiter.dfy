/**
  The sliding-window-log rate limiter of src/services/rate_limiter.py.

  The limiter keeps, per client id, the list of the times of its admitted
  requests.  The pure functions below (`Prune`, `Record`, `Remaining`,
  `ResetSeconds`, `Sweep`) say what each operation computes from the stored
  lists; the class `RateLimiter` holds the table and updates it as the source
  does, tied to those functions.
*/
module Limiter {

  /** The stored list for `clientId`; a client never seen reads as empty (the table is a `defaultdict(list)`). */
  function Lookup(requests: map<string, seq<int>>, clientId: string): (ts: seq<int>)
    ensures clientId !in requests ==> ts == []
    ensures clientId in requests ==> ts == requests[clientId]
  {
    if clientId in requests then requests[clientId] else []
  }

  /** The table after a read through the `defaultdict`: an unknown id gains an empty list, nothing else changes. */
  function Touch(requests: map<string, seq<int>>, clientId: string): (m: map<string, seq<int>>)
    ensures m.Keys == requests.Keys + {clientId}
    ensures forall c :: c in requests ==> m[c] == requests[c]
    ensures clientId !in requests ==> m[clientId] == []
  {
    if clientId in requests then requests else requests[clientId := []]
  }

  /** `a` is `b` with some entries deleted and the rest kept in their order. */
  predicate IsSubsequence(a: seq<int>, b: seq<int>)
    decreases |b|
  {
    if a == [] then true
    else if b == [] then false
    else (a[0] == b[0] && IsSubsequence(a[1..], b[1..])) || IsSubsequence(a, b[1..])
  }

  /**
    The comprehension `[t for t in ts if t > windowStart]`: exactly the
    timestamps strictly after the window start, each as often as in `ts` and
    in their original order; a list that is all inside the window comes back
    as it is.
  */
  function Prune(ts: seq<int>, windowStart: int): (kept: seq<int>)
    ensures |kept| <= |ts|
    ensures IsSubsequence(kept, ts)
    ensures forall t :: t in kept <==> t in ts && t > windowStart
    ensures forall t :: multiset(kept)[t] == if t > windowStart then multiset(ts)[t] else 0
    ensures (forall i :: 0 <= i < |ts| ==> ts[i] > windowStart) ==> kept == ts
    ensures (forall i :: 0 <= i < |ts| ==> ts[i] <= windowStart) ==> kept == []
    decreases |ts|
  {
    if ts == [] then []
    else
      assert ts == [ts[0]] + ts[1..];
      var rest := Prune(ts[1..], windowStart);
      if ts[0] > windowStart then
        assert ([ts[0]] + rest)[1..] == rest;
        [ts[0]] + rest
      else
        rest
  }

  /** A list holding a timestamp at or before the window start loses at least one entry. */
  lemma {:induction false} PruneDropsStale(ts: seq<int>, windowStart: int, i: nat)
    requires i < |ts| && ts[i] <= windowStart
    ensures |Prune(ts, windowStart)| < |ts|
    decreases |ts|
  {
    if i > 0 {
      PruneDropsStale(ts[1..], windowStart, i - 1);
    }
  }

  /** The admission test of `is_allowed`: fewer than `maxRequests` timestamps are inside the window. */
  predicate Admits(ts: seq<int>, windowStart: int, maxRequests: int) {
    |Prune(ts, windowStart)| < maxRequests
  }

  /** `Admits` for a request arriving at time `at`. */
  predicate AdmitsAt(ts: seq<int>, at: int, windowSize: int, maxRequests: int) {
    Admits(ts, at - windowSize, maxRequests)
  }

  /** The list `is_allowed` stores: the pruned list, with `now` appended when the request is admitted. */
  function Record(ts: seq<int>, now: int, windowSize: int, maxRequests: int): seq<int> {
    var kept := Prune(ts, now - windowSize);
    if |kept| < maxRequests then kept + [now] else kept
  }

  /**
    What `is_allowed` promises about the list it stores: every entry but the
    one just appended lies strictly inside the window (so one exactly
    `windowSize` old is gone); the request is appended exactly when admitted
    and a denial stores the pruned list; the list never grows past the
    capacity; `maxRequests <= 0` always denies; and a client whose every
    timestamp has aged out is admitted whenever the capacity is at least one.
  */
  lemma RecordFacts(ts: seq<int>, now: int, windowSize: int, maxRequests: int)
    ensures var r := Record(ts, now, windowSize, maxRequests);
      && (forall t :: t in r ==> t > now - windowSize || t == now)
      && (now - windowSize !in r || windowSize == 0)
      && (Admits(ts, now - windowSize, maxRequests) ==> r == Prune(ts, now - windowSize) + [now])
      && (!Admits(ts, now - windowSize, maxRequests) ==> r == Prune(ts, now - windowSize))
      && (|ts| <= maxRequests ==> |r| <= maxRequests)
      && (maxRequests <= 0 ==> !Admits(ts, now - windowSize, maxRequests) && |r| <= |ts|)
      && ((forall i :: 0 <= i < |ts| ==> ts[i] <= now - windowSize) && maxRequests >= 1 ==>
            Admits(ts, now - windowSize, maxRequests) && r == [now])
  {
  }

  /**
    `get_remaining_requests`: the free slots left in the window, floored at
    zero; never more than the capacity, and zero exactly when the next
    request would be denied.
  */
  function Remaining(ts: seq<int>, windowStart: int, maxRequests: int): (r: int)
    ensures 0 <= r
    ensures maxRequests >= 0 ==> r <= maxRequests
    ensures r == 0 <==> !Admits(ts, windowStart, maxRequests)
    ensures r > 0 ==> r + |Prune(ts, windowStart)| == maxRequests
  {
    var active := Prune(ts, windowStart);
    if maxRequests - |active| < 0 then 0 else maxRequests - |active|
  }

  /** The smallest timestamp of a non-empty list (Python's `min`). */
  function Min(ts: seq<int>): (m: int)
    requires ts != []
    ensures m in ts
    ensures forall t :: t in ts ==> m <= t
    decreases |ts|
  {
    if |ts| == 1 then ts[0]
    else
      var rest := Min(ts[1..]);
      assert forall t :: t in ts ==> t == ts[0] || t in ts[1..];
      if ts[0] <= rest then ts[0] else rest
  }

  /** `get_reset_time`: zero for an empty list, otherwise the seconds until the oldest stored entry leaves the window. */
  function ResetSeconds(ts: seq<int>, windowSize: int, now: int): (r: int)
    ensures r >= 0
    ensures ts == [] ==> r == 0
  {
    if ts == [] then 0
    else if Min(ts) + windowSize - now < 0 then 0
    else Min(ts) + windowSize - now
  }

  /**
    The reset time of a stored list is the first moment at which its oldest
    entry is outside the window; one second earlier it was still inside
    (when the reset time is positive).
  */
  lemma ResetSecondsIsOldestExpiry(ts: seq<int>, windowSize: int, now: int)
    requires ts != []
    ensures var r := ResetSeconds(ts, windowSize, now);
      && Min(ts) <= now + r - windowSize
      && (r > 0 ==> Min(ts) > now + r - 1 - windowSize)
  {
  }

  /**
    A client that was just denied (its stored list is all inside the window
    and full) is denied at every moment before its reset time has passed and
    admitted at the moment it has: `get_reset_time` is exactly the wait.
  */
  lemma DeniedClientWaitsResetSeconds(ts: seq<int>, windowSize: int, now: int, maxRequests: int)
    requires forall i :: 0 <= i < |ts| ==> ts[i] > now - windowSize
    requires |ts| <= maxRequests
    requires maxRequests >= 1
    requires !Admits(ts, now - windowSize, maxRequests)
    ensures var r := ResetSeconds(ts, windowSize, now);
      && r > 0
      && (forall at :: now <= at < now + r ==> !AdmitsAt(ts, at, windowSize, maxRequests))
      && AdmitsAt(ts, now + r, windowSize, maxRequests)
  {
    var r := ResetSeconds(ts, windowSize, now);
    var m := Min(ts);
    assert |ts| == maxRequests;
    var k :| 0 <= k < |ts| && ts[k] == m;
    assert m > now - windowSize;
    assert r == m + windowSize - now;
    forall at | now <= at < now + r
      ensures !AdmitsAt(ts, at, windowSize, maxRequests)
    {
      forall i | 0 <= i < |ts| ensures ts[i] > at - windowSize {
        assert ts[i] in ts;
      }
    }
    PruneDropsStale(ts, now + r - windowSize, k);
  }

  /**
    Once a whole window has passed since a client's last request, the client
    is admitted again and has its full quota back.
  */
  lemma WindowElapsedRestoresQuota(ts: seq<int>, last: int, now: int, windowSize: int, maxRequests: int)
    requires forall i :: 0 <= i < |ts| ==> ts[i] <= last
    requires now >= last + windowSize
    requires maxRequests >= 1
    ensures Admits(ts, now - windowSize, maxRequests)
    ensures Remaining(ts, now - windowSize, maxRequests) == maxRequests
  {
  }

  /** The test of `cleanup_old_entries`: some stored timestamp is after the cutoff. */
  predicate HasRecent(ts: seq<int>, cutoff: int) {
    exists i :: 0 <= i < |ts| && ts[i] > cutoff
  }

  /**
    `cleanup_old_entries`: exactly the clients with a timestamp after the
    cutoff stay, each with its list unchanged; empty lists are removed.
  */
  function Sweep(requests: map<string, seq<int>>, cutoff: int): (m: map<string, seq<int>>)
    ensures forall c :: c in m <==> c in requests && HasRecent(requests[c], cutoff)
    ensures forall c :: c in m ==> m[c] == requests[c]
    ensures forall c :: c in requests && requests[c] == [] ==> c !in m
  {
    map c | c in requests && HasRecent(requests[c], cutoff) :: requests[c]
  }

  /** A client survives the sweep exactly when its list, pruned at the cutoff, is non-empty. */
  lemma SweepAgreesWithPrune(requests: map<string, seq<int>>, cutoff: int, clientId: string)
    requires clientId in requests
    ensures clientId in Sweep(requests, cutoff) <==> Prune(requests[clientId], cutoff) != []
  {
    var ts := requests[clientId];
    if HasRecent(ts, cutoff) {
      var i :| 0 <= i < |ts| && ts[i] > cutoff;
      assert ts[i] in Prune(ts, cutoff);
    }
    if Prune(ts, cutoff) != [] {
      var t := Prune(ts, cutoff)[0];
      assert t in Prune(ts, cutoff);
      var i :| 0 <= i < |ts| && ts[i] == t;
      assert HasRecent(ts, cutoff);
    }
  }

  class RateLimiter {
    const windowSize: int
    const maxRequests: int
    var requests: map<string, seq<int>>

    /** The most entries a client's list may hold. */
    function Capacity(): nat {
      if maxRequests < 0 then 0 else maxRequests
    }

    ghost predicate Valid()
      reads this
    {
      forall c :: c in requests ==> |requests[c]| <= Capacity()
    }

    /** `__init__`: an empty table. */
    constructor (windowSize: int := 60, maxRequests: int := 10)
      ensures Valid()
      ensures this.windowSize == windowSize && this.maxRequests == maxRequests
      ensures requests == map[]
    {
      this.windowSize := windowSize;
      this.maxRequests := maxRequests;
      requests := map[];
    }

    /**
      `is_allowed(clientId)` at time `now`: prunes the client's list, then
      admits and appends `now` exactly when fewer than `maxRequests` remain.
      Only the entry of `clientId` changes.
    */
    method IsAllowed(clientId: string, now: int) returns (allowed: bool)
      requires Valid()
      modifies this
      ensures Valid()
      ensures var ts := Lookup(old(requests), clientId);
        && allowed == Admits(ts, now - windowSize, maxRequests)
        && requests == old(requests)[clientId := Record(ts, now, windowSize, maxRequests)]
      ensures forall c :: c in old(requests) && c != clientId ==> c in requests && requests[c] == old(requests)[c]
    {
      var windowStart := now - windowSize;
      var kept := Prune(Lookup(requests, clientId), windowStart);
      requests := requests[clientId := kept];
      allowed := |kept| < maxRequests;
      if allowed {
        requests := requests[clientId := kept + [now]];
      }
    }

    /** `get_remaining_requests(clientId)` at time `now`; stored lists are left as they are. */
    method GetRemainingRequests(clientId: string, now: int) returns (remaining: int)
      requires Valid()
      modifies this
      ensures Valid()
      ensures requests == Touch(old(requests), clientId)
      ensures remaining == Remaining(Lookup(old(requests), clientId), now - windowSize, maxRequests)
    {
      var windowStart := now - windowSize;
      requests := Touch(requests, clientId);
      var active := Prune(requests[clientId], windowStart);
      remaining := if maxRequests - |active| < 0 then 0 else maxRequests - |active|;
    }

    /** `get_reset_time(clientId)` at time `now`, computed from the stored list as it is (not pruned). */
    method GetResetTime(clientId: string, now: int) returns (seconds: int)
      requires Valid()
      modifies this
      ensures Valid()
      ensures requests == Touch(old(requests), clientId)
      ensures seconds == ResetSeconds(Lookup(old(requests), clientId), windowSize, now)
    {
      requests := Touch(requests, clientId);
      if requests[clientId] == [] {
        return 0;
      }
      var oldest := Min(requests[clientId]);
      var resetTime := oldest + windowSize - now;
      seconds := if resetTime < 0 then 0 else resetTime;
    }

    /**
      `cleanup_old_entries(maxAge)` at time `now`: first collects the clients
      without a timestamp after `now - maxAge`, then deletes them.
    */
    method CleanupOldEntries(now: int, maxAge: int := 3600)
      requires Valid()
      modifies this
      ensures Valid()
      ensures requests == Sweep(old(requests), now - maxAge)
    {
      var cutoff := now - maxAge;
      var clientsToRemove: seq<string> := [];
      var pending := requests.Keys;
      while pending != {}
        invariant pending <= requests.Keys
        invariant forall c :: c in clientsToRemove <==>
                    c in requests && c !in pending && !HasRecent(requests[c], cutoff)
        decreases pending
      {
        var c :| c in pending;
        if !HasRecent(requests[c], cutoff) {
          clientsToRemove := clientsToRemove + [c];
        }
        pending := pending - {c};
      }
      ghost var before := requests;
      var i := 0;
      while i < |clientsToRemove|
        invariant 0 <= i <= |clientsToRemove|
        invariant requests == map c | c in before && c !in clientsToRemove[..i] :: before[c]
      {
        assert clientsToRemove[..i + 1] == clientsToRemove[..i] + [clientsToRemove[i]];
        requests := requests - {clientsToRemove[i]};
        i := i + 1;
      }
      assert clientsToRemove[..i] == clientsToRemove;
    }
  }

  /**
    Fifteen requests from one client at one instant against a window of 60
    seconds and a capacity of 10: ten are admitted, five denied, and no
    quota remains.
  */
  method BurstScenario() returns (admitted: nat, denied: nat, remaining: int)
    ensures admitted == 10 && denied == 5 && remaining == 0
  {
    var limiter := new RateLimiter(60, 10);
    admitted, denied := 0, 0;
    var i := 0;
    while i < 15
      invariant 0 <= i <= 15
      invariant limiter.Valid() && limiter.windowSize == 60 && limiter.maxRequests == 10
      invariant admitted == (if i < 10 then i else 10) && denied == i - admitted
      invariant Lookup(limiter.requests, "client") == seq(admitted, _ => 1000)
    {
      var ok := limiter.IsAllowed("client", 1000);
      if ok {
        admitted := admitted + 1;
      } else {
        denied := denied + 1;
      }
      i := i + 1;
    }
    remaining := limiter.GetRemainingRequests("client", 1000);
  }
}
