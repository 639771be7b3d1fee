/** The API's sliding-window rate limiter: per client, the times of its recent accepted
    requests. A request is admitted when fewer than `maxRequests` of them fall inside the
    last `windowSeconds` seconds; the wall clock is the caller's `now`. */
module RateLimiting {

  /** The constructor's defaults: 100 requests per 60 seconds. */
  const DefaultMaxRequests: int := 100
  const DefaultWindowSeconds: int := 60

  /** The comprehension that cleans a client's list: the times strictly after
      `windowStart`, in their original order. */
  function Recent(times: seq<real>, windowStart: real): (r: seq<real>)
    ensures forall t :: t in r <==> t in times && t > windowStart
    ensures |r| <= |times|
  {
    if times == [] then []
    else Recent(times[..|times| - 1], windowStart)
         + (if times[|times| - 1] > windowStart then [times[|times| - 1]] else [])
  }

  /** Cleaning is a filter applied entry by entry: appending a time appends it to the
      cleaned list exactly when it is inside the window. */
  lemma RecentAppend(times: seq<real>, t: real, windowStart: real)
    ensures Recent(times + [t], windowStart)
            == Recent(times, windowStart) + (if t > windowStart then [t] else [])
  {
    assert (times + [t])[..|times + [t]| - 1] == times;
  }

  /** A cleaned list has nothing left to clean. */
  lemma {:induction false} RecentIdempotent(times: seq<real>, windowStart: real)
    ensures Recent(Recent(times, windowStart), windowStart) == Recent(times, windowStart)
  {
    RecentNarrow(times, windowStart, windowStart);
  }

  /** Cleaning with an earlier window start and then a later one is the same as cleaning
      with the later one alone: later calls see a list no different from an uncleaned one. */
  lemma {:induction false} RecentNarrow(times: seq<real>, earlier: real, later: real)
    requires earlier <= later
    ensures Recent(Recent(times, earlier), later) == Recent(times, later)
  {
    if times != [] {
      var init, t := times[..|times| - 1], times[|times| - 1];
      RecentNarrow(init, earlier, later);
      RecentAppend(Recent(init, earlier), t, later);
      if t > earlier {
        assert Recent(Recent(times, earlier), later)
            == Recent(Recent(init, earlier) + [t], later);
      } else {
        assert Recent(times, earlier) == Recent(init, earlier) + [];
        assert Recent(times, earlier) == Recent(init, earlier);
      }
    }
  }

  /** Every time the cleaned list keeps is inside the window. */
  lemma RecentInsideWindow(times: seq<real>, windowStart: real)
    ensures forall i | 0 <= i < |Recent(times, windowStart)| :: Recent(times, windowStart)[i] > windowStart
  {
    forall i | 0 <= i < |Recent(times, windowStart)|
      ensures Recent(times, windowStart)[i] > windowStart
    {
      assert Recent(times, windowStart)[i] in Recent(times, windowStart);
    }
  }

  class RateLimiter {
    const maxRequests: int
    const windowSeconds: int
    /** `_requests`: each client's accepted request times, oldest first. */
    var requests: map<string, seq<real>>

    constructor (maxRequests: int, windowSeconds: int)
      ensures this.maxRequests == maxRequests && this.windowSeconds == windowSeconds
      ensures requests == map[] && Bounded()
    {
      this.maxRequests, this.windowSeconds := maxRequests, windowSeconds;
      requests := map[];
    }

    /** `RateLimiter()` with its default arguments, as the module-level `rate_limiter`
        instance is made: 100 requests per 60 seconds, no clients. */
    constructor Default()
      ensures maxRequests == DefaultMaxRequests && windowSeconds == DefaultWindowSeconds
      ensures requests == map[] && Bounded()
    {
      maxRequests, windowSeconds := DefaultMaxRequests, DefaultWindowSeconds;
      requests := map[];
    }

    /** The most times a client's list can hold: `maxRequests`, or none when it is not
        positive. */
    function Capacity(): nat
      reads this
    {
      if maxRequests < 0 then 0 else maxRequests
    }

    /** No client's list holds more than the limit allows. */
    ghost predicate Bounded()
      reads this
    {
      forall c | c in requests :: |requests[c]| <= Capacity()
    }

    /** `check_rate_limit`: the client's list (an empty one for a new client) loses every
        time at or before `now - windowSeconds`; the call is refused, recording nothing,
        when what is left already holds `maxRequests` times, and is otherwise accepted and
        recorded at `now`. Other clients' lists are untouched. */
    method CheckRateLimit(client: string, now: real) returns (allowed: bool)
      modifies this`requests
      ensures var kept := Recent(if client in old(requests) then old(requests)[client] else [],
                                 now - windowSeconds as real);
        allowed == (|kept| < maxRequests)
        && requests == old(requests)[client := if allowed then kept + [now] else kept]
      ensures old(Bounded()) ==> Bounded()
    {
      var windowStart := now - windowSeconds as real;
      if client in requests {
        requests := requests[client := Recent(requests[client], windowStart)];
      } else {
        requests := requests[client := []];
      }
      if |requests[client]| >= maxRequests {
        return false;
      }
      requests := requests[client := requests[client] + [now]];
      allowed := true;
    }
  }

  /** A refused call leaves the client's list as full as it was: a repeat of the call at
      the same `now` is refused too. */
  lemma RefusedAgain(times: seq<real>, maxRequests: int, windowStart: real)
    requires |Recent(times, windowStart)| >= maxRequests
    ensures |Recent(Recent(times, windowStart), windowStart)| >= maxRequests
  {
    RecentIdempotent(times, windowStart);
  }
}
