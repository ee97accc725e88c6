/**
 * The fixed-window rate limiter of limit.go.
 *
 * Time is an explicit integer `now`, in nanoseconds (the unit of Go's
 * time.Duration). The limiter resets its counter once at least one minute
 * has passed since the last reset: the threshold is the constant one minute,
 * whatever lease cycle the limiter was built with.
 */
module Limit {

  const Second: int := 1_000_000_000
  const Minute: int := 60 * Second
  const Hour: int := 60 * Minute

  /** The mutable part of a limiter: the admits since the last reset and the time of that reset. */
  datatype Window = Window(count: int, lastReset: int)

  /** The counter invariant: never negative and never above the capacity (zero when the capacity is negative). */
  predicate Bounded(maxRequests: int, w: Window)
  {
    0 <= w.count <= (if maxRequests < 0 then 0 else maxRequests)
  }

  /** One call of Allow at time `now`: whether it admits, and the window afterwards. */
  function Step(maxRequests: int, w: Window, now: int): (r: (bool, Window))
    // the window start never moves backwards
    ensures w.lastReset <= r.1.lastReset
    // a minute or more after the last reset: the counter restarts at now, and the call admits iff the capacity is at least one
    ensures now - w.lastReset >= Minute ==>
              r.1.lastReset == now && r.0 == (1 <= maxRequests) && r.1.count == (if r.0 then 1 else 0)
    // inside the window: admit iff below capacity; an admit adds exactly one, a denial changes nothing
    ensures now - w.lastReset < Minute ==>
              r.1.lastReset == w.lastReset && r.0 == (w.count < maxRequests) &&
              r.1.count == (if r.0 then w.count + 1 else w.count)
    ensures Bounded(maxRequests, w) ==> Bounded(maxRequests, r.1)
    // from a bounded counter a denial never changes the count, even across a reset
    ensures Bounded(maxRequests, w) && !r.0 ==> r.1.count == w.count
  {
    var w' := if now - w.lastReset >= Minute then Window(0, now) else w;
    if w'.count >= maxRequests then (false, w') else (true, Window(w'.count + 1, w'.lastReset))
  }

  /** Successive calls of Allow at the given times: the decision of each call, and the final window. */
  function Run(maxRequests: int, w: Window, times: seq<int>): (r: (seq<bool>, Window))
    ensures |r.0| == |times|
    ensures w.lastReset <= r.1.lastReset
    ensures Bounded(maxRequests, w) ==> Bounded(maxRequests, r.1)
    decreases |times|
  {
    if times == [] then ([], w)
    else
      var (admitted, w') := Step(maxRequests, w, times[0]);
      var (rest, last) := Run(maxRequests, w', times[1..]);
      ([admitted] + rest, last)
  }

  /**
   * While no call comes a minute or more after the window start, call i admits
   * exactly when the count it started from plus i is below the capacity: the
   * calls are admitted up to the capacity and denied from then on.
   */
  lemma {:induction false} RunWithinWindow(maxRequests: int, w: Window, times: seq<int>)
    requires forall i :: 0 <= i < |times| ==> times[i] - w.lastReset < Minute
    ensures Run(maxRequests, w, times).1.lastReset == w.lastReset
    ensures forall i :: 0 <= i < |times| ==> Run(maxRequests, w, times).0[i] == (w.count + i < maxRequests)
    decreases |times|
  {
    if times != [] {
      var (admitted, w') := Step(maxRequests, w, times[0]);
      RunWithinWindow(maxRequests, w', times[1..]);
      var r := Run(maxRequests, w, times);
      assert r.0 == [admitted] + Run(maxRequests, w', times[1..]).0;
      forall i | 1 <= i < |times|
        ensures r.0[i] == (w.count + i < maxRequests)
      {
        assert r.0[i] == Run(maxRequests, w', times[1..]).0[i - 1];
        assert times[1..][i - 1] == times[i];
      }
    }
  }

  /** A fresh limiter of capacity c admits exactly the first c calls of one window and denies every later one. */
  lemma FreshLimiterAdmitsFirst(maxRequests: int, start: int, times: seq<int>)
    requires forall i :: 0 <= i < |times| ==> times[i] - start < Minute
    ensures forall i :: 0 <= i < |times| ==> Run(maxRequests, Window(0, start), times).0[i] == (i < maxRequests)
  {
    RunWithinWindow(maxRequests, Window(0, start), times);
  }

  /** RateLimiter: capacity and lease cycle fixed at construction, counter and last reset updated by Allow. */
  class RateLimiter {
    const maxRequests: int
    const leaseCycle: int
    var requestsCount: int
    var lastReset: int

    function State(): Window
      reads this
    {
      Window(requestsCount, lastReset)
    }

    ghost predicate Valid()
      reads this
    {
      Bounded(maxRequests, State())
    }

    /** NewRateLimiter: the count starts at zero and the window at `now`. */
    constructor (maxRequests: int, leaseCycle: int, now: int)
      ensures this.maxRequests == maxRequests && this.leaseCycle == leaseCycle
      ensures State() == Window(0, now) && Valid()
    {
      this.maxRequests := maxRequests;
      this.leaseCycle := leaseCycle;
      requestsCount := 0;
      lastReset := now;
    }

    /** Reset when a minute has elapsed, then deny at capacity, else count the request and admit. */
    method Allow(now: int) returns (allowed: bool)
      modifies this
      ensures (allowed, State()) == Step(maxRequests, old(State()), now)
      ensures old(Valid()) ==> Valid()
      ensures old(lastReset) <= lastReset
    {
      if now - lastReset >= Minute {
        requestsCount := 0;
        lastReset := now;
      }
      if requestsCount >= maxRequests {
        return false;
      }
      requestsCount := requestsCount + 1;
      return true;
    }
  }

  /**
   * The "reset counter after lease cycle" scenario: capacity 5, lease cycle one
   * second, ten calls, a one-second pause, five more calls. The first five
   * calls admit and the next five deny, but the five after the pause deny as
   * well, because the window is one minute and not the lease cycle.
   */
  method LeaseCycleScenario(start: int) returns (admitted: seq<bool>)
    ensures |admitted| == 15
    ensures forall k :: 0 <= k < 15 ==> admitted[k] == (k < 5)
  {
    var limiter := new RateLimiter(5, Second, start);
    admitted := [];
    var i := 0;
    while i < 10
      invariant 0 <= i <= 10
      invariant limiter.maxRequests == 5 && limiter.lastReset == start
      invariant limiter.requestsCount == if i < 5 then i else 5
      invariant |admitted| == i
      invariant forall k :: 0 <= k < i ==> admitted[k] == (k < 5)
    {
      var ok := limiter.Allow(start);
      admitted := admitted + [ok];
      i := i + 1;
    }
    i := 0;
    while i < 5
      invariant 0 <= i <= 5
      invariant limiter.maxRequests == 5 && limiter.lastReset == start && limiter.requestsCount == 5
      invariant |admitted| == 10 + i
      invariant forall k :: 0 <= k < 10 + i ==> admitted[k] == (k < 5)
    {
      var ok := limiter.Allow(start + Second);
      admitted := admitted + [ok];
      i := i + 1;
    }
  }
}
