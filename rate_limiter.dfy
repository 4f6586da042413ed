/**
 * The server's rate limiter (src/server/rate_limiter.rs): per client
 * address, at most `maxRequests` requests in a window of `windowSeconds`
 * seconds that starts with the first request after the previous window ran
 * out. A refused request is told how many whole seconds to wait. Time is a
 * count of nanoseconds on a clock that the caller reads.
 */
module RateLimiter {
  import opened Wrappers

  const NanosPerSecond: nat := 1_000_000_000

  /** How many requests the current window has seen and when it started. */
  datatype RateLimitInfo = RateLimitInfo(count: nat, windowStart: nat)

  /** The answer to one request: let through, or refused with seconds to wait. */
  datatype Verdict = Allowed | Limited(retryAfter: nat)

  /** duration_since: the time from `start` to `now`, 0 when `start` is later. */
  function Elapsed(now: nat, start: nat): (r: nat)
    ensures now >= start ==> start + r == now
    ensures now <= start ==> r == 0
  {
    if now >= start then now - start else 0
  }

  /** The window's length in nanoseconds. */
  function Window(windowSeconds: nat): nat
  {
    windowSeconds * NanosPerSecond
  }

  /** The entry kept for an address, if any. */
  function Lookup<Ip>(limits: map<Ip, RateLimitInfo>, ip: Ip): Option<RateLimitInfo>
  {
    if ip in limits then Some(limits[ip]) else None
  }

  /**
   * The window a request at `now` counts against: a new one, empty and
   * starting now, when the address has none or its window has run out;
   * otherwise the address's window as it is.
   */
  function CurrentWindow(entry: Option<RateLimitInfo>, now: nat, windowSeconds: nat): (info: RateLimitInfo)
    ensures Elapsed(now, info.windowStart) < Window(windowSeconds) || info == RateLimitInfo(0, now)
    ensures entry.None? ==> info == RateLimitInfo(0, now)
    ensures entry.Some? && Elapsed(now, entry.value.windowStart) < Window(windowSeconds) ==> info == entry.value
    ensures entry.Some? && Elapsed(now, entry.value.windowStart) >= Window(windowSeconds) ==> info == RateLimitInfo(0, now)
  {
    match entry
    case None => RateLimitInfo(0, now)
    case Some(i) => if Elapsed(now, i.windowStart) >= Window(windowSeconds) then RateLimitInfo(0, now) else i
  }

  /** A time short of a whole number of seconds is fewer seconds in whole seconds. */
  lemma WholeSecondsBelow(elapsed: nat, seconds: nat)
    requires elapsed < seconds * NanosPerSecond
    ensures elapsed / NanosPerSecond < seconds
  {
    var q := elapsed / NanosPerSecond;
    assert q * NanosPerSecond <= elapsed;
  }

  /**
   * The seconds a refused request is told to wait: the window's seconds less
   * the whole seconds gone since it started. Inside a window that is at
   * least one second and at most the whole window; it never goes below 0.
   */
  function RetryAfter(windowSeconds: nat, elapsed: nat): (r: nat)
    requires elapsed < Window(windowSeconds) || elapsed == 0
    ensures windowSeconds > 0 ==> 1 <= r <= windowSeconds
    ensures windowSeconds == 0 ==> r == 0
  {
    if elapsed < Window(windowSeconds) then
      WholeSecondsBelow(elapsed, windowSeconds);
      windowSeconds - elapsed / NanosPerSecond
    else
      windowSeconds - elapsed / NanosPerSecond
  }

  /**
   * check: the request is let through exactly when its window has seen
   * fewer than `maxRequests` requests, and is then counted; a refused one is
   * not counted and is told when the window ends. Either way the address's
   * entry becomes that window.
   */
  function CheckStep(entry: Option<RateLimitInfo>, now: nat, maxRequests: nat, windowSeconds: nat): (r: (RateLimitInfo, Verdict))
    ensures var w := CurrentWindow(entry, now, windowSeconds);
      && (r.1.Allowed? <==> w.count < maxRequests)
      && (r.1.Allowed? ==> r.0 == w.(count := w.count + 1))
      && (r.1.Limited? ==> r.0 == w)
      && r.0.windowStart == w.windowStart
    ensures r.1.Limited? && windowSeconds > 0 ==> 1 <= r.1.retryAfter <= windowSeconds
  {
    var info := CurrentWindow(entry, now, windowSeconds);
    if info.count >= maxRequests then
      (info, Limited(RetryAfter(windowSeconds, Elapsed(now, info.windowStart))))
    else
      (info.(count := info.count + 1), Allowed)
  }

  /** The verdicts on requests from one address at the given times, in order. */
  function Checks(entry: Option<RateLimitInfo>, times: seq<nat>, maxRequests: nat, windowSeconds: nat): (r: seq<Verdict>)
    ensures |r| == |times|
    decreases |times|
  {
    if |times| == 0 then []
    else
      var (info, verdict) := CheckStep(entry, times[0], maxRequests, windowSeconds);
      [verdict] + Checks(Some(info), times[1..], maxRequests, windowSeconds)
  }

  /**
   * Within a window that has seen `count` requests, the i-th further
   * request is let through exactly when count + i is below the limit: the
   * requests are let through up to the limit and refused from then on.
   */
  lemma {:induction false} WithinWindow(count: nat, start: nat, times: seq<nat>, maxRequests: nat, windowSeconds: nat)
    requires forall i :: 0 <= i < |times| ==> start <= times[i] < start + Window(windowSeconds)
    decreases |times|
    ensures forall i :: 0 <= i < |times| ==>
      (Checks(Some(RateLimitInfo(count, start)), times, maxRequests, windowSeconds)[i].Allowed? <==> count + i < maxRequests)
  {
    if |times| > 0 {
      var entry := Some(RateLimitInfo(count, start));
      assert CurrentWindow(entry, times[0], windowSeconds) == RateLimitInfo(count, start);
      var (info, verdict) := CheckStep(entry, times[0], maxRequests, windowSeconds);
      var next := if count < maxRequests then count + 1 else count;
      assert info == RateLimitInfo(next, start);
      WithinWindow(next, start, times[1..], maxRequests, windowSeconds);
      var r := Checks(entry, times, maxRequests, windowSeconds);
      var rest := Checks(Some(RateLimitInfo(next, start)), times[1..], maxRequests, windowSeconds);
      assert r == [verdict] + rest;
      forall i | 1 <= i < |times|
        ensures r[i].Allowed? <==> count + i < maxRequests
      {
        assert r[i] == rest[i - 1];
      }
    }
  }

  /**
   * An address not seen before, or whose window ran out, gets its first
   * `maxRequests` requests within a window through and the rest refused
   * (with 3 allowed: three let through, the fourth refused).
   */
  lemma FirstRequestsPass(entry: Option<RateLimitInfo>, times: seq<nat>, maxRequests: nat, windowSeconds: nat)
    requires |times| > 0 && windowSeconds > 0
    requires entry.Some? ==> Elapsed(times[0], entry.value.windowStart) >= Window(windowSeconds)
    requires forall i :: 0 <= i < |times| ==> times[0] <= times[i] < times[0] + Window(windowSeconds)
    ensures var r := Checks(entry, times, maxRequests, windowSeconds);
      forall i :: 0 <= i < |times| ==> (r[i].Allowed? <==> i < maxRequests)
  {
    var renewed := Some(RateLimitInfo(0, times[0]));
    assert CurrentWindow(entry, times[0], windowSeconds) == CurrentWindow(renewed, times[0], windowSeconds);
    assert Checks(entry, times, maxRequests, windowSeconds) == Checks(renewed, times, maxRequests, windowSeconds);
    WithinWindow(0, times[0], times, maxRequests, windowSeconds);
  }

  /**
   * Once a window has run out, the next request starts a new one and is
   * let through (whenever any request may be), however many the old
   * window refused.
   */
  lemma WindowResets(info: RateLimitInfo, now: nat, maxRequests: nat, windowSeconds: nat)
    requires now >= info.windowStart + Window(windowSeconds) && maxRequests > 0
    ensures CheckStep(Some(info), now, maxRequests, windowSeconds) == (RateLimitInfo(1, now), Allowed)
  {
  }

  /**
   * cleanup_expired: the entries kept are exactly those whose window
   * started less than two windows ago.
   */
  function Retained<Ip(!new)>(limits: map<Ip, RateLimitInfo>, now: nat, windowSeconds: nat): (r: map<Ip, RateLimitInfo>)
    ensures forall ip :: ip in r <==> ip in limits && Elapsed(now, limits[ip].windowStart) < 2 * Window(windowSeconds)
    ensures forall ip :: ip in r ==> r[ip] == limits[ip]
  {
    map ip | ip in limits && Elapsed(now, limits[ip].windowStart) < 2 * Window(windowSeconds) :: limits[ip]
  }

  /**
   * Cleaning up never changes what a later check answers or records: an
   * entry removed had a window that ran out, so a later request starts a
   * new window either way.
   */
  lemma CleanupHarmless<Ip(!new)>(limits: map<Ip, RateLimitInfo>, now: nat, later: nat, ip: Ip, maxRequests: nat, windowSeconds: nat)
    requires now <= later
    ensures CheckStep(Lookup(Retained(limits, now, windowSeconds), ip), later, maxRequests, windowSeconds)
      == CheckStep(Lookup(limits, ip), later, maxRequests, windowSeconds)
  {
    var kept := Retained(limits, now, windowSeconds);
    if ip in limits && ip !in kept {
      assert Elapsed(later, limits[ip].windowStart) >= Elapsed(now, limits[ip].windowStart);
      assert CurrentWindow(Lookup(limits, ip), later, windowSeconds) == RateLimitInfo(0, later);
    }
  }

  class RateLimiter<Ip(==,!new)> {
    var limits: map<Ip, RateLimitInfo>
    const maxRequests: nat
    const windowSeconds: nat

    /** new: no address seen yet. */
    constructor (maxRequests: nat, windowSeconds: nat)
      ensures limits == map[] && this.maxRequests == maxRequests && this.windowSeconds == windowSeconds
    {
      limits := map[];
      this.maxRequests := maxRequests;
      this.windowSeconds := windowSeconds;
    }

    /** default: 100 requests per 60 seconds. */
    static method Default() returns (r: RateLimiter<Ip>)
      ensures fresh(r) && r.limits == map[] && r.maxRequests == 100 && r.windowSeconds == 60
    {
      r := new RateLimiter(100, 60);
    }

    /**
     * check: answers as CheckStep says for the address's entry, and
     * records that address's new window; every other address's entry
     * stays as it was.
     */
    method Check(ip: Ip, now: nat) returns (v: Verdict)
      modifies this
      ensures v == CheckStep(Lookup(old(limits), ip), now, maxRequests, windowSeconds).1
      ensures limits == old(limits)[ip := CheckStep(Lookup(old(limits), ip), now, maxRequests, windowSeconds).0]
    {
      var info := if ip in limits then limits[ip] else RateLimitInfo(0, now);
      if Elapsed(now, info.windowStart) >= windowSeconds * NanosPerSecond {
        info := RateLimitInfo(0, now);
      }
      if info.count >= maxRequests {
        var elapsed := Elapsed(now, info.windowStart);
        if elapsed < windowSeconds * NanosPerSecond {
          WholeSecondsBelow(elapsed, windowSeconds);
        }
        var retryAfter := windowSeconds - elapsed / NanosPerSecond;
        limits := limits[ip := info];
        return Limited(retryAfter);
      }
      info := info.(count := info.count + 1);
      limits := limits[ip := info];
      v := Allowed;
    }

    /** cleanup_expired: drops the entries whose window started two windows ago or more. */
    method CleanupExpired(now: nat)
      modifies this
      ensures limits == Retained(old(limits), now, windowSeconds)
    {
      limits := map ip | ip in limits && Elapsed(now, limits[ip].windowStart) < 2 * (windowSeconds * NanosPerSecond) :: limits[ip];
    }
  }
}
