/** The sliding-window rate limiter of `utils/rateLimiter.js`: a list of recent
    request timestamps, pruned to the last minute on every call, and at most one
    sleep when the list is at the per-minute quota. */
module RateLimiting {
  import opened Wrappers
  import opened Clock

  const WINDOW_MS: int := 60000
  const DEFAULT_REQUESTS_PER_MINUTE: int := 300
  /** The size of the `pLimit` slot pool every request passes through. */
  const CONCURRENCY_LIMIT: nat := 10

  /** The entries of `times` that are strictly later than `bound`, in order
      (`times.filter(time => time > bound)`). */
  function Above(times: seq<int>, bound: int): (r: seq<int>)
    ensures |r| <= |times|
    ensures forall t :: t in r <==> t in times && t > bound
  {
    if times == [] then []
    else if times[0] > bound then [times[0]] + Above(times[1..], bound)
    else Above(times[1..], bound)
  }

  /** The timestamps still inside the one-minute window ending at `now`. */
  function Prune(times: seq<int>, now: int): (r: seq<int>)
    ensures forall t :: t in r <==> t in times && t > now - WINDOW_MS
  {
    Above(times, now - WINDOW_MS)
  }

  /** `Math.min(...times)` of a non-empty list. */
  function Oldest(times: seq<int>): (m: int)
    requires times != []
    ensures m in times
    ensures forall t :: t in times ==> m <= t
  {
    if |times| == 1 then times[0]
    else
      var rest := Oldest(times[1..]);
      assert forall t :: t in times ==> t == times[0] || t in times[1..];
      if times[0] <= rest then times[0] else rest
  }

  /** `oldestRequest + 60000 - now`, where `oldestRequest` is
      `Math.min(...window)`: `None` stands for `Infinity`, the minimum of an
      empty list, which a quota of 0 or less reaches. */
  function WaitTime(window: seq<int>, now: int): (w: Option<int>)
    ensures w.None? <==> window == []
  {
    if window == [] then None else Some(Oldest(window) + WINDOW_MS - now)
  }

  /** The largest delay a Node.js timer honours; `setTimeout` fires a timer
      with a longer delay, `Infinity` included, after 1 ms. */
  const MAX_TIMER_DELAY: int := 2147483647

  /** How long `sleep(wait)` (`setTimeout(resolve, wait)`) lasts for a wait
      the limiter found positive. */
  function TimerDelay(wait: Option<int>): (ms: nat)
    requires wait.None? || wait.value > 0
    ensures ms >= 1
    ensures wait.Some? && wait.value <= MAX_TIMER_DELAY ==> ms == wait.value
  {
    if wait.None? || wait.value > MAX_TIMER_DELAY then 1 else wait.value
  }

  /** How long one call sleeps, given the pruned window: nothing below the
      quota, otherwise the timer for the wait until the oldest entry leaves
      the window, if that is still ahead (always, for an `Infinity` wait). */
  function SleepFor(window: seq<int>, now: int, quota: int): nat {
    if |window| >= quota then
      var wait := WaitTime(window, now);
      if wait.None? || wait.value > 0 then TimerDelay(wait) else 0
    else 0
  }

  /** With a clock that never runs behind the recorded timestamps, a call
      that finds a non-empty window at the quota sleeps for a positive time of
      at most one minute, and wakes exactly when the oldest entry leaves the
      window. */
  lemma SleepWithinOneMinute(times: seq<int>, now: int, quota: int)
    requires forall t :: t in times ==> t <= now
    requires Prune(times, now) != [] && |Prune(times, now)| >= quota
    ensures 0 < SleepFor(Prune(times, now), now, quota) <= WINDOW_MS
    ensures now + SleepFor(Prune(times, now), now, quota) == Oldest(Prune(times, now)) + WINDOW_MS
  {
    var m := Oldest(Prune(times, now));
    assert m in times;
  }

  /** A quota of 0 or less is never met: every call sleeps, 1 ms on an empty
      window (the `Infinity` timer), and otherwise until the oldest entry
      leaves the window. */
  lemma NoQuotaAlwaysSleeps(times: seq<int>, now: int, quota: int)
    requires quota <= 0
    ensures SleepFor(Prune(times, now), now, quota) >= 1
    ensures Prune(times, now) == [] ==> SleepFor(Prune(times, now), now, quota) == 1
    ensures (forall t :: t in times ==> t <= now) && Prune(times, now) != []
            ==> now + SleepFor(Prune(times, now), now, quota) == Oldest(Prune(times, now)) + WINDOW_MS
  {
    var window := Prune(times, now);
    if window != [] {
      assert Oldest(window) in window;
      if forall t :: t in times ==> t <= now {
        SleepWithinOneMinute(times, now, quota);
      }
    }
  }

  /** One call of the limiter, as pure values: the new list and the time the
      request actually goes out (after the sleep, if any). */
  function Step(times: seq<int>, now: int, quota: int): (r: (seq<int>, int))
    ensures r.0 == Prune(times, now) + [now]
    ensures r.1 >= now
  {
    var window := Prune(times, now);
    (window + [now], now + SleepFor(window, now, quota))
  }

  /** The entries of `issued` inside the one-minute window ending at `t`. */
  function Within(issued: seq<int>, t: int): nat {
    if issued == [] then 0
    else (if t - WINDOW_MS < issued[0] <= t then 1 else 0) + Within(issued[1..], t)
  }

  /** No one-minute window holds more than `quota` requests. */
  ghost predicate KeepsQuota(issued: seq<int>, quota: int) {
    forall t :: Within(issued, t) <= quota
  }

  /** The limiter records the time read before its sleep. With a quota of one
      request per minute, calls at 0 ms, 1 ms and 60000 ms make requests go
      out at 0, 60000 and 60001 ms: two of them within one millisecond. */
  lemma PreSleepStampExceedsQuota()
    ensures Step([], 0, 1) == ([0], 0)
    ensures Step([0], 1, 1) == ([0, 1], WINDOW_MS)
    ensures Step([0, 1], WINDOW_MS, 1) == ([1, WINDOW_MS], WINDOW_MS + 1)
    ensures Within([0, WINDOW_MS, WINDOW_MS + 1], WINDOW_MS + 1) == 2
    ensures !KeepsQuota([0, WINDOW_MS, WINDOW_MS + 1], 1)
  {
    assert Above([], 0 - WINDOW_MS) == [];
    assert SleepFor([], 0, 1) == 0;
    assert Above([0][1..], 1 - WINDOW_MS) == [];
    assert Prune([0], 1) == [0];
    assert Oldest([0]) == 0;
    assert SleepFor([0], 1, 1) == WINDOW_MS - 1;
    assert [0, 1][1..] == [1];
    assert Above([1][1..], 0) == [];
    assert Above([1], 0) == [1];
    assert Prune([0, 1], WINDOW_MS) == [1];
    assert Oldest([1]) == 1;
    assert SleepFor([1], WINDOW_MS, 1) == 1;
    assert Step([], 0, 1).0 == [] + [0] == [0];
    assert Step([0], 1, 1).0 == [0] + [1] == [0, 1];
    assert Step([0, 1], WINDOW_MS, 1).0 == [1] + [WINDOW_MS] == [1, WINDOW_MS];
    var issued := [0, WINDOW_MS, WINDOW_MS + 1];
    assert issued[1..][1..] == [WINDOW_MS + 1];
    assert Within([WINDOW_MS + 1][1..], WINDOW_MS + 1) == 0;
    assert Within([WINDOW_MS + 1], WINDOW_MS + 1) == 1;
    assert Within(issued[1..], WINDOW_MS + 1) == 2;
    assert Within(issued, WINDOW_MS + 1) == 2;
  }

  /** The evidently intended step: the limiter records the time the request
      goes out, that is, the time after the sleep. */
  function StepAtWake(times: seq<int>, now: int, quota: int): (r: (seq<int>, int))
    ensures r.0 == Prune(times, now) + [r.1]
    ensures r.1 >= now
  {
    var window := Prune(times, now);
    var issue := now + SleepFor(window, now, quota);
    (window + [issue], issue)
  }

  /** Recording the wake-up time keeps every one-minute window within the
      quota: starting from a history that keeps it and a clock not behind any
      request, the request the corrected step admits keeps it too. */
  lemma {:induction false} StepAtWakeKeepsQuota(issued: seq<int>, now: int, quota: int)
    requires quota >= 1
    requires forall t :: t in issued ==> t <= now
    requires KeepsQuota(issued, quota)
    ensures KeepsQuota(issued + [StepAtWake(issued, now, quota).1], quota)
  {
    var a := StepAtWake(issued, now, quota).1;
    RoomAtWake(issued, now, quota);
    forall t
      ensures Within(issued + [a], t) <= quota
    {
      WithinAppend(issued, a, t);
      if t - WINDOW_MS < a <= t {
        WithinBelowAbove(issued, t);
        AboveAntitone(issued, a - WINDOW_MS, t - WINDOW_MS);
      }
    }
  }

  /** The requests the corrected limiter issues for calls made one after
      another on one clock: each call starts `gaps[i]` ms after the previous
      one returned, the first `gaps[0]` ms after `now`. */
  function RunAtWake(issued: seq<int>, now: int, gaps: seq<nat>, quota: int): (r: seq<int>)
    ensures |r| == |issued| + |gaps|
    decreases |gaps|
  {
    if gaps == [] then issued
    else
      var a := StepAtWake(issued, now + gaps[0], quota).1;
      RunAtWake(issued + [a], a, gaps[1..], quota)
  }

  /** After any number of calls, the corrected limiter still has no
      one-minute window with more than the quota of requests. */
  lemma {:induction false} RunAtWakeKeepsQuota(issued: seq<int>, now: int, gaps: seq<nat>, quota: int)
    requires quota >= 1
    requires forall t :: t in issued ==> t <= now
    requires KeepsQuota(issued, quota)
    ensures KeepsQuota(RunAtWake(issued, now, gaps, quota), quota)
    decreases |gaps|
  {
    if gaps != [] {
      var n := now + gaps[0];
      StepAtWakeKeepsQuota(issued, n, quota);
      var a := StepAtWake(issued, n, quota).1;
      assert forall t :: t in issued + [a] ==> t in issued || t == a;
      RunAtWakeKeepsQuota(issued + [a], a, gaps[1..], quota);
    }
  }

  /** At the moment the corrected step issues its request, fewer than
      `quota` earlier requests lie in the minute before it. */
  lemma RoomAtWake(issued: seq<int>, now: int, quota: int)
    requires quota >= 1
    requires forall t :: t in issued ==> t <= now
    requires KeepsQuota(issued, quota)
    ensures |Above(issued, StepAtWake(issued, now, quota).1 - WINDOW_MS)| <= quota - 1
  {
    var window := Prune(issued, now);
    var a := StepAtWake(issued, now, quota).1;
    WithinIsPrune(issued, now);
    assert Within(issued, now) <= quota;
    if |window| < quota {
      assert a == now;
    } else {
      var m := Oldest(window);
      assert a - WINDOW_MS == m;
      AboveDropsMember(issued, now - WINDOW_MS, m);
    }
  }

  lemma {:induction false} WithinAppend(issued: seq<int>, a: int, t: int)
    ensures Within(issued + [a], t) == Within(issued, t) + (if t - WINDOW_MS < a <= t then 1 else 0)
  {
    if issued != [] {
      assert (issued + [a])[1..] == issued[1..] + [a];
      WithinAppend(issued[1..], a, t);
    }
  }

  lemma {:induction false} WithinBelowAbove(issued: seq<int>, t: int)
    ensures Within(issued, t) <= |Above(issued, t - WINDOW_MS)|
  {
    if issued != [] {
      WithinBelowAbove(issued[1..], t);
    }
  }

  lemma {:induction false} WithinIsPrune(issued: seq<int>, now: int)
    requires forall t :: t in issued ==> t <= now
    ensures Within(issued, now) == |Prune(issued, now)|
  {
    if issued != [] {
      assert forall t :: t in issued[1..] ==> t in issued;
      WithinIsPrune(issued[1..], now);
      assert issued[0] in issued;
      if issued[0] > now - WINDOW_MS {
        assert Prune(issued, now) == [issued[0]] + Prune(issued[1..], now);
      } else {
        assert Prune(issued, now) == Prune(issued[1..], now);
      }
    }
  }

  lemma {:induction false} AboveAntitone(times: seq<int>, lo: int, hi: int)
    requires lo <= hi
    ensures |Above(times, hi)| <= |Above(times, lo)|
  {
    if times != [] {
      AboveAntitone(times[1..], lo, hi);
    }
  }

  lemma {:induction false} AboveDropsMember(times: seq<int>, lo: int, m: int)
    requires lo < m && m in times
    ensures |Above(times, m)| + 1 <= |Above(times, lo)|
  {
    if times[0] == m {
      AboveAntitone(times[1..], lo, m);
    } else {
      AboveDropsMember(times[1..], lo, m);
    }
  }

  /** What `getStatus()` reports. */
  datatype Status = Status(requestsInLastMinute: nat, requestsRemaining: nat, rateLimitPerMinute: int)

  class RateLimiter {
    /** The quota, taken as given: nothing checks that it is positive. */
    const requestsPerMinute: int
    /** The `pLimit(10)` concurrency cap; requests here are issued one at a time. */
    const concurrency: nat
    /** The timestamps of the requests admitted within the last minute. */
    var requestTimes: seq<int>
    /** Every timestamp ever recorded, including those pruned since. */
    ghost var admissions: seq<int>

    constructor (requestsPerMinute: int := DEFAULT_REQUESTS_PER_MINUTE)
      ensures this.requestsPerMinute == requestsPerMinute && concurrency == CONCURRENCY_LIMIT
      ensures requestTimes == [] && admissions == []
    {
      this.requestsPerMinute := requestsPerMinute;
      concurrency := CONCURRENCY_LIMIT;
      requestTimes := [];
      admissions := [];
    }

    /** `waitIfNeeded()`: prune to the last minute, sleep once if the window is
        at the quota, then record the time read before sleeping. */
    method WaitIfNeeded(clock: VirtualClock)
      modifies this, clock
      ensures requestTimes == Prune(old(requestTimes), old(clock.now)) + [old(clock.now)]
      ensures admissions == old(admissions) + [old(clock.now)]
      ensures var w := SleepFor(Prune(old(requestTimes), old(clock.now)), old(clock.now), requestsPerMinute);
              clock.now == old(clock.now) + w
              && clock.sleeps == old(clock.sleeps) + (if w > 0 then [w] else [])
    {
      var now := clock.now;
      requestTimes := Prune(requestTimes, now);
      if |requestTimes| >= requestsPerMinute {
        var waitTime := WaitTime(requestTimes, now);
        if waitTime.None? || waitTime.value > 0 {
          clock.Sleep(TimerDelay(waitTime));
        }
      }
      requestTimes := requestTimes + [now];
      admissions := admissions + [now];
    }

    /** `getStatus()` at time `now`; it only counts and changes nothing. */
    function GetStatus(now: int): (s: Status)
      reads this
      ensures s.requestsInLastMinute == |Prune(requestTimes, now)|
      ensures requestsPerMinute >= 0 ==> s.requestsRemaining <= requestsPerMinute
      ensures s.requestsRemaining == if s.requestsInLastMinute < requestsPerMinute
                                     then requestsPerMinute - s.requestsInLastMinute else 0
      ensures s.rateLimitPerMinute == requestsPerMinute
    {
      var recentRequests := |Prune(requestTimes, now)|;
      var remaining := requestsPerMinute - recentRequests;
      Status(recentRequests, if remaining > 0 then remaining else 0, requestsPerMinute)
    }
  }

  /** Remaining capacity predicts the next call: `getStatus()` reports
      requests remaining exactly when a call to `waitIfNeeded()` at the same
      time would not sleep, whatever the quota. */
  lemma StatusPredictsSleep(limiter: RateLimiter, now: int)
    ensures limiter.GetStatus(now).requestsRemaining > 0
            <==> SleepFor(Prune(limiter.requestTimes, now), now, limiter.requestsPerMinute) == 0
  {
    var window := Prune(limiter.requestTimes, now);
    if window != [] {
      assert Oldest(window) in window;
    }
  }
}
