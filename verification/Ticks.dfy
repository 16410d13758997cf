/** Arithmetic on a tick counter that wraps: portTickType values against unwrapped times. */
module Ticks {

  /** How many values a tick counter takes before it is zero again. */
  type Period = n: nat | 2 <= n witness 2

  lemma ModBelow(a: nat, n: nat)
    requires a < n
    ensures a % n == a
  {
  }

  lemma ModOnce(a: nat, n: nat)
    requires n <= a < 2 * n
    ensures a % n == a - n
  {
    ModBelow(a - n, n);
    ModShift(a - n, n);
  }

  lemma ModShift(a: int, n: nat)
    requires 0 < n
    ensures (a + n) % n == a % n
  {
    var q, r := a / n, a % n;
    assert a == n * q + r;
    assert a + n == n * (q + 1) + r;
    DivModUnique(a + n, n, q + 1, r);
  }

  lemma MultipleBound(n: nat, d: int)
    requires 0 < n
    ensures d >= 1 ==> n * d >= n
    ensures d <= -1 ==> n * d + n <= 0
  {
    if d >= 1 {
      assert n * d == n * (d - 1) + n;
    } else if d <= -1 {
      assert n * d == n * (d + 1) - n;
    }
  }

  lemma DivModUnique(a: int, n: nat, q: int, r: int)
    requires 0 <= r < n && a == n * q + r
    ensures a / n == q && a % n == r
  {
    var q', r' := a / n, a % n;
    assert a == n * q' + r';
    assert n * (q' - q) == n * q' - n * q;
    MultipleBound(n, q' - q);
  }

  /** Two times less than one wrap apart are in the same epoch or in adjacent ones. */
  lemma EpochGap(p: nat, t: nat, n: nat)
    requires 0 < n && p <= t < p + n
    ensures t / n == p / n || t / n == p / n + 1
    ensures t / n == p / n ==> p % n <= t % n && t % n - p % n == t - p
    ensures t / n == p / n + 1 ==> t % n < p % n && t % n + n - p % n == t - p
  {
    var q, r := p / n, p % n;
    assert p == n * q + r;
    if r + (t - p) < n {
      DivModUnique(t, n, q, r + (t - p));
    } else {
      assert n * (q + 1) == n * q + n;
      DivModUnique(t, n, q + 1, r + (t - p) - n);
    }
  }

  /** Unsigned addition of two portTickType values. */
  function WrapAdd(a: nat, b: nat, n: nat): (s: nat)
    requires a < n && b < n
    ensures s < n
  {
    if a + b < n then a + b else a + b - n
  }

  lemma WrapAddIsSum(t: nat, b: nat, n: nat)
    requires b < n
    ensures WrapAdd(t % n, b, n) == (t + b) % n
  {
    EpochGap(t, t + b, n);
  }

  /** Unsigned subtraction of two portTickType values. */
  function WrapSub(a: nat, b: nat, n: nat): (d: nat)
    requires a < n && b < n
    ensures d < n
  {
    if a >= b then a - b else a + n - b
  }

  /** It is the elapsed time, up to whole wraps. */
  lemma WrapSubIsElapsed(e: nat, t: nat, n: nat)
    requires 0 < n && e <= t
    ensures WrapSub(t % n, e % n, n) == (t - e) % n
  {
    var q, r := t / n - e / n, t % n - e % n;
    assert t == n * (t / n) + t % n && e == n * (e / n) + e % n;
    assert n * q == n * (t / n) - n * (e / n);
    if r >= 0 {
      DivModUnique(t - e, n, q, r);
    } else {
      assert n * (q - 1) == n * q - n;
      DivModUnique(t - e, n, q - 1, r + n);
    }
  }

  // ---- vTaskSetTimeOutState and xTaskCheckForTimeOut ----

  /** xTimeOutType: the overflow count, itself a counter modulo `wraps`, and the tick count on entry. */
  datatype TimeOut = TimeOut(overflows: nat, entered: nat)

  function SetTimeOutState(now: nat, n: nat, wraps: nat): TimeOut
    requires 0 < n && 0 < wraps
  {
    TimeOut(now / n % wraps, now % n)
  }

  /** Returns whether the wait timed out, and the state and remaining ticks for the next check. The largest
      tick value means waiting for ever. */
  method CheckForTimeOut(n: nat, tick: nat, overflows: nat, timeOut: TimeOut, ticksToWait: nat)
    returns (expired: bool, timeOut': TimeOut, ticksToWait': nat)
    requires tick < n && timeOut.entered < n && ticksToWait < n
    ensures expired <==> Expires(n, tick, overflows, timeOut, ticksToWait)
    ensures if expired || ticksToWait == n - 1 then timeOut' == timeOut && ticksToWait' == ticksToWait
      else timeOut' == TimeOut(overflows, tick) && 0 < ticksToWait' == ticksToWait - WrapSub(tick, timeOut.entered, n)
  {
    timeOut', ticksToWait' := timeOut, ticksToWait;
    if ticksToWait == n - 1 {
      expired := false;
    } else if overflows != timeOut.overflows && tick >= timeOut.entered {
      expired := true;
    } else if WrapSub(tick, timeOut.entered, n) < ticksToWait {
      ticksToWait' := ticksToWait - WrapSub(tick, timeOut.entered, n);
      timeOut' := TimeOut(overflows, tick);
      expired := false;
    } else {
      expired := true;
    }
  }

  predicate Expires(n: nat, tick: nat, overflows: nat, timeOut: TimeOut, ticksToWait: nat)
    requires tick < n && timeOut.entered < n
  {
    && ticksToWait != n - 1
    && ((overflows != timeOut.overflows && tick >= timeOut.entered) || WrapSub(tick, timeOut.entered, n) >= ticksToWait)
  }

  /** The check on wrapped clocks is right, that is it expires iff `ticks` ticks have passed since `e`,
      except in one case: a whole wrap has passed unseen and the remainder is still below `ticks`. */
  lemma ExpiryIsExactUnless(e: nat, t: nat, n: nat, wraps: nat, ticks: nat)
    requires 0 < n && 0 < wraps && e <= t && ticks < n - 1
    ensures
      var expired := Expires(n, t % n, t / n % wraps, SetTimeOutState(e, n, wraps), ticks);
      var unseen := t % n < e % n || t / n % wraps == e / n % wraps;
      (expired <==> ticks <= t - e) <==> !(n <= t - e && unseen && (t - e) % n < ticks)
  {
    WrapSubIsElapsed(e, t, n);
    if t - e < n {
      EpochGap(e, t, n);
      ModBelow(t - e, n);
    }
  }

  /** And it does err, whatever the period: a wait of two ticks begun at the last count before a wrap, and checked
      when the counter has wrapped twice, is not over after a whole period and one tick. */
  lemma ExpiryIsMissed(n: nat, wraps: nat)
    requires 4 <= n && 0 < wraps
    ensures var e, t := n - 1, 2 * n;
      !Expires(n, t % n, t / n % wraps, SetTimeOutState(e, n, wraps), 2) && 2 <= t - e
  {
    ModBelow(n - 1, n);
    DivModUnique(2 * n, n, 2, 0);
    DivModUnique(n + 1, n, 1, 1);
    ExpiryIsExactUnless(n - 1, 2 * n, n, wraps, 2);
  }

  lemma FullWrap(e: nat, t: nat, n: nat)
    requires 0 < n && n <= t - e && t / n <= e / n + 1
    ensures t / n == e / n + 1 && e % n <= t % n
  {
    var q, r := e / n, e % n;
    var q', r' := t / n, t % n;
    assert t == n * q' + r' && e == n * q + r;
    assert n * (q' - q) == n * q' - n * q;
    MultipleBound(n, q' - q);
  }

  /** In particular it is right if the counter wrapped at most once since the last check. */
  lemma ExpiryIsExact(e: nat, t: nat, n: nat, wraps: nat, ticks: nat)
    requires 0 < n && 2 <= wraps && e <= t && t / n <= e / n + 1 && ticks < n - 1
    ensures Expires(n, t % n, t / n % wraps, SetTimeOutState(e, n, wraps), ticks) <==> ticks <= t - e
    ensures t - e < ticks ==> WrapSub(t % n, e % n, n) == t - e
  {
    ExpiryIsExactUnless(e, t, n, wraps, ticks);
    WrapSubIsElapsed(e, t, n);
    if t - e < n {
      ModBelow(t - e, n);
    } else {
      FullWrap(e, t, n);
      SuccessorDiffers(e / n, wraps);
    }
  }

  lemma SuccessorDiffers(a: nat, m: nat)
    requires 2 <= m
    ensures (a + 1) % m != a % m
  {
    var q, r := a / m, a % m;
    assert a == m * q + r;
    if r + 1 < m {
      DivModUnique(a + 1, m, q, r + 1);
    } else {
      assert m * (q + 1) == m * q + m;
      DivModUnique(a + 1, m, q + 1, 0);
    }
  }

  // ---- A blocking call over any number of wake-ups ----

  /** A waiting call between two checks: the unwrapped time of the last one, what it recorded, what is left. */
  datatype Wait = Wait(since: nat, timeOut: TimeOut, left: nat)

  ghost predicate WaitsFor(w: Wait, n: nat, wraps: nat, deadline: nat)
    requires 0 < n && 0 < wraps
  {
    && w.since < deadline && w.left == deadline - w.since < n - 1
    && w.timeOut == SetTimeOutState(w.since, n, wraps)
  }

  ghost function NextCheck(w: Wait, now: nat, n: nat, wraps: nat): Wait
    requires 0 < wraps && w.timeOut.entered < n && w.left < n - 1
    requires !Expires(n, now % n, now / n % wraps, w.timeOut, w.left)
  {
    Wait(now, SetTimeOutState(now, n, wraps), w.left - WrapSub(now % n, w.timeOut.entered, n))
  }

  /** The times at which a call checks: not decreasing, and at most one wrap apart. */
  ghost predicate Checks(since: nat, times: seq<nat>, n: nat)
    requires 0 < n
    decreases |times|
  {
    times == [] || (since <= times[0] && times[0] / n <= since / n + 1 && Checks(times[0], times[1..], n))
  }

  /** The index of the first check that expires, or the number of checks if none does. */
  ghost function FirstExpiry(w: Wait, times: seq<nat>, n: nat, wraps: nat): nat
    requires 1 < n && 0 < wraps && w.timeOut.entered < n && w.left < n
    decreases |times|
  {
    if times == [] || Expires(n, times[0] % n, times[0] / n % wraps, w.timeOut, w.left) then 0
    else if w.left == n - 1 then 1 + FirstExpiry(w, times[1..], n, wraps)
    else 1 + FirstExpiry(NextCheck(w, times[0], n, wraps), times[1..], n, wraps)
  }

  /** The deadline of a blocking call is conserved: however often it is woken to no avail, it gives up at
      the first check at or after start + ticks, and each time it blocks again it is for the rest. */
  lemma {:induction false} DeadlineIsConserved(w: Wait, times: seq<nat>, n: nat, wraps: nat, deadline: nat)
    requires 1 < n && 2 <= wraps && WaitsFor(w, n, wraps, deadline) && Checks(w.since, times, n)
    ensures var i := FirstExpiry(w, times, n, wraps);
      && i <= |times|
      && (forall j :: 0 <= j < i ==> times[j] < deadline)
      && (i < |times| ==> deadline <= times[i])
    decreases |times|
  {
    if times != [] {
      ExpiryIsExact(w.since, times[0], n, wraps, w.left);
      if times[0] < deadline {
        var w' := NextCheck(w, times[0], n, wraps);
        DeadlineIsConserved(w', times[1..], n, wraps, deadline);
        assert forall j :: 0 < j < 1 + FirstExpiry(w', times[1..], n, wraps) ==> times[j] == times[1..][j - 1];
      }
    }
  }

  /** The time to block for that a check leaves always ends at the same deadline. */
  lemma EveryBlockEndsAtDeadline(w: Wait, now: nat, n: nat, wraps: nat, deadline: nat)
    requires 1 < n && 2 <= wraps && WaitsFor(w, n, wraps, deadline)
    requires w.since <= now && now / n <= w.since / n + 1 && now < deadline
    ensures !Expires(n, now % n, now / n % wraps, w.timeOut, w.left)
    ensures w.left < n - 1 && WaitsFor(NextCheck(w, now, n, wraps), n, wraps, deadline)
    ensures now + NextCheck(w, now, n, wraps).left == deadline
  {
    ExpiryIsExact(w.since, now, n, wraps, w.left);
  }

  /** portMAX_DELAY never times out. */
  lemma {:induction false} ForeverNeverExpires(w: Wait, times: seq<nat>, n: nat, wraps: nat)
    requires 1 < n && 0 < wraps && w.timeOut.entered < n && w.left == n - 1
    ensures FirstExpiry(w, times, n, wraps) == |times|
    decreases |times|
  {
    if times != [] {
      ForeverNeverExpires(w, times[1..], n, wraps);
    }
  }
}
