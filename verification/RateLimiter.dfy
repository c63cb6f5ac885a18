/** The fixed-window rate limiter (packages/runtime-sdk/src/rate-limiter.ts) and
    what it guarantees over a whole call history with a non-decreasing clock. */
module RateLimiter {
  datatype Window = Window(start: int, count: nat)

  /** The limits, and the clock reading at construction. */
  datatype Config = Config(max: nat, windowMs: int, born: int)

  function Rolled(c: Config, w: Window, now: int): Window {
    if now - w.start >= c.windowMs then Window(now, 0) else w
  }

  /** The window after calls at the given times. */
  function After(c: Config, times: seq<int>): Window {
    if times == [] then Window(c.born, 0)
    else
      var w := Rolled(c, After(c, times[..|times| - 1]), times[|times| - 1]);
      if w.count >= c.max then w else w.(count := w.count + 1)
  }

  /** Whether call number i is accepted. */
  predicate Accepts(c: Config, times: seq<int>, i: nat)
    requires i < |times|
  {
    Rolled(c, After(c, times[..i]), times[i]).count < c.max
  }

  /** How many accepted calls have lo <= time < hi. */
  function AcceptedIn(c: Config, times: seq<int>, lo: int, hi: int): nat {
    if times == [] then 0
    else
      var n := |times| - 1;
      AcceptedIn(c, times[..n], lo, hi) + if Accepts(c, times, n) && lo <= times[n] < hi then 1 else 0
  }

  class FixedWindowRateLimiter {
    const config: Config
    var windowStart: int
    var count: nat
    ghost var times: seq<int>

    ghost predicate Valid()
      reads this
    {
      Window(windowStart, count) == After(config, times)
    }

    constructor (maxPerWindow: nat, windowMs: int, now: int)
      ensures Valid() && config == Config(maxPerWindow, windowMs, now) && times == []
    {
      config := Config(maxPerWindow, windowMs, now);
      windowStart, count := now, 0;
      times := [];
    }

    method TryConsume(current: int) returns (accepted: bool)
      requires Valid()
      modifies this
      ensures Valid() && times == old(times) + [current]
      ensures accepted == Accepts(config, times, |old(times)|)
    {
      times := times + [current];
      assert times[..|times| - 1] == old(times);
      if current - windowStart >= config.windowMs {
        windowStart := current;
        count := 0;
      }
      if count >= config.max {
        return false;
      }
      count := count + 1;
      return true;
    }
  }

  // --------------------------------------------------------- whole histories

  ghost predicate NonDecreasing(c: Config, times: seq<int>) {
    (forall i :: 0 <= i < |times| ==> c.born <= times[i])
    && forall i, j :: 0 <= i <= j < |times| ==> times[i] <= times[j]
  }

  /** a / b, rounded up. */
  function CeilDiv(a: nat, b: nat): nat
    requires b > 0
    decreases a
  {
    if a == 0 then 0 else if a <= b then 1 else 1 + CeilDiv(a - b, b)
  }

  lemma {:induction false} CeilDivIsCeiling(a: nat, b: nat)
    requires b > 0
    ensures var r := CeilDiv(a, b); a <= r * b && (a > 0 ==> (r - 1) * b < a)
    decreases a
  {
    if a > b {
      CeilDivIsCeiling(a - b, b);
    }
  }

  /** k full window budgets. */
  function Budgets(k: nat, max: nat): nat { k * max }

  lemma BudgetsMono(k: nat, m: nat, max: nat)
    requires k <= m
    ensures Budgets(k, max) <= Budgets(m, max)
  {}

  lemma OneMoreBudget(k: nat, max: nat)
    ensures Budgets(k + 1, max) == Budgets(k, max) + max
  {}

  lemma {:induction false} CeilDivMono(a: nat, b: nat, w: nat)
    requires w > 0 && a <= b
    ensures CeilDiv(a, w) <= CeilDiv(b, w)
    decreases a
  {
    if a > w {
      CeilDivMono(a - w, b - w, w);
    }
  }

  /** The current window started no later than the last call, and less than one
      window length before it. */
  lemma {:induction false} WindowIsRecent(c: Config, times: seq<int>)
    requires NonDecreasing(c, times) && c.windowMs > 0
    ensures var w := After(c, times);
            w.count <= c.max && c.born <= w.start
            && (times == [] ==> w == Window(c.born, 0))
            && (times != [] ==> w.start <= times[|times| - 1] < w.start + c.windowMs)
  {
    if times != [] {
      WindowIsRecent(c, times[..|times| - 1]);
    }
  }

  /** Windows that can hold a call at or after lo, up to the one starting at start,
      not counting that one. */
  function EarlierWindows(c: Config, start: int, lo: int): nat
    requires c.windowMs > 0 && start + c.windowMs > lo
  {
    CeilDiv(start + c.windowMs - lo, c.windowMs) - 1
  }

  /** Acceptances from lo on: at most a full budget for each earlier window that
      reaches past lo, and the current window's count. */
  lemma {:induction false} AcceptedSince(c: Config, times: seq<int>, lo: int, hi: int)
    requires NonDecreasing(c, times) && c.windowMs > 0
    ensures var w := After(c, times);
            if w.start + c.windowMs <= lo then AcceptedIn(c, times, lo, hi) == 0
            else AcceptedIn(c, times, lo, hi) <= w.count + Budgets(EarlierWindows(c, w.start, lo), c.max)
  {
    hide Budgets, CeilDiv;
    if times != [] {
      var n := |times| - 1;
      var front, now := times[..n], times[n];
      AcceptedSince(c, front, lo, hi);
      WindowIsRecent(c, front);
      WindowIsRecent(c, times);
      var u, w := After(c, front), After(c, times);
      if now - u.start >= c.windowMs && u.start + c.windowMs > lo {
        NewWindow(c, u, w.start, lo);
      }
    }
  }

  /** A new window adds a full budget to what may have been accepted before it. */
  lemma NewWindow(c: Config, u: Window, start: int, lo: int)
    requires c.windowMs > 0 && u.count <= c.max && u.start + c.windowMs > lo && start >= u.start + c.windowMs
    ensures u.count + Budgets(EarlierWindows(c, u.start, lo), c.max) <= Budgets(EarlierWindows(c, start, lo), c.max)
  {
    hide Budgets;
    var a, b := u.start + c.windowMs - lo, start + c.windowMs - lo;
    CeilDivMono(a + c.windowMs, b, c.windowMs);
    OneMoreBudget(EarlierWindows(c, u.start, lo), c.max);
    BudgetsMono(EarlierWindows(c, u.start, lo) + 1, EarlierWindows(c, start, lo), c.max);
  }

  lemma {:induction false} WindowsBound(c: Config, times: seq<int>, lo: int, length: nat)
    requires NonDecreasing(c, times) && c.windowMs > 0
    ensures AcceptedIn(c, times, lo, lo + length) <= Budgets(CeilDiv(length, c.windowMs) + 1, c.max)
  {
    if times != [] {
      var n := |times| - 1;
      if times[n] >= lo + length {
        WindowsBound(c, times[..n], lo, length);
      } else {
        AcceptedSince(c, times, lo, lo + length);
        WindowIsRecent(c, times);
        LastWindow(c, After(c, times), lo, length);
      }
    }
  }

  /** In any half-open interval of length L at most (ceil(L / windowMs) + 1) * max
      calls are accepted; for one window length, at most 2 * max. A window of no
      length bounds nothing: every call starts a new one. */
  lemma AcceptancesAreBounded(c: Config, times: seq<int>, lo: int, length: nat)
    requires NonDecreasing(c, times)
    ensures c.windowMs > 0 ==> AcceptedIn(c, times, lo, lo + length) <= (CeilDiv(length, c.windowMs) + 1) * c.max
    ensures length == c.windowMs > 0 ==> AcceptedIn(c, times, lo, lo + length) <= 2 * c.max
    ensures c.windowMs <= 0 ==> forall i :: 0 <= i < |times| ==> (Accepts(c, times, i) <==> c.max > 0)
  {
    if c.windowMs > 0 {
      WindowsBound(c, times, lo, length);
    } else {
      forall i | 0 <= i < |times| ensures Accepts(c, times, i) <==> c.max > 0 {
        StartIsPast(c, times[..i], times[i]);
      }
    }
  }

  lemma {:induction false} StartIsPast(c: Config, times: seq<int>, now: int)
    requires NonDecreasing(c, times) && c.born <= now && forall i :: 0 <= i < |times| ==> times[i] <= now
    ensures After(c, times).start <= now
  {
    if times != [] {
      StartIsPast(c, times[..|times| - 1], now);
    }
  }

  lemma LastWindow(c: Config, w: Window, lo: int, length: nat)
    requires c.windowMs > 0 && w.count <= c.max && w.start < lo + length
    ensures w.start + c.windowMs > lo ==>
              w.count + Budgets(EarlierWindows(c, w.start, lo), c.max) <= Budgets(CeilDiv(length, c.windowMs) + 1, c.max)
  {
    hide Budgets;
    if w.start + c.windowMs > lo {
      CeilDivMono(w.start + c.windowMs - lo, length + c.windowMs, c.windowMs);
      OneMoreBudget(EarlierWindows(c, w.start, lo), c.max);
      BudgetsMono(EarlierWindows(c, w.start, lo) + 1, CeilDiv(length, c.windowMs) + 1, c.max);
    }
  }

  lemma {:induction false} CountIsAccepted(c: Config, times: seq<int>, hi: int)
    requires NonDecreasing(c, times) && c.windowMs > 0 && forall i :: 0 <= i < |times| ==> times[i] < hi
    ensures AcceptedIn(c, times, After(c, times).start, hi) >= After(c, times).count
  {
    if times != [] {
      CountIsAccepted(c, times[..|times| - 1], hi);
      WindowIsRecent(c, times);
    }
  }

  lemma {:induction false} AcceptedMono(c: Config, times: seq<int>, lo: int, lo': int, hi: int)
    requires lo' <= lo
    ensures AcceptedIn(c, times, lo, hi) <= AcceptedIn(c, times, lo', hi)
  {
    if times != [] {
      AcceptedMono(c, times[..|times| - 1], lo, lo', hi);
    }
  }

  /** A call is accepted whenever fewer than max acceptances fall in the window
      length before it. */
  lemma NeverRefusedEarly(c: Config, times: seq<int>, i: nat)
    requires NonDecreasing(c, times) && i < |times|
    requires AcceptedIn(c, times[..i], times[i] - c.windowMs + 1, times[i] + 1) < c.max
    ensures Accepts(c, times, i)
  {
    var before := times[..i];
    var w := After(c, before);
    StartIsPast(c, before, times[i]);
    if times[i] - w.start < c.windowMs {
      CountIsAccepted(c, before, times[i] + 1);
      AcceptedMono(c, before, w.start, times[i] - c.windowMs + 1, times[i] + 1);
    }
  }
}
