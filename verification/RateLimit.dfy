/** The fixed-window limiter (player.cpp) and what it admits over a whole trace. */
module RateLimit {
  import opened Ints

  datatype Window = Window(start: u64, count: u16)

  function Opened(now: u64, w: Window): Window {
    if WrapU64(now - w.start) >= 1000 then Window(now, 0) else w
  }

  predicate Allows(now: u64, w: Window, limit: u16) { Opened(now, w).count < limit }

  /** The window after a call; the increment cannot overflow because the count is below a 16-bit limit. */
  function Next(now: u64, w: Window, limit: u16): Window {
    var o := Opened(now, w);
    if o.count < limit then o.(count := o.count + 1) else o
  }

  /** The limiter on one cell: the two counters, which the source passes by reference, go in and come out. */
  method Allow(now: u64, w: Window, limit: u16) returns (allowed: bool, after: Window)
    ensures allowed == Allows(now, w, limit) && after == Next(now, w, limit)
  {
    var windowMs, count := w.start, w.count;
    if WrapU64(now - windowMs) >= 1000 {
      windowMs := now;
      count := 0;
    }
    if count >= limit {
      return false, Window(windowMs, count);
    }
    count := count + 1;
    return true, Window(windowMs, count);
  }

  /** How many of the calls made at the given times are admitted at a time in [a, b). */
  function Admitted(times: seq<u64>, w: Window, limit: u16, a: int, b: int): nat {
    if times == [] then 0
    else
      (if Allows(times[0], w, limit) && a <= times[0] < b then 1 else 0)
      + Admitted(times[1..], Next(times[0], w, limit), limit, a, b)
  }

  /** A clock that does not run backwards. */
  predicate Monotone(times: seq<u64>, from: u64) {
    times == [] || (from <= times[0] && Monotone(times[1..], times[0]))
  }

  /** Number of 1000 ms windows needed to cover len milliseconds. */
  function Windows(len: int): nat { if len <= 0 then 0 else (len + 999) / 1000 }

  /** limit calls for each of n windows. */
  function Quota(limit: u16, n: nat): nat {
    if n == 0 then 0 else limit + Quota(limit, n - 1)
  }

  lemma {:induction false} QuotaIsProduct(limit: u16, n: nat)
    ensures Quota(limit, n) == limit * n
  {
    if n > 0 {
      QuotaIsProduct(limit, n - 1);
    }
  }

  lemma {:induction false} QuotaMonotone(limit: u16, m: nat, n: nat)
    requires m <= n
    ensures Quota(limit, m) <= Quota(limit, n)
    decreases n
  {
    if m < n {
      QuotaMonotone(limit, m, n - 1);
    }
  }

  /** The most that a limiter in window w can still admit in [a, b). */
  function Budget(w: Window, limit: u16, a: int, b: int): int {
    if w.start + 1000 <= a then Quota(limit, 1 + Windows(b - a))
    else limit - w.count + Quota(limit, Windows(b - (w.start + 1000)))
  }

  lemma {:induction false} NoneLater(times: seq<u64>, w: Window, limit: u16, a: int, b: int, from: u64)
    requires Monotone(times, from) && b <= from
    ensures Admitted(times, w, limit, a, b) == 0
  {
    if times != [] {
      NoneLater(times[1..], Next(times[0], w, limit), limit, a, b, times[0]);
    }
  }

  /** Opening a window at t never leaves more than the old window's budget. */
  lemma ReopenedBudget(w: Window, t: u64, limit: u16, a: int, b: int)
    requires t - w.start >= 1000 && w.count <= limit && a < b && t < b
    ensures Budget(Window(t, 0), limit, a, b) <= Budget(w, limit, a, b)
  {
    if w.start + 1000 <= a {
      if a < t + 1000 {
        QuotaMonotone(limit, Windows(b - (t + 1000)), Windows(b - a));
      }
    } else {
      QuotaMonotone(limit, 1 + Windows(b - (t + 1000)), Windows(b - (w.start + 1000)));
    }
  }

  lemma BudgetNat(w: Window, limit: u16, a: int, b: int)
    requires w.count <= limit
    ensures Budget(w, limit, a, b) >= 0
  {
  }

  /** What one call admits comes out of the budget. */
  lemma BudgetStep(w: Window, t: u64, limit: u16, a: int, b: int)
    requires w.start <= t < b && w.count <= limit && a < b
    ensures (if Allows(t, w, limit) && a <= t then 1 else 0) + Budget(Next(t, w, limit), limit, a, b)
         <= Budget(w, limit, a, b)
  {
    if t - w.start >= 1000 {
      ReopenedBudget(w, t, limit, a, b);
    }
  }

  lemma {:induction false} WithinBudget(times: seq<u64>, w: Window, limit: u16, a: int, b: int, now: u64)
    requires Monotone(times, now) && w.start <= now && w.count <= limit && a < b
    ensures Admitted(times, w, limit, a, b) <= Budget(w, limit, a, b)
    decreases |times|
  {
    if times != [] {
      var t, w' := times[0], Next(times[0], w, limit);
      if b <= t {
        NoneLater(times[1..], w', limit, a, b, t);
      } else {
        WithinBudget(times[1..], w', limit, a, b, t);
        BudgetStep(w, t, limit, a, b);
      }
    }
  }

  lemma WindowsOf(len: nat)
    ensures Windows(len) <= len / 1000 + 1 && (len <= 1000 ==> Windows(len) <= 1)
  {
  }

  lemma BudgetQuota(t0: u64, limit: u16, a: int, len: nat)
    requires len > 0
    ensures Budget(Window(t0, 0), limit, a, a + len) <= Quota(limit, 1 + Windows(len))
  {
    if a < t0 + 1000 {
      QuotaMonotone(limit, Windows(a + len - (t0 + 1000)), Windows(len));
    }
  }

  /** The budget of a fresh window, for an interval of len milliseconds. */
  lemma BudgetFresh(t0: u64, limit: u16, a: int, len: nat)
    requires len > 0
    ensures Budget(Window(t0, 0), limit, a, a + len) <= limit * (1 + Windows(len))
    ensures Budget(Window(t0, 0), limit, a, a + len) <= limit * (len / 1000 + 2)
    ensures len <= 1000 ==> Budget(Window(t0, 0), limit, a, a + len) <= 2 * limit
  {
    WindowsOf(len);
    BudgetQuota(t0, limit, a, len);
    QuotaMonotone(limit, 1 + Windows(len), len / 1000 + 2);
    hide Budget, Quota, Windows;
    QuotaIsProduct(limit, 1 + Windows(len));
    QuotaIsProduct(limit, len / 1000 + 2);
  }

  /** Over any trace, an interval of len milliseconds admits at most limit calls per started window, plus limit. */
  lemma TraceBound(times: seq<u64>, t0: u64, limit: u16, a: int, len: nat)
    requires Monotone(times, t0) && len > 0
    ensures Admitted(times, Window(t0, 0), limit, a, a + len) <= limit * (1 + Windows(len))
    ensures Admitted(times, Window(t0, 0), limit, a, a + len) <= limit * (len / 1000 + 2)
    ensures len <= 1000 ==> Admitted(times, Window(t0, 0), limit, a, a + len) <= 2 * limit
  {
    hide Admitted, Monotone, Budget, Windows;
    WithinBudget(times, Window(t0, 0), limit, a, a + len, t0);
    BudgetFresh(t0, limit, a, len);
  }

  // ---------------------------------------------------------------- the n-th call of a window

  /** When the window of the last call was opened: by the first call at which the clock, counting modulo 2^64, is 1000
      ms or more ahead of the opening before. */
  function OpenedAt(times: seq<u64>, t0: u64): u64 {
    if times == [] then t0
    else
      var before, last := OpenedAt(times[..|times| - 1], t0), times[|times| - 1];
      if (last - before) % 0x1_0000_0000_0000_0000 >= 1000 then last else before
  }

  /** The number of the last call in its window, admitted or not. */
  function PlaceInWindow(times: seq<u64>, t0: u64): nat {
    if times == [] then 0
    else
      var before, last := times[..|times| - 1], times[|times| - 1];
      if (last - OpenedAt(before, t0)) % 0x1_0000_0000_0000_0000 >= 1000 then 1 else PlaceInWindow(before, t0) + 1
  }

  /** The window after the calls at the given times. */
  function WindowAfter(times: seq<u64>, w: Window, limit: u16): Window {
    if times == [] then w else Next(times[|times| - 1], WindowAfter(times[..|times| - 1], w, limit), limit)
  }

  lemma WindowMore(times: seq<u64>, t: u64, w: Window, limit: u16)
    ensures WindowAfter(times + [t], w, limit) == Next(t, WindowAfter(times, w, limit), limit)
  {
    assert (times + [t])[..|times|] == times;
  }

  lemma {:induction false} WindowIs(times: seq<u64>, t0: u64, limit: u16)
    ensures var n := PlaceInWindow(times, t0);
      WindowAfter(times, Window(t0, 0), limit) == Window(OpenedAt(times, t0), if n <= limit then n else limit)
  {
    if times != [] {
      WindowIs(times[..|times| - 1], t0, limit);
    }
  }

  /** Whatever the clock does: a call is admitted exactly when it is among the first limit calls of its window. */
  lemma NthCall(times: seq<u64>, t: u64, t0: u64, limit: u16)
    ensures Allows(t, WindowAfter(times, Window(t0, 0), limit), limit) <==> PlaceInWindow(times + [t], t0) <= limit
  {
    WindowIs(times, t0, limit);
    assert (times + [t])[..|times|] == times;
  }

  // ---------------------------------------------------------------- the bound is reached

  function Repeat(t: u64, k: nat, rest: seq<u64>): seq<u64> {
    if k == 0 then rest else [t] + Repeat(t, k - 1, rest)
  }

  lemma {:induction false} RepeatMonotone(t: u64, k: nat, rest: seq<u64>, from: u64)
    requires from <= t && Monotone(rest, t) && (rest != [] ==> from <= rest[0])
    ensures Monotone(Repeat(t, k, rest), from)
  {
    if k > 0 {
      RepeatMonotone(t, k - 1, rest, t);
    } else if rest != [] {
      assert Monotone(rest[1..], rest[0]);
    }
  }

  /** Calls that still fit in the open window are all admitted. */
  lemma {:induction false} RepeatAdmitted(t: u64, k: nat, rest: seq<u64>, w: Window, limit: u16, a: int, b: int)
    requires 0 <= t - w.start < 1000 && w.count + k <= limit && a <= t < b
    ensures Admitted(Repeat(t, k, rest), w, limit, a, b) == k + Admitted(rest, w.(count := w.count + k), limit, a, b)
    decreases k
  {
    if k > 0 {
      RepeatAdmitted(t, k - 1, rest, w.(count := w.count + 1), limit, a, b);
      assert Repeat(t, k, rest)[1..] == Repeat(t, k - 1, rest);
    }
  }

  /** A burst at the end of a window and one at the start of the next. */
  function Bursts(t0: u64, limit: u16): seq<u64>
    requires t0 + 1000 <= U64_MAX
  {
    Repeat(t0 + 999, limit, Repeat(t0 + 1000, limit, []))
  }

  lemma TwiceTheLimit(t0: u64, limit: u16)
    requires t0 + 1000 <= U64_MAX
    ensures Monotone(Bursts(t0, limit), t0)
    ensures Admitted(Bursts(t0, limit), Window(t0, 0), limit, t0 + 999, t0 + 1999) == 2 * limit
  {
    var a, late := t0 + 999, Repeat(t0 + 1000, limit, []);
    RepeatMonotone(t0 + 1000, limit, [], t0 + 999);
    RepeatMonotone(t0 + 999, limit, late, t0);
    RepeatAdmitted(t0 + 999, limit, late, Window(t0, 0), limit, a, a + 1000);
    if limit > 0 {
      RepeatAdmitted(t0 + 1000, limit - 1, [], Window(t0 + 1000, 1), limit, a, a + 1000);
      assert late[1..] == Repeat(t0 + 1000, limit - 1, []);
      assert Next(t0 + 1000, Window(t0, limit), limit) == Window(t0 + 1000, 1);
    }
  }

  function AdmittedInSecond(times: seq<u64>, t0: u64, limit: u16, a: int): nat {
    Admitted(times, Window(t0, 0), limit, a, a + 1000)
  }

  ghost predicate KeepsPerSecond(limit: u16) {
    forall times: seq<u64>, t0: u64, a: int ::
      Monotone(times, t0) ==> AdmittedInSecond(times, t0, limit, a) <= limit
  }

  /** Read literally, "limit per second" fails for every positive limit: only a limit of zero keeps it. */
  lemma PerSecondLiteral(limit: u16)
    ensures KeepsPerSecond(limit) <==> limit == 0
  {
    if limit == 0 {
      forall times: seq<u64>, t0: u64, a: int | Monotone(times, t0)
        ensures AdmittedInSecond(times, t0, limit, a) <= limit
      {
        TraceBound(times, t0, limit, a, 1000);
      }
    } else {
      TwiceTheLimit(0, limit);
      assert Monotone(Bursts(0, limit), 0) && AdmittedInSecond(Bursts(0, limit), 0, limit, 999) > limit;
    }
  }
}
