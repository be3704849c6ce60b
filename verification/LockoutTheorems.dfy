/** What the lockout promises about one IP's attempts, over unbounded histories. */
module LockoutTheorems {
  import opened Basics
  import opened LockoutSpec

  // ---------- The record refines its history ----------

  /** A judged bad key, a judged good one, or a lock found to have run out. */
  datatype Event = Fail(at: Time) | Success | Expiry

  function History(c: Config, ws: seq<Attempt>, n: nat): seq<Event>
    requires n <= |ws|
  {
    if n == 0 then []
    else
      var before, a := History(c, ws, n - 1), ws[n - 1];
      if VerdictOf(c, ws, n - 1) == Refused then before
      else before + (if Before(c, ws, n - 1).lockedAt.Some? then [Expiry] else []) +
           [if a.good then Success else Fail(a.judged)]
  }

  /** The last f events are failures no more than a window apart, and no longer suffix is. */
  ghost predicate LongestStreak(c: Config, h: seq<Event>, f: int) {
    && 0 <= f <= |h|
    && (forall i :: |h| - f <= i < |h| ==> h[i].Fail?)
    && (forall i :: |h| - f < i < |h| ==> h[i].at - h[i - 1].at <= c.window)
    && (f < |h| && h[|h| - f - 1].Fail? ==> f > 0 && h[|h| - f].at - h[|h| - f - 1].at > c.window)
  }

  lemma StreakAfterFailure(c: Config, h: seq<Event>, f: int, at: Time)
    requires LongestStreak(c, h, f)
    ensures var goesOn := f > 0 && at - h[|h| - 1].at <= c.window;
            LongestStreak(c, h + [Fail(at)], if goesOn then f + 1 else 1)
  {
  }

  lemma StreakAfterReset(c: Config, h: seq<Event>, e: Event)
    requires !e.Fail?
    ensures LongestStreak(c, h + [e], 0)
  {
  }

  /** The record stands for the history. */
  ghost predicate Refines(c: Config, r: Rec, h: seq<Event>) {
    && LongestStreak(c, h, r.failures)
    && (r.lockedAt.Some? <==> r.failures >= Limit(c))
    && (r.lockedAt.Some? ==> h != [] && h[|h| - 1] == Fail(r.lockedAt.value))
    && (r.failures > 0 ==> h[|h| - 1].Fail? && r.resetAt == Some(h[|h| - 1].at + c.window))
  }

  lemma FailureRefines(c: Config, r: Rec, h: seq<Event>, at: Time)
    requires Refines(c, r, h) && r.lockedAt == None
    ensures Refines(c, RecordFailure(c, r, at).0, h + [Fail(at)])
  {
    StreakAfterFailure(c, h, r.failures, at);
  }

  /** `failures` is the longest run of judged failures with gaps within the window since the last success
      or lock expiry; the lock is set exactly when the run reaches the limit, at its last failure. */
  lemma {:induction false} RecordRefinesHistory(c: Config, ws: seq<Attempt>, n: nat)
    requires n <= |ws|
    ensures Refines(c, Before(c, ws, n), History(c, ws, n))
  {
    if n > 0 {
      RecordRefinesHistory(c, ws, n - 1);
      var r, h, a := Before(c, ws, n - 1), History(c, ws, n - 1), ws[n - 1];
      var (r1, locked) := IsLocked(c, r, a.asked);
      if !locked {
        var h1 := h + if r.lockedAt.Some? then [Expiry] else [];
        StreakAfterReset(c, h, Expiry);
        assert Refines(c, r1, h1) by { assert h + [] == h; }
        StreakAfterReset(c, h1, Success);
        FailureRefines(c, r1, h1, a.judged);
      }
    }
  }

  /** While the lock lasts every attempt is refused, whatever its key, and changes nothing. */
  lemma {:induction false} LockHolds(c: Config, ws: seq<Attempt>, n: nat, k: nat, t: Time)
    requires n <= k < |ws| && Before(c, ws, n).lockedAt == Some(t)
    requires forall i :: n <= i <= k ==> ws[i].asked < t + c.lockout
    ensures VerdictOf(c, ws, k) == Refused && Before(c, ws, k) == Before(c, ws, n)
    ensures Before(c, ws, k + 1) == Before(c, ws, n)
  {
    if n < k {
      LockHolds(c, ws, n, k - 1, t);
    }
  }

  /** The first attempt after it is judged, and counted from zero. */
  lemma LockEnds(c: Config, ws: seq<Attempt>, k: nat, t: Time)
    requires k < |ws| && Before(c, ws, k).lockedAt == Some(t) && ws[k].asked >= t + c.lockout
    ensures VerdictOf(c, ws, k) == (if ws[k].good then Passed else Failed)
    ensures Before(c, ws, k + 1).failures == (if ws[k].good then 0 else 1)
  {
  }

  // ---------- Brute force ----------

  /** How many of the attempts i, i+1, ... k-1 were judged and failed. */
  function Fails(c: Config, ws: seq<Attempt>, i: nat, k: nat): nat
    requires i <= k <= |ws|
    decreases k
  {
    if i == k then 0 else Fails(c, ws, i, k - 1) + (if VerdictOf(c, ws, k - 1) == Failed then 1 else 0)
  }

  ghost predicate NoSuccess(c: Config, ws: seq<Attempt>, i: nat, k: nat)
    requires i <= k <= |ws|
  {
    forall j :: i <= j < k ==> VerdictOf(c, ws, j) != Passed
  }

  /** Shortly after the failure i: locked since then, or still counting every failure since then. */
  ghost predicate Counting(c: Config, ws: seq<Attempt>, i: nat, j: nat)
    requires i <= j <= |ws| && i < |ws|
  {
    var r, n := Before(c, ws, j), Fails(c, ws, i, j);
    if r.lockedAt.Some? then r.lockedAt.value >= ws[i].judged && n <= Limit(c)
    else n < Limit(c) && n <= r.failures && r.resetAt.Some? && r.resetAt.value >= ws[i].judged + c.window
  }

  lemma {:induction false} CountsWhileShort(c: Config, ws: seq<Attempt>, i: nat, j: nat)
    requires Clocked(ws) && i < j <= |ws| && VerdictOf(c, ws, i) == Failed && NoSuccess(c, ws, i, j)
    requires ws[j - 1].judged < ws[i].judged + Min(c.window, c.lockout)
    ensures Counting(c, ws, i, j)
    decreases j
  {
    if j == i + 1 {
      assert Fails(c, ws, i, i) == 0;
      RecordRefinesHistory(c, ws, i);
    } else {
      CountsWhileShort(c, ws, i, j - 1);
    }
  }

  /** Any Limit+1 successive judged failures, with no success between, span the window or the lockout. */
  lemma BruteForceSpan(c: Config, ws: seq<Attempt>, i: nat, k: nat)
    requires Clocked(ws) && i <= k < |ws| && VerdictOf(c, ws, i) == Failed && NoSuccess(c, ws, i, k + 1)
    requires Fails(c, ws, i, k + 1) > Limit(c)
    ensures ws[k].judged - ws[i].judged >= Min(c.window, c.lockout)
  {
    if ws[k].judged - ws[i].judged < Min(c.window, c.lockout) {
      CountsWhileShort(c, ws, i, k + 1);
    }
  }

  lemma {:induction false} FailsSplit(c: Config, ws: seq<Attempt>, i: nat, j: nat, k: nat)
    requires i <= j <= k <= |ws|
    ensures Fails(c, ws, i, k) == Fails(c, ws, i, j) + Fails(c, ws, j, k)
    decreases k
  {
    if j < k { FailsSplit(c, ws, i, j, k - 1); }
  }

  /** The attempt that is failure number n+1 counted from i. */
  lemma {:induction false} NthFailure(c: Config, ws: seq<Attempt>, i: nat, k: nat, n: nat) returns (x: nat)
    requires i <= k <= |ws| && Fails(c, ws, i, k) > n
    ensures i <= x < k && Fails(c, ws, i, x) == n && VerdictOf(c, ws, x) == Failed
    decreases k
  {
    if Fails(c, ws, i, k - 1) > n {
      x := NthFailure(c, ws, i, k - 1, n);
    } else {
      x := k - 1;
    }
  }

  function Times(n: nat, m: int): int { if n == 0 then 0 else Times(n - 1, m) + m }

  lemma {:induction false} TimesIsProduct(n: nat, m: int)
    ensures Times(n, m) == n * m
  {
    if n > 0 {
      TimesIsProduct(n - 1, m);
      assert n * m == (n - 1) * m + m;
    }
  }

  lemma {:induction false} TimesGrows(n: nat, m: nat)
    requires n > 0
    ensures m <= Times(n, m)
  {
    if n > 1 { TimesGrows(n - 1, m); }
  }

  /** Counted from i, the failure that comes Limit failures after the first one is late. */
  lemma NextBatch(c: Config, ws: seq<Attempt>, i: nat, k: nat) returns (x: nat)
    requires Clocked(ws) && i <= k < |ws| && NoSuccess(c, ws, i, k + 1) && Fails(c, ws, i, k + 1) > Limit(c)
    ensures i <= x <= k && ws[x].judged - ws[i].judged >= Min(c.window, c.lockout)
    ensures Fails(c, ws, x, k + 1) == Fails(c, ws, i, k + 1) - Limit(c)
  {
    var f := NthFailure(c, ws, i, k + 1, 0);
    FailsSplit(c, ws, i, f, k + 1);
    x := NthFailure(c, ws, f, k + 1, Limit(c));
    FailsSplit(c, ws, f, x, k + 1);
    BruteForceSpan(c, ws, f, x);
    assert ws[i].judged <= ws[f].judged;
  }

  lemma {:induction false} BruteForceSteps(c: Config, ws: seq<Attempt>, i: nat, k: nat, n: nat)
    requires Clocked(ws) && i <= k < |ws| && NoSuccess(c, ws, i, k + 1)
    requires ws[k].judged - ws[i].judged < Times(n, Min(c.window, c.lockout))
    ensures Fails(c, ws, i, k + 1) <= Times(n, Limit(c))
    decreases n
  {
    assert ws[i].judged <= ws[k].judged;
    if Fails(c, ws, i, k + 1) > Limit(c) {
      var x := NextBatch(c, ws, i, k);
      BruteForceSteps(c, ws, x, k, n - 1);
    } else {
      TimesGrows(n, Limit(c));
    }
  }

  /** A success-free stretch of attempts that lasts less than n times the window or the lockout,
      whichever is shorter, judges at most n times Limit bad keys. */
  lemma BruteForceBound(c: Config, ws: seq<Attempt>, i: nat, k: nat, n: nat)
    requires Clocked(ws) && i <= k < |ws| && NoSuccess(c, ws, i, k + 1)
    requires ws[k].judged - ws[i].judged < n * Min(c.window, c.lockout)
    ensures Fails(c, ws, i, k + 1) <= n * Limit(c)
  {
    TimesIsProduct(n, Min(c.window, c.lockout));
    TimesIsProduct(n, Limit(c));
    BruteForceSteps(c, ws, i, k, n);
  }

  // ---------- The window is an idle gap ----------

  /** Failures older than the window do count, as long as no gap between them exceeds it. */
  lemma OldFailuresCount(c: Config, ws: seq<Attempt>)
    requires c.threshold == 3 && c.window == 10 && c.lockout > 0
    requires ws == [Attempt(0, 0, false), Attempt(9, 9, false), Attempt(18, 18, false), Attempt(18, 18, true)]
    ensures ws[2].judged - ws[0].judged > c.window && VerdictOf(c, ws, 3) == Refused
  {
    assert Before(c, ws, 1) == Rec(1, None, Some(10));
    assert Before(c, ws, 2) == Rec(2, None, Some(19));
    assert Before(c, ws, 3) == Rec(3, Some(18), Some(28));
  }

  // ---------- Retry-After ----------

  /** UnlockIn is zero exactly when IsLocked would answer no; a wait of UnlockIn seconds is enough,
      and a wait that is shorter by more than a second is not. */
  lemma UnlockHintTight(c: Config, r: Rec, now: Time, wait: Time)
    requires wait >= 0
    ensures UnlockIn(c, r, now) == 0 <==> !IsLocked(c, r, now).1
    ensures wait >= UnlockIn(c, r, now) * SECOND ==> !IsLocked(c, r, now + wait).1
    ensures IsLocked(c, r, now).1 && wait < (UnlockIn(c, r, now) - 1) * SECOND ==> IsLocked(c, r, now + wait).1
    ensures IsLocked(c, r, now).1 ==>
              var left := r.lockedAt.value + c.lockout - now;
              (UnlockIn(c, r, now) - 1) * 1_000_000_000 <= left < UnlockIn(c, r, now) * 1_000_000_000
  {
  }
}
