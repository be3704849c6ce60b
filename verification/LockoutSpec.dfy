/** The per-IP failure record of internal/middleware/lockout.go, and one IP's attempts through Wrap. */
module LockoutSpec {
  import opened Basics

  datatype Config = Config(threshold: int, lockout: Time, window: Time)

  /** None stands for the zero time. */
  datatype Rec = Rec(failures: int, lockedAt: Option<Time>, resetAt: Option<Time>)

  const EMPTY: Rec := Rec(0, None, None)

  function RecordFailure(c: Config, r: Rec, now: Time): (Rec, bool) {
    var r := if r.resetAt.Some? && r.resetAt.value < now then r.(failures := 0, lockedAt := None) else r;
    var r := r.(failures := r.failures + 1, resetAt := Some(now + c.window));
    if r.failures >= c.threshold && r.lockedAt == None then (r.(lockedAt := Some(now)), true) else (r, false)
  }

  function IsLocked(c: Config, r: Rec, now: Time): (Rec, bool) {
    if r.lockedAt == None then (r, false)
    else if now - r.lockedAt.value >= c.lockout then (r.(lockedAt := None, failures := 0), false)
    else (r, true)
  }

  /** Whole seconds to wait; the conversion to int truncates. */
  function UnlockIn(c: Config, r: Rec, now: Time): int {
    if r.lockedAt == None then 0
    else
      var remaining := c.lockout - (now - r.lockedAt.value);
      if remaining <= 0 then 0 else remaining / SECOND + 1
  }

  /** One request through Wrap: the clock is read when the lock is checked and when the outcome is recorded. */
  datatype Attempt = Attempt(asked: Time, judged: Time, good: bool)

  datatype Verdict = Refused | Failed | Passed

  function Judge(c: Config, r: Rec, a: Attempt): (Rec, Verdict) {
    var (r, locked) := IsLocked(c, r, a.asked);
    if locked then (r, Refused)
    else if a.good then (EMPTY, Passed)
    else (RecordFailure(c, r, a.judged).0, Failed)
  }

  ghost predicate Clocked(ws: seq<Attempt>) {
    && (forall i :: 0 <= i < |ws| ==> ws[i].asked <= ws[i].judged)
    && (forall i, j :: 0 <= i < j < |ws| ==> ws[i].judged <= ws[j].asked)
  }

  /** The record before attempt n. */
  function Before(c: Config, ws: seq<Attempt>, n: nat): Rec
    requires n <= |ws|
  {
    if n == 0 then EMPTY else Judge(c, Before(c, ws, n - 1), ws[n - 1]).0
  }

  function VerdictOf(c: Config, ws: seq<Attempt>, n: nat): Verdict
    requires n < |ws|
  {
    Judge(c, Before(c, ws, n), ws[n]).1
  }

  /** A threshold below one locks on the first failure, like one. */
  function Limit(c: Config): int { Max(c.threshold, 1) }
}
