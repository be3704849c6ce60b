/** The lockout over all IPs, with background eviction, against a tracker that never deletes. */
module LockoutEviction {
  import opened Basics
  import opened LockoutSpec

  datatype Op =
    | Failure(ip: string, at: Time)
    | Success(ip: string, at: Time)
    | Check(ip: string, at: Time)     // IsLocked, which clears a lock that has run out
    | Cleanup(at: Time)

  /** getOrCreate */
  function OrEmpty(r: Option<Rec>): Rec { if r.Some? then r.value else EMPTY }

  /** The zero time is before any cutoff. */
  predicate Stale(c: Config, r: Rec, at: Time) {
    r.lockedAt == None && (r.resetAt == None || r.resetAt.value < at - 2 * c.lockout)
  }

  function Evict(c: Config, m: map<string, Rec>, at: Time): map<string, Rec> {
    map ip | ip in m && !Stale(c, m[ip], at) :: m[ip]
  }

  function Step(c: Config, m: map<string, Rec>, op: Op): map<string, Rec> {
    match op
    case Failure(ip, at) => m[ip := RecordFailure(c, OrEmpty(Lookup(m, ip)), at).0]
    case Success(ip, _) => m[ip := EMPTY]
    case Check(ip, at) => if ip in m then m[ip := IsLocked(c, m[ip], at).0] else m
    case Cleanup(at) => Evict(c, m, at)
  }

  function Exec(c: Config, ops: seq<Op>): map<string, Rec> {
    if ops == [] then map[] else Step(c, Exec(c, ops[..|ops| - 1]), ops[|ops| - 1])
  }

  /** The record of a tracker that never deletes. */
  function KeptStep(c: Config, r: Rec, op: Op): Rec {
    match op
    case Failure(_, at) => RecordFailure(c, r, at).0
    case Success(_, _) => EMPTY
    case Check(_, at) => IsLocked(c, r, at).0
    case Cleanup(_) => r
  }

  function Kept(c: Config, ops: seq<Op>): Rec {
    if ops == [] then EMPTY else KeptStep(c, Kept(c, ops[..|ops| - 1]), ops[|ops| - 1])
  }

  predicate Concerns(op: Op, ip: string) { !op.Cleanup? && op.ip == ip }

  /** The operations of one IP. */
  function OpsOf(ops: seq<Op>, ip: string): seq<Op> {
    if ops == [] then []
    else OpsOf(ops[..|ops| - 1], ip) + (if Concerns(ops[|ops| - 1], ip) then [ops[|ops| - 1]] else [])
  }

  ghost predicate Timed(ops: seq<Op>, now: Time) {
    (forall i, j :: 0 <= i <= j < |ops| ==> ops[i].at <= ops[j].at) && (forall i :: 0 <= i < |ops| ==> ops[i].at <= now)
  }

  /** A record that a new one would answer like: not locked, and nothing left to count. */
  predicate Idle(r: Rec, now: Time) {
    r.lockedAt == None && (r.failures == 0 || (r.resetAt.Some? && r.resetAt.value < now))
  }

  predicate SameOrIdle(have: Option<Rec>, kept: Rec, now: Time) {
    have == Some(kept) || (have == None && Idle(kept, now))
  }

  /** Failures are only ever counted with a reset time. */
  predicate Sane(r: Rec) { r.failures >= 0 && (r.failures > 0 ==> r.resetAt.Some?) }

  lemma StepTracks(c: Config, m: map<string, Rec>, kept: Rec, op: Op, ip: string)
    requires c.lockout >= 0 && Sane(kept) && SameOrIdle(Lookup(m, ip), kept, op.at)
    ensures var kept' := if Concerns(op, ip) then KeptStep(c, kept, op) else kept;
            Sane(kept') && SameOrIdle(Lookup(Step(c, m, op), ip), kept', op.at)
  {
  }

  /** The evicting tracker's record for an IP is that of one that never deletes, or gone when idle. */
  lemma {:induction false} EvictionTracks(c: Config, ops: seq<Op>, ip: string, now: Time)
    requires c.lockout >= 0 && Timed(ops, now)
    ensures Sane(Kept(c, OpsOf(ops, ip))) && SameOrIdle(Lookup(Exec(c, ops), ip), Kept(c, OpsOf(ops, ip)), now)
    decreases |ops|
  {
    if ops != [] {
      var before, op := ops[..|ops| - 1], ops[|ops| - 1];
      EvictionTracks(c, before, ip, op.at);
      StepTracks(c, Exec(c, before), Kept(c, OpsOf(before, ip)), op, ip);
      assert Concerns(op, ip) ==> OpsOf(ops, ip)[..|OpsOf(before, ip)|] == OpsOf(before, ip);
      assert !Concerns(op, ip) ==> OpsOf(ops, ip) == OpsOf(before, ip);
    }
  }

  /** Whatever the other IPs do and whenever cleanup runs, RecordFailure, IsLocked and UnlockIn answer
      as if nothing were ever deleted. */
  lemma EvictionUnobservable(c: Config, ops: seq<Op>, ip: string, now: Time)
    requires c.lockout >= 0 && Timed(ops, now)
    ensures var have, kept := OrEmpty(Lookup(Exec(c, ops), ip)), Kept(c, OpsOf(ops, ip));
            && RecordFailure(c, have, now) == RecordFailure(c, kept, now)
            && IsLocked(c, have, now).1 == IsLocked(c, kept, now).1
            && UnlockIn(c, have, now) == UnlockIn(c, kept, now)
  {
    EvictionTracks(c, ops, ip, now);
  }

  // ---------- Requests through Wrap ----------

  /** The tracker calls that Wrap makes for one attempt. */
  function AttemptOps(a: Attempt, v: Verdict, ip: string): seq<Op> {
    match v
    case Refused => [Check(ip, a.asked)]
    case Failed => [Check(ip, a.asked), Failure(ip, a.judged)]
    case Passed => [Check(ip, a.asked), Success(ip, a.judged)]
  }

  /** ... and for the first n attempts of an IP. */
  function WrapOps(c: Config, ws: seq<Attempt>, ip: string, n: nat): seq<Op>
    requires n <= |ws|
  {
    if n == 0 then [] else WrapOps(c, ws, ip, n - 1) + AttemptOps(ws[n - 1], VerdictOf(c, ws, n - 1), ip)
  }

  lemma KeptSnoc(c: Config, ops: seq<Op>, op: Op)
    ensures Kept(c, ops + [op]) == KeptStep(c, Kept(c, ops), op)
  {
    assert (ops + [op])[..|ops|] == ops;
  }

  lemma AttemptKeepsRecord(c: Config, ops: seq<Op>, r: Rec, a: Attempt, v: Verdict, ip: string)
    requires Kept(c, ops) == r && v == Judge(c, r, a).1
    ensures Kept(c, ops + AttemptOps(a, v, ip)) == Judge(c, r, a).0
  {
    KeptSnoc(c, ops, Check(ip, a.asked));
    if v != Refused {
      var last := AttemptOps(a, v, ip)[1];
      KeptSnoc(c, ops + [Check(ip, a.asked)], last);
      assert ops + AttemptOps(a, v, ip) == ops + [Check(ip, a.asked)] + [last];
    }
  }

  lemma {:induction false} WrapKeepsRecord(c: Config, ws: seq<Attempt>, ip: string, n: nat)
    requires n <= |ws|
    ensures Kept(c, WrapOps(c, ws, ip, n)) == Before(c, ws, n)
  {
    if n > 0 {
      WrapKeepsRecord(c, ws, ip, n - 1);
      AttemptKeepsRecord(c, WrapOps(c, ws, ip, n - 1), Before(c, ws, n - 1), ws[n - 1], VerdictOf(c, ws, n - 1), ip);
    }
  }

  /** So the whole tracker, evicting, refuses exactly the attempts the one-IP theorems speak of. */
  lemma WrapRefusesAsJudged(c: Config, ops: seq<Op>, ip: string, ws: seq<Attempt>, n: nat)
    requires c.lockout >= 0 && n < |ws| && Timed(ops, ws[n].asked) && OpsOf(ops, ip) == WrapOps(c, ws, ip, n)
    ensures IsLocked(c, OrEmpty(Lookup(Exec(c, ops), ip)), ws[n].asked).1 <==> VerdictOf(c, ws, n) == Refused
  {
    WrapKeepsRecord(c, ws, ip, n);
    EvictionUnobservable(c, ops, ip, ws[n].asked);
  }
}
