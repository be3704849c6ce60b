/** The limiter of internal/middleware/ratelimit.go over all IPs, with its background eviction. */
module RateLimits {
  import opened Basics
  import opened TokenBucket

  datatype Op = Allow(ip: string, at: real) | Cleanup(at: real)

  predicate Stale(c: Config, b: Bucket, at: real) { b.lastSeen < at - c.cleanupAfter }

  function Evict(c: Config, m: map<string, Bucket>, at: real): map<string, Bucket> {
    map ip | ip in m && !Stale(c, m[ip], at) :: m[ip]
  }

  function Step(c: Config, m: map<string, Bucket>, op: Op): map<string, Bucket> {
    match op
    case Allow(ip, at) => m[ip := CallIP(c, Lookup(m, ip), at).0]
    case Cleanup(at) => Evict(c, m, at)
  }

  function Exec(c: Config, ops: seq<Op>): map<string, Bucket> {
    if ops == [] then map[] else Step(c, Exec(c, ops[..|ops| - 1]), ops[|ops| - 1])
  }

  /** What the limiter answers to a call after the operations ops. */
  function Answer(c: Config, ops: seq<Op>, ip: string, at: real): bool { CallIP(c, Lookup(Exec(c, ops), ip), at).1 }

  /** The times of the calls of one IP. */
  function CallsOf(ops: seq<Op>, ip: string): seq<real> {
    if ops == [] then []
    else
      var last := ops[|ops| - 1];
      CallsOf(ops[..|ops| - 1], ip) + (if last.Allow? && last.ip == ip then [last.at] else [])
  }

  /** Read by a clock that does not go back, and up to `now`. */
  ghost predicate Timed(ops: seq<Op>, now: real) {
    (forall i, j :: 0 <= i <= j < |ops| ==> ops[i].at <= ops[j].at) && (forall i :: 0 <= i < |ops| ==> ops[i].at <= now)
  }

  lemma {:induction false} CallsSorted(ops: seq<Op>, ip: string, now: real)
    requires Timed(ops, now)
    ensures Sorted(CallsOf(ops, ip) + [now])
    decreases |ops|
  {
    if ops != [] {
      var k := |ops| - 1;
      CallsSorted(ops[..k], ip, ops[k].at);
      var before := CallsOf(ops[..k], ip);
      assert forall i :: 0 <= i < |before| ==> before[i] == (before + [ops[k].at])[i];
      assert forall i :: 0 <= i < |before| ==> (before + [ops[k].at])[i] <= (before + [ops[k].at])[|before|];
    }
  }

  // ---------- Eviction ----------

  /** The configuration lets an idle bucket fill up before it may be evicted. */
  predicate RefillsBeforeEviction(c: Config) { c.burst <= 0 || c.rps * c.cleanupAfter >= c.burst as real }

  /** What eviction may change: a bucket is gone only when it would be full by now. */
  predicate SameOrFull(c: Config, have: Option<Bucket>, kept: Option<Bucket>, now: real) {
    have == kept || (have == None && kept.Some? && Refilled(c, kept.value, now) == c.burst as real)
  }

  lemma SameCallWhenFull(c: Config, have: Option<Bucket>, kept: Option<Bucket>, now: real)
    requires SameOrFull(c, have, kept, now)
    ensures CallIP(c, have, now) == CallIP(c, kept, now)
  {
    assert Gain(c, now, now) == 0.0;
  }

  lemma StaysFull(c: Config, b: Bucket, t: real, now: real)
    requires c.rps >= 0.0 && t <= now && Refilled(c, b, t) == c.burst as real
    ensures Refilled(c, b, now) == c.burst as real
  {
    GainSplits(c, b.lastSeen, t, now);
    GainNonNegative(c, t, now);
  }

  lemma StaleIsFull(c: Config, b: Bucket, now: real)
    requires c.rps >= 0.0 && c.burst > 0 && RefillsBeforeEviction(c) && b.tokens >= 0.0 && Stale(c, b, now)
    ensures Refilled(c, b, now) == c.burst as real
  {
    var ready := b.lastSeen + c.cleanupAfter;
    assert Gain(c, b.lastSeen, ready) == c.rps * c.cleanupAfter;
    GainSplits(c, b.lastSeen, ready, now);
    GainNonNegative(c, ready, now);
  }

  lemma EvictKeepsSameOrFull(c: Config, have: Option<Bucket>, kept: Option<Bucket>, t: real)
    requires c.rps >= 0.0 && c.burst > 0 && RefillsBeforeEviction(c) && SameOrFull(c, have, kept, t)
    requires have.Some? && Stale(c, have.value, t) && have.value.tokens >= 0.0
    ensures SameOrFull(c, None, kept, t)
  {
    StaleIsFull(c, have.value, t);
  }

  lemma LaterKeepsSameOrFull(c: Config, have: Option<Bucket>, kept: Option<Bucket>, t: real, now: real)
    requires c.rps >= 0.0 && t <= now && SameOrFull(c, have, kept, t)
    ensures SameOrFull(c, have, kept, now)
  {
    if have != kept {
      StaysFull(c, kept.value, t, now);
    }
  }

  lemma BucketsNonNegative(c: Config, ts: seq<real>, now: real)
    requires c.rps >= 0.0 && c.burst >= 0 && Sorted(ts + [now]) && ts != []
    ensures After(c, ts).value.tokens >= 0.0
  {
    assert forall i :: 0 <= i < |ts| ==> (ts + [now])[i] == ts[i];
    TokensInRange(c, ts);
  }

  /** Without a burst a bucket is always as full as it gets. */
  lemma {:induction false} NoBurstStaysFull(c: Config, ts: seq<real>, now: real)
    requires c.rps >= 0.0 && c.burst <= 0 && Sorted(ts + [now]) && ts != []
    ensures Refilled(c, After(c, ts).value, now) == c.burst as real
    decreases |ts|
  {
    var before, last := ts[..|ts| - 1], ts[|ts| - 1];
    assert before + [last] == ts && (ts + [now])[|ts| - 1] == last && (ts + [now])[|ts|] == now;
    AfterSnoc(c, before, last);
    GainNonNegative(c, last, now);
    GainNonNegative(c, last, last);
    if before != [] {
      assert forall i :: 0 <= i < |ts| ==> (ts + [now])[i] == ts[i];
      assert Sorted(ts);
      NoBurstStaysFull(c, before, last);
    }
  }

  /** The evicting limiter's bucket for an IP is that of a limiter that never evicts, or gone when full. */
  lemma {:induction false} EvictionTracks(c: Config, ops: seq<Op>, ip: string, now: real)
    requires c.rps >= 0.0 && RefillsBeforeEviction(c) && Timed(ops, now)
    ensures SameOrFull(c, Lookup(Exec(c, ops), ip), After(c, CallsOf(ops, ip)), now)
    decreases |ops|
  {
    if ops != [] {
      var before, op := ops[..|ops| - 1], ops[|ops| - 1];
      var have, ts := Lookup(Exec(c, before), ip), CallsOf(before, ip);
      assert before + [op] == ops;
      EvictionTracks(c, before, ip, op.at);
      ExecSnoc(c, before, op);
      if op.Allow? && op.ip == ip {
        SameCallWhenFull(c, have, After(c, ts), op.at);
        AfterSnoc(c, ts, op.at);
      } else {
        assert CallsOf(ops, ip) == ts;
        if op.Cleanup? && have.Some? && Stale(c, have.value, op.at) {
          CallsSorted(before, ip, op.at);
          if c.burst > 0 {
            BucketsNonNegative(c, ts, op.at);
            EvictKeepsSameOrFull(c, have, After(c, ts), op.at);
          } else {
            NoBurstStaysFull(c, ts, op.at);
          }
        }
        LaterKeepsSameOrFull(c, Lookup(Exec(c, ops), ip), After(c, ts), op.at, now);
      }
    }
  }

  /** With other IPs calling and cleanup running at any times in between, the limiter answers a call
      exactly as the sliding window over that IP's own calls does. */
  lemma AllowIsSlidingWindowWithEviction(c: Config, ops: seq<Op>, ip: string, now: real)
    requires c.rps >= 0.0 && RefillsBeforeEviction(c) && Timed(ops, now)
    ensures Answer(c, ops, ip, now) <==> Admits(c, CallsOf(ops, ip), now)
    ensures Sorted(CallsOf(ops, ip) + [now])
    ensures Answer(c, ops, ip, now) <==>
            WindowAllows(c, CallsOf(ops, ip) + [now], Answers(c, CallsOf(ops, ip)), |CallsOf(ops, ip)|)
  {
    CallsSorted(ops, ip, now);
    EvictionTracks(c, ops, ip, now);
    SameCallWhenFull(c, Lookup(Exec(c, ops), ip), After(c, CallsOf(ops, ip)), now);
    AllowIsSlidingWindow(c, CallsOf(ops, ip), now);
  }

  // ---------- ... and when eviction can be seen ----------

  function Repeat(t: real, n: nat): seq<real> { seq(n, _ => t) }

  function Calls(ip: string, t: real, n: nat): seq<Op> { seq(n, _ => Allow(ip, t)) }

  lemma OneMoreCall(c: Config, ops: seq<Op>, ip: string, base: seq<real>, t: real)
    requires Lookup(Exec(c, ops), ip) == After(c, base)
    ensures Lookup(Exec(c, ops + [Allow(ip, t)]), ip) == After(c, base + [t])
    ensures CallsOf(ops + [Allow(ip, t)], ip) == CallsOf(ops, ip) + [t]
  {
    ExecSnoc(c, ops, Allow(ip, t));
    AfterSnoc(c, base, t);
  }

  lemma ExecSnoc(c: Config, ops: seq<Op>, op: Op)
    ensures Exec(c, ops + [op]) == Step(c, Exec(c, ops), op)
    ensures forall ip :: CallsOf(ops + [op], ip) ==
                         CallsOf(ops, ip) + (if op.Allow? && op.ip == ip then [op.at] else [])
  {
    assert (ops + [op])[..|ops|] == ops;
  }

  lemma Snoc(ops: seq<Op>, ip: string, base: seq<real>, t: real, n: nat)
    requires n > 0
    ensures ops + Calls(ip, t, n) == ops + Calls(ip, t, n - 1) + [Allow(ip, t)]
    ensures base + Repeat(t, n) == base + Repeat(t, n - 1) + [t]
  {
  }

  /** n more calls at one instant. */
  lemma {:induction false} AppendCalls(c: Config, ops: seq<Op>, ip: string, base: seq<real>, t: real, n: nat)
    requires Lookup(Exec(c, ops), ip) == After(c, base)
    ensures Lookup(Exec(c, ops + Calls(ip, t, n)), ip) == After(c, base + Repeat(t, n))
    ensures CallsOf(ops + Calls(ip, t, n), ip) == CallsOf(ops, ip) + Repeat(t, n)
  {
    if n == 0 {
      assert ops + Calls(ip, t, 0) == ops && base + Repeat(t, 0) == base;
    } else {
      AppendCalls(c, ops, ip, base, t, n - 1);
      OneMoreCall(c, ops + Calls(ip, t, n - 1), ip, base + Repeat(t, n - 1), t);
      Snoc(ops, ip, base, t, n);
      Snoc(ops, ip, CallsOf(ops, ip), t, n);
    }
  }

  lemma DrainStep(c: Config, ts: seq<real>, t: real)
    requires Level(c, ts, t) <= c.burst as real
    ensures Level(c, ts + [t], t) == Level(c, ts, t) - (if Level(c, ts, t) >= 1.0 then 1.0 else 0.0)
  {
    LevelStep(c, ts, t, t);
    assert Gain(c, t, t) == 0.0;
  }

  /** Calls at one instant take a token each while there are any. */
  lemma {:induction false} Drain(c: Config, ts: seq<real>, t: real, n: nat)
    requires Level(c, ts, t) <= c.burst as real
    ensures var x := Level(c, ts + Repeat(t, n), t);
            (if n as real <= Level(c, ts, t) then x == Level(c, ts, t) - n as real else x < 1.0) && x <= c.burst as real
  {
    if n == 0 {
      assert ts + Repeat(t, 0) == ts;
    } else {
      Drain(c, ts, t, n - 1);
      DrainStep(c, ts + Repeat(t, n - 1), t);
      Snoc([], "", ts, t, n);
    }
  }

  /** An instant after the eviction age at which a drained bucket would not be full. */
  lemma TooEarly(c: Config) returns (t: real)
    requires c.rps >= 0.0 && c.cleanupAfter >= 0.0 && !RefillsBeforeEviction(c)
    ensures t > c.cleanupAfter && Gain(c, 0.0, t) < c.burst as real
  {
    var missing := c.burst as real - c.rps * c.cleanupAfter;
    if c.rps == 0.0 {
      t := c.cleanupAfter + 1.0;
    } else {
      var d := missing / (2.0 * c.rps);
      t := c.cleanupAfter + d;
      assert d * c.rps == missing / 2.0;
      assert Gain(c, 0.0, t) == c.rps * c.cleanupAfter + d * c.rps;
    }
  }

  lemma AfterDrain(c: Config)
    requires c.burst >= 1
    ensures After(c, Repeat(0.0, c.burst)) == Some(Bucket(0.0, 0.0))
  {
    var ts := Repeat(0.0, c.burst - 1);
    assert [] + ts == ts && Repeat(0.0, c.burst) == ts + [0.0];
    Drain(c, [], 0.0, c.burst - 1);
    AfterSnoc(c, ts, 0.0);
    assert Gain(c, 0.0, 0.0) == 0.0;
  }

  lemma LevelAfterDrain(c: Config, t: real)
    requires c.burst >= 1 && Gain(c, 0.0, t) < c.burst as real
    ensures Level(c, Repeat(0.0, c.burst), t) == Gain(c, 0.0, t)
  {
    AfterDrain(c);
  }

  lemma DrainTimed(ip: string, n: nat, t: real)
    requires t >= 0.0
    ensures Timed(Calls(ip, 0.0, n) + [Cleanup(t)], t)
  {
  }

  lemma EvictedWhenStale(c: Config, m: map<string, Bucket>, ip: string, t: real)
    requires ip in m ==> Stale(c, m[ip], t)
    ensures Lookup(Step(c, m, Cleanup(t)), ip) == None
  {
  }

  /** An IP drains its bucket at time 0. */
  lemma DrainFromStart(c: Config, ip: string)
    requires c.burst >= 0
    ensures Lookup(Exec(c, Calls(ip, 0.0, c.burst)), ip) == After(c, Repeat(0.0, c.burst))
    ensures CallsOf(Calls(ip, 0.0, c.burst), ip) == Repeat(0.0, c.burst)
  {
    AppendCalls(c, [], ip, [], 0.0, c.burst);
    assert [] + Calls(ip, 0.0, c.burst) == Calls(ip, 0.0, c.burst);
    assert [] + Repeat(0.0, c.burst) == Repeat(0.0, c.burst);
  }

  /** ... and has it evicted at time t. */
  lemma DrainAndEvict(c: Config, ip: string, t: real) returns (ops: seq<Op>)
    requires c.burst >= 1 && t > c.cleanupAfter >= 0.0
    ensures Timed(ops, t) && Lookup(Exec(c, ops), ip) == None && CallsOf(ops, ip) == Repeat(0.0, c.burst)
  {
    var drain := Calls(ip, 0.0, c.burst);
    ops := drain + [Cleanup(t)];
    DrainTimed(ip, c.burst, t);
    assert Lookup(Exec(c, drain), ip).Some? ==> Stale(c, Lookup(Exec(c, drain), ip).value, t) by {
      DrainFromStart(c, ip);
      AfterDrain(c);
    }
    EvictedWhenStale(c, Exec(c, drain), ip, t);
    ExecSnoc(c, drain, Cleanup(t));
    assert CallsOf(drain, ip) == Repeat(0.0, c.burst) by { DrainFromStart(c, ip); }
  }

  lemma LastOfBurst(c: Config, ts: seq<real>, t: real)
    requires c.burst >= 1 && Level(c, ts, t) <= c.burst as real
    ensures Admits(c, ts + Repeat(t, c.burst - 1), t) <==> Level(c, ts, t) == c.burst as real
  {
    Drain(c, ts, t, c.burst - 1);
    LevelStep(c, ts + Repeat(t, c.burst - 1), t, t);
  }

  /** Otherwise an IP that drains its bucket and comes back just after its eviction gets more than it should. */
  lemma EvictionSeen(c: Config, ip: string) returns (ops: seq<Op>, t: real)
    requires c.rps >= 0.0 && c.cleanupAfter >= 0.0 && !RefillsBeforeEviction(c)
    ensures Timed(ops, t) && Answer(c, ops, ip, t) && !Admits(c, CallsOf(ops, ip), t)
  {
    t := TooEarly(c);
    var idle := DrainAndEvict(c, ip, t);
    ops := idle + Calls(ip, t, c.burst - 1);
    AppendCalls(c, idle, ip, [], t, c.burst - 1);
    LastOfBurst(c, [], t);
    LevelAfterDrain(c, t);
    LastOfBurst(c, Repeat(0.0, c.burst), t);
  }

  /** RetryAfterSeconds for an IP with bucket b; conversion to int truncates. */
  function RetryAfterSeconds(c: Config, b: Option<Bucket>): int {
    if c.rps <= 0.0 then 60
    else if b == None || b.value.tokens >= 1.0 then 0
    else Truncate((1.0 - b.value.tokens) / c.rps) + 1
  }

  function Truncate(x: real): int { if x >= 0.0 then x.Floor else -((-x).Floor) }

  /** What a client is told: the answer, and the hint that goes with a denial. */
  function Reply(c: Config, b: Option<Bucket>, now: real): (bool, int) {
    var (after, ok) := CallIP(c, b, now);
    (ok, if ok then 0 else RetryAfterSeconds(c, Some(after)))
  }

  ghost predicate EvictionUnobservable(c: Config) {
    forall ops, ip, now :: Timed(ops, now) ==>
      Reply(c, Lookup(Exec(c, ops), ip), now) == Reply(c, After(c, CallsOf(ops, ip)), now)
  }

  /** No client can tell, by an answer of Allow or by the hint of a denial, that buckets are evicted, exactly for
      the configurations that let a drained bucket fill up first. */
  lemma EvictionUnobservableIff(c: Config)
    requires c.rps >= 0.0 && c.cleanupAfter >= 0.0
    ensures EvictionUnobservable(c) <==> RefillsBeforeEviction(c)
  {
    if RefillsBeforeEviction(c) {
      forall ops, ip, now | Timed(ops, now)
        ensures Reply(c, Lookup(Exec(c, ops), ip), now) == Reply(c, After(c, CallsOf(ops, ip)), now)
      {
        EvictionTracks(c, ops, ip, now);
        SameCallWhenFull(c, Lookup(Exec(c, ops), ip), After(c, CallsOf(ops, ip)), now);
      }
    } else {
      var ops, t := EvictionSeen(c, "");
      assert Reply(c, Lookup(Exec(c, ops), ""), t).0 != Reply(c, After(c, CallsOf(ops, "")), t).0;
    }
  }

  lemma HintPositive(c: Config, b: Bucket)
    requires c.rps > 0.0 && b.tokens < 1.0
    ensures RetryAfterSeconds(c, Some(b)) > 0
  {
    var exact := (1.0 - b.tokens) / c.rps;
    assert exact * c.rps == 1.0 - b.tokens;
    assert exact >= 0.0 by { if exact < 0.0 { StrictProduct(-exact, c.rps); } }
  }

  /** Without a burst one call is denied, and its bucket evicted at time t. */
  lemma DenyAndEvict(c: Config, ip: string, t: real) returns (ops: seq<Op>)
    requires c.burst < 1 && t > c.cleanupAfter >= 0.0
    ensures Timed(ops, t) && Lookup(Exec(c, ops), ip) == None && CallsOf(ops, ip) == [0.0]
  {
    var call := [] + [Allow(ip, 0.0)];
    ops := call + [Cleanup(t)];
    ExecSnoc(c, [], Allow(ip, 0.0));
    EvictedWhenStale(c, Exec(c, call), ip, t);
    ExecSnoc(c, call, Cleanup(t));
  }

  /** RetryAfterSeconds asked without a denial before it, which the middleware never does, can tell: it reads tokens
      that have not been refilled, and those of an idle IP are forgotten with its bucket. */
  lemma IdleHintForgets(c: Config, ip: string, t: real) returns (ops: seq<Op>)
    requires c.rps > 0.0 && t > c.cleanupAfter >= 0.0
    ensures Timed(ops, t) && RetryAfterSeconds(c, Lookup(Exec(c, ops), ip)) == 0
    ensures RetryAfterSeconds(c, After(c, CallsOf(ops, ip))) > 0
  {
    if c.burst >= 1 {
      ops := DrainAndEvict(c, ip, t);
      AfterDrain(c);
    } else {
      ops := DenyAndEvict(c, ip, t);
      AfterSnoc(c, [], 0.0);
      assert [] + [0.0] == [0.0];
    }
    HintPositive(c, After(c, CallsOf(ops, ip)).value);
  }

  ghost predicate IdleHintUnobservable(c: Config) {
    forall ops, ip, now :: Timed(ops, now) ==>
      RetryAfterSeconds(c, Lookup(Exec(c, ops), ip)) == RetryAfterSeconds(c, After(c, CallsOf(ops, ip)))
  }

  /** On every history the idle hints agree exactly when there is no rate, and the hint is a constant. */
  lemma IdleHintUnobservableIff(c: Config)
    requires c.cleanupAfter >= 0.0
    ensures IdleHintUnobservable(c) <==> c.rps <= 0.0
  {
    if c.rps > 0.0 {
      var t := c.cleanupAfter + 1.0;
      var ops := IdleHintForgets(c, "", t);
    }
  }

  // ---------- Retry-After ----------

  /** After a denial, with no other call: a wait of the hint succeeds, a wait that is shorter by
      more than a second fails, and a wait succeeds exactly when it earns the missing part of a token. */
  lemma RetryHintTight(c: Config, b: Bucket, now: real, wait: real)
    requires c.rps > 0.0 && c.burst >= 1 && wait >= 0.0 && !Call(c, b, now).1
    ensures var after := Call(c, b, now).0;
            var hint := RetryAfterSeconds(c, Some(after));
            && (Call(c, after, now + wait).1 <==> wait * c.rps >= 1.0 - after.tokens)
            && (wait >= hint as real ==> Call(c, after, now + wait).1)
            && (wait < hint as real - 1.0 ==> !Call(c, after, now + wait).1)
  {
    var after := Call(c, b, now).0;
    var need := 1.0 - after.tokens;
    assert Gain(c, now, now + wait) == wait * c.rps;
    var exact := need / c.rps;
    assert exact * c.rps == need;
    if wait >= exact {
      assert wait * c.rps >= need by { Product(wait - exact, c.rps); }
    } else {
      assert wait * c.rps < need by { StrictProduct(exact - wait, c.rps); }
    }
    assert exact >= 0.0 by { if exact < 0.0 { StrictProduct(-exact, c.rps); } }
  }

  /** The hint is the least whole number of seconds that earns more than what is missing of a token. */
  lemma RetryHintExact(c: Config, b: Bucket)
    requires c.rps > 0.0 && b.tokens < 1.0
    ensures var hint := RetryAfterSeconds(c, Some(b)); hint > 0 && Earns(c, hint - 1) <= 1.0 - b.tokens < Earns(c, hint)
  {
    var exact := (1.0 - b.tokens) / c.rps;
    assert exact * c.rps == 1.0 - b.tokens;
    assert exact >= 0.0 by { if exact < 0.0 { StrictProduct(-exact, c.rps); } }
    var hint := RetryAfterSeconds(c, Some(b));
    var over, under := hint as real - exact, exact - (hint - 1) as real;
    assert over > 0.0 && under >= 0.0;
    StrictProduct(over, c.rps);
    Product(under, c.rps);
    assert over * c.rps == Earns(c, hint) - exact * c.rps;
    assert under * c.rps == exact * c.rps - Earns(c, hint - 1);
  }

  /** The tokens that some whole seconds earn. */
  function Earns(c: Config, secs: int): real { secs as real * c.rps }

  /** The hint is zero exactly when a call would not have to wait for the tokens there are. */
  lemma RetryHintZeroIff(c: Config, b: Option<Bucket>)
    requires c.rps > 0.0
    ensures RetryAfterSeconds(c, b) == 0 <==> b == None || b.value.tokens >= 1.0
  {
    if b.Some? && b.value.tokens < 1.0 {
      HintPositive(c, b.value);
    }
  }

  lemma StrictProduct(x: real, y: real)
    requires x > 0.0 && y > 0.0
    ensures x * y > 0.0
  {
  }

  /** Without a whole token of burst no wait is long enough, whatever the hint says. */
  lemma RetryHintHopeless(c: Config, b: Option<Bucket>, now: real)
    requires c.burst < 1
    ensures !CallIP(c, b, now).1
  {
  }

  /** Nor is any without a rate, where the hint is a minute. */
  lemma RetryHintWithoutRate(c: Config, b: Bucket, now: real, wait: real)
    requires c.rps <= 0.0 && wait >= 0.0 && !Call(c, b, now).1
    ensures RetryAfterSeconds(c, Some(Call(c, b, now).0)) == 60 && !Call(c, Call(c, b, now).0, now + wait).1
  {
    Product(wait, -c.rps);
    assert Gain(c, now, now + wait) == wait * c.rps;
  }
}
