/** The per-IP token bucket of internal/middleware/ratelimit.go, over real time in seconds. */
module TokenBucket {
  import opened Basics

  datatype Config = Config(rps: real, burst: int, cleanupAfter: real)

  datatype Bucket = Bucket(tokens: real, lastSeen: real)

  function Cap(c: Config, tokens: real): real {
    if tokens > c.burst as real then c.burst as real else tokens
  }

  /** The tokens that accrue from one instant to another. */
  function Gain(c: Config, since: real, now: real): real { (now - since) * c.rps }

  /** The tokens a bucket holds at `now`, before a call takes one. */
  function Refilled(c: Config, b: Bucket, now: real): real {
    Cap(c, b.tokens + Gain(c, b.lastSeen, now))
  }

  /** One Allow call on one bucket. */
  function Call(c: Config, b: Bucket, now: real): (Bucket, bool) {
    var tokens := Refilled(c, b, now);
    if tokens >= 1.0 then (Bucket(tokens - 1.0, now), true) else (Bucket(tokens, now), false)
  }

  /** One Allow call of an IP that may have no bucket yet. */
  function CallIP(c: Config, b: Option<Bucket>, now: real): (Bucket, bool) {
    Call(c, if b.Some? then b.value else Bucket(c.burst as real, now), now)
  }

  // ---------- One IP: the calls at times ts[0], ts[1], ... ----------

  ghost predicate Sorted(ts: seq<real>) { forall i, j :: 0 <= i <= j < |ts| ==> ts[i] <= ts[j] }

  /** The bucket after the calls ts, if there was any, and whether the last one was admitted. */
  function After(c: Config, ts: seq<real>): Option<Bucket> {
    if ts == [] then None else Some(CallIP(c, After(c, ts[..|ts| - 1]), ts[|ts| - 1]).0)
  }

  lemma AfterSnoc(c: Config, ts: seq<real>, now: real)
    ensures After(c, ts + [now]) == Some(CallIP(c, After(c, ts), now).0)
  {
    assert (ts + [now])[..|ts|] == ts;
  }

  function Admits(c: Config, ts: seq<real>, now: real): bool { CallIP(c, After(c, ts), now).1 }

  function Answers(c: Config, ts: seq<real>): (ans: seq<bool>)
    ensures |ans| == |ts|
  {
    if ts == [] then []
    else Answers(c, ts[..|ts| - 1]) + [Admits(c, ts[..|ts| - 1], ts[|ts| - 1])]
  }

  /** How many of the calls j, j+1, ... k-1 were admitted. */
  function Admitted(ans: seq<bool>, j: nat, k: nat): nat
    requires j <= k <= |ans|
    decreases k
  {
    if j == k then 0 else Admitted(ans, j, k - 1) + (if ans[k - 1] then 1 else 0)
  }

  /** A sliding-window limiter would let call k through: over every window that ends with it,
      the calls admitted in the window and this one stay within burst + rps * length. */
  ghost predicate WindowAllows(c: Config, ts: seq<real>, ans: seq<bool>, k: nat)
    requires k < |ts| && k <= |ans|
  {
    forall j :: 0 <= j <= k ==> Admitted(ans, j, k) as real + 1.0 <= WindowBudget(c, ts, j, k)
  }

  function WindowBudget(c: Config, ts: seq<real>, j: nat, k: nat): real
    requires j < |ts| && k < |ts|
  {
    c.burst as real + Gain(c, ts[j], ts[k])
  }

  /** The budget of a window grows with its length at the configured rate. */
  lemma BudgetIsLinear(c: Config, ts: seq<real>, j: nat, k: nat)
    requires j < |ts| && k < |ts|
    ensures WindowBudget(c, ts, j, k) == c.burst as real + c.rps * (ts[k] - ts[j])
  {
  }

  lemma AdmittedOfPrefix(ans: seq<bool>, more: seq<bool>, j: nat, k: nat)
    requires j <= k <= |ans|
    ensures Admitted(ans + more, j, k) == Admitted(ans, j, k)
    decreases k
  {
    if j < k {
      AdmittedOfPrefix(ans, more, j, k - 1);
      assert (ans + more)[k - 1] == ans[k - 1];
    }
  }

  /** What a window leaves of its budget at call k. */
  function Slack(c: Config, ts: seq<real>, ans: seq<bool>, j: nat, k: nat): real
    requires j <= k < |ts| && k <= |ans|
  {
    WindowBudget(c, ts, j, k) - Admitted(ans, j, k) as real
  }

  /** x is the least slack of the windows that end at call k. */
  ghost predicate LeastSlack(c: Config, ts: seq<real>, ans: seq<bool>, k: nat, x: real)
    requires k < |ts| && k <= |ans|
  {
    && (forall j :: 0 <= j <= k ==> x <= Slack(c, ts, ans, j, k))
    && (exists j :: 0 <= j <= k && x == Slack(c, ts, ans, j, k))
  }

  /** The tokens a call at `now` finds, after the calls ts. */
  function Level(c: Config, ts: seq<real>, now: real): real {
    var b := After(c, ts);
    if b.Some? then Refilled(c, b.value, now) else c.burst as real
  }

  function Taken(c: Config, ts: seq<real>, now: real): real { if Admits(c, ts, now) then 1.0 else 0.0 }

  lemma LevelStep(c: Config, ts: seq<real>, last: real, now: real)
    ensures Level(c, ts + [last], now) == Cap(c, Level(c, ts, last) - Taken(c, ts, last) + Gain(c, last, now))
    ensures Admits(c, ts, last) <==> Level(c, ts, last) >= 1.0
  {
    assert (ts + [last])[..|ts|] == ts;
    assert Refilled(c, Bucket(c.burst as real, last), last) == c.burst as real;
  }

  /** Refill over an interval is refill over its two parts. */
  lemma GainSplits(c: Config, x: real, y: real, z: real)
    ensures Gain(c, x, z) == Gain(c, x, y) + Gain(c, y, z)
  {
  }

  lemma Product(x: real, y: real)
    requires x >= 0.0 && y >= 0.0
    ensures x * y >= 0.0
  {
  }

  lemma GainNonNegative(c: Config, x: real, y: real)
    requires c.rps >= 0.0 && x <= y
    ensures Gain(c, x, y) >= 0.0
  {
    var d := y - x;
    Product(d, c.rps);
    assert Gain(c, x, y) == d * c.rps;
  }

  /** A window that reaches back before the last call gains the refill and loses what that call took. */
  lemma SlackStep(c: Config, ts: seq<real>, last: real, now: real, j: nat)
    requires j <= |ts|
    ensures var ans := Answers(c, ts);
            Slack(c, ts + [last] + [now], Answers(c, ts + [last]), j, |ts| + 1) ==
            Slack(c, ts + [last], ans, j, |ts|) - Taken(c, ts, last) + Gain(c, last, now)
  {
    var ts', ans := ts + [last], Answers(c, ts);
    assert ts'[..|ts|] == ts;
    assert Answers(c, ts') == ans + [Admits(c, ts, last)];
    AdmittedOfPrefix(ans, [Admits(c, ts, last)], j, |ts|);
    GainSplits(c, ts'[j], last, now);
    assert (ts' + [now])[j] == ts'[j];
  }

  /** If x is the least slack at the last call, what it leaves after refill and cap is the least now. */
  lemma LeastSlackStep(c: Config, ts: seq<real>, last: real, now: real, x: real)
    requires LeastSlack(c, ts + [last], Answers(c, ts), |ts|, x)
    ensures var y := Cap(c, x - Taken(c, ts, last) + Gain(c, last, now));
            LeastSlack(c, ts + [last] + [now], Answers(c, ts + [last]), |ts| + 1, y)
  {
    var ts', ans', k := ts + [last] + [now], Answers(c, ts + [last]), |ts| + 1;
    var delta := Gain(c, last, now) - Taken(c, ts, last);
    assert Gain(c, now, now) == 0.0;
    assert Slack(c, ts', ans', k, k) == c.burst as real;
    forall j | 0 <= j < k
      ensures Slack(c, ts', ans', j, k) == Slack(c, ts + [last], Answers(c, ts), j, k - 1) + delta
    {
      SlackStep(c, ts, last, now, j);
    }
    var j :| 0 <= j <= k - 1 && x == Slack(c, ts + [last], Answers(c, ts), j, k - 1);
    assert Slack(c, ts', ans', j, k) == x + delta;
  }

  /** The refilled tokens are the least, over all windows ending at this call, of what is left of the budget. */
  lemma {:induction false} TokensAreLeastSlack(c: Config, ts: seq<real>, now: real)
    ensures LeastSlack(c, ts + [now], Answers(c, ts), |ts|, Level(c, ts, now))
    decreases |ts|
  {
    if ts == [] {
      assert Gain(c, now, now) == 0.0;
      assert Slack(c, ts + [now], Answers(c, ts), 0, 0) == c.burst as real;
    } else {
      var before, last := ts[..|ts| - 1], ts[|ts| - 1];
      assert before + [last] == ts;
      TokensAreLeastSlack(c, before, last);
      LevelStep(c, before, last, now);
      LeastSlackStep(c, before, last, now, Level(c, before, last));
    }
  }

  /** Allow is exactly a sliding-window limiter, for any rate and any clock: a call is admitted if and only if,
      over every window ending with it, the admitted calls of the window and this one stay within
      burst + rps * length. */
  lemma AllowIsSlidingWindow(c: Config, ts: seq<real>, now: real)
    ensures Admits(c, ts, now) <==> WindowAllows(c, ts + [now], Answers(c, ts), |ts|)
  {
    TokensAreLeastSlack(c, ts, now);
    LevelStep(c, ts, now, now);
    var x := Level(c, ts, now);
    var j :| 0 <= j <= |ts| && x == Slack(c, ts + [now], Answers(c, ts), j, |ts|);
    if x < 1.0 {
      assert Admitted(Answers(c, ts), j, |ts|) as real + 1.0 > WindowBudget(c, ts + [now], j, |ts|);
    } else {
      forall i | 0 <= i <= |ts|
        ensures Admitted(Answers(c, ts), i, |ts|) as real + 1.0 <= WindowBudget(c, ts + [now], i, |ts|)
      {
        assert x <= Slack(c, ts + [now], Answers(c, ts), i, |ts|);
      }
    }
  }

  /** Answers that follow the sliding-window rule at every call are the bucket's answers: the rule
      determines the limiter. */
  lemma {:induction false} SlidingWindowDetermines(c: Config, ts: seq<real>, ans: seq<bool>)
    requires FollowsWindows(c, ts, ans)
    ensures ans == Answers(c, ts)
    decreases |ts|
  {
    if ts != [] {
      var k := |ts| - 1;
      var before, last := ts[..k], ts[k];
      assert before + [last] == ts && ans[..k] + [ans[k]] == ans;
      PrefixFollowsWindows(c, ts, ans, k);
      SlidingWindowDetermines(c, before, ans[..k]);
      AllowIsSlidingWindow(c, before, last);
      WindowOfPrefix(c, ts, ans, k, k);
    }
  }

  ghost predicate FollowsWindows(c: Config, ts: seq<real>, ans: seq<bool>) {
    |ans| == |ts| && forall k :: 0 <= k < |ts| ==> (ans[k] <==> WindowAllows(c, ts, ans, k))
  }

  lemma PrefixFollowsWindows(c: Config, ts: seq<real>, ans: seq<bool>, n: nat)
    requires FollowsWindows(c, ts, ans) && n < |ts|
    ensures FollowsWindows(c, ts[..n], ans[..n])
  {
    forall i | 0 <= i < n ensures ans[i] <==> WindowAllows(c, ts[..n], ans[..n], i) {
      WindowOfPrefix(c, ts, ans, n, i);
    }
  }

  lemma WindowOfPrefix(c: Config, ts: seq<real>, ans: seq<bool>, n: nat, k: nat)
    requires k <= n < |ts| && |ans| == |ts|
    ensures WindowAllows(c, ts, ans, k) <==> WindowAllows(c, ts[..n] + [ts[n]], ans[..n], k)
    ensures k < n ==> (WindowAllows(c, ts, ans, k) <==> WindowAllows(c, ts[..n], ans[..n], k))
  {
    forall j | 0 <= j <= k ensures Admitted(ans, j, k) == Admitted(ans[..n], j, k) {
      assert ans[..n] + ans[n..] == ans;
      AdmittedOfPrefix(ans[..n], ans[n..], j, k);
    }
    assert ts[..n] + [ts[n]] == ts[..n + 1];
    forall j | 0 <= j <= k ensures WindowBudget(c, ts, j, k) == WindowBudget(c, ts[..n] + [ts[n]], j, k) {}
    forall j | 0 <= j <= k < n ensures WindowBudget(c, ts, j, k) == WindowBudget(c, ts[..n], j, k) {}
  }

  lemma AnswerAt(c: Config, ts: seq<real>, k: nat)
    requires k < |ts|
    ensures Answers(c, ts)[k] == Admits(c, ts[..k], ts[k]) && Answers(c, ts)[..k] == Answers(c, ts[..k])
    decreases |ts|
  {
    if k < |ts| - 1 {
      AnswerAt(c, ts[..|ts| - 1], k);
      assert ts[..|ts| - 1][..k] == ts[..k];
    }
  }

  /** So every answer of a whole history follows the rule. */
  lemma AnswersFollowWindows(c: Config, ts: seq<real>, k: nat)
    requires k < |ts|
    ensures Answers(c, ts)[k] <==> WindowAllows(c, ts, Answers(c, ts), k)
  {
    AnswerAt(c, ts, k);
    assert ts[..k] + [ts[k]] == ts[..k + 1];
    AllowIsSlidingWindow(c, ts[..k], ts[k]);
    WindowOfPrefix(c, ts, Answers(c, ts), k, k);
  }

  lemma BudgetGrows(c: Config, ts: seq<real>, i: nat, j: nat, k: nat)
    requires c.rps >= 0.0 && Sorted(ts) && i <= j <= k < |ts|
    ensures c.burst as real <= WindowBudget(c, ts, i, j) <= WindowBudget(c, ts, i, k)
  {
    GainNonNegative(c, ts[i], ts[j]);
    GainNonNegative(c, ts[j], ts[k]);
    GainSplits(c, ts[i], ts[j], ts[k]);
  }

  /** In any stretch of calls i..k, the admissions number at most burst + rps * duration. */
  lemma {:induction false} AdmissionsBounded(c: Config, ts: seq<real>, i: nat, k: nat)
    requires c.rps >= 0.0 && c.burst >= 0 && Sorted(ts) && i <= k < |ts|
    ensures Admitted(Answers(c, ts), i, k + 1) as real <= WindowBudget(c, ts, i, k)
    decreases k
  {
    var ans := Answers(c, ts);
    if ans[k] {
      AnswersFollowWindows(c, ts, k);
      assert Admitted(ans, i, k) as real + 1.0 <= WindowBudget(c, ts, i, k);
    } else if i < k {
      AdmissionsBounded(c, ts, i, k - 1);
      BudgetGrows(c, ts, i, k - 1, k);
      assert Admitted(ans, i, k + 1) == Admitted(ans, i, k);
    } else {
      assert Admitted(ans, i, i + 1) == 0;
      BudgetGrows(c, ts, i, i, k);
    }
  }

  lemma RefillKeepsRange(c: Config, b: Bucket, now: real)
    requires c.rps >= 0.0 && c.burst >= 0 && 0.0 <= b.tokens && b.lastSeen <= now
    ensures 0.0 <= Refilled(c, b, now) <= c.burst as real
    ensures b.tokens <= c.burst as real ==> b.tokens <= Refilled(c, b, now)
  {
    GainNonNegative(c, b.lastSeen, now);
  }

  /** The tokens never leave [0, burst]. */
  lemma {:induction false} TokensInRange(c: Config, ts: seq<real>)
    requires c.rps >= 0.0 && c.burst >= 0 && Sorted(ts) && ts != []
    ensures 0.0 <= After(c, ts).value.tokens <= c.burst as real
    ensures After(c, ts).value.lastSeen == ts[|ts| - 1]
    decreases |ts|
  {
    var before, now := ts[..|ts| - 1], ts[|ts| - 1];
    if before != [] {
      TokensInRange(c, before);
      RefillKeepsRange(c, After(c, before).value, now);
    } else {
      RefillKeepsRange(c, Bucket(c.burst as real, now), now);
    }
  }
}
