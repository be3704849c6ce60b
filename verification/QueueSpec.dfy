/** One bounded FIFO of internal/queue/memory.go: what a Dequeue removes while the clock moves on. */
module QueueSpec {
  import opened Basics

  datatype Req = Req(id: string, expiresAt: Time)

  const DEFAULT_KEY: string := "default"

  function NormalizeKey(key: string): string { if key == "" then DEFAULT_KEY else key }

  /** Keys that callers give for one and the same queue. */
  predicate SameKey(a: string, b: string) { a == b || {a, b} == {"", "default"} }

  lemma NormalizedIffSame(a: string, b: string)
    ensures NormalizeKey(a) == NormalizeKey(b) <==> SameKey(a, b)
  {
    if {a, b} == {"", "default"} {
      assert a in {"", "default"} && b in {"", "default"};
    }
  }

  predicate IsExpired(r: Req, now: Time) { r.expiresAt < now }

  /** The counters of a queue, and the requests buffered in its channel. */
  datatype Queue = Queue(buf: seq<Req>, enqueued: nat, dequeued: nat, expired: nat, dropped: nat)

  function EmptyQueue(): Queue { Queue([], 0, 0, 0, 0) }

  /** The effect of an Enqueue; false is ErrQueueFull. */
  function Offer(q: Queue, maxSize: nat, r: Req): (Queue, bool) {
    if |q.buf| < maxSize then (q.(buf := q.buf + [r], enqueued := q.enqueued + 1), true)
    else (q.(dropped := q.dropped + 1), false)
  }

  /** The effect of a Dequeue that runs alone. */
  function Drain(q: Queue, n: nat, clock: nat -> Time): (Queue, seq<Req>) {
    var m := Receives(q.buf, n, clock, 0);
    var out, dead := Live(q.buf[..m], clock, 0), Dead(q.buf[..m], clock, 0);
    (q.(buf := q.buf[m..], dequeued := q.dequeued + |out|, expired := q.expired + |dead|), out)
  }

  /** The k-th expiry check of a Dequeue reads the clock at clock(k). */
  ghost predicate Forward(clock: nat -> Time) { forall i, j :: i <= j ==> clock(i) <= clock(j) }

  /** Of the requests s, checked at clock(k), clock(k+1), ..., those found live; and those found expired. */
  function Live(s: seq<Req>, clock: nat -> Time, k: nat): seq<Req> {
    if s == [] then []
    else (if IsExpired(s[0], clock(k)) then [] else [s[0]]) + Live(s[1..], clock, k + 1)
  }

  function Dead(s: seq<Req>, clock: nat -> Time, k: nat): seq<Req> {
    if s == [] then []
    else (if IsExpired(s[0], clock(k)) then [s[0]] else []) + Dead(s[1..], clock, k + 1)
  }

  /** How many receives a Dequeue of n makes. */
  function Receives(s: seq<Req>, n: nat, clock: nat -> Time, k: nat): (m: nat)
    ensures m <= |s|
  {
    if n == 0 || s == [] then 0
    else 1 + Receives(s[1..], if IsExpired(s[0], clock(k)) then n else n - 1, clock, k + 1)
  }

  lemma {:induction false} OnlyLiveSnoc(s: seq<Req>, r: Req, clock: nat -> Time, k: nat)
    ensures Live(s + [r], clock, k) == Live(s, clock, k) + (if IsExpired(r, clock(k + |s|)) then [] else [r])
  {
    if s == [] {
      assert s + [r] == [r] && [r][1..] == [];
    } else {
      OnlyLiveSnoc(s[1..], r, clock, k + 1);
      assert (s + [r])[1..] == s[1..] + [r] && (s + [r])[0] == s[0];
    }
  }

  lemma {:induction false} OnlyDeadSnoc(s: seq<Req>, r: Req, clock: nat -> Time, k: nat)
    ensures Dead(s + [r], clock, k) == Dead(s, clock, k) + (if IsExpired(r, clock(k + |s|)) then [r] else [])
  {
    if s == [] {
      assert s + [r] == [r] && [r][1..] == [];
    } else {
      OnlyDeadSnoc(s[1..], r, clock, k + 1);
      assert (s + [r])[1..] == s[1..] + [r] && (s + [r])[0] == s[0];
    }
  }

  lemma LiveSnoc(s: seq<Req>, r: Req, clock: nat -> Time, k: nat)
    ensures Live(s + [r], clock, k) == Live(s, clock, k) + (if IsExpired(r, clock(k + |s|)) then [] else [r])
    ensures Dead(s + [r], clock, k) == Dead(s, clock, k) + (if IsExpired(r, clock(k + |s|)) then [r] else [])
  {
    OnlyLiveSnoc(s, r, clock, k);
    OnlyDeadSnoc(s, r, clock, k);
  }

  /** A Dequeue stops at the first n live requests or at the end of the queue, and not before. */
  lemma {:induction false} ReceivesExactly(s: seq<Req>, n: nat, clock: nat -> Time, k: nat)
    ensures var m := Receives(s, n, clock, k);
            && |Live(s[..m], clock, k)| <= n
            && (|Live(s[..m], clock, k)| < n ==> m == |s|)
            && forall j :: 0 <= j < m ==> |Live(s[..j], clock, k)| < n
  {
    if n > 0 && s != [] {
      var m, n' := Receives(s, n, clock, k), if IsExpired(s[0], clock(k)) then n else n - 1;
      ReceivesExactly(s[1..], n', clock, k + 1);
      assert s[..m][1..] == s[1..][..m - 1];
      forall j | 0 <= j < m ensures |Live(s[..j], clock, k)| < n {
        if j > 0 {
          assert s[..j][1..] == s[1..][..j - 1];
        }
      }
    }
  }

  /** It is the only such place. */
  lemma ReceivesUnique(s: seq<Req>, n: nat, clock: nat -> Time, m: nat)
    requires m <= |s| && |Live(s[..m], clock, 0)| <= n && (|Live(s[..m], clock, 0)| < n ==> m == |s|)
    requires forall j :: 0 <= j < m ==> |Live(s[..j], clock, 0)| < n
    ensures m == Receives(s, n, clock, 0)
  {
    ReceivesExactly(s, n, clock, 0);
  }

  /** Returned and dropped together are the removed prefix. */
  lemma {:induction false} RemovedPrefixSplits(s: seq<Req>, clock: nat -> Time, k: nat)
    ensures multiset(Live(s, clock, k)) + multiset(Dead(s, clock, k)) == multiset(s)
  {
    if s != [] {
      RemovedPrefixSplits(s[1..], clock, k + 1);
      assert s == [s[0]] + s[1..];
    }
  }

  /** Of a removed prefix, every dropped request has expired by the time the call returns,
      and every returned one had not when the call began. */
  lemma {:induction false} ExpiryRespected(s: seq<Req>, clock: nat -> Time, k: nat, later: Time)
    requires Forward(clock) && clock(k + |s|) <= later
    ensures forall r :: r in Dead(s, clock, k) ==> r.expiresAt < later
    ensures forall r :: r in Live(s, clock, k) ==> r.expiresAt >= clock(k)
  {
    if s != [] {
      ExpiryRespected(s[1..], clock, k + 1, later);
      assert clock(k) <= clock(k + 1) && clock(k) <= clock(k + |s|);
    }
  }

  lemma {:induction false} DroppedInPlace(s: seq<Req>, clock: nat -> Time, k: nat, i: nat)
    requires i < |s| && s[i].expiresAt < clock(k + i)
    ensures |Dead(s[..i], clock, k)| < |Dead(s, clock, k)| && Dead(s, clock, k)[|Dead(s[..i], clock, k)|] == s[i]
  {
    if i > 0 {
      DroppedInPlace(s[1..], clock, k + 1, i - 1);
      assert s[..i][1..] == s[1..][..i - 1] && s[..i][0] == s[0];
    }
  }

  lemma {:induction false} ReturnedInPlace(s: seq<Req>, clock: nat -> Time, k: nat, i: nat)
    requires i < |s| && s[i].expiresAt >= clock(k + i)
    ensures |Live(s[..i], clock, k)| < |Live(s, clock, k)| && Live(s, clock, k)[|Live(s[..i], clock, k)|] == s[i]
  {
    if i > 0 {
      ReturnedInPlace(s[1..], clock, k + 1, i - 1);
      assert s[..i][1..] == s[1..][..i - 1] && s[..i][0] == s[0];
    }
  }

  /** Request i is judged by the reading of its own check: dropped if it expires before that, and otherwise returned,
      each in its place. */
  lemma JudgedByOwnCheck(s: seq<Req>, clock: nat -> Time, k: nat, i: nat)
    requires i < |s|
    ensures var live, dead := |Live(s[..i], clock, k)|, |Dead(s[..i], clock, k)|;
            if s[i].expiresAt < clock(k + i)
            then dead < |Dead(s, clock, k)| && Dead(s, clock, k)[dead] == s[i]
            else live < |Live(s, clock, k)| && Live(s, clock, k)[live] == s[i]
  {
    if s[i].expiresAt < clock(k + i) {
      DroppedInPlace(s, clock, k, i);
    } else {
      ReturnedInPlace(s, clock, k, i);
    }
  }

  /** What a Dequeue leaves is the rest of the queue, nothing when it returns short, and every request it removed
      is counted, as dequeued when it was returned and as expired otherwise. */
  lemma DrainAccounts(q: Queue, n: nat, clock: nat -> Time)
    ensures var (q', out) := Drain(q, n, clock);
            && |out| <= n && (|out| < n ==> q'.buf == [])
            && |q'.buf| <= |q.buf| && q'.buf == q.buf[|q.buf| - |q'.buf|..]
            && q'.enqueued == q.enqueued && q'.dropped == q.dropped
            && q'.dequeued == q.dequeued + |out|
            && q'.expired + |out| == q.expired + |q.buf| - |q'.buf|
  {
    var m := Receives(q.buf, n, clock, 0);
    ReceivesExactly(q.buf, n, clock, 0);
    RemovedPrefixSplits(q.buf[..m], clock, 0);
    assert |multiset(Live(q.buf[..m], clock, 0)) + multiset(Dead(q.buf[..m], clock, 0))| == m;
  }
}
