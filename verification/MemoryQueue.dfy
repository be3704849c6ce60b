/** MemoryQueue of internal/queue/memory.go as a class, run without interference. */
module MemoryQueues {
  import opened Basics
  import opened QueueSpec

  class MemoryQueue {
    const maxSize: nat
    var buf: seq<Req>
    var enqueued: nat
    var dequeued: nat
    var expired: nat
    var dropped: nat

    function View(): Queue
      reads this
    {
      Queue(buf, enqueued, dequeued, expired, dropped)
    }

    constructor (maxSize: nat)
      ensures View() == EmptyQueue() && this.maxSize == maxSize
      ensures buf == [] && enqueued == dequeued == expired == dropped == 0
    {
      this.maxSize := maxSize;
      buf, enqueued, dequeued, expired, dropped := [], 0, 0, 0, 0;
    }

    /** False is ErrQueueFull. */
    method Enqueue(r: Req) returns (ok: bool)
      modifies this
      ensures (View(), ok) == Offer(old(View()), maxSize, r)
      ensures ok <==> |old(buf)| < maxSize
      ensures buf == (if ok then old(buf) + [r] else old(buf)) && dequeued == old(dequeued) && expired == old(expired)
      ensures enqueued == old(enqueued) + One(ok) && dropped == old(dropped) + One(!ok)
    {
      if |buf| < maxSize {
        buf := buf + [r];
        enqueued := enqueued + 1;
        return true;
      }
      dropped := dropped + 1;
      return false;
    }

    /** Up to n requests in order; those that have expired are dropped on the way. */
    method Dequeue(n: nat, clock: nat -> Time) returns (out: seq<Req>)
      modifies this
      ensures (View(), out) == Drain(old(View()), n, clock)
      ensures |out| <= n && (|out| < n ==> buf == [])
      ensures |buf| <= |old(buf)| && buf == old(buf)[|old(buf)| - |buf|..]
      ensures enqueued == old(enqueued) && dropped == old(dropped)
      ensures dequeued == old(dequeued) + |out|
      ensures expired + |out| == old(expired) + |old(buf)| - |buf|
    {
      ghost var before := buf;
      var m := 0; // readings of the clock so far
      out := [];
      while |out| < n && buf != []
        invariant m <= |before| && buf == before[m..]
        invariant out == Live(before[..m], clock, 0) && |out| <= n
        invariant forall j :: 0 <= j < m ==> |Live(before[..j], clock, 0)| < n
        invariant dequeued == old(dequeued) + |out| && expired == old(expired) + |Dead(before[..m], clock, 0)|
        invariant enqueued == old(enqueued) && dropped == old(dropped)
        decreases |buf|
      {
        var r := buf[0];
        buf := buf[1..];
        LiveSnoc(before[..m], r, clock, 0);
        assert before[..m + 1] == before[..m] + [r];
        if IsExpired(r, clock(m)) {
          expired := expired + 1;
        } else {
          out := out + [r];
          dequeued := dequeued + 1;
        }
        m := m + 1;
      }
      ReceivesUnique(before, n, clock, m);
      DrainAccounts(old(View()), n, clock);
    }

    function Len(): nat
      reads this
    {
      |buf|
    }
  }
}
