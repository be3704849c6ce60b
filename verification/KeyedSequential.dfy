/** An operation that runs without interference has, as the sum of its atomic steps, the effect
    that specifies the method of class MemoryQueue. */
module KeyedSequential {
  import opened Basics
  import opened QueueSpec
  import opened KeyedMachine

  /** From state m to state n only operation o moves; the clock may. */
  ghost predicate RunsAlone(r: Run, m: nat, n: nat, o: nat) {
    IsRun(r) && m <= n < |r.states| && forall i :: m <= i < n ==> r.steps[i] == Advance(o) || r.steps[i].Tick?
  }

  // ---------- Enqueue ----------

  /** How far an Enqueue has come with a queue that was x when it got its handle. */
  predicate Enqueuing(x: Queue, s: State, o: nat, q: nat) {
    && o in s.ops && s.ops[o].Enq? && HasQueue(s, q)
    && var room, r := |x.buf| < s.maxSize, s.ops[o].req;
       match s.ops[o].pc
       case Holding(h) => h == q && s.mem[q] == x
       case Sent(h) => h == q && room && s.mem[q] == x.(buf := x.buf + [r])
       case Refused(h) => h == q && !room && s.mem[q] == x
       case Returned => s.mem[q] == Offer(x, s.maxSize, r).0
       case _ => false
  }

  lemma {:induction false} EnqueuesAlone(r: Run, m: nat, n: nat, o: nat, q: nat)
    requires RunsAlone(r, m, n, o) && o in r.states[m].ops && r.states[m].ops[o].Enq?
    requires r.states[m].ops[o].pc == Holding(q) && HasQueue(r.states[m], q)
    ensures Enqueuing(r.states[m].mem[q], r.states[n], o, q)
    ensures r.states[n].ops[o].req == r.states[m].ops[o].req && r.states[n].maxSize == r.states[m].maxSize
    decreases n - m
  {
    if m < n {
      EnqueuesAlone(r, m, n - 1, o, q);
      assert Next(r, n - 1);
    }
  }

  /** An Enqueue that runs alone leaves its queue as the method of MemoryQueue does. */
  lemma LoneEnqueueIsOffer(r: Run, m: nat, n: nat, o: nat, q: nat)
    requires RunsAlone(r, m, n, o) && o in r.states[m].ops && r.states[m].ops[o].Enq?
    requires r.states[m].ops[o].pc == Holding(q) && HasQueue(r.states[m], q)
    requires o in r.states[n].ops && r.states[n].ops[o].pc == Returned
    ensures HasQueue(r.states[n], q)
    ensures r.states[n].mem[q] == Offer(r.states[m].mem[q], r.states[m].maxSize, r.states[m].ops[o].req).0
  {
    EnqueuesAlone(r, m, n, o, q);
  }

  // ---------- Dequeue ----------

  /** The readings of the clock that a Dequeue made. */
  function ClockOf(log: seq<Checked>, later: Time): nat -> Time {
    (i: nat) => if i < |log| then log[i].at else later
  }

  predicate LogSorted(s: State, log: seq<Checked>) {
    && (forall i, j :: 0 <= i <= j < |log| ==> log[i].at <= log[j].at)
    && forall i :: 0 <= i < |log| ==> log[i].at <= s.now
  }

  lemma LogSortedSnoc(s: State, log: seq<Checked>, r: Req)
    requires LogSorted(s, log)
    ensures LogSorted(s, log + [Checked(r, s.now)])
  {
  }

  lemma LogSortedLater(s: State, s': State, log: seq<Checked>)
    requires LogSorted(s, log) && s.now <= s'.now
    ensures LogSorted(s', log)
  {
  }

  predicate InProgress(pc: Pc, q: nat) {
    match pc
    case Holding(h) => h == q
    case InHand(h, _) => h == q
    case Expiring(h) => h == q
    case Counting(h) => h == q
    case Returned => true
    case _ => false
  }

  /** Receives so far. */
  function Taken(op: Op): nat
    requires op.Deq?
  {
    |op.log| + One(op.pc.InHand?)
  }

  /** Of the first k requests of buf, those found live. */
  function LiveIn(buf: seq<Req>, k: nat, clock: nat -> Time): seq<Req>
    requires k <= |buf|
  {
    Live(buf[..k], clock, 0)
  }

  predicate Wanting(buf: seq<Req>, j: nat, clock: nat -> Time, n: nat)
    requires j <= |buf|
  {
    |LiveIn(buf, j, clock)| < n
  }

  /** How far the receives of a Dequeue have come with a queue that held buf. */
  ghost predicate Receiving(buf: seq<Req>, x: Queue, op: Op, clock: nat -> Time) {
    && op.Deq? && Taken(op) <= |buf| && x.buf == buf[Taken(op)..]
    && (op.pc.InHand? ==> op.pc.req == buf[|op.log|])
    && op.out == LiveIn(buf, |op.log|, clock)
    && |op.out| + One(op.pc.InHand?) <= op.n
    && (forall j :: 0 <= j < Taken(op) ==> Wanting(buf, j, clock, op.n))
    && (op.pc.Returned? ==> |op.out| >= op.n || x.buf == [])
  }

  /** The counters lag behind by what has not been counted yet. */
  predicate CountsFrom(x0: Queue, x: Queue, op: Op, clock: nat -> Time)
    requires op.Deq? && |op.log| <= |x0.buf|
  {
    && x.enqueued == x0.enqueued && x.dropped == x0.dropped
    && x.dequeued + One(op.pc.Counting?) == x0.dequeued + |LiveIn(x0.buf, |op.log|, clock)|
    && x.expired + One(op.pc.Expiring?) == x0.expired + |Dead(x0.buf[..|op.log|], clock, 0)|
  }

  ghost predicate Dequeuing(x0: Queue, s: State, o: nat, q: nat, clock: nat -> Time) {
    && o in s.ops && HasQueue(s, q) && InProgress(s.ops[o].pc, q)
    && Receiving(x0.buf, s.mem[q], s.ops[o], clock) && CountsFrom(x0, s.mem[q], s.ops[o], clock)
  }

  lemma ReceiveGoesOn(x0: Queue, s: State, o: nat, q: nat, clock: nat -> Time)
    requires Dequeuing(x0, s, o, q, clock) && s.ops[o].pc == Holding(q)
    ensures Dequeuing(x0, TryReceive(s, o, q), o, q, clock)
  {
  }

  lemma CheckGoesOn(x0: Queue, s: State, o: nat, q: nat, r: Req, clock: nat -> Time)
    requires Dequeuing(x0, s, o, q, clock) && s.ops[o].pc == InHand(q, r) && clock(|s.ops[o].log|) == s.now
    ensures Dequeuing(x0, Check(s, o, q, r), o, q, clock)
  {
    var k := |s.ops[o].log|;
    LiveSnoc(x0.buf[..k], r, clock, 0);
    assert x0.buf[..k + 1] == x0.buf[..k] + [r];
  }

  lemma StartsOut(s: State, o: nat, q: nat, clock: nat -> Time)
    requires StartsDequeue(s, o, q)
    ensures Dequeuing(s.mem[q], s, o, q, clock)
  {
  }

  lemma TickGoesOn(x0: Queue, s: State, t: Time, o: nat, q: nat, clock: nat -> Time)
    requires Dequeuing(x0, s, o, q, clock)
    ensures Dequeuing(x0, s.(now := t), o, q, clock)
  {
  }

  lemma StepGoesOn(x0: Queue, s: State, o: nat, q: nat, clock: nat -> Time)
    requires Dequeuing(x0, s, o, q, clock) && Enabled(s, Advance(o))
    requires s.ops[o].pc.InHand? ==> clock(|s.ops[o].log|) == s.now
    ensures Dequeuing(x0, Apply(s, Advance(o)), o, q, clock)
  {
    match s.ops[o].pc
    case Holding(_) => ReceiveGoesOn(x0, s, o, q, clock);
    case InHand(_, r) => CheckGoesOn(x0, s, o, q, r, clock);
    case _ =>
  }

  lemma GoesOn(x0: Queue, s: State, st: Step, s': State, o: nat, q: nat, log: seq<Checked>, later: Time)
    requires Enabled(s, st) && s' == Apply(s, st) && (st == Advance(o) || st.Tick?)
    requires Dequeuing(x0, s, o, q, ClockOf(log, later)) && o in s'.ops && s'.ops[o].Deq? && s'.ops[o].log <= log
    ensures Dequeuing(x0, s', o, q, ClockOf(log, later))
  {
    if st.Tick? {
      TickGoesOn(x0, s, st.t, o, q, ClockOf(log, later));
    } else {
      if s.ops[o].pc.InHand? {
        assert s'.ops[o].log[|s.ops[o].log|].at == s.now;
      }
      StepGoesOn(x0, s, o, q, ClockOf(log, later));
    }
  }

  /** A step of a Dequeue adds at most one check to its log, made now. */
  lemma LogGrows(s: State, st: Step, s': State, o: nat)
    requires Enabled(s, st) && s' == Apply(s, st) && (st == Advance(o) || st.Tick?) && o in s.ops && s.ops[o].Deq?
    ensures o in s'.ops && s'.ops[o].Deq? && s'.ops[o].n == s.ops[o].n && s.now <= s'.now
    ensures s'.ops[o].log == s.ops[o].log ||
            (s.ops[o].pc.InHand? && s'.now == s.now &&
             s'.ops[o].log == s.ops[o].log + [Checked(s.ops[o].pc.req, s.now)])
  {
    if st.Advance? {
      match s.ops[o].pc
      case Holding(_) =>
      case Missed =>
      case _ =>
    }
  }

  lemma LogStaysSorted(s: State, st: Step, s': State, o: nat)
    requires Enabled(s, st) && s' == Apply(s, st) && (st == Advance(o) || st.Tick?) && o in s.ops && s.ops[o].Deq?
    requires LogSorted(s, s.ops[o].log)
    ensures o in s'.ops && s'.ops[o].Deq? && LogSorted(s', s'.ops[o].log)
  {
    LogGrows(s, st, s', o);
    LogSortedLater(s, s', s.ops[o].log);
    if s'.ops[o].log != s.ops[o].log {
      LogSortedSnoc(s', s.ops[o].log, s.ops[o].pc.req);
    }
  }

  /** Operation o is a Dequeue that has its handle, q, and has not received anything yet. */
  predicate StartsDequeue(s: State, o: nat, q: nat) {
    && o in s.ops && s.ops[o].Deq? && HasQueue(s, q)
    && s.ops[o].pc == Holding(q) && s.ops[o].out == [] && s.ops[o].log == []
  }

  lemma {:induction false} LogPrefix(r: Run, m: nat, i: nat, n: nat, o: nat)
    requires RunsAlone(r, m, n, o) && m <= i <= n && o in r.states[i].ops && r.states[i].ops[o].Deq?
    ensures o in r.states[n].ops && r.states[n].ops[o].Deq? && r.states[n].ops[o].n == r.states[i].ops[o].n
    ensures r.states[i].ops[o].log <= r.states[n].ops[o].log
    ensures LogSorted(r.states[i], r.states[i].ops[o].log) ==> LogSorted(r.states[n], r.states[n].ops[o].log)
    decreases n - i
  {
    if i < n {
      if LogSorted(r.states[i], r.states[i].ops[o].log) {
        assert Next(r, i);
        LogStaysSorted(r.states[i], r.steps[i], r.states[i + 1], o);
      }
      LogGrows(r.states[i], r.steps[i], r.states[i + 1], o);
      LogPrefix(r, m, i + 1, n, o);
    }
  }

  lemma NextDequeuing(r: Run, m: nat, i: nat, n: nat, o: nat, q: nat, x0: Queue, later: Time)
    requires RunsAlone(r, m, n, o) && StartsDequeue(r.states[m], o, q) && m <= i < n
    requires o in r.states[n].ops && r.states[n].ops[o].Deq?
    requires Dequeuing(x0, r.states[i], o, q, ClockOf(r.states[n].ops[o].log, later))
    ensures Dequeuing(x0, r.states[i + 1], o, q, ClockOf(r.states[n].ops[o].log, later))
  {
    assert Next(r, i);
    LogGrows(r.states[i], r.steps[i], r.states[i + 1], o);
    LogPrefix(r, m, i + 1, n, o);
    GoesOn(x0, r.states[i], r.steps[i], r.states[i + 1], o, q, r.states[n].ops[o].log, later);
  }

  lemma {:induction false} DequeuesAlone(r: Run, m: nat, i: nat, n: nat, o: nat, q: nat, x0: Queue, later: Time)
    requires RunsAlone(r, m, n, o) && StartsDequeue(r.states[m], o, q) && m <= i <= n
    requires o in r.states[n].ops && r.states[n].ops[o].Deq?
    requires Dequeuing(x0, r.states[i], o, q, ClockOf(r.states[n].ops[o].log, later))
    ensures Dequeuing(x0, r.states[n], o, q, ClockOf(r.states[n].ops[o].log, later))
    decreases n - i
  {
    if i < n {
      NextDequeuing(r, m, i, n, o, q, x0, later);
      DequeuesAlone(r, m, i + 1, n, o, q, x0, later);
    }
  }

  lemma DrainedWhenReturned(x0: Queue, s: State, o: nat, q: nat, clock: nat -> Time)
    requires Dequeuing(x0, s, o, q, clock) && s.ops[o].pc == Returned
    ensures (s.mem[q], s.ops[o].out) == Drain(x0, s.ops[o].n, clock)
  {
    var op := s.ops[o];
    forall j | 0 <= j < |op.log| ensures |Live(x0.buf[..j], clock, 0)| < op.n {
      assert Wanting(x0.buf, j, clock, op.n);
    }
    ReceivesUnique(x0.buf, op.n, clock, |op.log|);
  }

  lemma ClockGoesForward(s: State, log: seq<Checked>)
    requires LogSorted(s, log)
    ensures Forward(ClockOf(log, s.now))
  {
  }

  lemma DequeuesToTheEnd(r: Run, m: nat, n: nat, o: nat, q: nat)
    requires RunsAlone(r, m, n, o) && StartsDequeue(r.states[m], o, q)
    requires o in r.states[n].ops && r.states[n].ops[o].Deq?
    ensures Dequeuing(r.states[m].mem[q], r.states[n], o, q, ClockOf(r.states[n].ops[o].log, r.states[n].now))
  {
    StartsOut(r.states[m], o, q, ClockOf(r.states[n].ops[o].log, r.states[n].now));
    DequeuesAlone(r, m, m, n, o, q, r.states[m].mem[q], r.states[n].now);
  }

  /** A Dequeue that runs alone, with the clock moving on between its checks, returns what the method of
      MemoryQueue does and leaves its queue as that method does, for the clock readings that it made. */
  lemma LoneDequeueIsDrain(r: Run, m: nat, n: nat, o: nat, q: nat) returns (clock: nat -> Time)
    requires RunsAlone(r, m, n, o) && StartsDequeue(r.states[m], o, q)
    requires o in r.states[n].ops && r.states[n].ops[o].pc == Returned
    ensures Forward(clock) && HasQueue(r.states[n], q) && r.states[n].ops[o].Deq?
    ensures (r.states[n].mem[q], r.states[n].ops[o].out) == Drain(r.states[m].mem[q], r.states[m].ops[o].n, clock)
  {
    LogPrefix(r, m, m, n, o);
    clock := ClockOf(r.states[n].ops[o].log, r.states[n].now);
    ClockGoesForward(r.states[n], r.states[n].ops[o].log);
    DequeuesToTheEnd(r, m, n, o, q);
    DrainedWhenReturned(r.states[m].mem[q], r.states[n], o, q, clock);
  }
}
