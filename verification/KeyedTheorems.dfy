/** Concurrent keyed operations refine one FIFO per key, and hand each request out once. */
module KeyedTheorems {
  import opened QueueSpec
  import opened KeyedMachine

  // ---------- One queue object per key ----------

  /** Objects exist for what is in the map, no two keys share one, and numbers not given out yet are free. */
  ghost predicate MapSane(s: State) {
    && (forall key :: key in s.queues ==> HasQueue(s, s.queues[key]) && s.queues[key] < s.next)
    && (forall key, other :: key in s.queues && other in s.queues && s.queues[key] == s.queues[other] ==> key == other)
    && (forall q :: q in s.mem || q in s.accepted || q in s.removed ==> q < s.next)
  }

  predicate HandleSane(s: State, op: Op) {
    && (Handle(op.pc).Some? ==> op.key in s.queues && s.queues[op.key] == Handle(op.pc).value)
    && (op.pc.InHand? || op.pc.Expiring? || op.pc.Counting? ==> op.Deq?)
    && (op.pc.Sent? || op.pc.Refused? ==> op.Enq?)
  }

  /** Every handle an operation holds is its key's one entry in the map. */
  ghost predicate HandlesSane(s: State) {
    MapSane(s) && forall o :: o in s.ops ==> HandleSane(s, s.ops[o])
  }

  /** The map of queues is only ever extended. */
  ghost predicate Extends(s: State, s': State) {
    forall key :: key in s.queues ==> key in s'.queues && s'.queues[key] == s.queues[key]
  }

  predicate SameMap(s: State, s': State) {
    && s'.queues == s.queues && s'.next == s.next && s'.mem.Keys == s.mem.Keys
    && s'.accepted.Keys == s.accepted.Keys && s'.removed.Keys == s.removed.Keys
  }

  predicate Creates(s: State, st: Step) {
    st.Advance? && st.o in s.ops && s.ops[st.o].pc == Missed && s.ops[st.o].key !in s.queues
  }

  lemma OnlyCreateChangesMap(s: State, st: Step)
    requires Enabled(s, st) && (forall key :: key in s.queues ==> HasQueue(s, s.queues[key]))
    ensures !Creates(s, st) ==> SameMap(s, Apply(s, st))
  {
  }

  lemma CreateKeepsMap(s: State, key: string)
    requires MapSane(s) && key !in s.queues
    ensures MapSane(Create(s, key)) && Extends(s, Create(s, key))
  {
  }

  lemma StepKeepsMap(s: State, st: Step)
    requires MapSane(s) && Enabled(s, st)
    ensures MapSane(Apply(s, st)) && Extends(s, Apply(s, st))
  {
    if Creates(s, st) {
      CreateKeepsMap(s, s.ops[st.o].key);
    } else {
      OnlyCreateChangesMap(s, st);
    }
  }

  /** A step changes the operation it advances, or adds one, and nothing about the others. */
  lemma OnlyOwnOpChanges(s: State, st: Step, o: nat)
    requires Enabled(s, st) && o in Apply(s, st).ops && !(st.Advance? && st.o == o)
    ensures o in s.ops ==> Apply(s, st).ops[o] == s.ops[o]
    ensures o !in s.ops ==> Apply(s, st).ops[o].pc == Lookup
  {
    if st.Advance? {
      match s.ops[st.o].pc
      case Missed =>
      case Holding(_) =>
      case _ =>
    }
  }

  lemma SendHandleSane(s: State, o: nat, q: nat, r: Req)
    requires o in s.ops && HasQueue(s, q) && s.ops[o].pc == Holding(q) && s.ops[o].Enq? && HandleSane(s, s.ops[o])
    ensures HandleSane(TrySend(s, o, q, r), TrySend(s, o, q, r).ops[o])
  {
  }

  lemma ReceiveHandleSane(s: State, o: nat, q: nat)
    requires o in s.ops && HasQueue(s, q) && s.ops[o].pc == Holding(q) && s.ops[o].Deq? && HandleSane(s, s.ops[o])
    ensures HandleSane(TryReceive(s, o, q), TryReceive(s, o, q).ops[o])
  {
  }

  lemma OwnHandleSane(s: State, o: nat)
    requires HandlesSane(s) && Enabled(s, Advance(o))
    ensures HandleSane(Apply(s, Advance(o)), Apply(s, Advance(o)).ops[o])
  {
    match s.ops[o].pc
    case Holding(q) =>
      if s.ops[o].Enq? {
        SendHandleSane(s, o, q, s.ops[o].req);
      } else {
        ReceiveHandleSane(s, o, q);
      }
    case Missed =>
    case _ =>
  }

  lemma StepKeepsHandle(s: State, st: Step, o: nat)
    requires HandlesSane(s) && Enabled(s, st) && o in Apply(s, st).ops
    ensures HandleSane(Apply(s, st), Apply(s, st).ops[o])
  {
    if st == Advance(o) {
      OwnHandleSane(s, o);
    } else {
      StepKeepsMap(s, st);
      OnlyOwnOpChanges(s, st, o);
    }
  }

  lemma StepKeepsHandles(s: State, st: Step)
    requires HandlesSane(s) && Enabled(s, st)
    ensures HandlesSane(Apply(s, st)) && Extends(s, Apply(s, st))
  {
    StepKeepsMap(s, st);
    forall o | o in Apply(s, st).ops ensures HandleSane(Apply(s, st), Apply(s, st).ops[o]) {
      StepKeepsHandle(s, st, o);
    }
  }

  lemma {:induction false} HandlesAlways(r: Run, n: nat)
    requires IsRun(r) && n < |r.states|
    ensures HandlesSane(r.states[n])
  {
    if n > 0 {
      HandlesAlways(r, n - 1);
      assert Next(r, n - 1);
      StepKeepsHandles(r.states[n - 1], r.steps[n - 1]);
    }
  }

  /** A queue, once made for a key, is never replaced; so all handles for a key, whenever taken, are equal. */
  lemma {:induction false} QueueNeverReplaced(r: Run, m: nat, n: nat, key: string)
    requires IsRun(r) && m <= n < |r.states| && key in r.states[m].queues
    ensures key in r.states[n].queues && r.states[n].queues[key] == r.states[m].queues[key]
    decreases n
  {
    if m < n {
      QueueNeverReplaced(r, m, n - 1, key);
      HandlesAlways(r, n - 1);
      assert Next(r, n - 1);
      StepKeepsHandles(r.states[n - 1], r.steps[n - 1]);
    }
  }

  /** Two operations of one key that hold handles, at any two times, hold the same one. */
  lemma HandlesAgree(r: Run, m: nat, n: nat, o: nat, p: nat)
    requires IsRun(r) && m <= n < |r.states| && o in r.states[m].ops && p in r.states[n].ops
    requires r.states[m].ops[o].key == r.states[n].ops[p].key
    requires Handle(r.states[m].ops[o].pc).Some? && Handle(r.states[n].ops[p].pc).Some?
    ensures Handle(r.states[m].ops[o].pc) == Handle(r.states[n].ops[p].pc)
  {
    HandlesAlways(r, m);
    HandlesAlways(r, n);
    QueueNeverReplaced(r, m, n, r.states[m].ops[o].key);
  }

  /** An operation that has not returned can always take its next step: nothing blocks. */
  lemma NeverStuck(r: Run, n: nat, o: nat)
    requires IsRun(r) && n < |r.states| && o in r.states[n].ops && !r.states[n].ops[o].pc.Returned?
    ensures Enabled(r.states[n], Advance(o))
  {
    HandlesAlways(r, n);
  }

  // ---------- Refinement of one FIFO per key ----------

  /** What a step may do to the FIFO of a key: nothing, append the request of an Enqueue of that key
      with room, or hand the head to a Dequeue of that key that still wants one. */
  ghost predicate FifoStep(s: State, st: Step, s': State, key: string) {
    var before, after := Contents(s, key), Contents(s', key);
    || after == before
    || (st.Advance? && st.o in s.ops && st.o in s'.ops && s.ops[st.o].key == key &&
        match s.ops[st.o]
        case Enq(_, _, r) => |before| < s.maxSize && after == before + [r] && s'.ops[st.o].pc.Sent?
        case Deq(_, _, n, out, _) =>
          before != [] && |out| < n && after == before[1..] && s'.ops[st.o].pc.InHand? &&
          s'.ops[st.o].pc.req == before[0])
  }

  lemma SendIsFifoStep(s: State, o: nat, q: nat, key: string)
    requires HandlesSane(s) && o in s.ops && s.ops[o].Enq? && s.ops[o].pc == Holding(q) && HasQueue(s, q)
    ensures FifoStep(s, Advance(o), TrySend(s, o, q, s.ops[o].req), key)
  {
  }

  lemma ReceiveIsFifoStep(s: State, o: nat, q: nat, key: string)
    requires HandlesSane(s) && o in s.ops && s.ops[o].Deq? && s.ops[o].pc == Holding(q) && HasQueue(s, q)
    ensures FifoStep(s, Advance(o), TryReceive(s, o, q), key)
  {
  }

  /** Every step of every interleaving is a step of the FIFO of each key, or leaves it alone. */
  lemma StepRefinesFifo(s: State, st: Step, key: string)
    requires HandlesSane(s) && Enabled(s, st)
    ensures FifoStep(s, st, Apply(s, st), key)
  {
    if st.Advance? {
      match s.ops[st.o].pc
      case Missed =>
      case Holding(q) =>
        if s.ops[st.o].Enq? {
          SendIsFifoStep(s, st.o, q, key);
        } else {
          ReceiveIsFifoStep(s, st.o, q, key);
        }
      case _ =>
    }
  }

  /** An Enqueue is refused only when the FIFO of its key is full, and a Dequeue that returns short
      has found the FIFO of its key empty. */
  lemma RefusalsAreReal(s: State, o: nat)
    requires HandlesSane(s) && Enabled(s, Advance(o)) && s.ops[o].pc.Holding?
    ensures var s' := Apply(s, Advance(o));
            && (s'.ops[o].pc.Refused? <==> s.ops[o].Enq? && |Contents(s, s.ops[o].key)| >= s.maxSize)
            && (s'.ops[o].pc.Returned? <==>
                  s.ops[o].Deq? && (|s.ops[o].out| >= s.ops[o].n || Contents(s, s.ops[o].key) == []))
  {
  }

  /** The empty key is the default key. */
  lemma EmptyKeyIsDefault(s: State, o: nat, r: Req, n: nat)
    requires o !in s.ops
    ensures Apply(s, StartEnq(o, "", r)) == Apply(s, StartEnq(o, "default", r))
    ensures Apply(s, StartDeq(o, "", n)) == Apply(s, StartDeq(o, "default", n))
  {
  }

  // ---------- The keys that callers give ----------

  /** At step i a caller starts operation o under the key a. */
  ghost predicate StartsUnder(r: Run, i: nat, o: nat, a: string)
    requires IsRun(r)
  {
    i < |r.steps| && ((r.steps[i].StartEnq? && r.steps[i].o == o && r.steps[i].key == a) ||
                      (r.steps[i].StartDeq? && r.steps[i].o == o && r.steps[i].key == a))
  }

  /** The operation works for the call that started it. */
  predicate CalledWith(op: Op, st: Step) {
    match st
    case StartEnq(_, key, req) => op.Enq? && op.key == NormalizeKey(key) && op.req == req
    case StartDeq(_, key, n) => op.Deq? && op.key == NormalizeKey(key) && op.n == n
    case _ => false
  }

  lemma StartsWithKey(s: State, st: Step)
    requires Enabled(s, st) && !st.Advance? && !st.Tick?
    ensures st.o in Apply(s, st).ops && CalledWith(Apply(s, st).ops[st.o], st)
  {
  }

  lemma KeepsKey(s: State, st: Step, o: nat, call: Step)
    requires Enabled(s, st) && o in s.ops && CalledWith(s.ops[o], call)
    ensures o in Apply(s, st).ops && CalledWith(Apply(s, st).ops[o], call)
  {
    if st.Advance? {
      match s.ops[st.o].pc
      case Missed =>
      case Holding(_) =>
      case _ =>
    }
  }

  /** Under its key, for its request, or for at most its number of requests. */
  lemma {:induction false} WorksForItsCall(r: Run, i: nat, n: nat, o: nat, a: string)
    requires IsRun(r) && i < n < |r.states| && StartsUnder(r, i, o, a)
    ensures o in r.states[n].ops && CalledWith(r.states[n].ops[o], r.steps[i])
    decreases n
  {
    assert Next(r, n - 1);
    if i == n - 1 {
      StartsWithKey(r.states[i], r.steps[i]);
    } else {
      WorksForItsCall(r, i, n - 1, o, a);
      KeepsKey(r.states[n - 1], r.steps[n - 1], o, r.steps[i]);
    }
  }

  /** Keys are isolated: two operations started under the keys a and b work on one queue, at any two times,
      if and only if a and b are equal or are "" and "default". */
  lemma OneQueueIffSameKey(r: Run, i: nat, j: nat, m: nat, n: nat, o: nat, p: nat, a: string, b: string)
    requires IsRun(r) && i < m < |r.states| && j < n < |r.states| && StartsUnder(r, i, o, a) && StartsUnder(r, j, p, b)
    requires o in r.states[m].ops && p in r.states[n].ops
    requires Handle(r.states[m].ops[o].pc).Some? && Handle(r.states[n].ops[p].pc).Some?
    ensures Handle(r.states[m].ops[o].pc) == Handle(r.states[n].ops[p].pc) <==> SameKey(a, b)
    decreases m > n
  {
    if m > n {
      OneQueueIffSameKey(r, j, i, n, m, p, o, b, a);
      assert SameKey(a, b) <==> SameKey(b, a);
    } else {
      WorksForItsCall(r, i, m, o, a);
      WorksForItsCall(r, j, n, p, b);
      NormalizedIffSame(a, b);
      HandlesAlways(r, m);
      HandlesAlways(r, n);
      QueueNeverReplaced(r, m, n, NormalizeKey(a));
    }
  }

  // ---------- Exactly-once handoff ----------

  function Reqs(s: seq<Removal>): seq<Req> {
    if s == [] then [] else Reqs(s[..|s| - 1]) + [s[|s| - 1].req]
  }

  /** What one Dequeue has taken from a queue, in order. */
  function TakenBy(s: seq<Removal>, o: nat): seq<Req> {
    if s == [] then []
    else TakenBy(s[..|s| - 1], o) + (if s[|s| - 1].taker == o then [s[|s| - 1].req] else [])
  }

  function CheckedReqs(log: seq<Checked>): seq<Req> {
    if log == [] then [] else CheckedReqs(log[..|log| - 1]) + [log[|log| - 1].req]
  }

  /** The requests found live, in the order of their checks. */
  function LiveOnes(log: seq<Checked>): seq<Req> {
    if log == [] then []
    else
      var last := log[|log| - 1];
      LiveOnes(log[..|log| - 1]) + (if last.req.expiresAt < last.at then [] else [last.req])
  }

  function InHandOf(pc: Pc): seq<Req> { if pc.InHand? then [pc.req] else [] }

  ghost predicate QueueHistory(s: State, q: nat)
    requires HasQueue(s, q)
  {
    && s.accepted[q] == Reqs(s.removed[q]) + s.mem[q].buf
    && |s.mem[q].buf| <= s.maxSize
    && forall i :: 0 <= i < |s.removed[q]| ==> TakenHere(s, s.removed[q][i], q)
  }

  /** The taker is a Dequeue that works on q. */
  predicate TakenHere(s: State, x: Removal, q: nat) { x.taker in s.ops && Takes(s, s.ops[x.taker], q) }

  /** q is the queue this Dequeue works on. */
  predicate Takes(s: State, op: Op, q: nat) { op.Deq? && op.key in s.queues && s.queues[op.key] == q }

  function TakenOf(s: State, o: nat): seq<Req>
    requires o in s.ops
  {
    var key := s.ops[o].key;
    if key in s.queues && s.queues[key] in s.removed then TakenBy(s.removed[s.queues[key]], o) else []
  }

  ghost predicate DequeueHistory(s: State, o: nat)
    requires o in s.ops && s.ops[o].Deq?
  {
    var op := s.ops[o];
    && TakenOf(s, o) == CheckedReqs(op.log) + InHandOf(op.pc)
    && op.out == LiveOnes(op.log)
    && |op.out| + |InHandOf(op.pc)| <= op.n
    && forall i :: 0 <= i < |op.log| ==> op.log[i].at <= s.now
  }

  ghost predicate Histories(s: State) {
    && (forall q :: q in s.mem ==> HasQueue(s, q) && QueueHistory(s, q))
    && (forall o :: o in s.ops && s.ops[o].Deq? ==> DequeueHistory(s, o))
  }

  lemma ReqsSnoc(s: seq<Removal>, x: Removal)
    ensures Reqs(s + [x]) == Reqs(s) + [x.req]
    ensures forall o :: TakenBy(s + [x], o) == TakenBy(s, o) + (if x.taker == o then [x.req] else [])
  {
    assert (s + [x])[..|s|] == s;
  }

  lemma LogSnoc(log: seq<Checked>, x: Checked)
    ensures CheckedReqs(log + [x]) == CheckedReqs(log) + [x.req]
    ensures LiveOnes(log + [x]) == LiveOnes(log) + (if x.req.expiresAt < x.at then [] else [x.req])
  {
    assert (log + [x])[..|log|] == log;
  }

  lemma {:induction false} NotTaken(s: seq<Removal>, o: nat)
    requires forall i :: 0 <= i < |s| ==> s[i].taker != o
    ensures TakenBy(s, o) == []
  {
    if s != [] { NotTaken(s[..|s| - 1], o); }
  }

  lemma SendKeepsQueue(s: State, o: nat, q: nat, r: Req, p: nat)
    requires o in s.ops && HasQueue(s, q) && s.ops[o].Enq? && HasQueue(s, p) && QueueHistory(s, p)
    ensures QueueHistory(TrySend(s, o, q, r), p)
  {
    var s' := TrySend(s, o, q, r);
    forall i | 0 <= i < |s'.removed[p]| ensures TakenHere(s', s'.removed[p][i], p) {
      assert TakenHere(s, s.removed[p][i], p);
    }
  }

  lemma SendKeepsHistories(s: State, o: nat, q: nat, r: Req)
    requires Histories(s) && o in s.ops && HasQueue(s, q) && s.ops[o].Enq?
    ensures Histories(TrySend(s, o, q, r))
  {
    var s' := TrySend(s, o, q, r);
    forall p | p in s'.mem ensures HasQueue(s', p) && QueueHistory(s', p) {
      SendKeepsQueue(s, o, q, r, p);
    }
    forall p | p in s'.ops && s'.ops[p].Deq? ensures DequeueHistory(s', p) {
      assert DequeueHistory(s, p) && TakenOf(s', p) == TakenOf(s, p);
    }
  }

  lemma OwnReceiveHistory(s: State, o: nat, q: nat)
    requires HandlesSane(s) && o in s.ops && s.ops[o].Deq? && DequeueHistory(s, o) && HasQueue(s, q)
    requires s.ops[o].pc == Holding(q) && TryReceive(s, o, q).ops[o].pc.InHand?
    ensures DequeueHistory(TryReceive(s, o, q), o)
  {
    ReqsSnoc(s.removed[q], Removal(s.mem[q].buf[0], o));
  }

  lemma ReceiveKeepsTakers(s: State, o: nat, q: nat, p: nat, x: Removal)
    requires o in s.ops && s.ops[o].Deq? && HasQueue(s, q) && TakenHere(s, x, p)
    ensures TakenHere(TryReceive(s, o, q), x, p)
  {
  }

  lemma ReceiveKeepsQueues(s: State, o: nat, q: nat, p: nat)
    requires HandlesSane(s) && o in s.ops && s.ops[o].Deq? && HasQueue(s, q) && s.ops[o].pc == Holding(q)
    requires TryReceive(s, o, q).ops[o].pc.InHand? && HasQueue(s, p) && QueueHistory(s, p)
    ensures QueueHistory(TryReceive(s, o, q), p)
  {
    var s', x := TryReceive(s, o, q), Removal(s.mem[q].buf[0], o);
    ReqsSnoc(s.removed[q], x);
    assert TakenHere(s, x, q);
    forall i | 0 <= i < |s'.removed[p]| ensures TakenHere(s', s'.removed[p][i], p) {
      ReceiveKeepsTakers(s, o, q, p, s'.removed[p][i]);
    }
  }

  lemma OthersKeepTaken(s: State, o: nat, q: nat, p: nat)
    requires HasQueue(s, q) && o in s.ops && s.ops[o].Deq? && p in s.ops && p != o
    requires TryReceive(s, o, q).ops[o].pc.InHand?
    ensures TakenOf(TryReceive(s, o, q), p) == TakenOf(s, p)
  {
    ReqsSnoc(s.removed[q], Removal(s.mem[q].buf[0], o));
  }

  lemma ReceiveKeepsHistories(s: State, o: nat, q: nat)
    requires HandlesSane(s) && Histories(s) && HasQueue(s, q)
    requires o in s.ops && s.ops[o].Deq? && s.ops[o].pc == Holding(q)
    ensures Histories(TryReceive(s, o, q))
  {
    var s' := TryReceive(s, o, q);
    if s'.ops[o].pc == Returned {
      MoveKeepsHistories(s, s', o, Returned);
    } else {
      forall p | p in s'.mem ensures HasQueue(s', p) && QueueHistory(s', p) {
        ReceiveKeepsQueues(s, o, q, p);
      }
      forall p | p in s'.ops && s'.ops[p].Deq? ensures DequeueHistory(s', p) {
        assert DequeueHistory(s, p);
        if p == o { OwnReceiveHistory(s, o, q); } else { OthersKeepTaken(s, o, q, p); }
      }
    }
  }

  lemma OwnCheckHistory(s: State, o: nat, q: nat, r: Req)
    requires o in s.ops && s.ops[o].Deq? && s.ops[o].pc == InHand(q, r) && DequeueHistory(s, o)
    ensures DequeueHistory(Check(s, o, q, r), o)
  {
    LogSnoc(s.ops[o].log, Checked(r, s.now));
    assert TakenOf(Check(s, o, q, r), o) == TakenOf(s, o);
  }

  lemma CheckKeepsHistories(s: State, o: nat, q: nat, r: Req)
    requires Histories(s) && o in s.ops && s.ops[o].Deq? && s.ops[o].pc == InHand(q, r)
    ensures Histories(Check(s, o, q, r))
  {
    var s' := Check(s, o, q, r);
    forall p | p in s'.mem ensures HasQueue(s', p) && QueueHistory(s', p) {
      assert QueueHistory(s, p);
    }
    forall p | p in s'.ops && s'.ops[p].Deq? ensures DequeueHistory(s', p) {
      assert DequeueHistory(s, p);
      if p == o { OwnCheckHistory(s, o, q, r); } else { assert TakenOf(s', p) == TakenOf(s, p); }
    }
  }

  /** Moving on without touching a buffer or a request: lookups and counter updates. */
  lemma MoveKeepsHistories(s: State, s': State, o: nat, pc: Pc)
    requires Histories(s) && o in s.ops && !pc.InHand? && !s.ops[o].pc.InHand? && s' == Goto(s.(mem := s'.mem), o, pc)
    requires s'.mem.Keys == s.mem.Keys && forall q :: q in s.mem ==> s'.mem[q].buf == s.mem[q].buf
    ensures Histories(s')
  {
    forall p | p in s'.mem ensures HasQueue(s', p) && QueueHistory(s', p) {
      assert QueueHistory(s, p);
    }
    forall p | p in s'.ops && s'.ops[p].Deq? ensures DequeueHistory(s', p) {
      assert DequeueHistory(s, p) && TakenOf(s', p) == TakenOf(s, p);
    }
  }

  lemma CreateKeepsQueue(s: State, key: string, p: nat)
    requires MapSane(s) && key !in s.queues && HasQueue(s, p) && QueueHistory(s, p)
    ensures QueueHistory(Create(s, key), p)
  {
    var s' := Create(s, key);
    forall i | 0 <= i < |s'.removed[p]| ensures TakenHere(s', s'.removed[p][i], p) {
      assert TakenHere(s, s.removed[p][i], p);
    }
  }

  lemma CreateKeepsTaken(s: State, key: string, o: nat)
    requires MapSane(s) && key !in s.queues && o in s.ops
    ensures TakenOf(Create(s, key), o) == TakenOf(s, o)
  {
  }

  lemma CreateKeepsHistories(s: State, key: string)
    requires MapSane(s) && Histories(s) && key !in s.queues
    ensures Histories(Create(s, key))
  {
    var s' := Create(s, key);
    forall p | p in s'.mem ensures HasQueue(s', p) && QueueHistory(s', p) {
      if p in s.mem {
        CreateKeepsQueue(s, key, p);
      }
    }
    forall p | p in s'.ops && s'.ops[p].Deq? ensures DequeueHistory(s', p) {
      assert DequeueHistory(s, p);
      CreateKeepsTaken(s, key, p);
    }
  }

  lemma StartKeepsQueue(s: State, st: Step, p: nat)
    requires Enabled(s, st) && !st.Advance? && HasQueue(s, p) && QueueHistory(s, p)
    ensures QueueHistory(Apply(s, st), p)
  {
    var s' := Apply(s, st);
    forall i | 0 <= i < |s'.removed[p]| ensures TakenHere(s', s'.removed[p][i], p) {
      assert TakenHere(s, s.removed[p][i], p);
    }
  }

  /** A Dequeue that starts has taken nothing, for only operations that exist have. */
  lemma StartsWithNothing(s: State, o: nat, key: string, n: nat)
    requires MapSane(s) && Histories(s) && o !in s.ops
    ensures TakenOf(Apply(s, StartDeq(o, key, n)), o) == []
  {
    var k := NormalizeKey(key);
    if k in s.queues {
      var q := s.queues[k];
      assert QueueHistory(s, q);
      NotTaken(s.removed[q], o);
    }
  }

  lemma StartKeepsDequeue(s: State, st: Step, o: nat)
    requires MapSane(s) && Histories(s) && Enabled(s, st) && !st.Advance?
    requires o in Apply(s, st).ops && Apply(s, st).ops[o].Deq?
    ensures DequeueHistory(Apply(s, st), o)
  {
    if o in s.ops {
      assert DequeueHistory(s, o) && TakenOf(Apply(s, st), o) == TakenOf(s, o);
    } else {
      assert st == StartDeq(o, st.key, st.n);
      StartsWithNothing(s, o, st.key, st.n);
    }
  }

  lemma StartKeepsHistories(s: State, st: Step)
    requires MapSane(s) && Histories(s) && Enabled(s, st) && !st.Advance?
    ensures Histories(Apply(s, st))
  {
    var s' := Apply(s, st);
    forall p | p in s'.mem ensures HasQueue(s', p) && QueueHistory(s', p) {
      StartKeepsQueue(s, st, p);
    }
    forall p | p in s'.ops && s'.ops[p].Deq? ensures DequeueHistory(s', p) {
      StartKeepsDequeue(s, st, p);
    }
  }

  lemma FindKeepsHistories(s: State, o: nat)
    requires MapSane(s) && Histories(s) && Enabled(s, Advance(o)) && (s.ops[o].pc.Lookup? || s.ops[o].pc.Missed?)
    ensures Histories(Apply(s, Advance(o)))
  {
    var s', op := Apply(s, Advance(o)), s.ops[o];
    if op.key in s.queues {
      MoveKeepsHistories(s, s', o, Holding(s.queues[op.key]));
    } else if op.pc == Lookup {
      MoveKeepsHistories(s, s', o, Missed);
    } else {
      CreateKeepsHistories(s, op.key);
      MoveKeepsHistories(Create(s, op.key), s', o, Holding(s.next));
    }
  }

  lemma CountKeepsHistories(s: State, o: nat, q: nat, x: Queue, pc: Pc)
    requires Histories(s) && o in s.ops && q in s.mem && x.buf == s.mem[q].buf && !pc.InHand? && !s.ops[o].pc.InHand?
    ensures Histories(Count(s, o, q, x, pc))
  {
    MoveKeepsHistories(s, Count(s, o, q, x, pc), o, pc);
  }

  lemma CounterStepKeepsHistories(s: State, o: nat)
    requires Histories(s) && Enabled(s, Advance(o))
    requires var pc := s.ops[o].pc; pc.Sent? || pc.Refused? || pc.Expiring? || pc.Counting?
    ensures Histories(Apply(s, Advance(o)))
  {
    var q := s.ops[o].pc.q;
    CountKeepsHistories(s, o, q, Bump(s.mem[q], s.ops[o].pc), if s.ops[o].Enq? then Returned else Holding(q));
  }

  lemma ChannelStepKeepsHistories(s: State, o: nat)
    requires HandlesSane(s) && Histories(s) && Enabled(s, Advance(o)) && (s.ops[o].pc.Holding? || s.ops[o].pc.InHand?)
    ensures Histories(Apply(s, Advance(o)))
  {
    match s.ops[o].pc
    case Holding(q) =>
      if s.ops[o].Enq? { SendKeepsHistories(s, o, q, s.ops[o].req); } else { ReceiveKeepsHistories(s, o, q); }
    case InHand(q, r) => CheckKeepsHistories(s, o, q, r);
  }

  lemma AdvanceKeepsHistories(s: State, o: nat)
    requires HandlesSane(s) && Histories(s) && Enabled(s, Advance(o))
    ensures Histories(Apply(s, Advance(o)))
  {
    var pc := s.ops[o].pc;
    if pc.Holding? || pc.InHand? {
      ChannelStepKeepsHistories(s, o);
    } else if pc.Lookup? || pc.Missed? {
      FindKeepsHistories(s, o);
    } else {
      CounterStepKeepsHistories(s, o);
    }
  }

  lemma StepKeepsHistories(s: State, st: Step)
    requires HandlesSane(s) && Histories(s) && Enabled(s, st)
    ensures Histories(Apply(s, st))
  {
    if st.Advance? {
      AdvanceKeepsHistories(s, st.o);
    } else {
      StartKeepsHistories(s, st);
    }
  }

  ghost predicate Inv(s: State) { HandlesSane(s) && Histories(s) }

  lemma {:induction false} InvAlways(r: Run, n: nat)
    requires IsRun(r) && n < |r.states|
    ensures Inv(r.states[n])
  {
    if n > 0 {
      InvAlways(r, n - 1);
      HandlesAlways(r, n);
      assert Next(r, n - 1);
      StepKeepsHistories(r.states[n - 1], r.steps[n - 1]);
    }
  }

  lemma {:induction false} ReqsAt(s: seq<Removal>, i: nat)
    requires i < |s|
    ensures |Reqs(s)| == |s| && Reqs(s)[i] == s[i].req
  {
    if |s| > 1 { ReqsAt(s[..|s| - 1], if i < |s| - 1 then i else 0); }
  }

  /** The i-th request queue q accepted is the i-th it handed out, or waits in its place in the channel. */
  ghost predicate InPlace(s: State, q: nat, i: nat)
    requires HasQueue(s, q) && i < |s.accepted[q]|
  {
    if i < |s.removed[q]| then
      var x := s.removed[q][i];
      x.req == s.accepted[q][i] && TakenHere(s, x, q)
    else i - |s.removed[q]| < |s.mem[q].buf| && s.accepted[q][i] == s.mem[q].buf[i - |s.removed[q]|]
  }

  lemma HistoryInPlace(s: State, q: nat, i: nat)
    requires HasQueue(s, q) && QueueHistory(s, q) && i < |s.accepted[q]|
    ensures InPlace(s, q, i)
  {
    if s.removed[q] != [] {
      ReqsAt(s.removed[q], if i < |s.removed[q]| then i else 0);
    }
  }

  /** Every request a key's queue ever accepted has been taken by exactly one Dequeue of that key,
      in the order of acceptance, or still waits in its place in the FIFO. */
  lemma AcceptedOnceTakenOnce(r: Run, n: nat, key: string)
    requires IsRun(r) && n < |r.states| && key in r.states[n].queues
    ensures var s, q := r.states[n], r.states[n].queues[key];
            HasQueue(s, q) && forall i :: 0 <= i < |s.accepted[q]| ==> InPlace(s, q, i)
  {
    InvAlways(r, n);
    var s := r.states[n];
    forall i | 0 <= i < |s.accepted[s.queues[key]]| ensures InPlace(s, s.queues[key], i) {
      HistoryInPlace(s, s.queues[key], i);
    }
  }

  /** What a returned Dequeue has taken, in order, is what it checked; it returns, in order, the ones it found
      live, at most n, each checked at a time that is past, and the others had expired when checked. */
  lemma DequeueAccountsForAll(r: Run, n: nat, o: nat)
    requires IsRun(r) && n < |r.states| && o in r.states[n].ops
    requires r.states[n].ops[o].Deq? && r.states[n].ops[o].pc == Returned
    ensures var s, op := r.states[n], r.states[n].ops[o];
            && TakenOf(s, o) == CheckedReqs(op.log) && op.out == LiveOnes(op.log) && |op.out| <= op.n
            && forall i :: 0 <= i < |op.log| ==> op.log[i].at <= s.now
  {
    InvAlways(r, n);
    assert DequeueHistory(r.states[n], o);
  }
}
