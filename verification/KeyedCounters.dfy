/** The queue counters, whose updates are separate steps from the channel operations they count. */
module KeyedCounters {
  import opened Basics
  import opened KeyedMachine
  import opened KeyedTheorems

  /** Has sent to q and not yet counted it. */
  predicate SendUncounted(op: Op, q: nat) { op.pc == Sent(q) }

  /** Has received from q and not yet counted it, as dequeued or as expired. */
  predicate ReceiveUncounted(op: Op, q: nat) {
    op.pc == Expiring(q) || op.pc == Counting(q) || (op.pc.InHand? && op.pc.q == q)
  }

  function Sends(ops: map<nat, Op>, q: nat): set<nat> { set o | o in ops && SendUncounted(ops[o], q) }

  function Takes(ops: map<nat, Op>, q: nat): set<nat> { set o | o in ops && ReceiveUncounted(ops[o], q) }

  lemma CountUpdate(ops: map<nat, Op>, o: nat, x: Op, q: nat)
    ensures |Sends(ops[o := x], q)| ==
            |Sends(ops, q)| - One(o in ops && SendUncounted(ops[o], q)) + One(SendUncounted(x, q))
    ensures |Takes(ops[o := x], q)| ==
            |Takes(ops, q)| - One(o in ops && ReceiveUncounted(ops[o], q)) + One(ReceiveUncounted(x, q))
  {
    var ops' := ops[o := x];
    Moved(Sends(ops, q), Sends(ops', q), o);
    Moved(Takes(ops, q), Takes(ops', q), o);
  }

  lemma Moved(a: set<nat>, b: set<nat>, o: nat)
    requires forall p :: p != o ==> (p in a <==> p in b)
    ensures |b| == |a| - One(o in a) + One(o in b)
  {
    assert a - {o} == b - {o};
    assert o in a ==> a == (a - {o}) + {o};
    assert o in b ==> b == (b - {o}) + {o};
    assert o !in a ==> a == a - {o};
    assert o !in b ==> b == b - {o};
  }

  ghost predicate Counted(s: State, q: nat)
    requires HasQueue(s, q)
  {
    && s.mem[q].enqueued + |Sends(s.ops, q)| == |s.accepted[q]|
    && s.mem[q].dequeued + s.mem[q].expired + |Takes(s.ops, q)| == |s.removed[q]|
  }

  /** What one step adds to a counter or a history, it takes from or adds to what is uncounted. */
  ghost predicate Balanced(s: State, s': State, o: nat, q: nat)
    requires HasQueue(s, q) && HasQueue(s', q) && o in s.ops && o in s'.ops
  {
    && s'.mem[q].enqueued - s.mem[q].enqueued + One(SendUncounted(s'.ops[o], q)) - One(SendUncounted(s.ops[o], q))
       == |s'.accepted[q]| - |s.accepted[q]|
    && s'.mem[q].dequeued + s'.mem[q].expired - s.mem[q].dequeued - s.mem[q].expired
       + One(ReceiveUncounted(s'.ops[o], q)) - One(ReceiveUncounted(s.ops[o], q))
       == |s'.removed[q]| - |s.removed[q]|
  }

  lemma ChannelStepBalanced(s: State, o: nat, h: nat, q: nat)
    requires HasQueue(s, q) && HasQueue(s, h) && o in s.ops && s.ops[o].pc == Holding(h)
    ensures s.ops[o].Enq? ==> Balanced(s, TrySend(s, o, h, s.ops[o].req), o, q)
    ensures s.ops[o].Deq? ==> Balanced(s, TryReceive(s, o, h), o, q)
  {
  }

  lemma CreateBalanced(s: State, o: nat, q: nat)
    requires MapSane(s) && HasQueue(s, q) && o in s.ops && s.ops[o].pc == Missed && s.ops[o].key !in s.queues
    ensures var s' := Goto(Create(s, s.ops[o].key), o, Holding(s.next)); HasQueue(s', q) && Balanced(s, s', o, q)
  {
  }

  lemma CountBalanced(s: State, o: nat, q: nat)
    requires HandlesSane(s) && Enabled(s, Advance(o)) && HasQueue(s, q)
    requires var pc := s.ops[o].pc; pc.Sent? || pc.Refused? || pc.Expiring? || pc.Counting?
    ensures HasQueue(Apply(s, Advance(o)), q) && Balanced(s, Apply(s, Advance(o)), o, q)
  {
  }

  lemma AdvanceBalanced(s: State, o: nat, q: nat)
    requires HandlesSane(s) && Enabled(s, Advance(o)) && HasQueue(s, q)
    ensures HasQueue(Apply(s, Advance(o)), q) && Balanced(s, Apply(s, Advance(o)), o, q)
  {
    match s.ops[o].pc
    case Holding(h) => ChannelStepBalanced(s, o, h, q);
    case Missed => if s.ops[o].key !in s.queues { CreateBalanced(s, o, q); }
    case Lookup =>
    case InHand(_, _) =>
    case Returned => assert false;
    case _ => CountBalanced(s, o, q);
  }

  lemma OpsUpdate(s: State, o: nat)
    requires Enabled(s, Advance(o))
    ensures o in Apply(s, Advance(o)).ops && Apply(s, Advance(o)).ops == s.ops[o := Apply(s, Advance(o)).ops[o]]
  {
    match s.ops[o].pc
    case Lookup =>
    case Missed =>
    case Holding(_) =>
    case InHand(_, _) =>
    case _ =>
  }

  lemma AdvanceKeepsCounted(s: State, o: nat, q: nat)
    requires HandlesSane(s) && Enabled(s, Advance(o)) && HasQueue(s, q) && Counted(s, q)
    ensures HasQueue(Apply(s, Advance(o)), q) && Counted(Apply(s, Advance(o)), q)
  {
    OpsUpdate(s, o);
    AdvanceBalanced(s, o, q);
    CountUpdate(s.ops, o, Apply(s, Advance(o)).ops[o], q);
  }

  /** A queue starts out with nothing to count. */
  lemma NewQueueCounted(s: State, o: nat, q: nat)
    requires HandlesSane(s) && Enabled(s, Advance(o)) && !HasQueue(s, q) && HasQueue(Apply(s, Advance(o)), q)
    ensures Counted(Apply(s, Advance(o)), q)
  {
    var s' := Apply(s, Advance(o));
    OnlyCreateChangesMap(s, Advance(o));
    OpsUpdate(s, o);
    assert Sends(s.ops, q) == {} && Takes(s.ops, q) == {};
    CountUpdate(s.ops, o, s'.ops[o], q);
  }

  lemma StartKeepsCounted(s: State, st: Step, q: nat)
    requires Enabled(s, st) && !st.Advance? && HasQueue(s, q) && Counted(s, q)
    ensures Counted(Apply(s, st), q)
  {
    if !st.Tick? {
      CountUpdate(s.ops, st.o, Apply(s, st).ops[st.o], q);
    }
  }

  ghost predicate AllCounted(s: State) { forall q :: HasQueue(s, q) ==> Counted(s, q) }

  lemma StepKeepsCounted(s: State, st: Step)
    requires HandlesSane(s) && Enabled(s, st) && AllCounted(s)
    ensures AllCounted(Apply(s, st))
  {
    forall q | HasQueue(Apply(s, st), q) ensures Counted(Apply(s, st), q) {
      if !st.Advance? {
        StartKeepsCounted(s, st, q);
      } else if HasQueue(s, q) {
        AdvanceKeepsCounted(s, st.o, q);
      } else {
        NewQueueCounted(s, st.o, q);
      }
    }
  }

  lemma {:induction false} CountedAlways(r: Run, n: nat)
    requires IsRun(r) && n < |r.states|
    ensures AllCounted(r.states[n])
  {
    if n > 0 {
      CountedAlways(r, n - 1);
      HandlesAlways(r, n - 1);
      assert Next(r, n - 1);
      StepKeepsCounted(r.states[n - 1], r.steps[n - 1]);
    }
  }

  /** In every interleaving: enqueued + sends not yet counted
      = dequeued + expired + receives not yet counted + requests in the channel. */
  lemma CountersConserved(r: Run, n: nat, q: nat)
    requires IsRun(r) && n < |r.states| && q in r.states[n].mem
    ensures var s, x := r.states[n], r.states[n].mem[q];
            x.enqueued + |Sends(s.ops, q)| == x.dequeued + x.expired + |Takes(s.ops, q)| + |x.buf|
  {
    CountedAlways(r, n);
    InvAlways(r, n);
    assert QueueHistory(r.states[n], q);
    if r.states[n].removed[q] != [] { ReqsAt(r.states[n].removed[q], 0); }
  }
}
