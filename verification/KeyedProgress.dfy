/** Every Enqueue and Dequeue of the keyed queue ends by its own steps alone. */
module KeyedProgress {
  import opened QueueSpec
  import opened KeyedMachine
  import opened KeyedTheorems

  function Last(r: Run): State
    requires |r.states| == |r.steps| + 1
  {
    r.states[|r.steps|]
  }

  /** More than the steps an operation has left when nobody else moves. */
  function Rank(s: State, op: Op): nat {
    if op.Enq? then
      match op.pc
      case Lookup => 5
      case Missed => 4
      case Holding(_) => 3
      case Returned => 0
      case _ => 2
    else
      var b := 4 * |Contents(s, op.key)|;
      match op.pc
      case Lookup => b + 7
      case Missed => b + 6
      case Holding(_) => b + 1
      case InHand(_, _) => b + 4
      case Returned => 0
      case _ => b + 3
  }

  lemma ReceiveLowersRank(s: State, o: nat, q: nat)
    requires HandlesSane(s) && o in s.ops && s.ops[o].Deq? && HasQueue(s, q) && s.ops[o].pc == Holding(q)
    ensures o in TryReceive(s, o, q).ops && Rank(TryReceive(s, o, q), TryReceive(s, o, q).ops[o]) < Rank(s, s.ops[o])
  {
  }

  lemma AdvanceLowersRank(s: State, o: nat)
    requires HandlesSane(s) && Enabled(s, Advance(o))
    ensures o in Apply(s, Advance(o)).ops
    ensures Rank(Apply(s, Advance(o)), Apply(s, Advance(o)).ops[o]) < Rank(s, s.ops[o])
  {
    match s.ops[o].pc
    case Holding(q) => if s.ops[o].Deq? { ReceiveLowersRank(s, o, q); }
    case Lookup =>
    case Missed =>
    case InHand(_, _) =>
    case _ =>
  }

  /** r' goes on from where r ends, by steps of o alone. */
  ghost predicate ContinuesAlone(r: Run, r': Run, o: nat) {
    && IsRun(r) && IsRun(r') && r.states <= r'.states && r.steps <= r'.steps
    && forall i :: |r.steps| <= i < |r'.steps| ==> r'.steps[i] == Advance(o)
  }

  lemma Then(r: Run, st: Step) returns (r': Run)
    requires IsRun(r) && Enabled(Last(r), st)
    ensures IsRun(r') && r.states <= r'.states && r.steps <= r'.steps && r'.steps == r.steps + [st]
    ensures Last(r') == Apply(Last(r), st)
  {
    r' := Run(r.states + [Apply(Last(r), st)], r.steps + [st]);
    assert r'.states[0] == r.states[0];
    forall i | 0 <= i < |r'.steps| ensures Next(r', i) {
      if i < |r.steps| {
        assert Next(r, i);
      }
    }
  }

  /** In every reachable state each operation that has not returned can do so alone; a Dequeue never blocks and never
      turns for ever. */
  lemma {:induction false} ReturnsAlone(r: Run, o: nat) returns (r': Run)
    requires IsRun(r) && o in Last(r).ops
    ensures ContinuesAlone(r, r', o) && o in Last(r').ops && Last(r').ops[o].pc.Returned?
    ensures |r'.steps| <= |r.steps| + Rank(Last(r), Last(r).ops[o])
    decreases Rank(Last(r), Last(r).ops[o])
  {
    r' := r;
    if !Last(r).ops[o].pc.Returned? {
      HandlesAlways(r, |r.steps|);
      NeverStuck(r, |r.steps|, o);
      AdvanceLowersRank(Last(r), o);
      var r1 := Then(r, Advance(o));
      r' := ReturnsAlone(r1, o);
    }
  }
}
