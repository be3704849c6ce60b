/** Nothing in the long-poll protocol is ever stuck: from every reachable state each call can come to its end. */
module ProtocolProgress {
  import opened Basics
  import opened StoreSpec
  import opened Protocol
  import opened ProtocolInvariants
  import opened ProtocolTheorems

  /** r' goes on from where r ends. */
  ghost predicate Continues(r: Run, r': Run) {
    IsRun(r) && IsRun(r') && r.states <= r'.states && r.steps <= r'.steps
  }

  /** The steps a Get has left when it takes none that waits for others. */
  function GetStepsLeft(pc: GetPc): nat {
    match pc
    case Called => 4
    case Registered => 3
    case Parked => 2
    case Leaving(_) => 1
    case Done(_) => 0
  }

  function NextOfGet(g: nat, pc: GetPc): Step {
    match pc
    case Called => First(g)
    case Registered => Recheck(g)
    case Parked => TimeOut(g)
    case _ => Cleanup(g)
  }

  lemma GetGetsNearer(s: State, g: nat)
    requires InFlight(s, g)
    ensures Enabled(s, NextOfGet(g, s.gets[g].pc))
    ensures var s' := Apply(s, NextOfGet(g, s.gets[g].pc));
            g in s'.gets && GetStepsLeft(s'.gets[g].pc) < GetStepsLeft(s.gets[g].pc)
  {
  }

  /** A Get in flight can always return, whatever state it is in, by at most four steps of its own. */
  lemma {:induction false} GetCanReturn(r: Run, g: nat) returns (r': Run)
    requires IsRun(r) && g in Last(r).gets
    ensures Continues(r, r') && g in Last(r').gets && Last(r').gets[g].pc.Done?
    ensures |r'.steps| <= |r.steps| + GetStepsLeft(Last(r).gets[g].pc)
    ensures forall i :: |r.steps| <= i < |r'.steps| ==> MovesGet(r'.steps[i]) == Some(g)
    decreases GetStepsLeft(Last(r).gets[g].pc)
  {
    r' := r;
    if InFlight(Last(r), g) {
      GetGetsNearer(Last(r), g);
      var r1 := Then(r, NextOfGet(g, Last(r).gets[g].pc));
      r' := GetCanReturn(r1, g);
    }
  }

  /** A Get in its select that is awake can receive what was put for it. */
  lemma AwakeGetCanReceive(r: Run, g: nat) returns (r': Run)
    requires IsRun(r) && At(Last(r), g, Parked) && Awake(Last(r), g)
    ensures Continues(r, r') && OutcomeOf(Last(r'), g).Some?
    ensures OutcomeOf(Last(r'), g).value.Found? && OutcomeOf(Last(r'), g).value.via == FromChan
    ensures |r'.steps| <= |r.steps| + 2
  {
    r' := r;
    if g !in Last(r).bufs {
      var p :| p in Last(r).puts && Last(r).puts[p].pc == Sending(g);
      r' := Then(r, Send(p));
    }
    r' := Then(r', Receive(g));
  }

  /** A Put can always return: it never blocks. */
  lemma PutCanReturn(r: Run, p: nat) returns (r': Run)
    requires IsRun(r) && p in Last(r).puts
    ensures Continues(r, r') && p in Last(r').puts && Last(r').puts[p].pc.Sent?
    ensures |r'.steps| <= |r.steps| + 2
    ensures forall i :: |r.steps| <= i < |r'.steps| ==> MovesPut(r'.steps[i]) == Some(p)
  {
    r' := r;
    if Last(r').puts[p].pc.Ready? {
      r' := Then(r', PutLocked(p));
    }
    if Last(r').puts[p].pc.Sending? {
      r' := Then(r', Send(p));
    }
  }
}
