/** Every run of the broker contains a run of the long-poll protocol. */
module HubProjection {
  import P = Protocol
  import PI = ProtocolInvariants
  import opened Hub
  import opened HubInvariants

  lemma ProjectRunStep(r: Run, i: nat)
    requires IsRun(r) && i < |r.steps|
    ensures P.Enabled(r.states[i].proto, Inside(r.steps[i]))
    ensures r.states[i + 1].proto == P.Apply(r.states[i].proto, Inside(r.steps[i]))
  {
    assert Next(r, i);
    ProjectStep(r.states[i], r.steps[i]);
  }

  ghost predicate IsProjection(r: Run, p: P.Run) {
    && |p.states| == |r.states| && |p.steps| == |r.steps|
    && (forall i :: 0 <= i < |r.states| ==> p.states[i] == r.states[i].proto)
    && (forall i :: 0 <= i < |r.steps| ==> p.steps[i] == Inside(r.steps[i]))
  }

  lemma ProjectionIsRun(r: Run, p: P.Run)
    requires IsRun(r) && IsProjection(r, p)
    ensures P.IsRun(p)
  {
    var ttl :| r.states[0] == Init(ttl);
    assert p.states[0] == P.Init(ttl);
    forall i | 0 <= i < |p.steps|
      ensures P.Enabled(p.states[i], p.steps[i]) && p.states[i + 1] == P.Apply(p.states[i], p.steps[i])
    {
      ProjectRunStep(r, i);
    }
  }

  /** What happens in the store is a run of the long-poll protocol, so that all its theorems hold here. */
  ghost function Project(r: Run): (p: P.Run)
    requires IsRun(r)
    ensures P.IsRun(p) && IsProjection(r, p)
  {
    var p := P.Run(seq(|r.states|, i requires 0 <= i < |r.states| => r.states[i].proto),
                   seq(|r.steps|, i requires 0 <= i < |r.steps| => Inside(r.steps[i])));
    ProjectionIsRun(r, p);
    p
  }

  ghost predicate PutIn(r: Run, k: nat, id: string)
    requires IsRun(r)
  {
    k < |r.steps| && PI.PutsFor(r.states[k].proto, Inside(r.steps[k]), id)
  }

  ghost predicate NoPutIn(r: Run, m: nat, n: nat, id: string)
    requires IsRun(r)
  {
    forall k :: m <= k < n ==> !PutIn(r, k, id)
  }
}
