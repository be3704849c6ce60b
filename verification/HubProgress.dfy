/** Every handler can come to its answer and every WaitResult loop to its end, from every reachable state. */
module HubProgress {
  import opened Basics
  import opened StoreSpec
  import P = Protocol
  import PI = ProtocolInvariants
  import PP = ProtocolProgress
  import opened Hub
  import opened HubInvariants
  import opened HubTheorems

  /** r' goes on from where r ends. */
  ghost predicate Continues(r: Run, r': Run) {
    IsRun(r) && IsRun(r') && r.states <= r'.states && r.steps <= r'.steps
  }

  /** ... and meanwhile no handler and no client has moved. */
  ghost predicate ContinuesInside(r: Run, r': Run) {
    Continues(r, r') && Last(r').handlers == Last(r).handlers && Last(r').clients == Last(r).clients
  }

  lemma InnerThen(r: Run, st: P.Step) returns (r': Run)
    requires IsRun(r) && InsideProtocol(st) && P.Enabled(Last(r).proto, st)
    ensures ContinuesInside(r, r') && Last(r').proto == P.Apply(Last(r).proto, st)
  {
    assert Inside(Inner(st)) == st;
    r' := Then(r, Inner(st));
  }

  lemma {:induction false} GetCanReturn(r: Run, g: nat) returns (r': Run)
    requires IsRun(r) && g in Last(r).proto.gets
    ensures ContinuesInside(r, r') && Returned(Last(r'), g)
    decreases PP.GetStepsLeft(Last(r).proto.gets[g].pc)
  {
    r' := r;
    var s := Last(r).proto;
    if P.InFlight(s, g) {
      PP.GetGetsNearer(s, g);
      var r1 := InnerThen(r, PP.NextOfGet(g, s.gets[g].pc));
      r' := GetCanReturn(r1, g);
    }
  }

  lemma {:induction false} Unused(m: map<nat, P.Get>) returns (g: nat)
    ensures forall k :: k in m ==> k < g
    decreases |m|
  {
    g := 0;
    if m != map[] {
      var k :| k in m;
      assert |m - {k}| < |m|;
      g := Unused(m - {k});
      g := Max(g, k + 1);
      assert forall j :: j in m && j != k ==> j in m - {k};
    }
  }

  /** A HandleSync that waits can answer. */
  lemma WaitingCanAnswer(r: Run, id: string, g: nat) returns (r': Run)
    requires IsRun(r) && IsAt(Last(r), id, Sync(SyWaiting(g)))
    ensures Continues(r, r') && id in Last(r').handlers && Answered(Last(r').handlers[id])
  {
    InvAlways(r, |r.steps|);
    assert WaitingHasGet(Last(r).proto, id, Last(r).handlers[id]);
    r' := GetCanReturn(r, g);
    r' := Then(r', SyncAnswer(id));
  }

  predicate Answered(x: Handler) {
    match x
    case Submit(pc) => pc.SubAccepted? || pc.SubRefused?
    case Sync(pc) => pc.SyOk? || pc.SyAccepted? || pc.SyError? || pc.SyRefused?
  }

  lemma SyncCanWait(r: Run, id: string) returns (r': Run, g: nat)
    requires IsRun(r) && IsAt(Last(r), id, Sync(SyQueued))
    ensures Continues(r, r') && IsAt(Last(r'), id, Sync(SyWaiting(g)))
  {
    g := Unused(Last(r).proto.gets);
    r' := Then(r, SyncGet(id, g));
  }

  lemma SubmitCanAnswer(r: Run, id: string) returns (r': Run)
    requires IsRun(r) && id in Last(r).handlers && Last(r).handlers[id].Submit?
    ensures Continues(r, r') && id in Last(r').handlers && Answered(Last(r').handlers[id])
  {
    r' := r;
    if IsAt(Last(r'), id, Submit(SubCalled)) { r' := Then(r', SubmitEnqueue(id, true)); }
    if IsAt(Last(r'), id, Submit(SubQueued)) { r' := Then(r', SubmitRegister(id)); }
  }

  lemma SyncCanQueue(r: Run, id: string) returns (r': Run)
    requires IsRun(r) && (IsAt(Last(r), id, Sync(SyCalled)) || IsAt(Last(r), id, Sync(SyRegistered)))
    ensures Continues(r, r') && IsAt(Last(r'), id, Sync(SyQueued))
  {
    r' := r;
    if IsAt(Last(r'), id, Sync(SyCalled)) { r' := Then(r', SyncRegister(id)); }
    r' := Then(r', SyncEnqueue(id, true));
  }

  lemma FullCanAnswer(r: Run, id: string) returns (r': Run)
    requires IsRun(r) && IsAt(Last(r), id, Sync(SyFull))
    ensures Continues(r, r') && IsAt(Last(r'), id, Sync(SyRefused))
  {
    r' := Then(r, SyncDelete(id));
  }

  /** Every handler that has been called can answer. */
  lemma HandlerCanAnswer(r: Run, id: string) returns (r': Run)
    requires IsRun(r) && id in Last(r).handlers
    ensures Continues(r, r') && id in Last(r').handlers && Answered(Last(r').handlers[id])
  {
    r' := r;
    match Last(r).handlers[id]
    case Submit(_) => r' := SubmitCanAnswer(r, id);
    case Sync(pc) =>
      if pc.SyFull? {
        r' := FullCanAnswer(r, id);
      } else if !Answered(Last(r).handlers[id]) {
        if pc.SyCalled? || pc.SyRegistered? { r' := SyncCanQueue(r', id); }
        var g;
        if Last(r').handlers[id].sync.SyWaiting? {
          g := Last(r').handlers[id].sync.g;
        } else {
          r', g := SyncCanWait(r', id);
        }
        r' := WaitingCanAnswer(r', id, g);
      }
  }

  lemma PollCanBeAnswered(r: Run, id: string) returns (r': Run)
    requires IsRun(r) && id in Last(r).clients && Last(r).clients[id].cur.Some?
    ensures Continues(r, r') && id in Last(r').clients && Last(r').clients[id].cur == None
    ensures |Last(r').clients[id].polls| == |Last(r).clients[id].polls| + 1
    ensures Last(r').clients[id].maxRetries == Last(r).clients[id].maxRetries
  {
    InvAlways(r, |r.steps|);
    assert ClientSane(Last(r).proto, id, Last(r).clients[id]);
    r' := GetCanReturn(r, Last(r).clients[id].cur.value);
    r' := Then(r', ClientAnswer(id));
  }

  lemma CanPoll(r: Run, id: string) returns (r': Run)
    requires IsRun(r) && id in Last(r).clients && Last(r).clients[id].cur == None
    requires StatusOf(Last(r).clients[id].maxRetries, Last(r).clients[id].polls) == Polling
    ensures Continues(r, r') && id in Last(r').clients && Last(r').clients[id].cur.Some?
    ensures Last(r').clients[id] == Last(r).clients[id].(cur := Last(r').clients[id].cur)
  {
    var g := Unused(Last(r).proto.gets);
    r' := Then(r, ClientPoll(id, g));
  }

  /** A WaitResult that is polling makes its next poll and can be answered; so it can always come to its end. */
  lemma {:induction false} WaitCanEnd(r: Run, id: string) returns (r': Run)
    requires IsRun(r) && id in Last(r).clients
    ensures Continues(r, r') && id in Last(r').clients && Last(r').clients[id].cur == None
    ensures StatusOf(Last(r').clients[id].maxRetries, Last(r').clients[id].polls) != Polling
    decreases Last(r).clients[id].maxRetries + 1 - |Last(r).clients[id].polls|, Last(r).clients[id].cur == None
  {
    r' := r;
    var c := Last(r).clients[id];
    if c.cur.Some? {
      InvAlways(r, |r.steps|);
      assert ClientSane(Last(r).proto, id, c);
      var r1 := PollCanBeAnswered(r, id);
      r' := WaitCanEnd(r1, id);
    } else if StatusOf(c.maxRetries, c.polls) == Polling {
      var r1 := CanPoll(r, id);
      r' := WaitCanEnd(r1, id);
    }
  }
}
