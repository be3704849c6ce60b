/** What the broker promises its online clients, over every run. */
module HubTheorems {
  import opened Basics
  import opened StoreSpec
  import P = Protocol
  import PI = ProtocolInvariants
  import opened Hub
  import opened HubInvariants

  // ---------- A registered id stays known ----------

  predicate Known(h: State, id: string) { KnownTo(h.proto, id) }

  predicate KnownTo(s: P.State, id: string) { id in s.store.pending || id in s.store.results }

  /** The protocol step takes id's stored result away, and nothing else keeps the id known:
      a Get that returns that result, or the sweeper once it has expired. */
  predicate TakesAway(s: P.State, st: P.Step, s': P.State, id: string) {
    id in s.store.results && id !in s.store.pending &&
    match st
    case First(g) => g in s.gets && s.gets[g].id == id && ReturnsFromMap(s', g, s.store.results[id].result)
    case Recheck(g) => g in s.gets && s.gets[g].id == id && ReturnsFromMap(s', g, s.store.results[id].result)
    case SweepAt(at) => Expired(s.store.results[id], at)
    case _ => false
  }

  predicate ReturnsFromMap(s: P.State, g: nat, x: Result) { P.OutcomeOf(s, g) == Some(P.Found(x, P.FromMap)) }

  ghost predicate TakenAwayAt(r: Run, j: nat, id: string)
    requires IsRun(r)
  {
    j < |r.steps| && TakesAway(r.states[j].proto, Inside(r.steps[j]), r.states[j + 1].proto, id)
  }

  lemma ForgottenOnlyWhenTaken(s: P.State, st: P.Step, id: string)
    requires P.Enabled(s, st) && KnownTo(s, id) && !KnownTo(P.Apply(s, st), id)
    ensures TakesAway(s, st, P.Apply(s, st), id) || st == P.Remove(id)
  {
  }

  lemma AcceptedForever(r: Run, i: nat, n: nat, id: string)
    requires IsRun(r) && i <= n < |r.states| && Accepted(r.states[i], id)
    ensures Accepted(r.states[n], id)
    decreases n - i
  {
    if i < n {
      assert Next(r, i);
      KeepsAccepted(r.states[i], r.steps[i], r.states[i + 1].proto, id);
      AcceptedForever(r, i + 1, n, id);
    }
  }

  lemma {:induction false} KnownFrom(r: Run, i: nat, n: nat, id: string) returns (j: nat)
    requires IsRun(r) && i <= n < |r.states| && Accepted(r.states[i], id) && Known(r.states[i], id)
    ensures Known(r.states[n], id) || (i <= j < n && TakenAwayAt(r, j, id))
    decreases n - i
  {
    j := i;
    if i < n {
      AcceptedForever(r, i, i + 1, id);
      if Known(r.states[i + 1], id) {
        j := KnownFrom(r, i + 1, n, id);
      } else {
        assert Next(r, i);
        ForgottenOnlyWhenTaken(r.states[i].proto, Inside(r.steps[i]), id);
      }
    }
  }

  // ---------- HandleSync: register before enqueue ----------

  /** An id of HandleSync is never pending and stored at once. */
  lemma SyncNeverPendingAndStored(r: Run, n: nat, id: string)
    requires IsRun(r) && n < |r.states| && id in r.states[n].handlers && r.states[n].handlers[id].Sync?
    ensures !(id in r.states[n].proto.store.pending && id in r.states[n].proto.store.results)
  {
    InvAlways(r, n);
  }

  lemma OtherStepsKeepDisjoint(h: State, st: Step, id: string)
    requires PI.ResultsFiled(h.proto) && IdsHaveHandlers(h) && StagesSane(h)
    requires Enabled(h, st) && st != SubmitRegister(id) && Disjoint(h.proto, id)
    ensures Disjoint(Apply(h, st).proto, id)
  {
    if id in h.proto.store.results { ResultsWerePulled(h, id); }
    ProjectStep(h, st);
    ProtocolStoreFrame(h.proto, Inside(st));
    KeepsDisjoint(h, st, P.Apply(h.proto, Inside(st)), id);
  }

  lemma SubmitRegisterAddsToPending(h: State, id: string)
    requires Enabled(h, SubmitRegister(id))
    ensures Apply(h, SubmitRegister(id)).proto.store == RegisterPending(h.proto.store, id)
  {
  }

  /** HandleSubmit enqueues first: its id becomes pending and stored at once exactly when
      a worker's result is already stored as it registers. */
  lemma PendingAndStoredOnlyBySubmit(h: State, st: Step, id: string)
    requires Inv(h) && Enabled(h, st) && Disjoint(h.proto, id)
    ensures !Disjoint(Apply(h, st).proto, id) <==> st == SubmitRegister(id) && id in h.proto.store.results
  {
    if st == SubmitRegister(id) {
      SubmitRegisterAddsToPending(h, id);
    } else {
      OtherStepsKeepDisjoint(h, st, id);
    }
  }

  ghost function Then(r: Run, st: Step): (r': Run)
    requires IsRun(r) && Enabled(Last(r), st)
    ensures IsRun(r') && Last(r') == Apply(Last(r), st)
  {
    var r' := Run(r.states + [Apply(Last(r), st)], r.steps + [st]);
    ThenIsRun(r, st, r');
    r'
  }

  lemma ThenIsRun(r: Run, st: Step, r': Run)
    requires IsRun(r) && Enabled(Last(r), st)
    requires r' == Run(r.states + [Apply(Last(r), st)], r.steps + [st])
    ensures IsRun(r')
  {
    assert r'.states[0] == r.states[0];
    forall i | 0 <= i < |r'.steps| ensures Next(r', i) {
      assert r'.states[i] == r.states[i];
      if i < |r.steps| {
        assert Next(r, i);
        assert r'.steps[i] == r.steps[i] && r'.states[i + 1] == r.states[i + 1];
      }
    }
  }

  function Last(r: Run): State
    requires |r.states| == |r.steps| + 1
  {
    r.states[|r.steps|]
  }

  lemma PulledRun(id: string) returns (r: Run)
    ensures IsRun(r) && Last(r) == State(P.Init(1), map[id := Submit(SubQueued)], {}, {id}, map[])
  {
    r := Run([Init(1)], []);
    r := Then(Then(Then(r, StartSubmit(id)), SubmitEnqueue(id, true)), Pull(id));
  }

  /** And a run in which it is. */
  lemma SubmitOvertakenByWorker(id: string, x: Result) returns (r: Run)
    requires x.ptr == 0 && x.requestID == id
    ensures IsRun(r) && Accepted(Last(r), id) && !Disjoint(Last(r).proto, id)
    ensures Last(r).proto.gets == map[] && Last(r).proto.store.results[id].result == x
  {
    r := PulledRun(id);
    r := Then(Then(r, Push(0, x)), Inner(P.PutLocked(0)));
    assert IsAt(Last(r), id, Submit(SubQueued)) && id in Last(r).proto.store.results;
    r := Then(r, SubmitRegister(id));
  }

  predicate Finds(s: P.State, g: nat) { P.OutcomeOf(s, g).Some? && P.OutcomeOf(s, g).value.Found? }

  /** The store knows the id until HandleSync's own Get finds the result, and that Get never misses. */
  predicate SyncServed(h: State, id: string) {
    id in h.handlers && h.handlers[id].Sync? ==> ServedAt(h.proto, id, h.handlers[id].sync)
  }

  predicate ServedAt(s: P.State, id: string, pc: SyncPc) {
    match pc
    case SyRegistered => KnownTo(s, id)
    case SyQueued => KnownTo(s, id)
    case SyWaiting(g) => (KnownTo(s, id) || Finds(s, g)) && P.OutcomeOf(s, g) != Some(P.NotFound)
    case SyError => false
    case _ => true
  }

  predicate SweepsAway(s: P.State, st: P.Step, s': P.State, id: string) {
    st.SweepAt? && TakesAway(s, st, s', id)
  }

  /** What a protocol step can do to the answer a Get is heading for. */
  ghost predicate AskFrame(s: P.State, st: P.Step, s': P.State) {
    && (forall id :: KnownTo(s, id) && !KnownTo(s', id) ==> TakesAway(s, st, s', id) || st == P.Remove(id))
    && (forall id :: st == P.Register(id) ==> KnownTo(s', id))
    && (forall g :: Finds(s, g) ==> Finds(s', g))
    && (forall g :: st.StartGet? && st.g == g ==> g !in s.gets && P.At(s', g, P.Called))
    && (forall g :: P.OutcomeOf(s', g) == Some(P.NotFound) ==>
          || P.OutcomeOf(s, g) == Some(P.NotFound)
          || (st == P.First(g) && P.At(s, g, P.Called) && !KnownTo(s, s.gets[g].id)))
  }

  lemma ProtocolAskFrame(s: P.State, st: P.Step)
    requires P.Enabled(s, st)
    ensures AskFrame(s, st, P.Apply(s, st))
  {
    forall id | KnownTo(s, id) && !KnownTo(P.Apply(s, st), id)
      ensures TakesAway(s, st, P.Apply(s, st), id) || st == P.Remove(id)
    {
      ForgottenOnlyWhenTaken(s, st, id);
    }
  }

  /** While its handler stands still, an id stays served: only the handler's own Get may take the result. */
  lemma StaysServed(s: P.State, st: P.Step, s': P.State, id: string, pc: SyncPc)
    requires ServedAt(s, id, pc) && AskFrame(s, st, s') && st != P.Remove(id)
    requires pc.SyWaiting? ==> pc.g in s.gets && s.gets[pc.g].id == id
    requires (st.First? || st.Recheck?) && st.g in s.gets && s.gets[st.g].id == id ==>
               pc == SyWaiting(st.g) || pc.SyOk? || pc.SyAccepted?
    ensures ServedAt(s', id, pc) || SweepsAway(s, st, s', id)
  {
  }

  lemma SyncServedUnlessSwept(h: State, st: Step, s': P.State, id: string)
    requires GetsPrivate(h) && SyncServed(h, id)
    requires OuterEnabled(h, st) && AskFrame(h.proto, Inside(st), s')
    ensures SyncServed(OuterApply(h, st, s'), id) || SweepsAway(h.proto, Inside(st), s', id)
  {
    var h' := OuterApply(h, st, s');
    if Moves(st) != Some(id) {
      OthersStand(h, st, s', id);
    }
    if id in h.handlers && h'.handlers[id] == h.handlers[id] {
      var inside := Inside(st);
      assert (inside.First? || inside.Recheck?) && inside.g in h.proto.gets ==>
          MayAsk(h, inside.g, h.proto.gets[inside.g].id);
      if h.handlers[id].Sync? { StaysServed(h.proto, inside, s', id, h.handlers[id].sync); }
    }
  }

  ghost predicate SweptAt(r: Run, j: nat, id: string)
    requires IsRun(r)
  {
    j < |r.steps| && SweepsAway(r.states[j].proto, Inside(r.steps[j]), r.states[j + 1].proto, id)
  }

  lemma SyncServedNext(r: Run, i: nat, id: string)
    requires IsRun(r) && i < |r.steps| && SyncServed(r.states[i], id)
    ensures SyncServed(r.states[i + 1], id) || SweptAt(r, i, id)
  {
    InvAlways(r, i);
    assert Next(r, i);
    ProtocolAskFrame(r.states[i].proto, Inside(r.steps[i]));
    SyncServedUnlessSwept(r.states[i], r.steps[i], r.states[i + 1].proto, id);
  }

  /** HandleSync's Get reports an unknown id (its 500) only if the stored result had been swept. */
  lemma {:induction false} SyncErrorOnlyAfterSweep(r: Run, n: nat, id: string) returns (j: nat)
    requires IsRun(r) && n < |r.states|
    ensures SyncServed(r.states[n], id) || (j < n && SweptAt(r, j, id))
  {
    j := 0;
    if n > 0 {
      j := SyncErrorOnlyAfterSweep(r, n - 1, id);
      if SyncServed(r.states[n - 1], id) {
        SyncServedNext(r, n - 1, id);
        j := n - 1;
      }
    }
  }

  // ---------- A 202 keeps its promise ----------

  /** When a 202 is being answered the id is known, or the result had already been swept. */
  lemma KnownWhenAccepted(r: Run, i: nat, id: string) returns (j: nat)
    requires IsRun(r) && i < |r.steps| && Accepted(r.states[i + 1], id) && !Accepted(r.states[i], id)
    ensures Known(r.states[i + 1], id) || (j < i && SweptAt(r, j, id))
  {
    j := SyncErrorOnlyAfterSweep(r, i, id);
    assert Next(r, i);
    ProtocolAskFrame(r.states[i].proto, Inside(r.steps[i]));
  }

  /** Under both orders of registering and enqueueing: from the 202 on the id stays pending or stored,
      until a later Get returns its result from the map or an expired result is swept. */
  lemma AcceptedIdPersists(r: Run, i: nat, n: nat, id: string) returns (j: nat)
    requires IsRun(r) && i < n < |r.states| && Accepted(r.states[i + 1], id) && !Accepted(r.states[i], id)
    ensures Known(r.states[n], id) || (j < n && TakenAwayAt(r, j, id) && (j < i ==> Inside(r.steps[j]).SweepAt?))
  {
    j := KnownWhenAccepted(r, i, id);
    if Known(r.states[i + 1], id) {
      j := KnownFrom(r, i + 1, n, id);
    }
  }
}
