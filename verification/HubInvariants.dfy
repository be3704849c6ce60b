/** What every reachable state of the whole broker satisfies. */
module HubInvariants {
  import opened Basics
  import P = Protocol
  import PI = ProtocolInvariants
  import opened Hub

  predicate Handled(h: State, id: string) {
    id in h.proto.store.pending || id in h.queued || id in h.pulled ==> id in h.handlers
  }

  /** Nothing is pending, queued, pulled or pushed but ids some handler made. */
  ghost predicate IdsHaveHandlers(h: State) {
    && (forall id :: id in h.proto.store.pending || id in h.queued || id in h.pulled ==> id in h.handlers)
    && (forall p :: p in h.proto.puts ==> h.proto.puts[p].result.requestID in h.pulled)
  }

  predicate BeforeQueue(x: Handler) {
    match x
    case Submit(pc) => pc.SubCalled? || pc.SubRefused?
    case Sync(pc) => pc.SyCalled? || pc.SyRegistered? || pc.SyFull? || pc.SyRefused?
  }

  /** Handlers that have not called RegisterPending, or have undone it. */
  predicate NotRegistered(x: Handler) {
    match x
    case Submit(pc) => !pc.SubAccepted?
    case Sync(pc) => pc.SyCalled? || pc.SyRefused?
  }

  predicate StageSane(h: State, id: string)
    requires id in h.handlers
  {
    && (BeforeQueue(h.handlers[id]) ==> id !in h.queued && id !in h.pulled)
    && (NotRegistered(h.handlers[id]) ==> id !in h.proto.store.pending)
  }

  ghost predicate StagesSane(h: State) {
    forall id :: id in h.handlers ==> StageSane(h, id)
  }

  /** A Get for an id not yet published is the id's own HandleSync waiting. */
  ghost predicate GetsPrivate(h: State) {
    && (forall g :: g in h.proto.gets ==> MayAsk(h, g, h.proto.gets[g].id))
    && (forall id :: id in h.handlers ==> WaitingHasGet(h.proto, id, h.handlers[id]))
  }

  predicate MayAsk(h: State, g: nat, id: string) {
    id in h.handlers ==> Published(h, id) || h.handlers[id] == Sync(SyWaiting(g)) || h.handlers[id] == Sync(SyError)
  }

  predicate WaitingHasGet(s: P.State, id: string, x: Handler) {
    x.Sync? && x.sync.SyWaiting? ==> x.sync.g in s.gets && s.gets[x.sync.g].id == id
  }

  /** HandleSync's own ids are never both pending and stored. */
  ghost predicate SyncDisjoint(h: State) {
    forall id :: id in h.handlers && h.handlers[id].Sync? ==> Disjoint(h.proto, id)
  }

  predicate Disjoint(s: P.State, id: string) { !(id in s.store.pending && id in s.store.results) }

  ghost predicate ClientsSane(h: State) {
    forall id :: id in h.clients ==> Accepted(h, id) && ClientSane(h.proto, id, h.clients[id])
  }

  ghost predicate ClientSane(s: P.State, id: string, c: Client) {
      && |c.polls| <= Max(0, c.maxRetries + 1)
      && (forall k :: 0 <= k < |c.polls| - 1 ==> c.polls[k] == Status204)
      && (forall k :: 0 <= k < |c.polls| && c.polls[k].Status200? ==>
            c.polls[k].result.requestID == id && PI.Written(s, c.polls[k].result))
      && (c.cur.Some? ==> c.cur.value in s.gets && s.gets[c.cur.value].id == id &&
                          StatusOf(c.maxRetries, c.polls) == Polling)
  }

  ghost predicate Inv(h: State) {
    PI.Inv(h.proto) && IdsHaveHandlers(h) && StagesSane(h) && GetsPrivate(h) && SyncDisjoint(h) && ClientsSane(h)
  }

  lemma ResultsWerePulled(h: State, id: string)
    requires PI.ResultsFiled(h.proto) && IdsHaveHandlers(h) && id in h.proto.store.results
    ensures id in h.pulled
  {
  }

  lemma ProjectOuter(h: State, st: Step, s': P.State)
    requires OuterEnabled(h, st)
    ensures OuterApply(h, st, s').proto == s'
  {
  }

  lemma ProjectStep(h: State, st: Step)
    requires Enabled(h, st)
    ensures P.Enabled(h.proto, Inside(st)) && Apply(h, st).proto == P.Apply(h.proto, Inside(st))
  {
    ProjectOuter(h, st, P.Apply(h.proto, Inside(st)));
  }

  /** All that the broker's invariants need to know about a protocol step. */
  ghost predicate Frame(s: P.State, st: P.Step, s': P.State) {
    GetsFrame(s, st, s') && PutsFrame(s, st, s') && StoreFrame(s, st, s')
  }

  ghost predicate GetsFrame(s: P.State, st: P.Step, s': P.State) {
    && (forall g :: g in s.gets ==> g in s'.gets && s'.gets[g].id == s.gets[g].id)
    && (forall g :: g in s'.gets && g !in s.gets ==> st.StartGet? && st.g == g)
    && (st.StartGet? ==> st.g !in s.gets && st.g in s'.gets && s'.gets[st.g].id == st.id)
  }

  ghost predicate PutsFrame(s: P.State, st: P.Step, s': P.State) {
    && (forall p :: p in s'.puts ==>
          (p in s.puts && s'.puts[p].result == s.puts[p].result) || (st.StartPut? && s'.puts[p].result == st.result))
    && (forall x :: PI.Written(s, x) ==> PI.Written(s', x))
  }

  ghost predicate StoreFrame(s: P.State, st: P.Step, s': P.State) {
    && (forall id :: id in s'.store.pending ==> id in s.store.pending || st == P.Register(id))
    && (st.Remove? ==> st.id !in s'.store.pending)
    && (forall id :: id in s'.store.results ==> id in s.store.results || PI.PutsFor(s, st, id))
    && (forall id :: PI.PutsFor(s, st, id) ==> id !in s'.store.pending)
  }

  lemma ProtocolGetsFrame(s: P.State, st: P.Step)
    requires P.Enabled(s, st)
    ensures GetsFrame(s, st, P.Apply(s, st))
  {
  }

  lemma ProtocolPutsFrame(s: P.State, st: P.Step)
    requires P.Enabled(s, st)
    ensures PutsFrame(s, st, P.Apply(s, st))
  {
  }

  lemma ProtocolStoreFrame(s: P.State, st: P.Step)
    requires P.Enabled(s, st)
    ensures StoreFrame(s, st, P.Apply(s, st))
  {
  }

  lemma ProtocolFrame(s: P.State, st: P.Step)
    requires P.Enabled(s, st)
    ensures Frame(s, st, P.Apply(s, st))
  {
    ProtocolGetsFrame(s, st);
    ProtocolPutsFrame(s, st);
    ProtocolStoreFrame(s, st);
  }

  /** The id whose handler a step moves. */
  function Moves(st: Step): Option<string> {
    match st
    case StartSubmit(id) => Some(id)
    case SubmitEnqueue(id, _) => Some(id)
    case SubmitRegister(id) => Some(id)
    case StartSync(id) => Some(id)
    case SyncRegister(id) => Some(id)
    case SyncEnqueue(id, _) => Some(id)
    case SyncDelete(id) => Some(id)
    case SyncGet(id, _) => Some(id)
    case SyncAnswer(id) => Some(id)
    case _ => None
  }

  /** The id whose WaitResult loop a step moves. */
  function MovesClient(st: Step): Option<string> {
    match st
    case StartWait(id, _) => Some(id)
    case ClientPoll(id, _) => Some(id)
    case ClientAnswer(id) => Some(id)
    case _ => None
  }

  lemma OtherClientsStand(h: State, st: Step, s': P.State, id: string)
    requires OuterEnabled(h, st) && MovesClient(st) != Some(id)
    ensures id in OuterApply(h, st, s').clients <==> id in h.clients
    ensures id in h.clients ==> OuterApply(h, st, s').clients[id] == h.clients[id]
  {
  }

  /** The other handlers stand still. */
  lemma OthersStand(h: State, st: Step, s': P.State, id: string)
    requires OuterEnabled(h, st) && Moves(st) != Some(id)
    ensures id in OuterApply(h, st, s').handlers <==> id in h.handlers
    ensures id in h.handlers ==> OuterApply(h, st, s').handlers[id] == h.handlers[id]
  {
  }

  lemma KeepsHandled(h: State, st: Step, s': P.State, id: string)
    requires OuterEnabled(h, st) && StoreFrame(h.proto, Inside(st), s') && Handled(h, id)
    ensures Handled(OuterApply(h, st, s'), id)
  {
    if Moves(st) != Some(id) {
      OthersStand(h, st, s', id);
    }
  }

  lemma KeepsIdsHaveHandlers(h: State, st: Step, s': P.State)
    requires IdsHaveHandlers(h) && OuterEnabled(h, st)
    requires PutsFrame(h.proto, Inside(st), s') && StoreFrame(h.proto, Inside(st), s')
    ensures IdsHaveHandlers(OuterApply(h, st, s'))
  {
    var h' := OuterApply(h, st, s');
    forall id | id in s'.store.pending || id in h'.queued || id in h'.pulled ensures id in h'.handlers {
      KeepsHandled(h, st, s', id);
    }
  }

  lemma KeepsStageSane(h: State, st: Step, s': P.State, id: string)
    requires IdsHaveHandlers(h) && (id in h.handlers ==> StageSane(h, id))
    requires OuterEnabled(h, st) && StoreFrame(h.proto, Inside(st), s') && id in OuterApply(h, st, s').handlers
    ensures StageSane(OuterApply(h, st, s'), id)
  {
    if Moves(st) != Some(id) {
      OthersStand(h, st, s', id);
    }
  }

  lemma KeepsStagesSane(h: State, st: Step, s': P.State)
    requires Inv(h) && OuterEnabled(h, st) && Frame(h.proto, Inside(st), s')
    ensures StagesSane(OuterApply(h, st, s'))
  {
    forall id | id in OuterApply(h, st, s').handlers ensures StageSane(OuterApply(h, st, s'), id) {
      KeepsStageSane(h, st, s', id);
    }
  }

  lemma OldGetMayAsk(h: State, st: Step, s': P.State, g: nat, id: string)
    requires OuterEnabled(h, st) && g in h.proto.gets && h.proto.gets[g].id == id && MayAsk(h, g, id)
    ensures MayAsk(OuterApply(h, st, s'), g, id)
  {
    if Moves(st) != Some(id) {
      OthersStand(h, st, s', id);
    }
  }

  lemma NewGetMayAsk(h: State, st: Step, s': P.State, g: nat, id: string)
    requires forall other :: other in h.clients ==> Accepted(h, other)
    requires OuterEnabled(h, st) && Inside(st) == P.StartGet(g, id)
    ensures MayAsk(OuterApply(h, st, s'), g, id)
  {
    match st
    case SyncGet(_, _) =>
    case Visit(_, _) =>
    case ClientPoll(_, _) =>
    case _ =>
  }

  lemma KeepsMayAsk(h: State, st: Step, s': P.State, g: nat)
    requires GetsPrivate(h) && (forall id :: id in h.clients ==> Accepted(h, id))
    requires OuterEnabled(h, st) && GetsFrame(h.proto, Inside(st), s') && g in s'.gets
    ensures MayAsk(OuterApply(h, st, s'), g, s'.gets[g].id)
  {
    if g in h.proto.gets {
      OldGetMayAsk(h, st, s', g, s'.gets[g].id);
    } else {
      NewGetMayAsk(h, st, s', g, s'.gets[g].id);
    }
  }

  lemma KeepsWaitingHasGet(h: State, st: Step, s': P.State, id: string)
    requires GetsPrivate(h) && OuterEnabled(h, st) && GetsFrame(h.proto, Inside(st), s')
    requires id in OuterApply(h, st, s').handlers
    ensures WaitingHasGet(s', id, OuterApply(h, st, s').handlers[id])
  {
    if Moves(st) != Some(id) {
      OthersStand(h, st, s', id);
    }
  }

  lemma KeepsGetsPrivate(h: State, st: Step, s': P.State)
    requires GetsPrivate(h) && (forall id :: id in h.clients ==> Accepted(h, id))
    requires OuterEnabled(h, st) && GetsFrame(h.proto, Inside(st), s')
    ensures GetsPrivate(OuterApply(h, st, s'))
  {
    var h' := OuterApply(h, st, s');
    forall id | id in h'.handlers ensures WaitingHasGet(s', id, h'.handlers[id]) {
      KeepsWaitingHasGet(h, st, s', id);
    }
    forall g | g in s'.gets ensures MayAsk(OuterApply(h, st, s'), g, s'.gets[g].id) {
      KeepsMayAsk(h, st, s', g);
    }
  }

  lemma KeepsDisjoint(h: State, st: Step, s': P.State, id: string)
    requires id in h.proto.store.results ==> id in h.pulled
    requires OuterEnabled(h, st) && StoreFrame(h.proto, Inside(st), s') && st != SubmitRegister(id)
    requires id in h.handlers ==> StageSane(h, id)
    requires Disjoint(h.proto, id)
    ensures Disjoint(s', id)
  {
  }

  lemma SyncStaysSync(h: State, st: Step, s': P.State, id: string)
    requires OuterEnabled(h, st)
    requires id in OuterApply(h, st, s').handlers && OuterApply(h, st, s').handlers[id].Sync?
    ensures st != SubmitRegister(id) && (id in h.handlers ==> h.handlers[id].Sync?)
  {
  }

  lemma KeepsSyncDisjoint(h: State, st: Step, s': P.State)
    requires Inv(h) && OuterEnabled(h, st) && Frame(h.proto, Inside(st), s')
    ensures SyncDisjoint(OuterApply(h, st, s'))
  {
    var h' := OuterApply(h, st, s');
    forall id | id in h'.handlers && h'.handlers[id].Sync? ensures Disjoint(s', id) {
      if id in h.proto.store.results { ResultsWerePulled(h, id); }
      SyncStaysSync(h, st, s', id);
      KeepsDisjoint(h, st, s', id);
    }
  }

  lemma KeepsAccepted(h: State, st: Step, s': P.State, id: string)
    requires OuterEnabled(h, st) && Accepted(h, id)
    ensures Accepted(OuterApply(h, st, s'), id)
  {
  }

  lemma KeepsClientSane(s: P.State, st: P.Step, s': P.State, id: string, c: Client)
    requires ClientSane(s, id, c) && GetsFrame(s, st, s') && PutsFrame(s, st, s')
    ensures ClientSane(s', id, c)
  {
  }

  lemma AnswerKeepsClientSane(h: State, id: string)
    requires Inv(h) && OuterEnabled(h, ClientAnswer(id))
    ensures ClientSane(h.proto, id, OuterApply(h, ClientAnswer(id), h.proto).clients[id])
  {
    var c := h.clients[id];
    var g := c.cur.value;
    assert P.OutcomeOf(h.proto, g) == Some(h.proto.gets[g].pc.out);
    assert forall k :: 0 <= k < |c.polls| ==> c.polls[k] == Status204;
  }

  lemma KeepsOneClientSane(h: State, st: Step, s': P.State, id: string)
    requires Inv(h) && OuterEnabled(h, st) && Frame(h.proto, Inside(st), s') && id in OuterApply(h, st, s').clients
    ensures ClientSane(s', id, OuterApply(h, st, s').clients[id])
  {
    if st == ClientAnswer(id) {
      AnswerKeepsClientSane(h, id);
      KeepsClientSane(h.proto, Inside(st), s', id, OuterApply(h, st, h.proto).clients[id]);
    } else {
      if MovesClient(st) != Some(id) {
        OtherClientsStand(h, st, s', id);
      }
      if id in h.clients {
        KeepsClientSane(h.proto, Inside(st), s', id, h.clients[id]);
      }
    }
  }

  lemma KeepsClientAccepted(h: State, st: Step, s': P.State, id: string)
    requires OuterEnabled(h, st) && (id in h.clients ==> Accepted(h, id)) && id in OuterApply(h, st, s').clients
    ensures Accepted(OuterApply(h, st, s'), id)
  {
    if MovesClient(st) != Some(id) {
      OtherClientsStand(h, st, s', id);
    }
    KeepsAccepted(h, st, s', id);
  }

  lemma KeepsClientsSane(h: State, st: Step, s': P.State)
    requires Inv(h) && OuterEnabled(h, st) && Frame(h.proto, Inside(st), s')
    ensures ClientsSane(OuterApply(h, st, s'))
  {
    var h' := OuterApply(h, st, s');
    forall id | id in h'.clients ensures Accepted(h', id) && ClientSane(s', id, h'.clients[id]) {
      KeepsOneClientSane(h, st, s', id);
      KeepsClientAccepted(h, st, s', id);
    }
  }

  lemma OuterStepKeepsInv(h: State, st: Step, s': P.State)
    requires Inv(h) && OuterEnabled(h, st) && PI.Inv(s') && Frame(h.proto, Inside(st), s')
    ensures Inv(OuterApply(h, st, s'))
  {
    KeepsIdsHaveHandlers(h, st, s');
    KeepsStagesSane(h, st, s');
    KeepsGetsPrivate(h, st, s');
    KeepsSyncDisjoint(h, st, s');
    KeepsClientsSane(h, st, s');
    ProjectOuter(h, st, s');
  }

  lemma StepKeepsInv(h: State, st: Step)
    requires Inv(h) && Enabled(h, st)
    ensures Inv(Apply(h, st))
  {
    PI.StepKeepsInv(h.proto, Inside(st));
    ProtocolFrame(h.proto, Inside(st));
    OuterStepKeepsInv(h, st, P.Apply(h.proto, Inside(st)));
  }

  lemma {:induction false} InvAlways(r: Run, n: nat)
    requires IsRun(r) && n < |r.states|
    ensures Inv(r.states[n])
  {
    if n > 0 {
      InvAlways(r, n - 1);
      assert Next(r, n - 1);
      StepKeepsInv(r.states[n - 1], r.steps[n - 1]);
    }
  }
}
