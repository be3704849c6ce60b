/** What every reachable state of the long-poll protocol satisfies. */
module ProtocolInvariants {
  import opened Basics
  import opened StoreSpec
  import opened Protocol

  /** Put p has run its lock region, and r is the result it wrote. */
  predicate Written(s: State, r: Result) {
    r.ptr in s.puts && s.puts[r.ptr].result == r && !s.puts[r.ptr].pc.Ready?
  }

  ghost predicate WaitersOwned(s: State) {
    forall id :: id in s.store.waiters ==> WaiterOwned(s, id)
  }

  predicate WaiterOwned(s: State, id: string)
    requires id in s.store.waiters
  {
    SlowPath(s, s.store.waiters[id]) && s.gets[s.store.waiters[id]].id == id
  }

  ghost predicate ResultsFiled(s: State) {
    forall id :: id in s.store.results ==>
      s.store.results[id].result.requestID == id && Written(s, s.store.results[id].result)
  }

  ghost predicate PutsSane(s: State) {
    forall p :: p in s.puts ==> PutSane(s, p)
  }

  ghost predicate PutSane(s: State, p: nat)
    requires p in s.puts
  {
    && s.puts[p].result.ptr == p
    && forall g :: Captured(s, p, g) ==>
         g in s.gets && !s.gets[g].pc.Called? && s.gets[g].id == s.puts[p].result.requestID
  }

  ghost predicate MessagesAddressed(s: State) {
    forall g :: g in s.bufs ==> Written(s, s.bufs[g]) && s.puts[s.bufs[g].ptr].pc == Sent(Some(g))
  }

  ghost predicate OutcomesGenuine(s: State) {
    forall g :: OutcomeOf(s, g).Some? && OutcomeOf(s, g).value.Found? ==> Genuine(s, g)
  }

  predicate Genuine(s: State, g: nat)
    requires OutcomeOf(s, g).Some? && OutcomeOf(s, g).value.Found?
  {
    var Found(r, via) := OutcomeOf(s, g).value;
    r.requestID == s.gets[g].id && Written(s, r) && (via == FromChan ==> s.puts[r.ptr].pc == Sent(Some(g)))
  }

  predicate TookFromMap(s: State, g: nat, p: nat) {
    OutcomeOf(s, g).Some? && OutcomeOf(s, g).value.Found? &&
    OutcomeOf(s, g).value.via == FromMap && OutcomeOf(s, g).value.result.ptr == p
  }

  predicate InMap(s: State, p: nat) {
    p in s.puts && s.puts[p].result.requestID in s.store.results &&
    s.store.results[s.puts[p].result.requestID].result.ptr == p
  }

  /** The map copy of one Put is handed out at most once. */
  ghost predicate MapCopyUnique(s: State) {
    && (forall g, p :: TookFromMap(s, g, p) ==> !InMap(s, p))
    && (forall g, h, p :: TookFromMap(s, g, p) && TookFromMap(s, h, p) ==> g == h)
  }

  /** Once a send to a channel has happened, that channel stays full while its Get waits. */
  ghost predicate SentStays(s: State) {
    forall p, g :: p in s.puts && s.puts[p].pc == Sent(Some(g)) && (At(s, g, Registered) || At(s, g, Parked))
                   ==> g in s.bufs
  }

  ghost predicate Inv(s: State) {
    WaitersOwned(s) && ResultsFiled(s) && PutsSane(s) && MessagesAddressed(s) && OutcomesGenuine(s) &&
    MapCopyUnique(s) && SentStays(s)
  }

  // ---------- What a step leaves alone ----------

  /** The Get that a step moves. */
  function MovesGet(st: Step): Option<nat> {
    match st
    case StartGet(g, _) => Some(g)
    case First(g) => Some(g)
    case Recheck(g) => Some(g)
    case Receive(g) => Some(g)
    case TimeOut(g) => Some(g)
    case Cleanup(g) => Some(g)
    case _ => None
  }

  /** The Put that a step moves. */
  function MovesPut(st: Step): Option<nat> {
    match st
    case StartPut(p, _) => Some(p)
    case PutLocked(p) => Some(p)
    case Send(p) => Some(p)
    case _ => None
  }

  lemma OtherGetsStand(s: State, st: Step, g: nat)
    requires Enabled(s, st) && MovesGet(st) != Some(g)
    ensures g in Apply(s, st).gets <==> g in s.gets
    ensures g in s.gets ==> Apply(s, st).gets[g] == s.gets[g]
  {
  }

  lemma OtherPutsStand(s: State, st: Step, p: nat)
    requires Enabled(s, st) && MovesPut(st) != Some(p)
    ensures p in Apply(s, st).puts <==> p in s.puts
    ensures p in s.puts ==> Apply(s, st).puts[p] == s.puts[p]
  {
  }

  /** A Get keeps its id and never goes back. */
  lemma GetGoesOn(s: State, st: Step, g: nat)
    requires Enabled(s, st) && g in s.gets
    ensures g in Apply(s, st).gets && Apply(s, st).gets[g].id == s.gets[g].id
    ensures !s.gets[g].pc.Called? ==> !Apply(s, st).gets[g].pc.Called?
  {
    if MovesGet(st) != Some(g) {
      OtherGetsStand(s, st, g);
    }
  }

  /** A Put keeps its result, does not become ready again, and once it has returned stands still. */
  lemma PutGoesOn(s: State, st: Step, p: nat)
    requires Enabled(s, st) && p in s.puts
    ensures p in Apply(s, st).puts && Apply(s, st).puts[p].result == s.puts[p].result
    ensures !s.puts[p].pc.Ready? ==> !Apply(s, st).puts[p].pc.Ready?
    ensures s.puts[p].pc.Sent? ==> Apply(s, st).puts[p] == s.puts[p]
  {
    if MovesPut(st) != Some(p) {
      OtherPutsStand(s, st, p);
    }
  }

  // ---------- Every step keeps the invariants ----------

  lemma KeepsWaiterOwned(s: State, st: Step, id: string)
    requires Enabled(s, st) && id in Apply(s, st).store.waiters && (id in s.store.waiters ==> WaiterOwned(s, id))
    ensures WaiterOwned(Apply(s, st), id)
  {
    if id in s.store.waiters && MovesGet(st) != Some(s.store.waiters[id]) {
      OtherGetsStand(s, st, s.store.waiters[id]);
    }
  }

  lemma KeepsWaitersOwned(s: State, st: Step)
    requires WaitersOwned(s) && Enabled(s, st)
    ensures WaitersOwned(Apply(s, st))
  {
    forall id | id in Apply(s, st).store.waiters ensures WaiterOwned(Apply(s, st), id) {
      KeepsWaiterOwned(s, st, id);
    }
  }

  predicate PutsFor(s: State, st: Step, id: string) {
    st.PutLocked? && st.p in s.puts && s.puts[st.p].result.requestID == id
  }

  lemma KeepsFiled(s: State, st: Step, id: string)
    requires ResultsFiled(s) && PutsSane(s) && Enabled(s, st) && id in Apply(s, st).store.results
    ensures (id in s.store.results && Apply(s, st).store.results[id] == s.store.results[id]) ||
            (PutsFor(s, st, id) && Apply(s, st).store.results[id].result == s.puts[st.p].result)
  {
  }

  lemma KeepsResultsFiled(s: State, st: Step)
    requires ResultsFiled(s) && PutsSane(s) && Enabled(s, st)
    ensures ResultsFiled(Apply(s, st))
  {
    var s' := Apply(s, st);
    forall id | id in s'.store.results
      ensures s'.store.results[id].result.requestID == id && Written(s', s'.store.results[id].result)
    {
      KeepsFiled(s, st, id);
      PutGoesOn(s, st, s'.store.results[id].result.ptr);
    }
  }

  lemma CapturedStaysNext(s: State, st: Step, p: nat, g: nat)
    requires Enabled(s, st) && Captured(s, p, g)
    ensures Captured(Apply(s, st), p, g)
  {
    if MovesPut(st) != Some(p) {
      OtherPutsStand(s, st, p);
    }
  }

  lemma KeepsCaptured(s: State, st: Step, p: nat, g: nat)
    requires Enabled(s, st) && Captured(Apply(s, st), p, g)
    ensures Captured(s, p, g) || (st == PutLocked(p) && Waiter(s.store, s.puts[p].result.requestID) == Some(g))
  {
    if MovesPut(st) != Some(p) {
      OtherPutsStand(s, st, p);
    }
  }

  lemma KeepsPutsSane(s: State, st: Step)
    requires PutsSane(s) && WaitersOwned(s) && Enabled(s, st)
    ensures PutsSane(Apply(s, st))
  {
    var s' := Apply(s, st);
    forall p | p in s'.puts ensures PutSane(s', p) {
      if MovesPut(st) != Some(p) {
        OtherPutsStand(s, st, p);
      }
      forall g | Captured(s', p, g)
        ensures g in s'.gets && !s'.gets[g].pc.Called? && s'.gets[g].id == s'.puts[p].result.requestID
      {
        KeepsCaptured(s, st, p, g);
        GetGoesOn(s, st, g);
      }
    }
  }

  lemma KeepsMessage(s: State, st: Step, g: nat)
    requires Enabled(s, st) && g in Apply(s, st).bufs
    ensures (g in s.bufs && Apply(s, st).bufs[g] == s.bufs[g]) ||
            (st.Send? && s.puts[st.p].pc == Sending(g) && Apply(s, st).bufs[g] == s.puts[st.p].result &&
             Apply(s, st).puts[st.p].pc == Sent(Some(g)))
  {
  }

  lemma KeepsMessagesAddressed(s: State, st: Step)
    requires MessagesAddressed(s) && PutsSane(s) && Enabled(s, st)
    ensures MessagesAddressed(Apply(s, st))
  {
    var s' := Apply(s, st);
    forall g | g in s'.bufs ensures Written(s', s'.bufs[g]) && s'.puts[s'.bufs[g].ptr].pc == Sent(Some(g)) {
      KeepsMessage(s, st, g);
      PutGoesOn(s, st, s'.bufs[g].ptr);
    }
  }

  lemma NewOutcomeGenuine(s: State, st: Step, g: nat)
    requires ResultsFiled(s) && PutsSane(s) && MessagesAddressed(s) && Enabled(s, st) && MovesGet(st) == Some(g)
    requires OutcomeOf(s, g) == None && OutcomeOf(Apply(s, st), g).Some? && OutcomeOf(Apply(s, st), g).value.Found?
    ensures Genuine(Apply(s, st), g)
  {
  }

  lemma OutcomeStays(s: State, st: Step, g: nat)
    requires Enabled(s, st) && OutcomeOf(s, g).Some?
    ensures OutcomeOf(Apply(s, st), g) == OutcomeOf(s, g)
  {
    if MovesGet(st) != Some(g) {
      OtherGetsStand(s, st, g);
    }
  }

  lemma KeepsOutcomesGenuine(s: State, st: Step)
    requires OutcomesGenuine(s) && ResultsFiled(s) && PutsSane(s) && MessagesAddressed(s) && Enabled(s, st)
    ensures OutcomesGenuine(Apply(s, st))
  {
    var s' := Apply(s, st);
    forall g: nat | OutcomeOf(s', g).Some? && OutcomeOf(s', g).value.Found? ensures Genuine(s', g) {
      if OutcomeOf(s, g).Some? {
        OutcomeStays(s, st, g);
        PutGoesOn(s, st, OutcomeOf(s', g).value.result.ptr);
        GetGoesOn(s, st, g);
      } else {
        if MovesGet(st) != Some(g) {
          OtherGetsStand(s, st, g);
        }
        NewOutcomeGenuine(s, st, g);
      }
    }
  }

  /** A step that makes Get g a taker of Put p moves p's entry out of the map. */
  lemma TakerIsOldOrTakesNow(s: State, st: Step, g: nat, p: nat)
    requires ResultsFiled(s) && PutsSane(s) && Enabled(s, st) && TookFromMap(Apply(s, st), g, p)
    ensures TookFromMap(s, g, p) || ((st == First(g) || st == Recheck(g)) && InMap(s, p) && !InMap(Apply(s, st), p))
  {
  }

  lemma EntryIsOldOrPutNow(s: State, st: Step, p: nat)
    requires PutsSane(s) && OutcomesGenuine(s) && ResultsFiled(s) && Enabled(s, st) && InMap(Apply(s, st), p)
    ensures InMap(s, p) || (st == PutLocked(p) && forall g :: !TookFromMap(s, g, p))
  {
  }

  lemma KeepsMapCopyUnique(s: State, st: Step)
    requires Inv(s) && Enabled(s, st)
    ensures MapCopyUnique(Apply(s, st))
  {
    var s' := Apply(s, st);
    forall g, p | TookFromMap(s', g, p) ensures !InMap(s', p) {
      TakerIsOldOrTakesNow(s, st, g, p);
      if InMap(s', p) { EntryIsOldOrPutNow(s, st, p); }
    }
    forall g, h, p | TookFromMap(s', g, p) && TookFromMap(s', h, p) ensures g == h {
      TakerIsOldOrTakesNow(s, st, g, p);
      TakerIsOldOrTakesNow(s, st, h, p);
    }
  }

  lemma KeepsSentStays(s: State, st: Step)
    requires SentStays(s) && PutsSane(s) && Enabled(s, st)
    ensures SentStays(Apply(s, st))
  {
  }

  lemma StepKeepsInv(s: State, st: Step)
    requires Inv(s) && Enabled(s, st)
    ensures Inv(Apply(s, st))
  {
    KeepsWaitersOwned(s, st);
    KeepsResultsFiled(s, st);
    KeepsPutsSane(s, st);
    KeepsMessagesAddressed(s, st);
    KeepsOutcomesGenuine(s, st);
    KeepsMapCopyUnique(s, st);
    KeepsSentStays(s, st);
  }

  lemma {:induction false} InvAlways(r: Run, n: nat)
    requires IsRun(r) && n < |r.states|
    ensures Inv(r.states[n])
  {
    if n > 0 {
      InvAlways(r, n - 1);
      assert Next(r, n - 1);
      StepKeepsInv(r.states[n - 1], r.steps[n - 1]);
    }
  }
}
