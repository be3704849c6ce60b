/** The WaitResult loop of pkg/client/online.go against the broker, over whole runs. */
module EndToEnd {
  import opened Basics
  import opened StoreSpec
  import P = Protocol
  import PI = ProtocolInvariants
  import opened Hub
  import opened HubInvariants
  import opened HubTheorems

  /** Only the id's own WaitResult loop polls it, and the sweeper never reaches its result. */
  ghost predicate SoleClient(r: Run, id: string)
    requires IsRun(r)
  {
    forall i :: 0 <= i < |r.steps| ==> SoleStep(r.states[i], r.steps[i], id)
  }

  predicate SoleStep(h: State, st: Step, id: string) {
    && (st.Visit? ==> st.id != id)
    && (Inside(st).SweepAt? && id in h.proto.store.results ==> !Expired(h.proto.store.results[id], Inside(st).at))
  }

  predicate IsCurrent(h: State, id: string, g: nat) { id in h.clients && h.clients[id].cur == Some(g) }

  /** The loop, if there is one, has seen nothing but 204. */
  predicate OnlyEmptyAnswers(h: State, id: string) {
    id in h.clients ==> forall k :: 0 <= k < |h.clients[id].polls| ==> h.clients[id].polls[k] == Status204
  }

  /** After the 202, every Get of the id that is not the poll under way has returned,
      and with nothing as long as the client has seen nothing. */
  ghost predicate Quiet(h: State, id: string) {
    Accepted(h, id) ==> forall g :: g in h.proto.gets && h.proto.gets[g].id == id ==> QuietGet(h, id, g)
  }

  predicate QuietGet(h: State, id: string, g: nat) {
    !IsCurrent(h, id, g) ==> Returned(h, g) && (OnlyEmptyAnswers(h, id) ==> h.proto.gets[g].pc.out == P.TimedOut)
  }

  ghost predicate FoundBySome(s: P.State, id: string) {
    exists g :: FoundBy(s, id, g)
  }

  predicate FoundBy(s: P.State, id: string, g: nat) { g in s.gets && s.gets[g].id == id && Finds(s, g) }

  /** Somebody has been given the result, or it can still be had. */
  ghost predicate Obtainable(h: State, id: string) { Known(h, id) || FoundBySome(h.proto, id) }

  /** A result has been put: it is stored or somebody has been given it. */
  ghost predicate Primed(h: State, id: string) {
    id in h.proto.store.results || FoundBySome(h.proto, id)
  }

  /** The poll under way is not going to be answered 404, and no poll has been. */
  predicate NotMissing(h: State, id: string) {
    id in h.clients ==>
      && (forall k :: 0 <= k < |h.clients[id].polls| ==>
            h.clients[id].polls[k] != Status404 && h.clients[id].polls[k] != Broken)
      && (h.clients[id].cur.Some? ==> P.OutcomeOf(h.proto, h.clients[id].cur.value) != Some(P.NotFound))
  }

  /** Poll g is bringing the result to the client, or the client has it. */
  predicate Delivering(h: State, id: string, g: nat) {
    id in h.clients &&
    ((h.clients[id].cur == Some(g) && Finds(h.proto, g)) ||
     StatusOf(h.clients[id].maxRetries, h.clients[id].polls).Delivered?)
  }

  /** What a protocol step does to Gets that have returned or found something. */
  ghost predicate FoundFrame(s: P.State, st: P.Step, s': P.State) {
    && (forall g :: g in s.gets ==> g in s'.gets && s'.gets[g].id == s.gets[g].id &&
                                    (s.gets[g].pc.Done? ==> s'.gets[g] == s.gets[g]))
    && (forall g :: g in s'.gets && g !in s.gets ==> st.StartGet? && st.g == g && s'.gets[g].id == st.id)
    && (forall g :: Finds(s, g) ==> Finds(s', g))
  }

  predicate GetStays(s: P.State, s': P.State, g: nat)
    requires g in s.gets
  {
    && g in s'.gets && s'.gets[g].id == s.gets[g].id
    && (s.gets[g].pc.Done? ==> s'.gets[g] == s.gets[g])
    && (Finds(s, g) ==> Finds(s', g))
  }

  lemma OldGetStays(s: P.State, st: P.Step, g: nat)
    requires P.Enabled(s, st) && g in s.gets
    ensures GetStays(s, P.Apply(s, st), g)
  {
  }

  lemma ProtocolFoundFrame(s: P.State, st: P.Step)
    requires P.Enabled(s, st)
    ensures FoundFrame(s, st, P.Apply(s, st))
  {
    var s' := P.Apply(s, st);
    ProtocolGetsFrame(s, st);
    forall g | g in s.gets ensures GetStays(s, s', g) {
      OldGetStays(s, st, g);
    }
  }

  /** When a poll is answered, it becomes one of the returned Gets. */
  lemma AnswerKeepsQuietGet(h: State, s': P.State, id: string, g: nat)
    requires Inv(h) && Quiet(h, id) && OuterEnabled(h, ClientAnswer(id)) && FoundFrame(h.proto, P.Idle, s')
    requires g in h.proto.gets && h.proto.gets[g].id == id
    ensures QuietGet(OuterApply(h, ClientAnswer(id), s'), id, g)
  {
    var c, c' := h.clients[id], OuterApply(h, ClientAnswer(id), s').clients[id];
    assert c'.polls[|c.polls|] == Answer(h.proto.gets[c.cur.value].pc.out);
    assert forall k :: 0 <= k < |c.polls| ==> c'.polls[k] == c.polls[k];
  }

  lemma OldGetKeepsQuiet(h: State, st: Step, s': P.State, id: string, g: nat)
    requires Accepted(h, id) && QuietGet(h, id, g) && st != ClientAnswer(id)
    requires OuterEnabled(h, st) && FoundFrame(h.proto, Inside(st), s') && g in h.proto.gets
    ensures QuietGet(OuterApply(h, st, s'), id, g)
  {
    if MovesClient(st) != Some(id) {
      OtherClientsStand(h, st, s', id);
    }
  }

  lemma NewGetIsQuiet(h: State, st: Step, s': P.State, id: string, g: nat)
    requires Inv(h) && Accepted(h, id) && SoleStep(h, st, id)
    requires OuterEnabled(h, st) && FoundFrame(h.proto, Inside(st), s') && g !in h.proto.gets
    requires g in s'.gets && s'.gets[g].id == id
    ensures IsCurrent(OuterApply(h, st, s'), id, g)
  {
  }

  lemma AcceptedBy(h: State, st: Step, s': P.State, id: string)
    requires OuterEnabled(h, st) && !Accepted(h, id) && Accepted(OuterApply(h, st, s'), id)
    ensures st == SubmitRegister(id) || st == SyncAnswer(id)
  {
    if Moves(st) != Some(id) {
      OthersStand(h, st, s', id);
    }
  }

  /** The 202 itself: the only Get there has been is HandleSync's, and it timed out. */
  lemma QuietWhenAccepted(h: State, st: Step, s': P.State, id: string, g: nat)
    requires GetsPrivate(h) && OuterEnabled(h, st) && !Accepted(h, id) && Accepted(OuterApply(h, st, s'), id)
    requires FoundFrame(h.proto, Inside(st), s') && g in s'.gets && s'.gets[g].id == id
    ensures QuietGet(OuterApply(h, st, s'), id, g)
  {
    AcceptedBy(h, st, s', id);
    assert MayAsk(h, g, id);
  }

  lemma KeepsQuiet(h: State, st: Step, s': P.State, id: string)
    requires Inv(h) && Quiet(h, id) && SoleStep(h, st, id)
    requires OuterEnabled(h, st) && FoundFrame(h.proto, Inside(st), s')
    ensures Quiet(OuterApply(h, st, s'), id)
  {
    var h' := OuterApply(h, st, s');
    forall g | Accepted(h', id) && g in s'.gets && s'.gets[g].id == id ensures QuietGet(h', id, g) {
      if st == ClientAnswer(id) {
        AnswerKeepsQuietGet(h, s', id, g);
      } else if !Accepted(h, id) {
        QuietWhenAccepted(h, st, s', id, g);
      } else if g in h.proto.gets {
        OldGetKeepsQuiet(h, st, s', id, g);
      } else {
        NewGetIsQuiet(h, st, s', id, g);
      }
    }
  }

  // ---------- The result stays obtainable, so no poll is answered 404 ----------

  lemma KeepsFoundBySome(s: P.State, st: P.Step, s': P.State, id: string)
    requires FoundFrame(s, st, s') && FoundBySome(s, id)
    ensures FoundBySome(s', id)
  {
    var g :| FoundBy(s, id, g);
    assert FoundBy(s', id, g);
  }

  lemma KeepsObtainable(h: State, st: Step, s': P.State, id: string)
    requires Accepted(h, id) && Obtainable(h, id) && SoleStep(h, st, id)
    requires OuterEnabled(h, st) && FoundFrame(h.proto, Inside(st), s') && AskFrame(h.proto, Inside(st), s')
    ensures KnownTo(s', id) || FoundBySome(s', id)
  {
    if !Known(h, id) {
      KeepsFoundBySome(h.proto, Inside(st), s', id);
    } else if !KnownTo(s', id) {
      assert Inside(st) != P.Remove(id);
      assert FoundBy(s', id, Inside(st).g);
    }
  }

  /** While the client is polling, nobody can have been given the result. */
  lemma NobodyFoundYet(h: State, id: string, g: nat)
    requires Inv(h) && Quiet(h, id) && id in h.clients && h.clients[id].cur.Some? && FoundBy(h.proto, id, g)
    ensures h.clients[id].cur == Some(g)
  {
    assert OnlyEmptyAnswers(h, id);
    assert QuietGet(h, id, g);
  }

  /** So a poll's first lock region finds the id known. */
  lemma PollFindsIdKnown(h: State, id: string, g: nat)
    requires Inv(h) && Quiet(h, id) && Obtainable(h, id) && IsCurrent(h, id, g) && P.At(h.proto, g, P.Called)
    ensures Known(h, id)
  {
    if !Known(h, id) {
      var f :| FoundBy(h.proto, id, f);
      NobodyFoundYet(h, id, f);
      assert false;
    }
  }

  lemma KeepsNotMissing(h: State, st: Step, s': P.State, id: string)
    requires NotMissing(h, id) && (id in h.clients ==> ClientSane(h.proto, id, h.clients[id]))
    requires forall g :: IsCurrent(h, id, g) && P.At(h.proto, g, P.Called) ==> Known(h, id)
    requires OuterEnabled(h, st) && AskFrame(h.proto, Inside(st), s')
    ensures NotMissing(OuterApply(h, st, s'), id)
  {
    if MovesClient(st) != Some(id) {
      OtherClientsStand(h, st, s', id);
    }
  }

  /** One step of a run, without the details of the protocol step inside. */
  lemma Framed(r: Run, k: nat, id: string)
    requires IsRun(r) && k < |r.steps| && SoleClient(r, id)
    ensures var h, st, s' := r.states[k], r.steps[k], r.states[k + 1].proto;
            Inv(h) && OuterEnabled(h, st) && r.states[k + 1] == OuterApply(h, st, s') && SoleStep(h, st, id) &&
            FoundFrame(h.proto, Inside(st), s') && AskFrame(h.proto, Inside(st), s') &&
            ResultFrame(h.proto, Inside(st), s')
  {
    InvAlways(r, k);
    assert Next(r, k);
    ProtocolFoundFrame(r.states[k].proto, Inside(r.steps[k]));
    ProtocolAskFrame(r.states[k].proto, Inside(r.steps[k]));
    ProtocolResultFrame(r.states[k].proto, Inside(r.steps[k]));
  }

  lemma StepNeverMisses(h: State, st: Step, s': P.State, id: string)
    requires Inv(h) && Quiet(h, id) && NotMissing(h, id) && (Accepted(h, id) ==> Obtainable(h, id))
    requires OuterEnabled(h, st) && SoleStep(h, st, id)
    requires FoundFrame(h.proto, Inside(st), s') && AskFrame(h.proto, Inside(st), s')
    ensures Quiet(OuterApply(h, st, s'), id) && NotMissing(OuterApply(h, st, s'), id)
    ensures Accepted(h, id) ==> Obtainable(OuterApply(h, st, s'), id)
  {
    KeepsQuiet(h, st, s', id);
    forall g | IsCurrent(h, id, g) && P.At(h.proto, g, P.Called) ensures Known(h, id) {
      PollFindsIdKnown(h, id, g);
    }
    assert id in h.clients ==> ClientSane(h.proto, id, h.clients[id]);
    KeepsNotMissing(h, st, s', id);
    if Accepted(h, id) {
      KeepsObtainable(h, st, s', id);
    }
  }

  lemma ObtainableWhenAccepted(r: Run, n: nat, id: string)
    requires IsRun(r) && n < |r.steps| && SoleClient(r, id)
    requires !Accepted(r.states[n], id) && Accepted(r.states[n + 1], id)
    ensures Obtainable(r.states[n + 1], id)
  {
    var j := KnownWhenAccepted(r, n, id);
    if j < n { Framed(r, j, id); }
  }

  lemma NeverMissesNext(r: Run, n: nat, id: string)
    requires IsRun(r) && n < |r.steps| && SoleClient(r, id)
    requires Quiet(r.states[n], id) && NotMissing(r.states[n], id)
    requires Accepted(r.states[n], id) ==> Obtainable(r.states[n], id)
    ensures Quiet(r.states[n + 1], id) && NotMissing(r.states[n + 1], id)
    ensures Accepted(r.states[n + 1], id) ==> Obtainable(r.states[n + 1], id)
  {
    Framed(r, n, id);
    StepNeverMisses(r.states[n], r.steps[n], r.states[n + 1].proto, id);
    if !Accepted(r.states[n], id) && Accepted(r.states[n + 1], id) {
      ObtainableWhenAccepted(r, n, id);
    }
  }

  lemma {:induction false} ClientNeverMisses(r: Run, n: nat, id: string)
    requires IsRun(r) && n < |r.states| && SoleClient(r, id)
    ensures Quiet(r.states[n], id) && NotMissing(r.states[n], id)
    ensures Accepted(r.states[n], id) ==> Obtainable(r.states[n], id)
  {
    if n > 0 {
      ClientNeverMisses(r, n - 1, id);
      NeverMissesNext(r, n - 1, id);
    }
  }

  // ---------- A Put before a poll's first lock region reaches the client ----------

  /** How a stored result can leave the map. */
  ghost predicate ResultFrame(s: P.State, st: P.Step, s': P.State) {
    && (forall id :: id in s.store.results && id !in s'.store.results ==>
          || st == P.Remove(id)
          || (st.SweepAt? && Expired(s.store.results[id], st.at))
          || ((st.First? || st.Recheck?) && st.g in s.gets && s.gets[st.g].id == id && Finds(s', st.g)))
    && (forall g :: st == P.First(g) && g in s.gets && s.gets[g].id in s.store.results ==> Finds(s', g))
    && (forall id :: PI.PutsFor(s, st, id) ==> id in s'.store.results)
  }

  lemma ProtocolResultFrame(s: P.State, st: P.Step)
    requires P.Enabled(s, st)
    ensures ResultFrame(s, st, P.Apply(s, st))
  {
  }

  lemma KeepsPrimed(h: State, st: Step, s': P.State, id: string)
    requires Inv(h) && SoleStep(h, st, id) && OuterEnabled(h, st)
    requires FoundFrame(h.proto, Inside(st), s') && ResultFrame(h.proto, Inside(st), s')
    requires Primed(h, id) || PI.PutsFor(h.proto, Inside(st), id)
    ensures id in s'.store.results || FoundBySome(s', id)
  {
    if FoundBySome(h.proto, id) {
      KeepsFoundBySome(h.proto, Inside(st), s', id);
    } else if id in h.proto.store.results && id !in s'.store.results {
      ResultsWerePulled(h, id);
      assert FoundBy(s', id, Inside(st).g);
    }
  }

  ghost predicate PutAt(r: Run, i: nat, id: string)
    requires IsRun(r)
  {
    i < |r.steps| && PI.PutsFor(r.states[i].proto, Inside(r.steps[i]), id)
  }

  ghost predicate PollStartsAt(r: Run, j: nat, id: string, g: nat)
    requires IsRun(r)
  {
    j < |r.steps| && Inside(r.steps[j]) == P.First(g) && IsCurrent(r.states[j], id, g)
  }

  lemma PrimedNext(r: Run, k: nat, id: string)
    requires IsRun(r) && k < |r.steps| && SoleClient(r, id) && (Primed(r.states[k], id) || PutAt(r, k, id))
    ensures Primed(r.states[k + 1], id)
  {
    Framed(r, k, id);
    assert Next(r, k);
    KeepsPrimed(r.states[k], r.steps[k], r.states[k + 1].proto, id);
  }

  lemma {:induction false} PrimedByPut(r: Run, i: nat, n: nat, id: string)
    requires IsRun(r) && i < n < |r.states| && SoleClient(r, id) && PutAt(r, i, id)
    ensures Primed(r.states[n], id)
    decreases n
  {
    if i < n - 1 {
      PrimedByPut(r, i, n - 1, id);
    }
    PrimedNext(r, n - 1, id);
  }

  /** So a poll's first lock region finds the result. */
  lemma PollFindsResult(h: State, id: string, g: nat)
    requires Inv(h) && Quiet(h, id) && Primed(h, id) && IsCurrent(h, id, g) && P.At(h.proto, g, P.Called)
    ensures id in h.proto.store.results
  {
    if id !in h.proto.store.results {
      var f :| FoundBy(h.proto, id, f);
      NobodyFoundYet(h, id, f);
      assert false;
    }
  }

  lemma KeepsDelivering(h: State, st: Step, s': P.State, id: string, g: nat)
    requires OuterEnabled(h, st) && FoundFrame(h.proto, Inside(st), s')
    requires id in h.clients ==> ClientSane(h.proto, id, h.clients[id])
    requires Delivering(h, id, g) || (Inside(st) == P.First(g) && IsCurrent(h, id, g) && Finds(s', g))
    ensures Delivering(OuterApply(h, st, s'), id, g)
  {
    if MovesClient(st) != Some(id) {
      OtherClientsStand(h, st, s', id);
    }
  }

  lemma DeliveringNext(r: Run, k: nat, id: string, g: nat)
    requires IsRun(r) && k < |r.steps| && SoleClient(r, id)
    requires Delivering(r.states[k], id, g) || (PollStartsAt(r, k, id, g) && Primed(r.states[k], id))
    ensures Delivering(r.states[k + 1], id, g)
  {
    Framed(r, k, id);
    if !Delivering(r.states[k], id, g) {
      ClientNeverMisses(r, k, id);
      assert P.At(r.states[k].proto, g, P.Called) by { assert Enabled(r.states[k], r.steps[k]); }
      PollFindsResult(r.states[k], id, g);
    }
    assert Next(r, k);
    KeepsDelivering(r.states[k], r.steps[k], r.states[k + 1].proto, id, g);
  }

  /** End to end: for an id that got its 202 and is polled by one WaitResult loop, if some Put of the id
      takes effect (step i) before the first lock region (step j) of one of the loop's polls, that poll
      is answered with a result of the id or WaitResult has returned one. */
  lemma {:induction false} PutBeforePollIsDelivered(r: Run, id: string, i: nat, j: nat, n: nat, g: nat)
    requires IsRun(r) && SoleClient(r, id) && i < j < n < |r.states| && PutAt(r, i, id) && PollStartsAt(r, j, id, g)
    ensures Delivering(r.states[n], id, g)
    decreases n
  {
    if j < n - 1 {
      PutBeforePollIsDelivered(r, id, i, j, n - 1, g);
    } else {
      PrimedByPut(r, i, j, id);
    }
    DeliveringNext(r, n - 1, id, g);
  }

  lemma KeepsRetries(h: State, st: Step, s': P.State, id: string)
    requires OuterEnabled(h, st) && id in h.clients
    ensures id in OuterApply(h, st, s').clients
    ensures OuterApply(h, st, s').clients[id].maxRetries == h.clients[id].maxRetries
  {
    if MovesClient(st) != Some(id) {
      OtherClientsStand(h, st, s', id);
    }
  }

  /** A loop has the number of retries that its caller gave. */
  lemma {:induction false} RetriesAsCalled(r: Run, i: nat, n: nat, id: string, maxRetries: int)
    requires IsRun(r) && i < n < |r.states| && r.steps[i] == StartWait(id, maxRetries)
    ensures id in r.states[n].clients && r.states[n].clients[id].maxRetries == maxRetries
    decreases n
  {
    assert Next(r, n - 1);
    if i < n - 1 {
      RetriesAsCalled(r, i, n - 1, id, maxRetries);
      KeepsRetries(r.states[n - 1], r.steps[n - 1], r.states[n].proto, id);
    }
  }

  /** What WaitResult can report, in any state: it never says the id is missing, it has polled at most
      MaxRetries+1 times, a result it returns was put for its id, and if it gives up then no Put of the
      id took effect before the first lock region of any of its polls. */
  lemma WaitResultEndToEnd(r: Run, id: string, n: nat)
    requires IsRun(r) && SoleClient(r, id) && n < |r.states| && id in r.states[n].clients
    ensures var c := r.states[n].clients[id];
            var status := StatusOf(c.maxRetries, c.polls);
            && status != Missing && status != Failed
            && |c.polls| <= Max(0, c.maxRetries + 1)
            && (status == Exhausted ==>
                  |c.polls| == Max(0, c.maxRetries + 1) && forall k :: 0 <= k < |c.polls| ==> c.polls[k] == Status204)
            && (status == Polling <==>
                  |c.polls| < Max(0, c.maxRetries + 1) && forall k :: 0 <= k < |c.polls| ==> c.polls[k] == Status204)
            && (status.Delivered? <==> |c.polls| > 0 && c.polls[|c.polls| - 1].Status200?)
            && (status.Delivered? ==> c.polls[|c.polls| - 1] == Status200(status.result))
            && (status.Delivered? ==> status.result.requestID == id && PI.Written(r.states[n].proto, status.result))
            && (status == Exhausted ==>
                  forall i, j, g | 0 <= i < j < n && PutAt(r, i, id) :: !PollStartsAt(r, j, id, g))
  {
    InvAlways(r, n);
    ClientNeverMisses(r, n, id);
    var c := r.states[n].clients[id];
    if StatusOf(c.maxRetries, c.polls) == Exhausted {
      forall i, j, g | 0 <= i < j < n && PutAt(r, i, id) ensures !PollStartsAt(r, j, id, g) {
        if PollStartsAt(r, j, id, g) {
          PutBeforePollIsDelivered(r, id, i, j, n, g);
        }
      }
    }
  }
}
