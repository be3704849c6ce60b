/** What HandleSync's order of registering and enqueueing leaves open, and exactly what it leads to. */
module HubRaces {
  import opened Basics
  import opened StoreSpec
  import P = Protocol
  import PI = ProtocolInvariants
  import PH = ProtocolHistory
  import opened Hub
  import opened HubInvariants
  import opened HubProjection
  import opened HubTheorems

  // ---------- HandleSync swept before its 202 ----------

  /** At step j the sweeper took id's result, and no Put has stored one since. */
  ghost predicate SweptSince(r: Run, j: nat, n: nat, id: string)
    requires IsRun(r)
  {
    && j < n < |r.states| && SweptAt(r, j, id)
    && forall k :: j < k < n ==> !PutIn(r, k, id)
  }

  lemma BecomesKnown(s: P.State, st: P.Step, id: string)
    requires P.Enabled(s, st) && !KnownTo(s, id) && KnownTo(P.Apply(s, st), id)
    ensures PI.PutsFor(s, st, id) || st == P.Register(id)
  {
  }

  lemma SweptIsUnknown(s: P.State, st: P.Step, id: string)
    requires P.Enabled(s, st) && SweepsAway(s, st, P.Apply(s, st), id)
    ensures !KnownTo(P.Apply(s, st), id)
  {
  }

  lemma NotRegisteredAgain(h: State, st: Step, id: string)
    requires Inv(h) && Enabled(h, st) && id in h.pulled
    requires id in Apply(h, st).handlers && Apply(h, st).handlers[id].Sync?
    ensures Inside(st) != P.Register(id) && id in Apply(h, st).pulled && id in h.handlers && h.handlers[id].Sync?
  {
    assert StageSane(h, id);
    SyncStaysSync(h, st, P.Apply(h.proto, Inside(st)), id);
  }

  lemma UnknownNext(h: State, st: Step, id: string)
    requires Inv(h) && Enabled(h, st) && id in h.pulled && !Known(h, id) && !PI.PutsFor(h.proto, Inside(st), id)
    requires id in Apply(h, st).handlers && Apply(h, st).handlers[id].Sync?
    ensures !Known(Apply(h, st), id) && id in h.handlers && h.handlers[id].Sync?
  {
    NotRegisteredAgain(h, st, id);
    ProjectStep(h, st);
    if Known(Apply(h, st), id) { BecomesKnown(h.proto, Inside(st), id); }
  }

  lemma UnknownAfterSweep(h: State, st: Step, h': State, id: string)
    requires Enabled(h, st) && h' == Apply(h, st) && SweepsAway(h.proto, Inside(st), h'.proto, id)
    ensures !Known(h', id)
  {
    ProjectStep(h, st);
    SweptIsUnknown(h.proto, Inside(st), id);
  }

  lemma {:induction false} SyncBefore(r: Run, k: nat, n: nat, id: string)
    requires IsRun(r) && k <= n < |r.states| && id in r.states[k].handlers
    requires id in r.states[n].handlers && r.states[n].handlers[id].Sync?
    ensures r.states[k].handlers[id].Sync?
    decreases n - k
  {
    if k < n {
      assert Next(r, k);
      HandlerStays(r.states[k], r.steps[k], r.states[k + 1].proto, id);
      SyncBefore(r, k + 1, n, id);
    }
  }

  lemma HandlerStays(h: State, st: Step, s': P.State, id: string)
    requires OuterEnabled(h, st) && id in h.handlers
    ensures var h' := OuterApply(h, st, s'); id in h'.handlers && (h'.handlers[id].Sync? <==> h.handlers[id].Sync?)
  {
    if Moves(st) != Some(id) {
      OthersStand(h, st, s', id);
    }
  }

  lemma {:induction false} SweptStaysUnknown(r: Run, j: nat, i: nat, n: nat, id: string)
    requires IsRun(r) && SweptSince(r, j, n, id) && id in r.states[n].handlers && r.states[n].handlers[id].Sync?
    requires j < i <= n
    ensures !Known(r.states[i], id)
    decreases i
  {
    var k := i - 1;
    if i == j + 1 {
      assert Next(r, k);
      UnknownAfterSweep(r.states[k], r.steps[k], r.states[i], id);
    } else {
      SweptStaysUnknown(r, j, k, n, id);
      PulledSinceSwept(r, j, k, id);
      InvAlways(r, k);
      InvAlways(r, i);
      PulledSinceSwept(r, j, i, id);
      SyncBefore(r, i, n, id);
      assert !PutIn(r, k, id) && Next(r, k);
      UnknownNext(r.states[k], r.steps[k], id);
    }
  }

  lemma PulledStays(h: State, st: Step, id: string)
    requires Enabled(h, st) && id in h.pulled
    ensures id in Apply(h, st).pulled
  {
  }

  lemma {:induction false} PulledSinceSwept(r: Run, j: nat, n: nat, id: string)
    requires IsRun(r) && j < n < |r.states| && id in r.states[j].proto.store.results
    ensures id in r.states[n].pulled
    decreases n
  {
    assert Next(r, n - 1);
    if n == j + 1 {
      InvAlways(r, j);
      ResultsWerePulled(r.states[j], id);
    } else {
      PulledSinceSwept(r, j, n - 1, id);
    }
    PulledStays(r.states[n - 1], r.steps[n - 1], id);
  }

  /** A HandleSync that has registered and has no answer yet. */
  predicate Owed(h: State, id: string) {
    id in h.handlers && h.handlers[id].Sync? &&
    (h.handlers[id].sync.SyRegistered? || h.handlers[id].sync.SyQueued? || h.handlers[id].sync.SyWaiting?)
  }

  predicate OwnGetFinds(h: State, id: string) {
    id in h.handlers && h.handlers[id].Sync? && h.handlers[id].sync.SyWaiting? && Finds(h.proto, h.handlers[id].sync.g)
  }

  lemma OthersKeepOwed(h: State, st: Step, s': P.State, id: string)
    requires GetsPrivate(h) && OuterEnabled(h, st) && AskFrame(h.proto, Inside(st), s')
    requires Owed(h, id) && Moves(st) != Some(id) && (Known(h, id) || OwnGetFinds(h, id))
    ensures KnownTo(s', id) || OwnGetFinds(OuterApply(h, st, s'), id) || SweepsAway(h.proto, Inside(st), s', id)
  {
    var inside := Inside(st);
    OthersStand(h, st, s', id);
    assert inside != P.Remove(id);
    assert (inside.First? || inside.Recheck?) && inside.g in h.proto.gets ==>
        MayAsk(h, inside.g, h.proto.gets[inside.g].id);
  }

  lemma OwedNext(h: State, st: Step, s': P.State, id: string)
    requires GetsPrivate(h) && OuterEnabled(h, st) && AskFrame(h.proto, Inside(st), s')
    requires Owed(OuterApply(h, st, s'), id) && (Owed(h, id) ==> Known(h, id) || OwnGetFinds(h, id))
    ensures var h' := OuterApply(h, st, s');
            Known(h', id) || OwnGetFinds(h', id) || SweepsAway(h.proto, Inside(st), s', id)
  {
    if Moves(st) != Some(id) {
      OthersStand(h, st, s', id);
      OthersKeepOwed(h, st, s', id);
    } else {
      match st
      case SyncRegister(_) =>
      case SyncEnqueue(_, _) =>
      case SyncGet(_, _) =>
      case _ =>
    }
  }

  /** Until its answer a HandleSync's id is known, or its own Get has found the result, or it has been swept. */
  lemma {:induction false} KnownFoundOrSwept(r: Run, n: nat, id: string) returns (j: nat)
    requires IsRun(r) && n < |r.states| && Owed(r.states[n], id)
    ensures Known(r.states[n], id) || OwnGetFinds(r.states[n], id) || SweptSince(r, j, n, id)
  {
    j := 0;
    if n > 0 {
      var owed := Owed(r.states[n - 1], id);
      if owed {
        j := KnownFoundOrSwept(r, n - 1, id);
      }
      if owed && !Known(r.states[n - 1], id) && !OwnGetFinds(r.states[n - 1], id) {
        if PutIn(r, n - 1, id) {
          ProjectRunStep(r, n - 1);
          assert Next(r, n - 1);
          PutMakesKnown(r.states[n - 1].proto, Inside(r.steps[n - 1]), id);
        }
      } else {
        OwedRunStep(r, n - 1, id);
        j := n - 1;
      }
    }
  }

  lemma OwedRunStep(r: Run, n: nat, id: string)
    requires IsRun(r) && n < |r.steps| && Owed(r.states[n + 1], id)
    requires Owed(r.states[n], id) ==> Known(r.states[n], id) || OwnGetFinds(r.states[n], id)
    ensures Known(r.states[n + 1], id) || OwnGetFinds(r.states[n + 1], id) || SweptSince(r, n, n + 1, id)
  {
    InvAlways(r, n);
    ProjectRunStep(r, n);
    assert Next(r, n);
    ProtocolAskFrame(r.states[n].proto, Inside(r.steps[n]));
    OwedNext(r.states[n], r.steps[n], r.states[n + 1].proto, id);
  }

  lemma PutMakesKnown(s: P.State, st: P.Step, id: string)
    requires P.Enabled(s, st) && PI.PutsFor(s, st, id)
    ensures KnownTo(P.Apply(s, st), id)
  {
  }

  /** At its 202 an id of HandleSubmit is known; an id of HandleSync is unknown exactly when the sweeper
      has taken its result and no Put has stored one since. */
  lemma UnknownWhenAcceptedIffSwept(r: Run, i: nat, id: string)
    requires IsRun(r) && i < |r.steps| && Accepted(r.states[i + 1], id) && !Accepted(r.states[i], id)
    ensures r.states[i + 1].handlers[id].Submit? ==> Known(r.states[i + 1], id)
    ensures r.states[i + 1].handlers[id].Sync? ==>
              (!Known(r.states[i + 1], id) <==> exists j: nat :: SweptSince(r, j, i, id))
  {
    assert Next(r, i);
    var h, st := r.states[i], r.steps[i];
    assert Enabled(h, st) && r.states[i + 1] == Apply(h, st);
    AcceptedBySubmitOrSync(h, st, id);
    if st == SyncAnswer(id) {
      var j := KnownFoundOrSwept(r, i, id);
      if j: nat :| SweptSince(r, j, i, id) {
        SweptStaysUnknown(r, j, i, i, id);
      }
    }
  }

  /** The promise that HandleSync's Get never meets an unknown id is broken exactly when, at its first lock region,
      the sweeper has taken the result and no Put has stored one since. */
  lemma SyncMissesIffSwept(r: Run, i: nat, g: nat, id: string)
    requires IsRun(r) && i < |r.steps| && IsAt(r.states[i], id, Sync(SyWaiting(g))) && Inside(r.steps[i]) == P.First(g)
    ensures P.OutcomeOf(r.states[i + 1].proto, g) == Some(P.NotFound) <==> exists j: nat :: SweptSince(r, j, i, id)
  {
    InvAlways(r, i);
    assert WaitingHasGet(r.states[i].proto, id, r.states[i].handlers[id]);
    ProjectRunStep(r, i);
    PH.FirstDecides(r.states[i].proto, g);
    var j := KnownFoundOrSwept(r, i, id);
    if j: nat :| SweptSince(r, j, i, id) {
      SweptStaysUnknown(r, j, i, i, id);
    }
  }

  lemma AcceptedBySubmitOrSync(h: State, st: Step, id: string)
    requires Enabled(h, st) && Accepted(Apply(h, st), id) && !Accepted(h, id)
    ensures (st == SubmitRegister(id) && Apply(h, st).handlers[id].Submit? && Known(Apply(h, st), id)) ||
            (st == SyncAnswer(id) && Owed(h, id) && !OwnGetFinds(h, id) && Apply(h, st).proto == h.proto)
  {
    if Moves(st) != Some(id) {
      OthersStand(h, st, P.Apply(h.proto, Inside(st)), id);
    }
  }

  function SyncState(id: string, pc: SyncPc, store: Store<nat>, gets: map<nat, P.Get>, puts: map<nat, P.Put>,
                     now: Time): State
  {
    State(P.State(store, map[], gets, puts, now, 1), map[id := Sync(pc)], {}, {id}, map[])
  }

  lemma SyncRegisteredRun(id: string) returns (r: Run)
    ensures IsRun(r) && Last(r) == State(P.State(Store(map[], {id}, map[]), map[], map[], map[], 0, 1),
                                         map[id := Sync(SyRegistered)], {}, {}, map[])
  {
    r := Run([Init(1)], []);
    r := Then(Then(r, StartSync(id)), SyncRegister(id));
  }

  /** A run to HandleSync about to wait, its request pulled by a worker. */
  lemma SyncPulledRun(id: string) returns (r: Run)
    ensures IsRun(r) && Last(r) == SyncState(id, SyQueued, Store(map[], {id}, map[]), map[], map[], 0)
  {
    r := SyncRegisteredRun(id);
    r := Then(Then(r, SyncEnqueue(id, true)), Pull(id));
  }

  lemma SyncParkedRun(id: string) returns (r: Run)
    ensures IsRun(r)
    ensures Last(r) == SyncState(id, SyWaiting(0), Store(map[], {id}, map[id := 0]),
                                 map[0 := P.Get(id, P.Parked)], map[], 0)
  {
    r := SyncPulledRun(id);
    r := Then(r, SyncGet(id, 0));
    r := Then(r, Inner(P.First(0)));
    assert Last(r) == SyncState(id, SyWaiting(0), Store(map[], {id}, map[id := 0]),
                                map[0 := P.Get(id, P.Registered)], map[], 0);
    r := Then(r, Inner(P.Recheck(0)));
  }

  lemma SyncTimedOutRun(id: string) returns (r: Run)
    ensures IsRun(r)
    ensures Last(r) == SyncState(id, SyWaiting(0), Store(map[], {id}, map[]),
                                 map[0 := P.Get(id, P.Done(P.TimedOut))], map[], 0)
  {
    r := SyncParkedRun(id);
    r := Then(Then(r, Inner(P.TimeOut(0))), Inner(P.Cleanup(0)));
  }

  lemma SyncStoredRun(id: string, x: Result) returns (r: Run)
    requires x.ptr == 0 && x.requestID == id
    ensures IsRun(r)
    ensures Last(r) == SyncState(id, SyWaiting(0), Store(map[id := Entry(x, 1)], {}, map[]),
                                 map[0 := P.Get(id, P.Done(P.TimedOut))], map[0 := P.Put(x, P.Sent(None))], 0)
  {
    r := SyncTimedOutRun(id);
    r := Then(Then(r, Push(0, x)), Inner(P.PutLocked(0)));
  }

  /** It times out, and then a result comes and goes. */
  lemma SyncSweptRun(id: string, x: Result) returns (r: Run)
    requires x.ptr == 0 && x.requestID == id
    ensures IsRun(r)
    ensures Last(r) == SyncState(id, SyWaiting(0), Store(map[], {}, map[]),
                                 map[0 := P.Get(id, P.Done(P.TimedOut))], map[0 := P.Put(x, P.Sent(None))], 2)
  {
    r := SyncStoredRun(id, x);
    r := Then(Then(r, Inner(P.Tick(2))), Inner(P.SweepAt(2)));
  }

  /** So an id can be unknown at its 202. */
  lemma AcceptedUnknown(id: string, x: Result) returns (r: Run)
    requires x.ptr == 0 && x.requestID == id
    ensures IsRun(r) && Last(r).handlers == map[id := Sync(SyAccepted)] && !Known(Last(r), id)
  {
    r := SyncSweptRun(id, x);
    r := Then(r, SyncAnswer(id));
  }

  /** A result that comes and goes before HandleSync begins to wait. */
  lemma SweptEarlyRun(id: string, x: Result) returns (r: Run)
    requires x.ptr == 0 && x.requestID == id
    ensures IsRun(r)
    ensures Last(r) == SyncState(id, SyQueued, Store(map[], {}, map[]), map[], map[0 := P.Put(x, P.Sent(None))], 2)
  {
    r := SyncPulledRun(id);
    r := Then(Then(r, Push(0, x)), Inner(P.PutLocked(0)));
    assert Last(r) == SyncState(id, SyQueued, Store(map[id := Entry(x, 1)], {}, map[]), map[],
                                map[0 := P.Put(x, P.Sent(None))], 0);
    r := Then(Then(r, Inner(P.Tick(2))), Inner(P.SweepAt(2)));
  }

  /** So its 500 can occur. */
  lemma SyncErrorOccurs(id: string, x: Result) returns (r: Run)
    requires x.ptr == 0 && x.requestID == id
    ensures IsRun(r) && Last(r).handlers == map[id := Sync(SyError)]
  {
    r := SweptEarlyRun(id, x);
    r := Then(Then(r, SyncGet(id, 0)), Inner(P.First(0)));
    assert P.At(Last(r).proto, 0, P.Done(P.NotFound)) && Last(r).handlers == map[id := Sync(SyWaiting(0))];
    r := Then(r, SyncAnswer(id));
  }
}
