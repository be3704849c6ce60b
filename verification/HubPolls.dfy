/** What a poll of an id that has been answered for is told, as a function of what has happened to the id. */
module HubPolls {
  import opened Basics
  import opened StoreSpec
  import P = Protocol
  import PI = ProtocolInvariants
  import PH = ProtocolHistory
  import PM = ProtocolMarks
  import PT = ProtocolTheorems
  import opened Hub
  import opened HubInvariants
  import opened HubProjection
  import opened HubRaces
  import opened HubTheorems

  // ---------- Ids whose handler has registered them ----------

  /** The handler has registered the id and will not undo it. */
  predicate Registered(h: State, id: string) {
    id in h.handlers && !NotRegistered(h.handlers[id]) && h.handlers[id] != Sync(SyFull)
  }

  lemma PublishedIsRegistered(h: State, id: string)
    requires Published(h, id)
    ensures Registered(h, id)
  {
  }

  lemma PublishedNext(h: State, st: Step, s': P.State, id: string)
    requires OuterEnabled(h, st) && Published(h, id)
    ensures Published(OuterApply(h, st, s'), id) && Inside(st) != P.Register(id) && Inside(st) != P.Remove(id)
  {
    if Moves(st) != Some(id) {
      OthersStand(h, st, s', id);
    }
  }

  lemma {:induction false} PublishedForever(r: Run, m: nat, n: nat, id: string)
    requires IsRun(r) && m <= n < |r.states| && Published(r.states[m], id)
    ensures Published(r.states[n], id)
    decreases n
  {
    if m < n {
      PublishedForever(r, m, n - 1, id);
      assert Next(r, n - 1);
      PublishedNext(r.states[n - 1], r.steps[n - 1], r.states[n].proto, id);
    }
  }

  lemma NothingNewWhilePublished(r: Run, m: nat, n: nat, id: string)
    requires IsRun(r) && m <= n < |r.states| && Published(r.states[m], id) && NoPutIn(r, m, n, id)
    ensures PM.NothingNew(Project(r), m, n, id)
    ensures forall k :: m <= k < n ==> Project(r).steps[k] != P.Register(id)
  {
    forall k | m <= k < n
      ensures !PI.PutsFor(Project(r).states[k], Project(r).steps[k], id)
      ensures Project(r).steps[k] != P.Remove(id) && Project(r).steps[k] != P.Register(id)
    {
      PublishedForever(r, m, k, id);
      assert Next(r, k) && !PutIn(r, k, id);
      PublishedNext(r.states[k], r.steps[k], r.states[k + 1].proto, id);
    }
  }

  // ---------- Polls of an id that is not stored ----------

  /** Published and pending, with no result stored: none has come yet, or it has been handed out to no effect on
      the mark. */
  predicate PendingNotStored(h: State, id: string) {
    Published(h, id) && id in h.proto.store.pending && id !in h.proto.store.results
  }

  /** A Get of the id that has begun since s0. */
  predicate LaterGet(s0: P.State, s: P.State, g: nat, id: string) {
    g !in s0.gets && g in s.gets && s.gets[g].id == id
  }

  /** From such a state on, as long as no worker pushes the id, it stays pending, and every Get of it that
      begins later is unanswered or has timed out: the client is told 204, never 404. */
  lemma PollsTimeOutWhilePending(r: Run, m: nat, n: nat, id: string)
    requires IsRun(r) && m <= n < |r.states| && PendingNotStored(r.states[m], id)
    requires NoPutIn(r, m, n, id)
    ensures PendingNotStored(r.states[n], id)
    ensures forall g :: LaterGet(r.states[m].proto, r.states[n].proto, g, id) ==>
              P.OutcomeOf(r.states[n].proto, g) in {None, Some(P.TimedOut)}
  {
    var p := Project(r);
    NothingNewWhilePublished(r, m, n, id);
    PublishedForever(r, m, n, id);
    PM.PendingForever(p, m, n, n, id);
    forall g: nat | LaterGet(r.states[m].proto, r.states[n].proto, g, id)
      ensures P.OutcomeOf(r.states[n].proto, g) in {None, Some(P.TimedOut)}
    {
      PM.PendingGetTimesOut(p, m, n, n, g, id);
    }
  }

  /** Once the result of an id is gone, and until another is put, a poll that begins later is answered 404 exactly
      when the id is not pending, and 204 otherwise. */
  lemma AfterDelivery(r: Run, m: nat, n: nat, id: string, g: nat)
    requires IsRun(r) && m <= n < |r.states| && Published(r.states[m], id) && id !in r.states[m].proto.store.results
    requires NoPutIn(r, m, n, id) && LaterGet(r.states[m].proto, r.states[n].proto, g, id)
    requires P.OutcomeOf(r.states[n].proto, g).Some?
    ensures P.OutcomeOf(r.states[n].proto, g) ==
            Some(if id in r.states[m].proto.store.pending then P.TimedOut else P.NotFound)
  {
    if id in r.states[m].proto.store.pending {
      PollsTimeOutWhilePending(r, m, n, id);
      assert LaterGet(r.states[m].proto, r.states[n].proto, g, id);
    } else {
      NothingNewWhilePublished(r, m, n, id);
      PM.UnknownGetMisses(Project(r), m, n, n, g, id);
    }
  }

  // ---------- The exact condition, from the history of the id ----------

  ghost predicate RegisteredAt(r: Run, a: nat, id: string)
    requires IsRun(r)
  {
    a < |r.steps| && Inside(r.steps[a]) == P.Register(id)
  }

  /** At step j a Get takes the id's result from the map and returns it, or the sweeper takes it. */
  ghost predicate TakenIn(r: Run, j: nat, id: string)
    requires IsRun(r)
  {
    j < |r.steps| && PH.TakesResult(r.states[j].proto, Inside(r.steps[j]), id)
  }

  /** Since its registration the id has been put, last at step k, and that result has been taken at step j. */
  ghost predicate HandedOut(r: Run, a: nat, k: nat, j: nat, n: nat, id: string)
    requires IsRun(r)
  {
    a < k < j < n && RegisteredAt(r, a, id) && PutIn(r, k, id) && NoPutIn(r, k + 1, n, id) && TakenIn(r, j, id)
  }

  /** The id was put at step k, not again, and that result has not been taken. */
  ghost predicate StillStored(r: Run, k: nat, n: nat, id: string)
    requires IsRun(r)
  {
    k < n && PutIn(r, k, id) && NoPutIn(r, k + 1, n, id) && forall j :: k < j < n ==> !TakenIn(r, j, id)
  }

  // An id is registered once, and while it is Registered it has been, and is never deleted.

  /** The handler, if there is one, will not register the id (again). */
  predicate WontRegister(h: State, id: string) {
    id in h.handlers && h.handlers[id] != Sync(SyCalled) &&
    h.handlers[id] != Submit(SubCalled) && h.handlers[id] != Submit(SubQueued)
  }

  lemma WontRegisterNext(h: State, st: Step, s': P.State, id: string)
    requires OuterEnabled(h, st) && (WontRegister(h, id) || Inside(st) == P.Register(id))
    ensures WontRegister(OuterApply(h, st, s'), id) && (WontRegister(h, id) ==> Inside(st) != P.Register(id))
  {
    if Moves(st) != Some(id) {
      OthersStand(h, st, s', id);
    }
  }

  lemma {:induction false} RegistersOnce(r: Run, a: nat, n: nat, id: string)
    requires IsRun(r) && a < n < |r.states| && RegisteredAt(r, a, id)
    ensures WontRegister(r.states[n], id)
    decreases n
  {
    assert Next(r, n - 1);
    if a < n - 1 {
      RegistersOnce(r, a, n - 1, id);
    }
    WontRegisterNext(r.states[n - 1], r.steps[n - 1], r.states[n].proto, id);
  }

  lemma RegisteredOnce(r: Run, a: nat, b: nat, id: string)
    requires IsRun(r) && RegisteredAt(r, a, id) && RegisteredAt(r, b, id)
    ensures a == b
  {
    if a < b {
      RegistersOnce(r, a, b, id);
      assert Next(r, b);
      WontRegisterNext(r.states[b], r.steps[b], r.states[b + 1].proto, id);
    } else if b < a {
      RegisteredOnce(r, b, a, id);
    }
  }

  lemma RegisteredBefore(h: State, st: Step, s': P.State, id: string)
    requires OuterEnabled(h, st) && Registered(OuterApply(h, st, s'), id)
    ensures (Registered(h, id) && Inside(st) != P.Remove(id)) || Inside(st) == P.Register(id)
  {
    if Moves(st) != Some(id) {
      OthersStand(h, st, s', id);
    }
  }

  lemma {:induction false} WasRegistered(r: Run, n: nat, id: string) returns (a: nat)
    requires IsRun(r) && n < |r.states| && Registered(r.states[n], id)
    ensures a < n && RegisteredAt(r, a, id) && forall k :: a <= k < n ==> Inside(r.steps[k]) != P.Remove(id)
  {
    assert n > 0;
    a := n - 1;
    assert Next(r, a);
    RegisteredBefore(r.states[a], r.steps[a], r.states[n].proto, id);
    if Inside(r.steps[a]) != P.Register(id) {
      a := WasRegistered(r, a, id);
    }
  }

  lemma LastPut(r: Run, k0: nat, n: nat, id: string) returns (k: nat)
    requires IsRun(r) && k0 < n < |r.states| && PutIn(r, k0, id)
    ensures k0 <= k < n && PutIn(r, k, id) && NoPutIn(r, k + 1, n, id)
    decreases n - k0
  {
    k := k0;
    if !NoPutIn(r, k0 + 1, n, id) {
      var i :| k0 + 1 <= i < n && PutIn(r, i, id);
      k := LastPut(r, i, n, id);
    }
  }

  lemma RefusedNext(h: State, st: Step, s': P.State, id: string)
    requires OuterEnabled(h, st) && (IsAt(h, id, Sync(SyRefused)) || Inside(st) == P.Remove(id))
    ensures IsAt(OuterApply(h, st, s'), id, Sync(SyRefused))
  {
    if Moves(st) != Some(id) {
      OthersStand(h, st, s', id);
    }
  }

  lemma {:induction false} RefusedForever(r: Run, k: nat, n: nat, id: string)
    requires IsRun(r) && k < n < |r.states| && Inside(r.steps[k]) == P.Remove(id)
    ensures IsAt(r.states[n], id, Sync(SyRefused))
    decreases n
  {
    assert Next(r, n - 1);
    if k < n - 1 {
      RefusedForever(r, k, n - 1, id);
    }
    RefusedNext(r.states[n - 1], r.steps[n - 1], r.states[n].proto, id);
  }

  /** What the protocol's history of a registered id says, in the broker's terms. */
  lemma HistoryOf(r: Run, n: nat, id: string)
    requires IsRun(r) && n < |r.states| && Registered(r.states[n], id)
    ensures forall k :: 0 <= k < n ==> (PH.PutOrDelete(Project(r), k, id) <==> PutIn(r, k, id))
    ensures forall k :: 0 <= k < n ==> (PH.PutAt(Project(r), k, id) <==> PutIn(r, k, id))
    ensures forall k :: 0 <= k < n ==> (PH.TakenAt(Project(r), k, id) <==> TakenIn(r, k, id))
  {
    forall k | 0 <= k < n ensures Inside(r.steps[k]) != P.Remove(id) {
      if Inside(r.steps[k]) == P.Remove(id) {
        RefusedForever(r, k, n, id);
      }
    }
  }

  lemma StoredInHistory(r: Run, k: nat, n: nat, id: string)
    requires IsRun(r) && n < |r.states| && Registered(r.states[n], id)
    ensures PH.StoredSince(Project(r), k, n, id) <==> StillStored(r, k, n, id)
  {
    HistoryOf(r, n, id);
    if k < n && NoPutIn(r, k + 1, n, id) {
      assert forall j :: k < j < n ==> !PutIn(r, j, id);
    }
  }

  /** Neither pending nor stored: then it has been handed out. */
  lemma UnknownWasHandedOut(r: Run, n: nat, id: string) returns (a: nat, k: nat, j: nat)
    requires IsRun(r) && n < |r.states| && Registered(r.states[n], id) && !Known(r.states[n], id)
    ensures HandedOut(r, a, k, j, n, id)
  {
    var p := Project(r);
    HistoryOf(r, n, id);
    a := WasRegistered(r, n, id);
    PH.PendingIff(p, n, id);
    PH.StoredIff(p, n, id);
    assert !PH.MarkedSince(p, a, n, id);
    var k0 :| a < k0 < n && PH.PutOrDelete(p, k0, id);
    k := LastPut(r, k0, n, id);
    assert !PH.StoredSince(p, k, n, id);
    assert forall i :: k < i < n ==> !PutIn(r, i, id);
    j :| k < j < n && (PH.PutOrDelete(p, j, id) || PH.TakenAt(p, j, id));
  }

  lemma HandedOutIsUnknown(r: Run, a: nat, k: nat, j: nat, n: nat, id: string)
    requires IsRun(r) && n < |r.states| && Registered(r.states[n], id) && HandedOut(r, a, k, j, n, id)
    ensures !Known(r.states[n], id)
  {
    var p := Project(r);
    HistoryOf(r, n, id);
    PH.PendingIff(p, n, id);
    PH.StoredIff(p, n, id);
    assert PH.PutOrDelete(p, k, id) && PH.TakenAt(p, j, id);
    forall b: nat ensures !PH.MarkedSince(p, b, n, id) {
      if RegisteredAt(r, b, id) {
        RegisteredOnce(r, a, b, id);
      }
    }
    forall l: nat ensures !PH.StoredSince(p, l, n, id) {
      if k < l < n {
        assert !PutIn(r, l, id);
      }
    }
  }

  /** An id its handler has registered is unknown exactly when it has been handed out. */
  lemma UnknownIffHandedOut(r: Run, n: nat, id: string)
    requires IsRun(r) && n < |r.states| && Registered(r.states[n], id)
    ensures !Known(r.states[n], id) <==> exists a: nat, k: nat, j: nat :: HandedOut(r, a, k, j, n, id)
  {
    if !Known(r.states[n], id) {
      var a, k, j := UnknownWasHandedOut(r, n, id);
    }
    if a: nat, k: nat, j: nat :| HandedOut(r, a, k, j, n, id) {
      HandedOutIsUnknown(r, a, k, j, n, id);
    }
  }

  /** The poll served by Get g has its first lock region at step i. */
  ghost predicate PollStarts(r: Run, i: nat, g: nat, id: string)
    requires IsRun(r)
  {
    && i < |r.steps| && Inside(r.steps[i]) == P.First(g)
    && g in r.states[i].proto.gets && r.states[i].proto.gets[g].id == id
  }

  lemma PollDecided(r: Run, i: nat, g: nat, id: string)
    requires IsRun(r) && PollStarts(r, i, g, id)
    ensures var h, o := r.states[i], P.OutcomeOf(r.states[i + 1].proto, g);
            && (o == Some(P.NotFound) <==> !Known(h, id))
            && (o == None <==> Known(h, id) && id !in h.proto.store.results)
            && (id in h.proto.store.results ==> o == Some(P.Found(h.proto.store.results[id].result, P.FromMap)))
    ensures g in r.states[i + 1].proto.gets && !r.states[i + 1].proto.gets[g].pc.Called?
  {
    ProjectRunStep(r, i);
    PH.FirstDecides(r.states[i].proto, g);
  }

  /** When a poll is answered 404: for an id that has been answered for, or is HandleSync's own, a poll ends in 404
      if and only if, before its first lock region, the id has been put since its registration and the
      last such result has been taken from the map, by a Get that returned it or by the sweeper. */
  lemma MissingIffHandedOut(r: Run, i: nat, n: nat, g: nat, id: string)
    requires IsRun(r) && PollStarts(r, i, g, id) && i < n < |r.states| && Registered(r.states[i], id)
    requires P.OutcomeOf(r.states[n].proto, g).Some?
    ensures P.OutcomeOf(r.states[n].proto, g) == Some(P.NotFound) <==>
            exists a: nat, k: nat, j: nat :: HandedOut(r, a, k, j, i, id)
  {
    PollDecided(r, i, g, id);
    UnknownIffHandedOut(r, i, id);
    if P.OutcomeOf(r.states[i + 1].proto, g).Some? {
      PT.OutcomeFinal(Project(r), i + 1, n, g);
    } else {
      PM.WaitingNeverMisses(Project(r), i + 1, n, g);
    }
  }

  /** And it is answered 200 at once, with what a Put wrote, if and only if that Put's result is still stored:
      also when it has been delivered before, by a channel. */
  lemma StoredIffHandedOutAgain(r: Run, i: nat, g: nat, id: string)
    requires IsRun(r) && PollStarts(r, i, g, id) && Registered(r.states[i], id)
    ensures var o := P.OutcomeOf(r.states[i + 1].proto, g);
            && (o.Some? && o.value.Found? <==> exists k: nat :: StillStored(r, k, i, id))
            && forall k: nat :: StillStored(r, k, i, id) ==>
                 o == Some(P.Found(r.states[k].proto.puts[Inside(r.steps[k]).p].result, P.FromMap))
  {
    var p := Project(r);
    PollDecided(r, i, g, id);
    PH.StoredIff(p, i, id);
    forall k: nat ensures PH.StoredSince(p, k, i, id) <==> StillStored(r, k, i, id) {
      StoredInHistory(r, k, i, id);
    }
    forall k: nat | StillStored(r, k, i, id)
      ensures id in r.states[i].proto.store.results
      ensures r.states[i].proto.store.results[id].result == r.states[k].proto.puts[Inside(r.steps[k]).p].result
    {
      PH.StoredIsPut(p, k, i, id);
    }
  }

  // ---------- A request dropped as expired ----------

  /** An id is queued once, and a dropped one is never pulled. */
  predicate QueuedOnce(h: State, id: string) {
    && !(id in h.queued && id in h.pulled)
    && (id in h.queued || id in h.pulled ==> id in h.handlers)
    && (id in h.handlers && BeforeQueue(h.handlers[id]) ==> id !in h.queued && id !in h.pulled)
  }

  lemma QueuedOnceNext(h: State, st: Step, s': P.State, id: string)
    requires OuterEnabled(h, st) && QueuedOnce(h, id)
    ensures QueuedOnce(OuterApply(h, st, s'), id)
  {
    if Moves(st) != Some(id) {
      OthersStand(h, st, s', id);
    }
  }

  lemma {:induction false} QueuedOnceAlways(r: Run, n: nat, id: string)
    requires IsRun(r) && n < |r.states|
    ensures QueuedOnce(r.states[n], id)
  {
    if n > 0 {
      QueuedOnceAlways(r, n - 1, id);
      assert Next(r, n - 1);
      QueuedOnceNext(r.states[n - 1], r.steps[n - 1], r.states[n].proto, id);
    }
  }

  /** Past its queue, and with nothing queued or pulled. */
  predicate Dropped(h: State, id: string) {
    id in h.handlers && !BeforeQueue(h.handlers[id]) && id !in h.queued && id !in h.pulled
  }

  lemma DroppedNext(h: State, st: Step, s': P.State, id: string)
    requires OuterEnabled(h, st) && (Dropped(h, id) || (st == DropExpired(id) && QueuedOnce(h, id)))
    ensures Dropped(OuterApply(h, st, s'), id)
  {
    if Moves(st) != Some(id) {
      OthersStand(h, st, s', id);
    }
  }

  lemma {:induction false} DroppedForever(r: Run, d: nat, n: nat, id: string)
    requires IsRun(r) && d < n < |r.states| && r.steps[d] == DropExpired(id)
    ensures Dropped(r.states[n], id)
    decreases n
  {
    assert Next(r, n - 1);
    if d == n - 1 {
      QueuedOnceAlways(r, d, id);
    } else {
      DroppedForever(r, d, n - 1, id);
    }
    DroppedNext(r.states[n - 1], r.steps[n - 1], r.states[n].proto, id);
  }

  lemma PulledStaysTo(r: Run, k: nat, n: nat, id: string)
    requires IsRun(r) && k <= n < |r.states| && id in r.states[k].pulled
    ensures id in r.states[n].pulled
    decreases n
  {
    if k < n {
      PulledStaysTo(r, k, n - 1, id);
      assert Next(r, n - 1);
      PulledStays(r.states[n - 1], r.steps[n - 1], id);
    }
  }

  /** So nobody ever puts a result for it. */
  lemma DroppedNeverPut(r: Run, d: nat, k: nat, id: string)
    requires IsRun(r) && d < |r.steps| && r.steps[d] == DropExpired(id)
    ensures !PutIn(r, k, id)
  {
    if PutIn(r, k, id) {
      InvAlways(r, k);
      var n := Max(d + 1, k);
      DroppedForever(r, d, n, id);
      PulledStaysTo(r, k, n, id);
    }
  }

  /** When a request's TTL passes and it is dropped, no poll of its id is ever answered 404. */
  lemma DroppedNeverMissing(r: Run, d: nat, i: nat, n: nat, g: nat, id: string)
    requires IsRun(r) && d < |r.steps| && r.steps[d] == DropExpired(id)
    requires PollStarts(r, i, g, id) && i < n < |r.states| && Registered(r.states[i], id)
    ensures P.OutcomeOf(r.states[n].proto, g) != Some(P.NotFound)
  {
    if P.OutcomeOf(r.states[n].proto, g).Some? {
      MissingIffHandedOut(r, i, n, g, id);
      forall k: nat ensures !PutIn(r, k, id) {
        DroppedNeverPut(r, d, k, id);
      }
    }
  }

  // ---------- Runs ----------

  /** A result handed out by HandleSubmit's poll, with the mark set after it: pending, and nothing stored. */
  lemma OvertakenRun(id: string, x: Result) returns (r: Run)
    requires x.ptr == 0 && x.requestID == id
    ensures IsRun(r) && PendingNotStored(Last(r), id)
    ensures P.OutcomeOf(Last(r).proto, 0) == Some(P.Found(x, P.FromMap))
  {
    r := SubmitOvertakenByWorker(id, x);
    var h := Last(r);
    r := Then(r, Visit(id, 0));
    assert Last(r).proto.store == h.proto.store && P.At(Last(r).proto, 0, P.Called) && Accepted(Last(r), id);
    r := Then(r, Inner(P.First(0)));
  }

  /** The same state, by a request that is dropped as expired after the 202. */
  lemma DroppedRun(id: string) returns (r: Run)
    ensures IsRun(r) && |r.steps| == 4 && r.steps[3] == DropExpired(id) && PendingNotStored(Last(r), id)
  {
    r := Run([Init(1)], []);
    r := Then(r, StartSubmit(id));
    r := Then(Then(r, SubmitEnqueue(id, true)), SubmitRegister(id));
    assert Last(r) == State(P.State(Store(map[], {id}, map[]), map[], map[], map[], 0, 1),
                            map[id := Submit(SubAccepted)], {id}, {}, map[]);
    r := Then(r, DropExpired(id));
  }

  /** The state while HandleSync's Get is brought the result that stays in the map. */
  function SyncDeliveryState(id: string, x: Result, pc: SyncPc, getPc: P.GetPc, bufs: map<nat, Result>): State {
    State(P.State(Store(map[id := Entry(x, 1)], {}, map[id := 0]), bufs, map[0 := P.Get(id, getPc)],
                  map[0 := P.Put(x, P.Sent(Some(0)))], 0, 1),
          map[id := Sync(pc)], {}, {id}, map[])
  }

  /** HandleSync's Get is sent its result. */
  lemma SyncSentRun(id: string, x: Result) returns (r: Run)
    requires x.ptr == 0 && x.requestID == id
    ensures IsRun(r)
    ensures Last(r) == SyncDeliveryState(id, x, SyWaiting(0), P.Parked, map[0 := x])
  {
    r := SyncParkedRun(id);
    r := Then(Then(r, Push(0, x)), Inner(P.PutLocked(0)));
    assert Last(r) == SyncState(id, SyWaiting(0), Store(map[id := Entry(x, 1)], {}, map[id := 0]),
                                map[0 := P.Get(id, P.Parked)], map[0 := P.Put(x, P.Sending(0))], 0);
    r := Then(r, Inner(P.Send(0)));
    assert Last(r).proto.bufs == map[0 := x];
  }

  lemma SyncReceivedRun(id: string, x: Result) returns (r: Run)
    requires x.ptr == 0 && x.requestID == id
    ensures IsRun(r) && Last(r) == SyncDeliveryState(id, x, SyWaiting(0), P.Leaving(P.Found(x, P.FromChan)), map[])
  {
    r := SyncSentRun(id, x);
    r := Then(r, Inner(P.Receive(0)));
    assert Last(r).proto.bufs == map[];
  }

  /** HandleSync has been answered 200 by the channel, and the result is still in the map. */
  lemma SyncDeliveredRun(id: string, x: Result) returns (r: Run)
    requires x.ptr == 0 && x.requestID == id
    ensures IsRun(r)
    ensures Last(r) == SyncState(id, SyOk(x), Store(map[id := Entry(x, 1)], {}, map[]),
                                 map[0 := P.Get(id, P.Done(P.Found(x, P.FromChan)))],
                                 map[0 := P.Put(x, P.Sent(Some(0)))], 0)
  {
    r := SyncReceivedRun(id, x);
    r := Then(r, Inner(P.Cleanup(0)));
    assert Last(r).proto.store == Store(map[id := Entry(x, 1)], {}, map[]);
    r := Then(r, SyncAnswer(id));
  }

  /** So the next poll of the delivered id is answered 200 again, */
  lemma DeliveredAgainRun(id: string, x: Result) returns (r: Run)
    requires x.ptr == 0 && x.requestID == id
    ensures IsRun(r)
    ensures Last(r) == SyncState(id, SyOk(x), Store(map[], {}, map[]),
                                 map[0 := P.Get(id, P.Done(P.Found(x, P.FromChan))),
                                     1 := P.Get(id, P.Done(P.Found(x, P.FromMap)))],
                                 map[0 := P.Put(x, P.Sent(Some(0)))], 0)
  {
    r := SyncDeliveredRun(id, x);
    r := Then(r, Visit(id, 1));
    r := Then(r, Inner(P.First(1)));
  }

  /** ... and the one after that 404. */
  lemma ThenMissingRun(id: string, x: Result) returns (r: Run)
    requires x.ptr == 0 && x.requestID == id
    ensures IsRun(r) && Published(Last(r), id) && P.OutcomeOf(Last(r).proto, 2) == Some(P.NotFound)
  {
    r := DeliveredAgainRun(id, x);
    r := Then(r, Visit(id, 2));
    assert P.At(Last(r).proto, 2, P.Called) && Published(Last(r), id) && Last(r).proto.store == Store(map[], {}, map[]);
    r := Then(r, Inner(P.First(2)));
  }

  // ---------- The WaitResult loop ----------

  /** All answers so far were 204, and the poll under way began after h0. */
  predicate OnlyEmptySince(h0: State, h: State, id: string) {
    id in h.clients ==>
      && (forall k :: 0 <= k < |h.clients[id].polls| ==> h.clients[id].polls[k] == Status204)
      && (h.clients[id].cur.Some? ==> h.clients[id].cur.value !in h0.proto.gets)
  }

  lemma EmptySinceNext(h0: State, h: State, st: Step, id: string)
    requires Enabled(h, st) && OnlyEmptySince(h0, h, id) && ClientsSane(h)
    requires forall g :: g in h0.proto.gets ==> g in h.proto.gets
    requires forall g :: IsPoll(h, id, g) ==> P.OutcomeOf(h.proto, g) in {None, Some(P.TimedOut)}
    ensures OnlyEmptySince(h0, Apply(h, st), id)
  {
    if MovesClient(st) != Some(id) {
      OtherClientsStand(h, st, P.Apply(h.proto, Inside(st)), id);
    } else if st == ClientAnswer(id) {
      assert IsPoll(h, id, h.clients[id].cur.value);
    }
  }

  lemma EmptySinceRunStep(r: Run, m: nat, i: nat, n: nat, id: string)
    requires IsRun(r) && m <= i < n < |r.states| && PendingNotStored(r.states[m], id) && NoPutIn(r, m, n, id)
    requires OnlyEmptySince(r.states[m], r.states[i], id)
    ensures OnlyEmptySince(r.states[m], r.states[i + 1], id)
  {
    PollsTimeOutWhilePending(r, m, i, id);
    InvAlways(r, i);
    forall g | g in r.states[m].proto.gets ensures g in r.states[i].proto.gets {
      PM.GetsPersist(Project(r), m, i, g);
    }
    assert Next(r, i);
    EmptySinceNext(r.states[m], r.states[i], r.steps[i], id);
  }

  lemma {:induction false} EmptySinceAlways(r: Run, m: nat, i: nat, n: nat, id: string)
    requires IsRun(r) && m <= i <= n < |r.states| && PendingNotStored(r.states[m], id) && id !in r.states[m].clients
    requires NoPutIn(r, m, n, id)
    ensures OnlyEmptySince(r.states[m], r.states[i], id)
    decreases i
  {
    if m < i {
      EmptySinceAlways(r, m, i - 1, n, id);
      EmptySinceRunStep(r, m, i - 1, n, id);
    }
  }

  predicate IsPoll(h: State, id: string, g: nat) { id in h.clients && h.clients[id].cur == Some(g) }

  /** So a WaitResult that begins then polls until its retries run out. */
  lemma WaitExhaustsWhilePending(r: Run, m: nat, n: nat, id: string)
    requires IsRun(r) && m <= n < |r.states| && PendingNotStored(r.states[m], id) && id !in r.states[m].clients
    requires NoPutIn(r, m, n, id)
    requires id in r.states[n].clients
    ensures StatusOf(r.states[n].clients[id].maxRetries, r.states[n].clients[id].polls) in {Polling, Exhausted}
  {
    EmptySinceAlways(r, m, n, n, id);
  }
}
