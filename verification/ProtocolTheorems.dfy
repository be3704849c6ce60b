/** What the long-poll store promises over whole runs, and the runs that show where it stops. */
module ProtocolTheorems {
  import opened Basics
  import opened StoreSpec
  import opened Protocol
  import opened ProtocolInvariants

  // ---------- Results never cross ids, waiters never leak ----------

  /** A Get only ever returns a result pushed for its own id, by a Put that stored it. */
  lemma ResultsNeverCrossIds(r: Run, n: nat, g: nat)
    requires IsRun(r) && n < |r.states|
    requires OutcomeOf(r.states[n], g).Some? && OutcomeOf(r.states[n], g).value.Found?
    ensures OutcomeOf(r.states[n], g).value.result.requestID == r.states[n].gets[g].id
    ensures Written(r.states[n], OutcomeOf(r.states[n], g).value.result)
  {
    InvAlways(r, n);
  }

  lemma {:induction false} InjectionSize<K, V>(m: map<K, V>, s: set<V>)
    requires forall k :: k in m ==> m[k] in s
    requires forall k, l :: k in m && l in m && m[k] == m[l] ==> k == l
    ensures |m| <= |s|
    decreases |m|
  {
    if m != map[] {
      var k :| k in m;
      InjectionSize(m - {k}, s - {m[k]});
      assert |m - {k}| == |m| - 1;
    }
  }

  /** ActiveWaiters counts no more than the Gets in flight on the slow path: none in flight, none counted. */
  lemma ActiveWaitersBounded(r: Run, n: nat)
    requires IsRun(r) && n < |r.states|
    ensures |r.states[n].store.waiters| <= |set g | g in r.states[n].gets && SlowPath(r.states[n], g)|
    ensures forall id :: id in r.states[n].store.waiters ==>
              SlowPath(r.states[n], r.states[n].store.waiters[id]) &&
              r.states[n].gets[r.states[n].store.waiters[id]].id == id
  {
    InvAlways(r, n);
    InjectionSize(r.states[n].store.waiters, set g | g in r.states[n].gets && SlowPath(r.states[n], g));
  }

  // ---------- No lost result ----------

  predicate Holds(s: State, e: Entry) {
    e.result.requestID in s.store.results && s.store.results[e.result.requestID] == e
  }

  /** The four ways an entry may leave the results map. */
  predicate Removes(s: State, st: Step, e: Entry)
    requires Enabled(s, st)
  {
    match st
    case First(g) => OutcomeOf(Apply(s, st), g) == Some(Found(e.result, FromMap))
    case Recheck(g) => OutcomeOf(Apply(s, st), g) == Some(Found(e.result, FromMap))
    case PutLocked(q) => q != e.result.ptr && s.puts[q].result.requestID == e.result.requestID
    case Remove(id) => id == e.result.requestID
    case SweepAt(at) => e.expiresAt < at
    case _ => false
  }

  /** The first lock region of a Get, or its second. */
  lemma TakeRemoves(s: State, st: Step, e: Entry)
    requires ResultsFiled(s) && Enabled(s, st) && Holds(s, e) && (st.First? || st.Recheck?)
    ensures Holds(Apply(s, st), e) <==> !Removes(s, st, e)
  {
    var id := s.gets[st.g].id;
    if id == e.result.requestID {
      assert OutcomeOf(Apply(s, st), st.g) == Some(Found(e.result, FromMap));
    } else {
      assert id in s.store.results ==> s.store.results[id].result.requestID == id;
    }
  }

  lemma OthersKeepResults(s: State, st: Step)
    requires Enabled(s, st)
    requires !st.First? && !st.Recheck? && !st.PutLocked? && !st.Remove? && !st.SweepAt?
    ensures Apply(s, st).store.results == s.store.results
  {
  }

  lemma LeavesOnlyWhenRemoved(s: State, st: Step, e: Entry)
    requires ResultsFiled(s) && PutsSane(s) && Enabled(s, st) && Holds(s, e)
    ensures Holds(Apply(s, st), e) <==> !Removes(s, st, e)
  {
    if st.First? || st.Recheck? {
      TakeRemoves(s, st, e);
    } else if !st.PutLocked? && !st.Remove? && !st.SweepAt? {
      OthersKeepResults(s, st);
    }
  }

  lemma {:induction false} OutcomeFinal(r: Run, m: nat, n: nat, g: nat)
    requires IsRun(r) && m <= n < |r.states| && OutcomeOf(r.states[m], g).Some?
    ensures OutcomeOf(r.states[n], g) == OutcomeOf(r.states[m], g)
    decreases n - m
  {
    if m < n {
      OutcomeFinal(r, m, n - 1, g);
      assert Next(r, n - 1);
      OutcomeStays(r.states[n - 1], r.steps[n - 1], g);
    }
  }

  ghost predicate RemovedAt(r: Run, j: nat, e: Entry)
    requires IsRun(r)
  {
    j < |r.steps| && Next(r, j) && Holds(r.states[j], e) && Removes(r.states[j], r.steps[j], e)
  }

  lemma StaysOrRemoved(r: Run, j: nat, e: Entry)
    requires IsRun(r) && j < |r.steps| && Holds(r.states[j], e)
    ensures Holds(r.states[j + 1], e) <==> !RemovedAt(r, j, e)
  {
    InvAlways(r, j);
    assert Next(r, j);
    LeavesOnlyWhenRemoved(r.states[j], r.steps[j], e);
  }

  lemma {:induction false} StaysOrRemovedBy(r: Run, i: nat, n: nat, e: Entry) returns (j: nat)
    requires IsRun(r) && i <= n < |r.states| && Holds(r.states[i], e)
    ensures Holds(r.states[n], e) || (i <= j < n && RemovedAt(r, j, e))
    decreases n - i
  {
    j := i;
    if i < n {
      StaysOrRemoved(r, i, e);
      if Holds(r.states[i + 1], e) {
        j := StaysOrRemovedBy(r, i + 1, n, e);
      }
    }
  }

  /** Every result a Put writes is still in the map, or one identified later step removed it:
      a Get that returned exactly it, a newer Put of the same id, a delete, or a sweep after
      the time of the Put plus the TTL. Receives and timeouts are not on the list. */
  lemma NoLostResult(r: Run, p: nat, i: nat, n: nat) returns (j: nat)
    requires IsRun(r) && i < n < |r.states| && Makes(r, i, PutLocked(p))
    ensures var e := Entry(r.states[i].puts[p].result, r.states[i].now + r.states[i].ttl);
            Holds(r.states[n], e) ||
            (i < j < n && RemovedAt(r, j, e) &&
             (r.steps[j].First? || r.steps[j].Recheck? ==>
                OutcomeOf(r.states[n], r.steps[j].g) == Some(Found(e.result, FromMap))))
  {
    var e := Entry(r.states[i].puts[p].result, r.states[i].now + r.states[i].ttl);
    j := StaysOrRemovedBy(r, i + 1, n, e);
    if !Holds(r.states[n], e) && (r.steps[j].First? || r.steps[j].Recheck?) {
      assert Next(r, j);
      OutcomeFinal(r, j + 1, n, r.steps[j].g);
    }
  }

  // ---------- Delivery bound ----------

  predicate Got(s: State, g: nat, p: nat, via: Via) {
    OutcomeOf(s, g).Some? && OutcomeOf(s, g).value.Found? &&
    OutcomeOf(s, g).value.result.ptr == p && OutcomeOf(s, g).value.via == via
  }

  function Receivers(s: State, p: nat): set<nat> {
    set g | g in s.gets && (Got(s, g, p, FromMap) || Got(s, g, p, FromChan))
  }

  /** One Put reaches at most two Gets: one by the map, and one by the channel it captured. */
  lemma DeliveryBound(r: Run, n: nat, p: nat)
    requires IsRun(r) && n < |r.states|
    ensures |Receivers(r.states[n], p)| <= 2
    ensures forall g, h, via :: Got(r.states[n], g, p, via) && Got(r.states[n], h, p, via) ==> g == h
    ensures forall g :: Got(r.states[n], g, p, FromChan) ==> Captured(r.states[n], p, g)
  {
    var s := r.states[n];
    InvAlways(r, n);
    forall g, h, via | Got(s, g, p, via) && Got(s, h, p, via) ensures g == h {
      if via == FromMap { assert TookFromMap(s, g, p) && TookFromMap(s, h, p); }
    }
    var byMap := set g | g in s.gets && Got(s, g, p, FromMap);
    var byChan := set g | g in s.gets && Got(s, g, p, FromChan);
    AtMostOne(byMap);
    AtMostOne(byChan);
    assert Receivers(s, p) == byMap + byChan;
  }

  lemma AtMostOne(s: set<nat>)
    requires forall g, h :: g in s && h in s ==> g == h
    ensures |s| <= 1
  {
    if s != {} {
      var g :| g in s;
      assert s == {g};
    }
  }

  /** One more step at the end of a run. */
  ghost function Then(r: Run, st: Step): (r': Run)
    requires IsRun(r) && Enabled(Last(r), st)
    ensures IsRun(r') && Last(r') == Apply(Last(r), st)
  {
    var r' := Run(r.states + [Apply(Last(r), st)], r.steps + [st]);
    ThenIsRun(r, st, r');
    r'
  }

  lemma ThenIsRun(r: Run, st: Step, r': Run)
    requires IsRun(r) && Enabled(Last(r), st)
    requires r' == Run(r.states + [Apply(Last(r), st)], r.steps + [st])
    ensures IsRun(r')
  {
    assert r'.states[0] == r.states[0];
    forall i | 0 <= i < |r'.steps| ensures Next(r', i) {
      assert r'.states[i] == r.states[i];
      if i < |r.steps| {
        assert Next(r, i);
        assert r'.steps[i] == r.steps[i] && r'.states[i + 1] == r.states[i + 1];
      }
    }
  }

  function Last(r: Run): State
    requires |r.states| == |r.steps| + 1
  {
    r.states[|r.steps|]
  }

  /** A run after which Get 0 sleeps in its select, and nothing else has happened. */
  lemma ParkedRun(id: string) returns (r: Run)
    ensures IsRun(r)
    ensures Last(r) == State(Store(map[], {id}, map[id := 0]), map[], map[0 := Get(id, Parked)], map[], 0, 1)
  {
    r := Run([Init(1)], []);
    r := Then(Then(r, Register(id)), StartGet(0, id));
    assert Last(r) == State(Store(map[], {id}, map[]), map[], map[0 := Get(id, Called)], map[], 0, 1);
    r := Then(Then(r, First(0)), Recheck(0));
  }

  /** A run after which Get 0 has received Put 0 on its channel. */
  lemma ReceivedRun(id: string, x: Result) returns (r: Run)
    requires x.ptr == 0 && x.requestID == id
    ensures IsRun(r)
    ensures Last(r) == State(Store(map[id := Entry(x, 1)], {}, map[id := 0]), map[],
                             map[0 := Get(id, Leaving(Found(x, FromChan)))], map[0 := Put(x, Sent(Some(0)))], 0, 1)
  {
    r := ParkedRun(id);
    r := Then(Then(r, StartPut(0, x)), PutLocked(0));
    assert Last(r) == State(Store(map[id := Entry(x, 1)], {}, map[id := 0]), map[], map[0 := Get(id, Parked)],
                            map[0 := Put(x, Sending(0))], 0, 1);
    r := Then(r, Send(0));
    assert Last(r).bufs == map[0 := x];
    r := Then(r, Receive(0));
  }

  /** The bound is reached: a result received on the channel is handed out again by the map. */
  lemma DeliveredTwice(id: string, x: Result) returns (r: Run)
    requires x.ptr == 0 && x.requestID == id
    ensures IsRun(r) && |Receivers(Last(r), 0)| == 2
  {
    r := ReceivedRun(id, x);
    var before := Last(r).gets;
    r := Then(Then(r, StartGet(1, id)), First(1));
    assert Last(r).gets == before[1 := Get(id, Done(Found(x, FromMap)))];
    assert Receivers(Last(r), 0) == {0, 1};
  }

  // ---------- A channel keeps its first message ----------

  /** A send to a full channel is dropped: what is in it stays until its Get receives exactly that. */
  lemma FirstMessageStays(s: State, st: Step, g: nat)
    requires Enabled(s, st) && g in s.bufs
    ensures if st == Receive(g)
            then g !in Apply(s, st).bufs && OutcomeOf(Apply(s, st), g) == Some(Found(s.bufs[g], FromChan))
            else g in Apply(s, st).bufs && Apply(s, st).bufs[g] == s.bufs[g]
  {
  }

  // ---------- No lost wakeup ----------

  lemma {:induction false} CapturedStays(r: Run, m: nat, n: nat, p: nat, g: nat)
    requires IsRun(r) && m <= n < |r.states| && Captured(r.states[m], p, g)
    ensures Captured(r.states[n], p, g)
    decreases n - m
  {
    if m < n {
      CapturedStays(r, m, n - 1, p, g);
      assert Next(r, n - 1);
      CapturedStaysNext(r.states[n - 1], r.steps[n - 1], p, g);
    }
  }

  /** If a Put's lock region found g's channel registered, g is never asleep in its select afterwards. */
  lemma NoLostWakeup(r: Run, p: nat, g: nat, i: nat, n: nat)
    requires IsRun(r) && i < n < |r.states| && Makes(r, i, PutLocked(p))
    requires Waiter(r.states[i].store, r.states[i].puts[p].result.requestID) == Some(g)
    requires At(r.states[n], g, Parked)
    ensures Awake(r.states[n], g)
  {
    assert Next(r, i);
    CapturedStays(r, i + 1, n, p, g);
    InvAlways(r, n);
  }

  /** Put p ran its lock region at step i and found the channel of g. */
  ghost predicate CapturedAt(r: Run, i: nat, p: nat, g: nat)
    requires IsRun(r)
  {
    && Makes(r, i, PutLocked(p))
    && Waiter(r.states[i].store, r.states[i].puts[p].result.requestID) == Some(g)
  }

  lemma {:induction false} CapturedSince(r: Run, n: nat, p: nat, g: nat) returns (i: nat)
    requires IsRun(r) && n < |r.states| && Captured(r.states[n], p, g)
    ensures i < n && CapturedAt(r, i, p, g)
  {
    assert n > 0;
    i := n - 1;
    assert Next(r, i);
    KeepsCaptured(r.states[i], r.steps[i], p, g);
    if Captured(r.states[i], p, g) {
      i := CapturedSince(r, i, p, g);
    }
  }

  /** Over whole runs: a Get in its select is awake exactly when some Put has found its channel registered. */
  lemma AwakeIffCaptured(r: Run, n: nat, g: nat)
    requires IsRun(r) && n < |r.states| && At(r.states[n], g, Parked)
    ensures Awake(r.states[n], g) <==> exists i: nat, p: nat :: i < n && CapturedAt(r, i, p, g)
  {
    InvAlways(r, n);
    if Awake(r.states[n], g) {
      var p := if g in r.states[n].bufs then r.states[n].bufs[g].ptr
               else var q :| q in r.states[n].puts && r.states[n].puts[q].pc == Sending(g); q;
      assert Captured(r.states[n], p, g);
      var i := CapturedSince(r, n, p, g);
    }
    if i: nat, p: nat :| i < n && CapturedAt(r, i, p, g) {
      NoLostWakeup(r, p, g, i, n);
    }
  }

  /** Another Get of the id registers its channel, or the cleanup of one unregisters whatever is there. */
  predicate Displaces(s: State, st: Step, g: nat, id: string) {
    match st
    case First(h) => h != g && h in s.gets && s.gets[h].id == id && id !in s.store.results && id in s.store.pending
    case Cleanup(h) => h in s.gets && s.gets[h].id == id
    case _ => false
  }

  predicate Waiting(s: State, g: nat) { At(s, g, Registered) || At(s, g, Parked) }

  lemma DisplacedNext(s: State, st: Step, g: nat)
    requires Enabled(s, st) && Waiting(s, g)
    ensures var id := s.gets[g].id;
            Waiter(Apply(s, st).store, id) == Some(g) <==> Waiter(s.store, id) == Some(g) && !Displaces(s, st, g, id)
  {
  }

  lemma WaitingBefore(s: State, st: Step, g: nat)
    requires Enabled(s, st) && Waiting(Apply(s, st), g) && st != First(g)
    ensures Waiting(s, g) && Apply(s, st).gets[g].id == s.gets[g].id
  {
    if MovesGet(st) != Some(g) {
      OtherGetsStand(s, st, g);
    }
  }

  ghost predicate DisplacedAt(r: Run, k: nat, g: nat, id: string)
    requires IsRun(r)
  {
    k < |r.steps| && Displaces(r.states[k], r.steps[k], g, id)
  }

  lemma FirstOnce(r: Run, m: nat, k: nat, g: nat)
    requires IsRun(r) && m < k < |r.steps| && r.steps[m] == First(g)
    ensures r.steps[k] != First(g)
  {
    assert Next(r, m) && Next(r, k);
    NotCalledAgain(r, m + 1, k, g);
  }

  lemma {:induction false} NotCalledAgain(r: Run, m: nat, n: nat, g: nat)
    requires IsRun(r) && m <= n < |r.states| && g in r.states[m].gets && !r.states[m].gets[g].pc.Called?
    ensures g in r.states[n].gets && !r.states[n].gets[g].pc.Called?
    decreases n - m
  {
    if m < n {
      NotCalledAgain(r, m, n - 1, g);
      assert Next(r, n - 1);
      GetGoesOn(r.states[n - 1], r.steps[n - 1], g);
    }
  }

  /** A Get waiting since its first lock region at step m still has its own channel registered exactly when
      no other Get of the id has registered and none has cleaned up since. */
  lemma {:induction false} RegisteredIffUndisturbed(r: Run, m: nat, n: nat, g: nat)
    requires IsRun(r) && m < n < |r.states| && r.steps[m] == First(g) && Waiting(r.states[n], g)
    ensures var id := r.states[n].gets[g].id;
            Waiter(r.states[n].store, id) == Some(g) <==> forall k: nat :: m < k < n ==> !DisplacedAt(r, k, g, id)
    decreases n
  {
    if n == m + 1 {
      assert Next(r, m);
    } else {
      FirstOnce(r, m, n - 1, g);
      assert Next(r, n - 1);
      WaitingBefore(r.states[n - 1], r.steps[n - 1], g);
      RegisteredIffUndisturbed(r, m, n - 1, g);
      DisplacedNext(r.states[n - 1], r.steps[n - 1], g);
      var id := r.states[n].gets[g].id;
      assert DisplacedAt(r, n - 1, g, id) <==> Displaces(r.states[n - 1], r.steps[n - 1], g, id);
    }
  }

  /** A sleeping Get is woken by a Put of its id exactly when the registered channel is its own. */
  lemma WokenIffRegistered(s: State, p: nat, g: nat)
    requires Inv(s) && Enabled(s, PutLocked(p)) && At(s, g, Parked) && !Awake(s, g)
    ensures Awake(Apply(s, PutLocked(p)), g) <==> Waiter(s.store, s.puts[p].result.requestID) == Some(g)
  {
    var s' := Apply(s, PutLocked(p));
    if Waiter(s.store, s.puts[p].result.requestID) == Some(g) {
      assert s'.puts[p].pc == Sending(g);
    }
    assert forall q :: q in s.puts && q != p ==> s'.puts[q] == s.puts[q];
  }

  /** No second Get of g's id overlaps g. */
  ghost predicate Alone(s: State, g: nat) {
    InFlight(s, g) ==> forall h :: InFlight(s, h) && s.gets[h].id == s.gets[g].id ==> h == g
  }

  /** While a lone Get waits its channel is the registered one, and every entry under its id
      was put there by a Put that captured it. */
  predicate Attended(s: State, g: nat) {
    && (At(s, g, Registered) || At(s, g, Parked) ==> Waiter(s.store, s.gets[g].id) == Some(g))
    && (At(s, g, Parked) && s.gets[g].id in s.store.results ==>
          Captured(s, s.store.results[s.gets[g].id].result.ptr, g))
  }

  lemma StepKeepsWaiter(s: State, st: Step, g: nat)
    requires Enabled(s, st) && Alone(s, g) && Attended(s, g)
    ensures var s' := Apply(s, st);
            At(s', g, Registered) || At(s', g, Parked) ==> Waiter(s'.store, s'.gets[g].id) == Some(g)
  {
  }

  /** Another step leaves the entry under a waiting Get's id captured, or is a Put that captures it. */
  lemma KeepsCapture(s: State, st: Step, g: nat)
    requires ResultsFiled(s) && PutsSane(s) && Enabled(s, st) && Attended(s, g) && At(s, g, Parked)
    requires s.gets[g].id in Apply(s, st).store.results
    ensures Captured(Apply(s, st), Apply(s, st).store.results[s.gets[g].id].result.ptr, g)
  {
    KeepsFiled(s, st, s.gets[g].id);
    if !PutsFor(s, st, s.gets[g].id) {
      CapturedStaysNext(s, st, s.store.results[s.gets[g].id].result.ptr, g);
    }
  }

  lemma StepKeepsAttended(s: State, st: Step, g: nat)
    requires ResultsFiled(s) && PutsSane(s) && Enabled(s, st) && Alone(s, g) && Attended(s, g)
    ensures Attended(Apply(s, st), g)
  {
    StepKeepsWaiter(s, st, g);
    var s' := Apply(s, st);
    if At(s', g, Parked) && s'.gets[g].id in s'.store.results {
      if MovesGet(st) != Some(g) {
        OtherGetsStand(s, st, g);
        KeepsCapture(s, st, g);
      }
    }
  }

  lemma {:induction false} AttendedAlways(r: Run, n: nat, g: nat)
    requires IsRun(r) && n < |r.states|
    requires forall i :: 0 <= i < n ==> Alone(r.states[i], g)
    ensures Attended(r.states[n], g)
  {
    if n > 0 {
      AttendedAlways(r, n - 1, g);
      InvAlways(r, n - 1);
      assert Next(r, n - 1);
      StepKeepsAttended(r.states[n - 1], r.steps[n - 1], g);
    }
  }

  /** A lone Get never sleeps while a result for its id is in the map, whether the Put came before
      the waiter was registered, between the two lock regions, or later. */
  lemma LoneGetNeverSleepsOnAResult(r: Run, n: nat, g: nat)
    requires IsRun(r) && n < |r.states|
    requires forall i :: 0 <= i < n ==> Alone(r.states[i], g)
    requires At(r.states[n], g, Parked) && r.states[n].gets[g].id in r.states[n].store.results
    ensures Awake(r.states[n], g)
  {
    AttendedAlways(r, n, g);
    InvAlways(r, n);
  }

  /** Every Put of its id that runs while a lone Get waits is one that wakes it. */
  lemma LoneGetWokenByEveryPut(r: Run, i: nat, n: nat, p: nat, g: nat)
    requires IsRun(r) && i < n < |r.states| && Makes(r, i, PutLocked(p))
    requires forall k :: 0 <= k < n ==> Alone(r.states[k], g)
    requires At(r.states[i], g, Registered) || At(r.states[i], g, Parked)
    requires r.states[i].puts[p].result.requestID == r.states[i].gets[g].id
    requires At(r.states[n], g, Parked)
    ensures Awake(r.states[n], g)
  {
    AttendedAlways(r, i, g);
    NoLostWakeup(r, p, g, i, n);
  }

  /** Asleep in the select with a result for the id in the map. */
  ghost predicate SleepsOnAResult(s: State, g: nat) {
    At(s, g, Parked) && s.gets[g].id in s.store.results && !Awake(s, g)
  }

  /** Get 0 sleeps, and Get 1 of the same id has registered its own channel. */
  lemma OverlappingRun(id: string) returns (r: Run)
    ensures IsRun(r)
    ensures Last(r) == State(Store(map[], {id}, map[id := 1]), map[],
                             map[0 := Get(id, Parked), 1 := Get(id, Registered)], map[], 0, 1)
  {
    r := ParkedRun(id);
    r := Then(Then(r, StartGet(1, id)), First(1));
  }

  /** Two overlapping Gets of one id: the second overwrites the first one's channel. */
  lemma OverwrittenWaiterSleeps(id: string, x: Result) returns (r: Run)
    requires x.ptr == 0 && x.requestID == id
    ensures IsRun(r) && SleepsOnAResult(Last(r), 0)
  {
    r := OverlappingRun(id);
    r := Then(Then(r, StartPut(0, x)), PutLocked(0));
  }

  /** Get 0 has timed out and taken Get 1's registration with it; Get 1 sleeps. */
  lemma UnregisteredRun(id: string) returns (r: Run)
    ensures IsRun(r)
    ensures Last(r) == State(Store(map[], {id}, map[]), map[],
                             map[0 := Get(id, Done(TimedOut)), 1 := Get(id, Parked)], map[], 0, 1)
  {
    r := OverlappingRun(id);
    r := Then(r, TimeOut(0));
    r := Then(r, Cleanup(0));
    assert Last(r).store == Store(map[], {id}, map[]);
    r := Then(r, Recheck(1));
  }

  /** Or the first one's cleanup, which deletes by id, unregisters the second one's channel. */
  lemma UnregisteredWaiterSleeps(id: string, x: Result) returns (r: Run)
    requires x.ptr == 0 && x.requestID == id
    ensures IsRun(r) && SleepsOnAResult(Last(r), 1)
  {
    r := UnregisteredRun(id);
    r := Then(Then(r, StartPut(0, x)), PutLocked(0));
  }
}
