/** What the machines do when one handler moves alone: the same as the methods of module Handlers and of class
    MemoryStore. */
module HubSequential {
  import opened Basics
  import opened StoreSpec
  import P = Protocol
  import PI = ProtocolInvariants
  import opened Hub
  import H = Handlers

  // ---------- HandleSubmit, and HandleSync up to its wait ----------

  lemma LoneSubmit(h: State, id: string, room: bool)
    requires Fresh(h, id)
    ensures Enabled(h, StartSubmit(id))
    ensures var h1 := Apply(h, StartSubmit(id)); Enabled(h1, SubmitEnqueue(id, room))
    ensures var h2 := Apply(Apply(h, StartSubmit(id)), SubmitEnqueue(id, room));
            if room then
              && Enabled(h2, SubmitRegister(id))
              && Apply(h2, SubmitRegister(id)).handlers[id] == Submit(SubAccepted)
              && Apply(h2, SubmitRegister(id)).proto.store == RegisterPending(h.proto.store, id)
              && Apply(h2, SubmitRegister(id)).queued == h.queued + {id}
            else
              h2.handlers[id] == Submit(SubRefused) && h2.proto.store == h.proto.store && h2.queued == h.queued
  {
  }

  lemma LoneSync(h: State, id: string, room: bool)
    requires Fresh(h, id)
    ensures Enabled(h, StartSync(id))
    ensures var h1 := Apply(h, StartSync(id)); Enabled(h1, SyncRegister(id))
    ensures var h2 := Apply(Apply(h, StartSync(id)), SyncRegister(id)); Enabled(h2, SyncEnqueue(id, room))
    ensures var h3 := Apply(Apply(Apply(h, StartSync(id)), SyncRegister(id)), SyncEnqueue(id, room));
            if room then
              && h3.handlers[id] == Sync(SyQueued) && h3.queued == h.queued + {id}
              && h3.proto.store == RegisterPending(h.proto.store, id)
            else
              && Enabled(h3, SyncDelete(id)) && h3.queued == h.queued
              && Apply(h3, SyncDelete(id)).handlers[id] == Sync(SyRefused)
              && Apply(h3, SyncDelete(id)).proto.store == Delete(RegisterPending(h.proto.store, id), id)
  {
  }

  // ---------- The wait ----------

  /** The steps can be made one after the other from s, and lead to s'. */
  ghost predicate Leads(s: P.State, steps: seq<P.Step>, s': P.State)
    decreases |steps|
  {
    if steps == [] then s' == s
    else P.Enabled(s, steps[0]) && Leads(P.Apply(s, steps[0]), steps[1..], s')
  }

  lemma {:induction false} LeadsOn(s: P.State, steps: seq<P.Step>, s': P.State, st: P.Step)
    requires Leads(s, steps, s') && P.Enabled(s', st)
    ensures Leads(s, steps + [st], P.Apply(s', st))
    decreases |steps|
  {
    if steps != [] {
      LeadsOn(P.Apply(s, steps[0]), steps[1..], s', st);
      assert (steps + [st])[1..] == steps[1..] + [st];
    }
  }

  /** Get g and Put p alone move. */
  ghost predicate Only(steps: seq<P.Step>, g: nat, p: nat) {
    forall i :: 0 <= i < |steps| ==> PI.MovesGet(steps[i]) == Some(g) || PI.MovesPut(steps[i]) == Some(p)
  }

  ghost predicate GoesTo(s: P.State, steps: seq<P.Step>, s': P.State, g: nat, p: nat) {
    Leads(s, steps, s') && Only(steps, g, p)
  }

  lemma GoOn(s: P.State, steps: seq<P.Step>, s1: P.State, g: nat, p: nat, st: P.Step)
    requires GoesTo(s, steps, s1, g, p) && P.Enabled(s1, st)
    requires PI.MovesGet(st) == Some(g) || PI.MovesPut(st) == Some(p)
    ensures GoesTo(s, steps + [st], P.Apply(s1, st), g, p)
  {
    LeadsOn(s, steps, s1, st);
  }

  /** The return value of a Get, as its caller sees it. */
  function Said(o: P.Outcome): Lookup {
    match o
    case Found(r, _) => Hit(r)
    case NotFound => Unknown
    case TimedOut => Wait
  }

  lemma FirstRegion(s: P.State, g: nat, id: string, p: nat) returns (steps: seq<P.Step>, s1: P.State)
    requires g !in s.gets
    ensures GoesTo(s, steps, s1, g, p)
    ensures var (store, seen) := GetFirst(s.store, id, g);
            g in s1.gets &&
            var pc := if seen == Wait then P.Registered else s1.gets[g].pc;
            && s1 == s.(store := store, gets := s.gets[g := P.Get(id, pc)])
            && (seen != Wait ==> pc.Done? && Said(pc.out) == seen)
  {
    var s0 := P.Apply(s, P.StartGet(g, id));
    assert GoesTo(s, [], s, g, p);
    GoOn(s, [], s, g, p, P.StartGet(g, id));
    GoOn(s, [] + [P.StartGet(g, id)], s0, g, p, P.First(g));
    steps, s1 := [] + [P.StartGet(g, id)] + [P.First(g)], P.Apply(s0, P.First(g));
  }

  /** An id that is pending and not stored: the Get comes to block. */
  lemma Blocks(s: P.State, g: nat, id: string, p: nat) returns (steps: seq<P.Step>, s2: P.State)
    requires g !in s.gets && id in s.store.pending && id !in s.store.results
    ensures GoesTo(s, steps, s2, g, p)
    ensures s2 == s.(store := s.store.(waiters := s.store.waiters[id := g]), gets := s.gets[g := P.Get(id, P.Parked)])
  {
    var s1;
    steps, s1 := FirstRegion(s, g, id, p);
    GoOn(s, steps, s1, g, p, P.Recheck(g));
    steps, s2 := steps + [P.Recheck(g)], P.Apply(s1, P.Recheck(g));
  }

  lemma EndsByTimeout(s: P.State, g: nat, id: string, p: nat) returns (steps: seq<P.Step>, s': P.State)
    requires g !in s.gets && id in s.store.pending && id !in s.store.results
    ensures GoesTo(s, steps, s', g, p) && P.At(s', g, P.Done(P.TimedOut))
    ensures s'.store == GetCleanup(s.store, id)
  {
    var s2;
    steps, s2 := Blocks(s, g, id, p);
    var s3 := P.Apply(s2, P.TimeOut(g));
    GoOn(s, steps, s2, g, p, P.TimeOut(g));
    GoOn(s, steps + [P.TimeOut(g)], s3, g, p, P.Cleanup(g));
    steps, s' := steps + [P.TimeOut(g)] + [P.Cleanup(g)], P.Apply(s3, P.Cleanup(g));
    assert s'.store.waiters == s.store.waiters - {id};
  }

  /** A Put of the id comes while the Get blocks. */
  lemma PutArrives(s: P.State, g: nat, id: string, p: nat, x: Result) returns (steps: seq<P.Step>, s': P.State)
    requires g !in s.gets && id in s.store.pending && id !in s.store.results && g !in s.bufs
    requires p !in s.puts && x.ptr == p && x.requestID == id
    ensures GoesTo(s, steps, s', g, p) && P.At(s', g, P.Parked) && s'.gets[g].id == id
    ensures g in s'.bufs && s'.bufs[g] == x
    ensures s'.store == PutRegion(s.store, x, s.now, s.ttl).(waiters := s.store.waiters[id := g])
  {
    var s2;
    steps, s2 := Blocks(s, g, id, p);
    var s3 := P.Apply(s2, P.StartPut(p, x));
    var s4 := P.Apply(s3, P.PutLocked(p));
    GoOn(s, steps, s2, g, p, P.StartPut(p, x));
    GoOn(s, steps + [P.StartPut(p, x)], s3, g, p, P.PutLocked(p));
    GoOn(s, steps + [P.StartPut(p, x)] + [P.PutLocked(p)], s4, g, p, P.Send(p));
    steps, s' := steps + [P.StartPut(p, x)] + [P.PutLocked(p)] + [P.Send(p)], P.Apply(s4, P.Send(p));
  }

  lemma EndsByArrival(s: P.State, g: nat, id: string, p: nat, x: Result) returns (steps: seq<P.Step>, s': P.State)
    requires g !in s.gets && id in s.store.pending && id !in s.store.results && g !in s.bufs
    requires p !in s.puts && x.ptr == p && x.requestID == id
    ensures GoesTo(s, steps, s', g, p) && P.At(s', g, P.Done(P.Found(x, P.FromChan)))
    ensures s'.store == GetCleanup(PutRegion(s.store, x, s.now, s.ttl), id)
  {
    var s5;
    steps, s5 := PutArrives(s, g, id, p, x);
    var s6 := P.Apply(s5, P.Receive(g));
    GoOn(s, steps, s5, g, p, P.Receive(g));
    GoOn(s, steps + [P.Receive(g)], s6, g, p, P.Cleanup(g));
    steps, s' := steps + [P.Receive(g)] + [P.Cleanup(g)], P.Apply(s6, P.Cleanup(g));
    assert s'.store.waiters == s.store.waiters - {id};
  }

  lemma NoOldMessage(s: P.State, g: nat)
    requires PI.Inv(s) && g !in s.gets
    ensures g !in s.bufs
  {
    if g in s.bufs { assert P.Captured(s, s.bufs[g].ptr, g); }
  }

  /** The atomic steps of a Get, with nothing between them but the Put of its id that may come while it blocks, add
      up to the effect and the return value of the method of MemoryStore. */
  lemma LoneGet(s: P.State, g: nat, id: string, p: nat, arrival: Option<Result>)
    returns (steps: seq<P.Step>, s': P.State)
    requires PI.Inv(s) && g !in s.gets
    requires arrival.Some? ==> p !in s.puts && arrival.value.ptr == p && arrival.value.requestID == id
    ensures GoesTo(s, steps, s', g, p) && g in s'.gets && s'.gets[g].pc.Done?
    ensures var put := if arrival.Some? then Some(Arrival(arrival.value, s.now)) else None;
            (s'.store, Said(s'.gets[g].pc.out)) == GetAlone(s.store, id, put, s.ttl)
  {
    NoOldMessage(s, g);
    if id in s.store.results || id !in s.store.pending {
      steps, s' := FirstRegion(s, g, id, p);
    } else if arrival == None {
      steps, s' := EndsByTimeout(s, g, id, p);
    } else {
      steps, s' := EndsByArrival(s, g, id, p, arrival.value);
    }
  }

  // ---------- The answers ----------

  /** HandleSync's machine state and the status of the method. */
  predicate SameAnswer(pc: SyncPc, answer: (H.Status, Option<Result>)) {
    match pc
    case SyOk(r) => answer == (H.Ok200, Some(r))
    case SyAccepted => answer == (H.Accepted202, None)
    case SyError => answer == (H.InternalError500, None)
    case _ => false
  }

  predicate SamePoll(poll: Poll, answer: (H.Status, Option<Result>)) {
    match poll
    case Status200(r) => answer == (H.Ok200, Some(r))
    case Status204 => answer == (H.NoContent204, None)
    case Status404 => answer == (H.NotFound404, None)
    case Broken => false
  }

  /** The machine's handlers answer as the methods do for what their Get saw. */
  lemma AnswersAgree(h: State, id: string)
    ensures Enabled(h, SyncAnswer(id)) ==>
              var g := h.handlers[id].sync.g;
              var h' := Apply(h, SyncAnswer(id));
              SameAnswer(h'.handlers[id].sync, H.SyncAnswer(Said(h.proto.gets[g].pc.out)))
    ensures Enabled(h, ClientAnswer(id)) ==>
              var c := h.clients[id];
              var h' := Apply(h, ClientAnswer(id));
              && |h'.clients[id].polls| == |c.polls| + 1
              && SamePoll(h'.clients[id].polls[|c.polls|], H.PollAnswer(Said(h.proto.gets[c.cur.value].pc.out)))
  {
  }
}
