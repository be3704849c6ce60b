/** The long-poll protocol of internal/store/memory.go as a state machine. Every lock region,
    every channel send and every arm of the blocking select is one atomic step; any number of
    Gets, Puts and sweeps interleave, over any request ids. */
module Protocol {
  import opened Basics
  import opened StoreSpec

  datatype Via = FromMap | FromChan

  datatype Outcome = Found(result: Result, via: Via) | TimedOut | NotFound

  /** Where a Get stands: called, waiter registered, blocked in the select, return value fixed
      with the deferred cleanup still to run, returned. */
  datatype GetPc = Called | Registered | Parked | Leaving(out: Outcome) | Done(out: Outcome)

  datatype Get = Get(id: string, pc: GetPc)

  /** Where a Put stands: called, lock region done with a channel to signal, returned.
      A returned Put keeps the channel it had captured. */
  datatype PutPc = Ready | Sending(ch: nat) | Sent(captured: Option<nat>)

  datatype Put = Put(result: Result, pc: PutPc)

  /** `bufs[g]` is the message in the one-place channel made by Get g. */
  datatype State = State(store: Store<nat>, bufs: map<nat, Result>, gets: map<nat, Get>, puts: map<nat, Put>,
                         now: Time, ttl: Time)

  datatype Step =
    | Idle
    | Tick(t: Time)
    | Register(id: string)
    | Remove(id: string)
    | SweepAt(at: Time)
    | StartGet(g: nat, id: string)
    | First(g: nat)
    | Recheck(g: nat)
    | Receive(g: nat)
    | TimeOut(g: nat)
    | Cleanup(g: nat)
    | StartPut(p: nat, result: Result)
    | PutLocked(p: nat)
    | Send(p: nat)

  function Init(ttl: Time): State {
    State(Store(map[], {}, map[]), map[], map[], map[], 0, ttl)
  }

  predicate At(s: State, g: nat, pc: GetPc) { g in s.gets && s.gets[g].pc == pc }

  predicate Enabled(s: State, st: Step) {
    match st
    case Idle => true
    case Tick(t) => s.now <= t
    case Register(_) => true
    case Remove(_) => true
    case SweepAt(at) => at <= s.now // the sweeper reads the clock before it takes the lock
    case StartGet(g, _) => g !in s.gets
    case First(g) => At(s, g, Called)
    case Recheck(g) => At(s, g, Registered)
    case Receive(g) => At(s, g, Parked) && g in s.bufs
    case TimeOut(g) => At(s, g, Parked)
    case Cleanup(g) => g in s.gets && s.gets[g].pc.Leaving?
    case StartPut(p, r) => p !in s.puts && r.ptr == p
    case PutLocked(p) => p in s.puts && s.puts[p].pc.Ready?
    case Send(p) => p in s.puts && s.puts[p].pc.Sending?
  }

  function SetGet(s: State, g: nat, pc: GetPc): State
    requires g in s.gets
  {
    s.(gets := s.gets[g := Get(s.gets[g].id, pc)])
  }

  function Apply(s: State, st: Step): State
    requires Enabled(s, st)
  {
    match st
    case Idle => s
    case Tick(t) => s.(now := t)
    case Register(id) => s.(store := RegisterPending(s.store, id))
    case Remove(id) => s.(store := Delete(s.store, id))
    case SweepAt(at) => s.(store := Sweep(s.store, at))
    case StartGet(g, id) => s.(gets := s.gets[g := Get(id, Called)])
    case First(g) =>
      var (store, seen) := GetFirst(s.store, s.gets[g].id, g);
      SetGet(s.(store := store), g,
             match seen
             case Hit(r) => Done(Found(r, FromMap))
             case Unknown => Done(NotFound)
             case Wait => Registered)
    case Recheck(g) =>
      var (store, hit) := Take(s.store, s.gets[g].id);
      SetGet(s.(store := store), g, if hit.Some? then Leaving(Found(hit.value, FromMap)) else Parked)
    case Receive(g) => SetGet(s.(bufs := s.bufs - {g}), g, Leaving(Found(s.bufs[g], FromChan)))
    case TimeOut(g) => SetGet(s, g, Leaving(TimedOut))
    case Cleanup(g) => SetGet(s.(store := GetCleanup(s.store, s.gets[g].id)), g, Done(s.gets[g].pc.out))
    case StartPut(p, r) => s.(puts := s.puts[p := Put(r, Ready)])
    case PutLocked(p) =>
      var r := s.puts[p].result;
      var ch := Waiter(s.store, r.requestID);
      s.(store := PutRegion(s.store, r, s.now, s.ttl),
         puts := s.puts[p := Put(r, if ch.Some? then Sending(ch.value) else Sent(None))])
    case Send(p) =>
      var Put(r, Sending(g)) := s.puts[p];
      s.(bufs := if g in s.bufs then s.bufs else s.bufs[g := r], puts := s.puts[p := Put(r, Sent(Some(g)))])
  }

  datatype Run = Run(states: seq<State>, steps: seq<Step>)

  /** State i+1 follows from state i by step i. */
  ghost predicate Next(r: Run, i: nat)
    requires |r.states| == |r.steps| + 1 && i < |r.steps|
  {
    Enabled(r.states[i], r.steps[i]) && r.states[i + 1] == Apply(r.states[i], r.steps[i])
  }

  ghost predicate IsRun(r: Run) {
    && |r.states| == |r.steps| + 1
    && (exists ttl :: r.states[0] == Init(ttl))
    && forall i :: 0 <= i < |r.steps| ==> Next(r, i)
  }

  /** Step i of the run is st. */
  ghost predicate Makes(r: Run, i: nat, st: Step)
    requires IsRun(r)
  {
    i < |r.steps| && r.steps[i] == st && Next(r, i)
  }

  /** The return value of a Get, once it is fixed. */
  function OutcomeOf(s: State, g: nat): Option<Outcome> {
    if g !in s.gets then None
    else match s.gets[g].pc
      case Leaving(o) => Some(o)
      case Done(o) => Some(o)
      case _ => None
  }

  predicate InFlight(s: State, g: nat) { g in s.gets && !s.gets[g].pc.Done? }

  /** In flight with a channel of its own. */
  predicate SlowPath(s: State, g: nat) { InFlight(s, g) && !s.gets[g].pc.Called? }

  /** Get g has something to receive, or a Put is on its way to sending it something. */
  ghost predicate Awake(s: State, g: nat) {
    g in s.bufs || exists p :: p in s.puts && s.puts[p].pc == Sending(g)
  }

  /** The Put p wrote its result and captured the channel of g. */
  predicate Captured(s: State, p: nat, g: nat) {
    p in s.puts && (s.puts[p].pc == Sending(g) || s.puts[p].pc == Sent(Some(g)))
  }
}
