/** internal/queue/keyed.go over internal/queue/memory.go, with any number of Enqueues and Dequeues
    interleaving: each lock region, channel operation, clock reading and counter update is one step. */
module KeyedMachine {
  import opened Basics
  import opened QueueSpec

  /** Where an operation stands. `q` is the handle of a queue object.
      Sent, Refused, Expiring and Counting have a counter still to update. */
  datatype Pc =
    | Lookup | Missed | Holding(q: nat)
    | Sent(q: nat) | Refused(q: nat)
    | InHand(q: nat, req: Req) | Expiring(q: nat) | Counting(q: nat)
    | Returned

  /** One expiry check of a Dequeue. */
  datatype Checked = Checked(req: Req, at: Time)

  datatype Op =
    | Enq(key: string, pc: Pc, req: Req)
    | Deq(key: string, pc: Pc, n: nat, out: seq<Req>, log: seq<Checked>)

  datatype Removal = Removal(req: Req, taker: nat)

  /** `accepted` and `removed` are history: what each queue took in and handed out, in order. */
  datatype State = State(queues: map<string, nat>, mem: map<nat, Queue>, ops: map<nat, Op>, now: Time, maxSize: nat,
                         next: nat, accepted: map<nat, seq<Req>>, removed: map<nat, seq<Removal>>)

  datatype Step =
    | Tick(t: Time)
    | StartEnq(o: nat, key: string, req: Req)
    | StartDeq(o: nat, key: string, n: nat)
    | Advance(o: nat)

  function Init(maxSize: nat): State {
    State(map[DEFAULT_KEY := 0], map[0 := EmptyQueue()], map[], 0, maxSize, 1, map[0 := []], map[0 := []])
  }

  predicate HasQueue(s: State, q: nat) { q in s.mem && q in s.accepted && q in s.removed }

  function Handle(pc: Pc): Option<nat> {
    match pc
    case Lookup => None
    case Missed => None
    case Returned => None
    case InHand(q, _) => Some(q)
    case _ => Some(pc.q)
  }

  predicate Enabled(s: State, st: Step) {
    match st
    case Tick(t) => s.now <= t
    case StartEnq(o, _, _) => o !in s.ops
    case StartDeq(o, _, _) => o !in s.ops
    case Advance(o) =>
      && o in s.ops && !s.ops[o].pc.Returned?
      && (Handle(s.ops[o].pc).Some? ==> HasQueue(s, Handle(s.ops[o].pc).value))
      && (s.ops[o].pc.InHand? || s.ops[o].pc.Expiring? || s.ops[o].pc.Counting? ==> s.ops[o].Deq?)
      && (s.ops[o].pc.Sent? || s.ops[o].pc.Refused? ==> s.ops[o].Enq?)
  }

  function Goto(s: State, o: nat, pc: Pc): State
    requires o in s.ops
  {
    s.(ops := s.ops[o := s.ops[o].(pc := pc)])
  }

  /** NewMemoryQueue, entered in the map. */
  function Create(s: State, key: string): State {
    s.(queues := s.queues[key := s.next], mem := s.mem[s.next := EmptyQueue()], next := s.next + 1,
       accepted := s.accepted[s.next := []], removed := s.removed[s.next := []])
  }

  function TrySend(s: State, o: nat, q: nat, r: Req): State
    requires o in s.ops && HasQueue(s, q)
  {
    var x := s.mem[q];
    if |x.buf| < s.maxSize
    then Goto(s.(mem := s.mem[q := x.(buf := x.buf + [r])],
                 accepted := s.accepted[q := s.accepted[q] + [r]]), o, Sent(q))
    else Goto(s, o, Refused(q))
  }

  function TryReceive(s: State, o: nat, q: nat): State
    requires o in s.ops && s.ops[o].Deq? && HasQueue(s, q)
  {
    var x := s.mem[q];
    if |s.ops[o].out| >= s.ops[o].n || x.buf == [] then Goto(s, o, Returned)
    else Goto(s.(mem := s.mem[q := x.(buf := x.buf[1..])],
                 removed := s.removed[q := s.removed[q] + [Removal(x.buf[0], o)]]), o, InHand(q, x.buf[0]))
  }

  function Check(s: State, o: nat, q: nat, r: Req): State
    requires o in s.ops && s.ops[o].Deq?
  {
    var x := s.ops[o].(log := s.ops[o].log + [Checked(r, s.now)]);
    s.(ops := s.ops[o := if IsExpired(r, s.now) then x.(pc := Expiring(q))
                         else x.(out := x.out + [r], pc := Counting(q))])
  }

  /** The counter update that is due. */
  function Bump(x: Queue, pc: Pc): Queue {
    match pc
    case Sent(_) => x.(enqueued := x.enqueued + 1)
    case Refused(_) => x.(dropped := x.dropped + 1)
    case Expiring(_) => x.(expired := x.expired + 1)
    case Counting(_) => x.(dequeued := x.dequeued + 1)
    case _ => x
  }

  function Count(s: State, o: nat, q: nat, x: Queue, pc: Pc): State
    requires o in s.ops
  {
    Goto(s.(mem := s.mem[q := x]), o, pc)
  }

  function Apply(s: State, st: Step): State
    requires Enabled(s, st)
  {
    match st
    case Tick(t) => s.(now := t)
    case StartEnq(o, key, r) => s.(ops := s.ops[o := Enq(NormalizeKey(key), Lookup, r)])
    case StartDeq(o, key, n) => s.(ops := s.ops[o := Deq(NormalizeKey(key), Lookup, n, [], [])])
    case Advance(o) =>
      var op := s.ops[o];
      match op.pc
      case Lookup => Goto(s, o, if op.key in s.queues then Holding(s.queues[op.key]) else Missed)
      case Missed =>
        var s' := if op.key in s.queues then s else Create(s, op.key);
        Goto(s', o, Holding(s'.queues[op.key]))
      case Holding(q) => if op.Enq? then TrySend(s, o, q, op.req) else TryReceive(s, o, q)
      case InHand(q, r) => Check(s, o, q, r)
      case Returned => s
      case _ =>
        var q := op.pc.q;
        Count(s, o, q, Bump(s.mem[q], op.pc), if op.Enq? then Returned else Holding(q))
  }

  datatype Run = Run(states: seq<State>, steps: seq<Step>)

  /** State i+1 follows from state i by step i. */
  ghost predicate Next(r: Run, i: nat)
    requires |r.states| == |r.steps| + 1 && i < |r.steps|
  {
    Enabled(r.states[i], r.steps[i]) && r.states[i + 1] == Apply(r.states[i], r.steps[i])
  }

  ghost predicate IsRun(r: Run) {
    && |r.states| == |r.steps| + 1
    && (exists maxSize :: r.states[0] == Init(maxSize))
    && forall i :: 0 <= i < |r.steps| ==> Next(r, i)
  }

  /** What the machine implements: one FIFO per key, empty until first used. */
  function Contents(s: State, key: string): seq<Req> {
    if key in s.queues && s.queues[key] in s.mem then s.mem[s.queues[key]].buf else []
  }
}
