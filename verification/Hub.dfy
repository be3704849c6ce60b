/** The broker as one machine: the long-poll protocol, the handlers of internal/handler/online.go
    and local.go as sequences of queue and store steps, workers, and polling clients. */
module Hub {
  import opened Basics
  import opened StoreSpec
  import P = Protocol

  /** HandleSubmit: enqueue, then register. SubAccepted is its 202, SubRefused its 503. */
  datatype SubmitPc = SubCalled | SubQueued | SubAccepted | SubRefused

  /** HandleSync: register, then enqueue, then wait. SyOk is its 200, SyAccepted its 202,
      SyError its 500 and SyRefused its 503. */
  datatype SyncPc =
    | SyCalled | SyRegistered | SyQueued | SyFull | SyWaiting(g: nat)
    | SyOk(result: Result) | SyAccepted | SyError | SyRefused

  datatype Handler = Submit(sub: SubmitPc) | Sync(sync: SyncPc)

  /** What one poll of GET /result/{id} is answered with. Broken stands for a transport or decoding error,
      and for any other status. */
  datatype Poll = Status200(result: Result) | Status204 | Status404 | Broken

  function Answer(o: P.Outcome): Poll {
    match o
    case Found(r, _) => Status200(r)
    case TimedOut => Status204
    case NotFound => Status404
  }

  /** The state of the WaitResult loop after the answers `polls`. */
  datatype WaitStatus = Polling | Delivered(result: Result) | Missing | Failed | Exhausted

  function StatusOf(maxRetries: int, polls: seq<Poll>): WaitStatus {
    if polls != [] && polls[|polls| - 1].Status200? then Delivered(polls[|polls| - 1].result)
    else if polls != [] && polls[|polls| - 1].Status404? then Missing
    else if polls != [] && polls[|polls| - 1].Broken? then Failed
    else if |polls| > maxRetries then Exhausted
    else Polling
  }

  /** A WaitResult call for one id: its answers so far, and the Get serving the poll under way. */
  datatype Client = Client(maxRetries: int, polls: seq<Poll>, cur: Option<nat>)

  datatype State = State(proto: P.State, handlers: map<string, Handler>, queued: set<string>, pulled: set<string>,
                         clients: map<string, Client>)

  datatype Step =
    | StartSubmit(id: string)
    | SubmitEnqueue(id: string, room: bool)
    | SubmitRegister(id: string)
    | StartSync(id: string)
    | SyncRegister(id: string)
    | SyncEnqueue(id: string, room: bool)
    | SyncDelete(id: string)
    | SyncGet(id: string, g: nat)
    | SyncAnswer(id: string)
    | Visit(id: string, g: nat)               // a poll that is not part of the id's WaitResult loop
    | StartWait(id: string, maxRetries: int)
    | ClientPoll(id: string, g: nat)
    | ClientAnswer(id: string)
    | Pull(id: string)
    | DropExpired(id: string)
    | Push(p: nat, result: Result)
    | Inner(st: P.Step)                       // a step inside a running Get or Put, the sweeper, the clock

  function Init(ttl: Time): State { State(P.Init(ttl), map[], {}, {}, map[]) }

  /** Never seen before: what a newly generated UUID is. */
  predicate Fresh(h: State, id: string) {
    id !in h.handlers && forall g :: g in h.proto.gets ==> h.proto.gets[g].id != id
  }

  predicate Accepted(h: State, id: string) {
    id in h.handlers && (h.handlers[id] == Submit(SubAccepted) || h.handlers[id] == Sync(SyAccepted))
  }

  /** An answer that carries the id has been written. */
  predicate Published(h: State, id: string) {
    Accepted(h, id) || (id in h.handlers && h.handlers[id].Sync? && h.handlers[id].sync.SyOk?)
  }

  predicate IsAt(h: State, id: string, x: Handler) { id in h.handlers && h.handlers[id] == x }

  predicate InsideProtocol(st: P.Step) {
    !st.Register? && !st.Remove? && !st.StartGet? && !st.StartPut?
  }

  /** The protocol step a broker step makes. */
  function Inside(st: Step): P.Step {
    match st
    case SubmitRegister(id) => P.Register(id)
    case SyncRegister(id) => P.Register(id)
    case SyncDelete(id) => P.Remove(id)
    case SyncGet(id, g) => P.StartGet(g, id)
    case Visit(id, g) => P.StartGet(g, id)
    case ClientPoll(id, g) => P.StartGet(g, id)
    case Push(p, r) => P.StartPut(p, r)
    case Inner(st) => st
    case _ => P.Idle
  }

  predicate Enabled(h: State, st: Step) {
    P.Enabled(h.proto, Inside(st)) && OuterEnabled(h, st)
  }

  predicate OuterEnabled(h: State, st: Step) {
    match st
    case StartSubmit(id) => Fresh(h, id)
    case SubmitEnqueue(id, _) => IsAt(h, id, Submit(SubCalled))
    case SubmitRegister(id) => IsAt(h, id, Submit(SubQueued))
    case StartSync(id) => Fresh(h, id)
    case SyncRegister(id) => IsAt(h, id, Sync(SyCalled))
    case SyncEnqueue(id, _) => IsAt(h, id, Sync(SyRegistered))
    case SyncDelete(id) => IsAt(h, id, Sync(SyFull))
    case SyncGet(id, _) => IsAt(h, id, Sync(SyQueued))
    case SyncAnswer(id) =>
      id in h.handlers && h.handlers[id].Sync? && h.handlers[id].sync.SyWaiting? &&
      Returned(h, h.handlers[id].sync.g)
    case Visit(id, _) => id !in h.handlers || Published(h, id)
    case StartWait(id, _) => Accepted(h, id) && id !in h.clients
    case ClientPoll(id, _) =>
      id in h.clients && h.clients[id].cur == None && StatusOf(h.clients[id].maxRetries, h.clients[id].polls) == Polling
    case ClientAnswer(id) => id in h.clients && h.clients[id].cur.Some? && Returned(h, h.clients[id].cur.value)
    case Pull(id) => id in h.queued
    case DropExpired(id) => id in h.queued
    case Push(_, r) => r.requestID in h.pulled
    case Inner(st) => InsideProtocol(st)
  }

  predicate Returned(h: State, g: nat) { g in h.proto.gets && h.proto.gets[g].pc.Done? }

  function Apply(h: State, st: Step): State
    requires Enabled(h, st)
  {
    OuterApply(h, st, P.Apply(h.proto, Inside(st)))
  }

  /** The step, when the protocol goes to `proto`. */
  function OuterApply(h: State, st: Step, proto: P.State): State
    requires OuterEnabled(h, st)
  {
    var h' := h.(proto := proto);
    match st
    case StartSubmit(id) => h'.(handlers := h.handlers[id := Submit(SubCalled)])
    case SubmitEnqueue(id, room) =>
      h'.(handlers := h.handlers[id := Submit(if room then SubQueued else SubRefused)],
         queued := if room then h.queued + {id} else h.queued)
    case SubmitRegister(id) => h'.(handlers := h.handlers[id := Submit(SubAccepted)])
    case StartSync(id) => h'.(handlers := h.handlers[id := Sync(SyCalled)])
    case SyncRegister(id) => h'.(handlers := h.handlers[id := Sync(SyRegistered)])
    case SyncEnqueue(id, room) =>
      h'.(handlers := h.handlers[id := Sync(if room then SyQueued else SyFull)],
         queued := if room then h.queued + {id} else h.queued)
    case SyncDelete(id) => h'.(handlers := h.handlers[id := Sync(SyRefused)])
    case SyncGet(id, g) => h'.(handlers := h.handlers[id := Sync(SyWaiting(g))])
    case SyncAnswer(id) =>
      h'.(handlers := h.handlers[id := Sync(
             match h.proto.gets[h.handlers[id].sync.g].pc.out
             case Found(r, _) => SyOk(r)
             case TimedOut => SyAccepted
             case NotFound => SyError)])
    case Visit(_, _) => h'
    case StartWait(id, maxRetries) => h'.(clients := h.clients[id := Client(maxRetries, [], None)])
    case ClientPoll(id, g) => h'.(clients := h.clients[id := h.clients[id].(cur := Some(g))])
    case ClientAnswer(id) =>
      var c := h.clients[id];
      h'.(clients := h.clients[id := c.(polls := c.polls + [Answer(h.proto.gets[c.cur.value].pc.out)], cur := None)])
    case Pull(id) => h'.(queued := h.queued - {id}, pulled := h.pulled + {id})
    case DropExpired(id) => h'.(queued := h.queued - {id})
    case Push(_, _) => h'
    case Inner(_) => h'
  }

  datatype Run = Run(states: seq<State>, steps: seq<Step>)

  /** State i+1 follows from state i by step i. */
  ghost predicate Next(r: Run, i: nat)
    requires |r.states| == |r.steps| + 1 && i < |r.steps|
  {
    Enabled(r.states[i], r.steps[i]) && r.states[i + 1] == Apply(r.states[i], r.steps[i])
  }

  ghost predicate IsRun(r: Run) {
    && |r.states| == |r.steps| + 1
    && (exists ttl :: r.states[0] == Init(ttl))
    && forall i :: 0 <= i < |r.steps| ==> Next(r, i)
  }

  /** What a last answer makes the client report. */
  predicate Tells(answer: Poll, status: WaitStatus) {
    match answer
    case Status200(r) => status == Delivered(r)
    case Status204 => false
    case Status404 => status == Missing
    case Broken => status == Failed
  }

  /** The loop of WaitResult, against a server that would answer the k-th poll with answers[k]:
      it polls while, and only while, the status of the answers so far is Polling. */
  method WaitResult(maxRetries: int, answers: seq<Poll>) returns (status: WaitStatus, polls: nat)
    requires |answers| > maxRetries
    ensures polls <= |answers| && polls <= Max(0, maxRetries + 1)
    ensures forall k :: 0 <= k < polls - 1 ==> answers[k] == Status204
    ensures status == Exhausted <==> forall k :: 0 <= k < Max(0, maxRetries + 1) ==> answers[k] == Status204
    ensures status == Exhausted ==> polls == Max(0, maxRetries + 1)
    ensures status != Exhausted ==> polls > 0 && Tells(answers[polls - 1], status)
    ensures status == StatusOf(maxRetries, answers[..polls]) && status != Polling
    ensures forall k :: 0 <= k < polls ==> StatusOf(maxRetries, answers[..k]) == Polling
  {
    var attempt := 0;
    while attempt <= maxRetries
      invariant 0 <= attempt <= Max(0, maxRetries + 1) <= |answers|
      invariant forall k :: 0 <= k < attempt ==> answers[k] == Status204
    {
      match answers[attempt] {
        case Status200(r) => return Delivered(r), attempt + 1;
        case Status204 =>
        case Status404 => return Missing, attempt + 1;
        case Broken => return Failed, attempt + 1;
      }
      attempt := attempt + 1;
    }
    return Exhausted, attempt;
  }
}
