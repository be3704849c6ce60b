/** LocalClient.Run of pkg/client/local.go as a state machine: the poll loop, one goroutine for each
    request it dispatches, the semaphore channel and the wait group. */
module WorkerLoop {
  import opened Basics

  datatype Request = Request(id: string)

  /** ErrorBody is the JSON object made of an error message. */
  datatype Payload = NoPayload | ErrorBody(message: string) | Given(bytes: string)

  datatype Result =
    Result(requestID: string, payload: Payload, statusCode: int, error: string, completedAt: Option<Time>)

  /** What the caller's processor function returns: an error, nil, or a result of its own making. */
  datatype Processed = Failed(message: string) | Nothing | Returned(result: Result)

  /** The result that is pushed for a request, made at `now`. */
  function Process(req: Request, p: Processed, now: Time): Result {
    match p
    case Failed(message) => Result(req.id, ErrorBody(message), 500, message, Some(now))
    case Nothing => Result(req.id, NoPayload, 200, "", Some(now))
    case Returned(r) => if r.completedAt == None then r.(completedAt := Some(now)) else r
  }

  /** A goroutine: processing, pushing the result, then its deferred `<-sem` and `wg.Done()`. */
  datatype Stage = Processing | Pushing(result: Result) | Pushed | Released | Finished

  datatype Proc = Proc(req: Request, stage: Stage, pushes: seq<Result>)

  datatype Pc =
    | Check                          // top of the loop: ctx.Err()
    | Pulling                        // PullBatch under way
    | ErrorWait | IdleWait           // the two selects
    | Dispatch(batch: seq<Request>)  // the range loop
    | Acquired(batch: seq<Request>)  // slot taken for batch[0]
    | Added(batch: seq<Request>)     // wg.Add(1) done for batch[0]
    | Draining                       // wg.Wait()
    | Exited

  /** `pulled` is history: every request PullBatch ever returned. */
  datatype State = State(pc: Pc, cancelled: bool, sem: nat, wg: nat, procs: seq<Proc>, pulled: seq<Request>,
                         workers: nat)

  datatype Step =
    | Cancel
    | Main                                     // the loop goes on where it can without outside help
    | PullOk(batch: seq<Request>) | PullError  // PullBatch returns
    | Timer                                    // time.After fires
    | Finish(i: nat, p: Processed, now: Time)  // the processor function of goroutine i returns
    | Push(i: nat) | Release(i: nat) | Done(i: nat)

  function Init(workers: nat): State { State(Check, false, 0, 0, [], [], workers) }

  predicate MainEnabled(s: State) {
    match s.pc
    case Check => true
    case ErrorWait => s.cancelled
    case IdleWait => s.cancelled
    case Dispatch(batch) => batch == [] || s.sem < s.workers // a send on the semaphore channel blocks when it is full
    case Acquired(batch) => batch != []
    case Added(batch) => batch != []
    case Draining => s.wg == 0
    case _ => false
  }

  predicate At(s: State, i: nat, stage: Stage) { i < |s.procs| && s.procs[i].stage == stage }

  predicate Enabled(s: State, st: Step) {
    match st
    case Cancel => true
    case Main => MainEnabled(s)
    case PullOk(_) => s.pc == Pulling
    case PullError => s.pc == Pulling
    case Timer => s.pc == ErrorWait || s.pc == IdleWait
    case Finish(i, _, _) => At(s, i, Processing)
    case Push(i) => i < |s.procs| && s.procs[i].stage.Pushing?
    case Release(i) => At(s, i, Pushed) && s.sem > 0
    case Done(i) => At(s, i, Released) && s.wg > 0
  }

  function SetProc(s: State, i: nat, p: Proc): State
    requires i < |s.procs|
  {
    s.(procs := s.procs[i := p])
  }

  function Apply(s: State, st: Step): State
    requires Enabled(s, st)
  {
    match st
    case Cancel => s.(cancelled := true)
    case Main =>
      (match s.pc
       case Check => s.(pc := if s.cancelled then Draining else Pulling)
       case ErrorWait => s.(pc := Check) // `break` only leaves the select; `continue` follows
       case IdleWait => s.(pc := Draining)
       case Dispatch(batch) => if batch == [] then s.(pc := Check) else s.(pc := Acquired(batch), sem := s.sem + 1)
       case Acquired(batch) => s.(pc := Added(batch), wg := s.wg + 1)
       case Added(batch) => s.(pc := Dispatch(batch[1..]), procs := s.procs + [Proc(batch[0], Processing, [])])
       case Draining => s.(pc := Exited)
       case _ => s)
    case PullOk(batch) => s.(pc := if batch == [] then IdleWait else Dispatch(batch), pulled := s.pulled + batch)
    case PullError => s.(pc := if s.cancelled then Draining else ErrorWait)
    case Timer => s.(pc := Check)
    case Finish(i, p, now) => SetProc(s, i, s.procs[i].(stage := Pushing(Process(s.procs[i].req, p, now))))
    case Push(i) => SetProc(s, i, s.procs[i].(stage := Pushed, pushes := s.procs[i].pushes + [s.procs[i].stage.result]))
    case Release(i) => SetProc(s.(sem := s.sem - 1), i, s.procs[i].(stage := Released))
    case Done(i) => SetProc(s.(wg := s.wg - 1), i, s.procs[i].(stage := Finished))
  }

  datatype Run = Run(states: seq<State>, steps: seq<Step>)

  /** State i+1 follows from state i by step i. */
  ghost predicate Next(r: Run, i: nat)
    requires |r.states| == |r.steps| + 1 && i < |r.steps|
  {
    Enabled(r.states[i], r.steps[i]) && r.states[i + 1] == Apply(r.states[i], r.steps[i])
  }

  ghost predicate IsRun(r: Run, workers: nat) {
    && |r.states| == |r.steps| + 1
    && r.states[0] == Init(workers)
    && forall i :: 0 <= i < |r.steps| ==> Next(r, i)
  }

  // ---------- Counting goroutines ----------

  /** Holds a slot of the semaphore. */
  predicate HoldsSlot(p: Proc) { !p.stage.Released? && !p.stage.Finished? }

  predicate Unfinished(p: Proc) { !p.stage.Finished? }

  function Slots(ps: seq<Proc>): nat {
    if ps == [] then 0 else Slots(ps[..|ps| - 1]) + (if HoldsSlot(ps[|ps| - 1]) then 1 else 0)
  }

  function Waits(ps: seq<Proc>): nat {
    if ps == [] then 0 else Waits(ps[..|ps| - 1]) + (if Unfinished(ps[|ps| - 1]) then 1 else 0)
  }

  lemma CountSnoc(ps: seq<Proc>, p: Proc)
    ensures Slots(ps + [p]) == Slots(ps) + One(HoldsSlot(p)) && Waits(ps + [p]) == Waits(ps) + One(Unfinished(p))
  {
    assert (ps + [p])[..|ps|] == ps;
  }

  lemma {:induction false} CountUpdate(ps: seq<Proc>, i: nat, p: Proc)
    requires i < |ps|
    ensures Slots(ps[i := p]) == Slots(ps) - One(HoldsSlot(ps[i])) + One(HoldsSlot(p))
    ensures Waits(ps[i := p]) == Waits(ps) - One(Unfinished(ps[i])) + One(Unfinished(p))
  {
    var n := |ps| - 1;
    if i < n {
      CountUpdate(ps[..n], i, p);
      assert ps[i := p][..n] == ps[..n][i := p];
    } else {
      assert ps[i := p][..n] == ps[..n];
    }
  }

  lemma {:induction false} NoneWaiting(ps: seq<Proc>, i: nat)
    requires Waits(ps) == 0 && i < |ps|
    ensures ps[i].stage.Finished?
  {
    if i < |ps| - 1 { NoneWaiting(ps[..|ps| - 1], i); }
  }

  lemma {:induction false} SomeHoldsSlot(ps: seq<Proc>) returns (i: nat)
    requires Slots(ps) > 0
    ensures i < |ps| && HoldsSlot(ps[i])
  {
    i := |ps| - 1;
    if !HoldsSlot(ps[i]) { i := SomeHoldsSlot(ps[..|ps| - 1]); }
  }

  lemma {:induction false} SomeUnfinished(ps: seq<Proc>) returns (i: nat)
    requires Waits(ps) > 0
    ensures i < |ps| && Unfinished(ps[i])
  {
    i := |ps| - 1;
    if !Unfinished(ps[i]) { i := SomeUnfinished(ps[..|ps| - 1]); }
  }

  // ---------- What every reachable state satisfies ----------

  /** Requests pulled and not yet handed to a goroutine. */
  function Left(pc: Pc): seq<Request> {
    match pc
    case Dispatch(batch) => batch
    case Acquired(batch) => batch
    case Added(batch) => batch
    case _ => []
  }

  function Requests(ps: seq<Proc>): seq<Request> { seq(|ps|, i requires 0 <= i < |ps| => ps[i].req) }

  /** The result is what `process` makes of some return of the processor function for this request. */
  ghost predicate Answers(req: Request, x: Result) {
    exists p, now :: x == Process(req, p, now)
  }

  ghost predicate ProcSane(p: Proc) {
    match p.stage
    case Processing => p.pushes == []
    case Pushing(x) => p.pushes == [] && Answers(p.req, x)
    case _ => |p.pushes| == 1 && Answers(p.req, p.pushes[0])
  }

  /** The semaphore and the wait group count the goroutines. */
  predicate Counts(s: State) {
    && s.sem == Slots(s.procs) + One(s.pc.Acquired? || s.pc.Added?) && s.sem <= s.workers
    && s.wg == Waits(s.procs) + One(s.pc.Added?)
  }

  /** Every request pulled has its goroutine, in order, or is left in the batch. */
  predicate Books(s: State) {
    && s.pulled == Requests(s.procs) + Left(s.pc)
    && (s.pc.Acquired? || s.pc.Added? ==> Left(s.pc) != [])
  }

  ghost predicate ProcsSane(s: State) { forall i :: 0 <= i < |s.procs| ==> ProcSane(s.procs[i]) }

  ghost predicate Inv(s: State) {
    && Counts(s) && Books(s) && ProcsSane(s)
    && (s.pc.Draining? || s.pc.Exited? ==> s.cancelled)
    && (s.pc.Exited? ==> s.wg == 0)
  }

  predicate OfGoroutine(st: Step) { st.Finish? || st.Push? || st.Release? || st.Done? }

  lemma GoroutineKeepsCounts(s: State, st: Step)
    requires Counts(s) && Enabled(s, st) && OfGoroutine(st)
    ensures Counts(Apply(s, st))
  {
    CountUpdate(s.procs, st.i, Apply(s, st).procs[st.i]);
  }

  lemma GoroutineKeepsBooks(s: State, st: Step)
    requires Books(s) && Enabled(s, st) && OfGoroutine(st)
    ensures Books(Apply(s, st))
  {
    assert Requests(Apply(s, st).procs) == Requests(s.procs);
  }

  lemma GoroutineKeepsProcs(s: State, st: Step)
    requires ProcsSane(s) && Enabled(s, st) && OfGoroutine(st)
    ensures ProcsSane(Apply(s, st))
  {
    assert ProcSane(s.procs[st.i]);
  }

  lemma GoroutineStepKeepsInv(s: State, st: Step)
    requires Inv(s) && Enabled(s, st) && OfGoroutine(st)
    ensures Inv(Apply(s, st))
  {
    GoroutineKeepsCounts(s, st);
    GoroutineKeepsBooks(s, st);
    GoroutineKeepsProcs(s, st);
  }

  lemma SpawnKeepsCounts(s: State)
    requires Counts(s) && s.pc.Added? && s.pc.batch != []
    ensures Counts(Apply(s, Main))
  {
    CountSnoc(s.procs, Proc(s.pc.batch[0], Processing, []));
  }

  lemma MoveFirst<T>(a: seq<T>, b: seq<T>)
    requires b != []
    ensures a + b == (a + [b[0]]) + b[1..]
  {
  }

  lemma RequestsSnoc(ps: seq<Proc>, p: Proc)
    ensures Requests(ps + [p]) == Requests(ps) + [p.req]
  {
  }

  lemma SpawnKeepsBooks(s: State)
    requires Books(s) && s.pc.Added?
    ensures Books(Apply(s, Main))
  {
    RequestsSnoc(s.procs, Proc(s.pc.batch[0], Processing, []));
    MoveFirst(Requests(s.procs), s.pc.batch);
  }

  lemma SpawnKeepsInv(s: State)
    requires Inv(s) && s.pc.Added?
    ensures Inv(Apply(s, Main))
  {
    SpawnKeepsCounts(s);
    SpawnKeepsBooks(s);
  }

  lemma LoopStepKeepsInv(s: State, st: Step)
    requires Inv(s) && Enabled(s, st) && !OfGoroutine(st) && !(st.Main? && s.pc.Added?)
    ensures Inv(Apply(s, st))
  {
    var s' := Apply(s, st);
    assert s'.procs == s.procs && s'.workers == s.workers;
    assert s'.pulled == Requests(s.procs) + Left(s'.pc);
  }

  lemma {:induction false} InvAlways(r: Run, workers: nat, n: nat)
    requires IsRun(r, workers) && n < |r.states|
    ensures Inv(r.states[n]) && r.states[n].workers == workers
  {
    if n > 0 {
      InvAlways(r, workers, n - 1);
      assert Next(r, n - 1);
      var s, st := r.states[n - 1], r.steps[n - 1];
      assert Enabled(s, st) && r.states[n] == Apply(s, st);
      if OfGoroutine(st) {
        GoroutineStepKeepsInv(s, st);
      } else if st.Main? && s.pc.Added? {
        SpawnKeepsInv(s);
      } else {
        LoopStepKeepsInv(s, st);
      }
    }
  }

  // ---------- The promises of Run ----------

  function Running(s: State): set<nat> { set i | 0 <= i < |s.procs| && HoldsSlot(s.procs[i]) :: i }

  lemma {:induction false} RunningCount(ps: seq<Proc>)
    ensures |set i: nat | i < |ps| && HoldsSlot(ps[i]) :: i| == Slots(ps)
  {
    if ps != [] {
      var n := |ps| - 1;
      RunningCount(ps[..n]);
      var before := set i: nat | i < |ps[..n]| && HoldsSlot(ps[..n][i]) :: i;
      var all := set i: nat | i < |ps| && HoldsSlot(ps[i]) :: i;
      assert all == before + if HoldsSlot(ps[n]) then {n} else {};
    }
  }

  /** At most `workers` processors run at any time: a goroutine that is processing or pushing holds a slot. */
  lemma AtMostWorkersRun(r: Run, workers: nat, n: nat)
    requires IsRun(r, workers) && n < |r.states|
    ensures |Running(r.states[n])| <= workers
    ensures forall i :: 0 <= i < |r.states[n].procs| && !(i in Running(r.states[n])) ==>
              r.states[n].procs[i].stage.Released? || r.states[n].procs[i].stage.Finished?
  {
    InvAlways(r, workers, n);
    RunningCount(r.states[n].procs);
    assert Running(r.states[n]) == set i: nat | i < |r.states[n].procs| && HoldsSlot(r.states[n].procs[i]) :: i;
  }

  /** When Run returns, by whichever exit, the context was cancelled, and every request it ever pulled was
      dispatched, in order, processed to the end, and had exactly one PushResult attempt, with what the
      processor made of that request. */
  lemma ReturnsOnlyWhenAllPushed(r: Run, workers: nat, n: nat)
    requires IsRun(r, workers) && n < |r.states| && r.states[n].pc == Exited
    ensures var s := r.states[n];
            && s.cancelled
            && |s.procs| == |s.pulled|
            && forall i :: 0 <= i < |s.procs| ==>
                 s.procs[i].req == s.pulled[i] && s.procs[i].stage.Finished? &&
                 |s.procs[i].pushes| == 1 && Answers(s.pulled[i], s.procs[i].pushes[0])
  {
    InvAlways(r, workers, n);
    var s := r.states[n];
    forall i | 0 <= i < |s.procs| ensures s.procs[i].stage.Finished? && s.procs[i].req == s.pulled[i] {
      NoneWaiting(s.procs, i);
      assert s.pulled[i] == Requests(s.procs)[i];
    }
    assert forall i :: 0 <= i < |s.procs| ==> ProcSane(s.procs[i]);
  }

  /** The loop goes on without outside help, or waits for one of: PullBatch, a timer, a goroutine. */
  predicate CanGoOn(s: State, st: Step) { Enabled(s, st) && !st.Cancel? }

  /** With at least one worker the client is never stuck: until Run returns some step other than a
      cancellation is possible. */
  lemma NeverStuck(r: Run, workers: nat, n: nat) returns (st: Step)
    requires IsRun(r, workers) && n < |r.states| && workers >= 1 && r.states[n].pc != Exited
    ensures CanGoOn(r.states[n], st)
  {
    InvAlways(r, workers, n);
    var s := r.states[n];
    st := Main;
    match s.pc
    case Pulling => st := PullError;
    case ErrorWait => st := Timer;
    case IdleWait => st := Timer;
    case Dispatch(batch) =>
      if batch != [] && s.sem >= s.workers {
        var i := SomeHoldsSlot(s.procs);
        st := GoroutineStep(s, i);
      }
    case Draining =>
      if s.wg > 0 {
        var i := SomeUnfinished(s.procs);
        st := GoroutineStep(s, i);
      }
    case _ =>
  }

  // ---------- Draining ends ----------

  /** The steps a goroutine has left. */
  function StepsLeft(p: Proc): nat {
    match p.stage
    case Processing => 4
    case Pushing(_) => 3
    case Pushed => 2
    case Released => 1
    case Finished => 0
  }

  /** The steps the first k goroutines have left. */
  function AllStepsLeft(ps: seq<Proc>, k: nat): nat
    requires k <= |ps|
  {
    if k == 0 then 0 else AllStepsLeft(ps, k - 1) + StepsLeft(ps[k - 1])
  }

  lemma {:induction false} StepsLeftUpdate(ps: seq<Proc>, i: nat, p: Proc, k: nat)
    requires i < |ps| && k <= |ps|
    ensures AllStepsLeft(ps[i := p], k) ==
            AllStepsLeft(ps, k) + if i < k then StepsLeft(p) - StepsLeft(ps[i]) else 0
  {
    if k > 0 { StepsLeftUpdate(ps, i, p, k - 1); }
  }

  predicate Leaving(s: State) { s.pc.Draining? || s.pc.Exited? }

  /** What is left to do once Run waits for its goroutines. */
  function DrainLeft(s: State): nat { AllStepsLeft(s.procs, |s.procs|) + One(s.pc.Draining?) }

  /** Every step but a cancellation uses up one. */
  lemma DrainStep(s: State, st: Step)
    requires Leaving(s) && Enabled(s, st)
    ensures Leaving(Apply(s, st))
    ensures DrainLeft(s) == DrainLeft(Apply(s, st)) + One(!st.Cancel?)
  {
    if OfGoroutine(st) {
      StepsLeftUpdate(s.procs, st.i, Apply(s, st).procs[st.i], |s.procs|);
    }
  }

  /** How many of the steps m, m+1, ... n-1 are not cancellations. */
  function Moves(steps: seq<Step>, m: nat, n: nat): nat
    requires m <= n <= |steps|
    decreases n
  {
    if m == n then 0 else Moves(steps, m, n - 1) + One(!steps[n - 1].Cancel?)
  }

  lemma DrainRunStep(r: Run, workers: nat, k: nat)
    requires IsRun(r, workers) && k < |r.steps| && Leaving(r.states[k])
    ensures Leaving(r.states[k + 1])
    ensures DrainLeft(r.states[k]) == DrainLeft(r.states[k + 1]) + One(!r.steps[k].Cancel?)
  {
    assert Next(r, k);
    DrainStep(r.states[k], r.steps[k]);
  }

  lemma {:induction false} StaysLeaving(r: Run, workers: nat, m: nat, n: nat)
    requires IsRun(r, workers) && m <= n < |r.states| && Leaving(r.states[m])
    ensures Leaving(r.states[n])
    decreases n
  {
    if m < n {
      StaysLeaving(r, workers, m, n - 1);
      DrainRunStep(r, workers, n - 1);
    }
  }

  lemma {:induction false} CountDown(steps: seq<Step>, left: seq<nat>, m: nat, n: nat)
    requires |left| == |steps| + 1 && m <= n < |left|
    requires forall k :: m <= k < n ==> left[k] == left[k + 1] + One(!steps[k].Cancel?)
    ensures Moves(steps, m, n) + left[n] == left[m]
    decreases n
  {
    if m < n { CountDown(steps, left, m, n - 1); }
  }

  /** Once Run waits for its goroutines, each step brings the end nearer, so that in whatever order they run
      exactly DrainLeft more are made before nothing is left. */
  lemma DrainIsBounded(r: Run, workers: nat, m: nat, n: nat)
    requires IsRun(r, workers) && m <= n < |r.states| && Leaving(r.states[m])
    ensures Leaving(r.states[n]) && Moves(r.steps, m, n) + DrainLeft(r.states[n]) == DrainLeft(r.states[m])
  {
    var left: seq<nat> := seq(|r.states|, k requires 0 <= k < |r.states| => DrainLeft(r.states[k]));
    forall k | m <= k < n ensures left[k] == left[k + 1] + One(!r.steps[k].Cancel?) {
      StaysLeaving(r, workers, m, k);
      DrainRunStep(r, workers, k);
    }
    CountDown(r.steps, left, m, n);
    StaysLeaving(r, workers, m, n);
  }

  lemma {:induction false} NothingLeft(ps: seq<Proc>, k: nat)
    requires k <= |ps| && forall i :: 0 <= i < |ps| ==> ps[i].stage.Finished?
    ensures AllStepsLeft(ps, k) == 0
  {
    if k > 0 { NothingLeft(ps, k - 1); }
  }

  /** Nothing is left exactly when Run has returned: the wait for the goroutines ends after DrainLeft steps. */
  lemma DrainedIffExited(r: Run, workers: nat, n: nat)
    requires IsRun(r, workers) && n < |r.states| && Leaving(r.states[n])
    ensures DrainLeft(r.states[n]) == 0 <==> r.states[n].pc == Exited
  {
    if r.states[n].pc == Exited {
      ReturnsOnlyWhenAllPushed(r, workers, n);
      NothingLeft(r.states[n].procs, |r.states[n].procs|);
    }
  }

  lemma {:induction false} CountsPositive(ps: seq<Proc>, i: nat)
    requires i < |ps|
    ensures HoldsSlot(ps[i]) ==> Slots(ps) > 0
    ensures Unfinished(ps[i]) ==> Waits(ps) > 0
  {
    if i < |ps| - 1 { CountsPositive(ps[..|ps| - 1], i); }
  }

  lemma GoroutineStep(s: State, i: nat) returns (st: Step)
    requires Inv(s) && i < |s.procs| && Unfinished(s.procs[i])
    ensures CanGoOn(s, st)
  {
    CountsPositive(s.procs, i);
    st := match s.procs[i].stage
          case Processing => Finish(i, Nothing, 0)
          case Pushing(_) => Push(i)
          case Pushed => Release(i)
          case _ => Done(i);
  }

  lemma {:induction false} NobodyStarted(r: Run, n: nat)
    requires IsRun(r, 0) && n < |r.states|
    ensures r.states[n].procs == [] && !r.states[n].pc.Acquired? && !r.states[n].pc.Added?
  {
    InvAlways(r, 0, n);
    if n > 0 {
      NobodyStarted(r, n - 1);
      assert Next(r, n - 1);
    }
  }

  lemma BlockedStays(s: State, st: Step)
    requires s.workers == 0 && s.pc.Dispatch? && s.pc.batch != [] && Enabled(s, st)
    ensures Apply(s, st).pc == s.pc
  {
  }

  /** With no worker two steps and a batch lead to a dispatch. */
  lemma NoWorkersDispatch(batch: seq<Request>) returns (r: Run)
    requires batch != []
    ensures IsRun(r, 0) && |r.states| == 3 && r.states[2].pc == Dispatch(batch)
  {
    var s0 := Init(0);
    var s1 := Apply(s0, Main);
    r := Run([s0, s1, Apply(s1, PullOk(batch))], [Main, PullOk(batch)]);
  }

  /** With no worker the first dispatch blocks forever: no goroutine ever starts and Run never returns. */
  lemma {:induction false} NoWorkersNoProgress(r: Run, m: nat, n: nat)
    requires IsRun(r, 0) && m <= n < |r.states| && r.states[m].pc.Dispatch? && r.states[m].pc.batch != []
    ensures r.states[n].pc == r.states[m].pc && r.states[n].procs == []
    decreases n
  {
    NobodyStarted(r, n);
    if m < n {
      NoWorkersNoProgress(r, m, n - 1);
      InvAlways(r, 0, n - 1);
      assert Next(r, n - 1);
      BlockedStays(r.states[n - 1], r.steps[n - 1]);
    }
  }

  /** What is pushed always has a completion time, and answers the request unless the caller's own
      result names another id; an error becomes a 500, no result an empty 200, and the caller's own result is
      pushed as it is but for a missing completion time. */
  lemma PushedResultAnswers(req: Request, p: Processed, now: Time)
    ensures var x := Process(req, p, now);
            && (x.requestID == req.id <==> (p.Returned? ==> p.result.requestID == req.id))
            && x.completedAt.Some?
            && (p.Failed? ==>
                  x.statusCode == 500 && x.error == p.message && x.payload == ErrorBody(p.message) &&
                  x.completedAt.value == now)
            && (p.Nothing? ==>
                  x.statusCode == 200 && x.error == "" && x.payload == NoPayload && x.completedAt.value == now)
            && (p.Returned? ==>
                  x.requestID == p.result.requestID && x.payload == p.result.payload &&
                  x.statusCode == p.result.statusCode && x.error == p.result.error &&
                  x.completedAt.value == if p.result.completedAt.Some? then p.result.completedAt.value else now)
  {
  }
}
