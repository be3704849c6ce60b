/** LocalClient.Run of pkg/client/local.go comes to its end: what a cancellation does, and how the loop paces itself. */
module WorkerExit {
  import opened Basics
  import opened WorkerLoop

  predicate IsPull(st: Step) { st.PullOk? || st.PullError? }

  predicate Stopping(s: State) { s.cancelled && !s.pc.Pulling? }

  // ---------- After a cancellation ----------

  /** The steps the loop has left, with all it has still to start, once it is stopping. */
  function LoopLeft(pc: Pc): nat {
    match pc
    case Check => 2
    case Pulling => 2
    case ErrorWait => 3
    case IdleWait => 3
    case Dispatch(batch) => 7 * |batch| + 3
    case Acquired(batch) => 7 * |batch| + 2
    case Added(batch) => 7 * |batch| + 1
    case Draining => 1
    case Exited => 0
  }

  function ExitLeft(s: State): nat { AllStepsLeft(s.procs, |s.procs|) + LoopLeft(s.pc) }

  lemma {:induction false} StepsLeftOfPrefix(ps: seq<Proc>, p: Proc, k: nat)
    requires k <= |ps|
    ensures AllStepsLeft(ps + [p], k) == AllStepsLeft(ps, k)
  {
    if k > 0 { StepsLeftOfPrefix(ps, p, k - 1); }
  }

  lemma StoppingStep(s: State, st: Step)
    requires Stopping(s) && Enabled(s, st)
    ensures Stopping(Apply(s, st)) && !IsPull(st)
    ensures ExitLeft(Apply(s, st)) + One(!st.Cancel?) <= ExitLeft(s)
  {
    if OfGoroutine(st) {
      StepsLeftUpdate(s.procs, st.i, Apply(s, st).procs[st.i], |s.procs|);
    } else if st.Main? && s.pc.Added? {
      StepsLeftOfPrefix(s.procs, Proc(s.pc.batch[0], Processing, []), |s.procs|);
    }
  }

  lemma StoppingRunStep(r: Run, workers: nat, k: nat)
    requires IsRun(r, workers) && k < |r.steps| && Stopping(r.states[k])
    ensures Stopping(r.states[k + 1]) && !IsPull(r.steps[k])
    ensures ExitLeft(r.states[k + 1]) + One(!r.steps[k].Cancel?) <= ExitLeft(r.states[k])
  {
    assert Next(r, k);
    StoppingStep(r.states[k], r.steps[k]);
  }

  /** Once it is cancelled and not in a PullBatch, Run makes no other, and whatever the goroutines do and in whatever
      order, it and they have at most ExitLeft steps to make. */
  lemma {:induction false} StopsSoon(r: Run, workers: nat, m: nat, n: nat)
    requires IsRun(r, workers) && m <= n < |r.states| && Stopping(r.states[m])
    ensures Stopping(r.states[n]) && Moves(r.steps, m, n) + ExitLeft(r.states[n]) <= ExitLeft(r.states[m])
    ensures forall k :: m <= k < n ==> !IsPull(r.steps[k])
    decreases n
  {
    if m < n {
      StopsSoon(r, workers, m, n - 1);
      StoppingRunStep(r, workers, n - 1);
    }
  }

  lemma {:induction false} CancelledForever(r: Run, workers: nat, k: nat, n: nat)
    requires IsRun(r, workers) && k < n < |r.states| && r.steps[k] == Cancel
    ensures r.states[n].cancelled
    decreases n
  {
    assert Next(r, n - 1);
    if k < n - 1 { CancelledForever(r, workers, k, n - 1); }
  }

  lemma PullWhenCancelled(s: State, st: Step)
    requires s.cancelled && Enabled(s, st) && IsPull(st)
    ensures Stopping(Apply(s, st))
  {
  }

  /** After a cancellation at most one PullBatch returns, the one under way; so nothing new is asked for. */
  lemma OnePullAfterCancel(r: Run, workers: nat, k: nat, i: nat, j: nat)
    requires IsRun(r, workers) && k < i < j < |r.steps| && r.steps[k] == Cancel && IsPull(r.steps[i])
    ensures !IsPull(r.steps[j])
  {
    CancelledForever(r, workers, k, i);
    assert Next(r, i);
    PullWhenCancelled(r.states[i], r.steps[i]);
    StopsSoon(r, workers, i + 1, j + 1);
  }

  /** The three ways out of the loop: the check at its top, the idle wait, and a PullBatch that fails when the
      context is cancelled. The wait after an error is not one: its `break` leads back to the top. */
  lemma WaysOut(s: State, st: Step)
    requires Enabled(s, st) && !Leaving(s)
    ensures Leaving(Apply(s, st)) <==>
            s.cancelled && ((st == Main && (s.pc.Check? || s.pc.IdleWait?)) || st == PullError)
  {
  }

  lemma PulledStays(s: State, st: Step)
    requires Enabled(s, st) && !IsPull(st)
    ensures Apply(s, st).pulled == s.pulled
  {
  }

  /** What has been pulled is what the PullBatches returned. */
  lemma {:induction false} PulledByPulls(r: Run, workers: nat, m: nat, n: nat)
    requires IsRun(r, workers) && m <= n < |r.states| && forall k :: m <= k < n ==> !IsPull(r.steps[k])
    ensures r.states[n].pulled == r.states[m].pulled
    decreases n
  {
    if m < n {
      PulledByPulls(r, workers, m, n - 1);
      assert Next(r, n - 1);
      PulledStays(r.states[n - 1], r.steps[n - 1]);
    }
  }

  // ---------- Run can always return ----------

  function Last(r: Run): State
    requires |r.states| == |r.steps| + 1
  {
    r.states[|r.steps|]
  }

  /** r' goes on from where r ends. */
  ghost predicate Continues(r: Run, r': Run, workers: nat) {
    IsRun(r, workers) && IsRun(r', workers) && r.states <= r'.states && r.steps <= r'.steps
  }

  lemma Then(r: Run, workers: nat, st: Step) returns (r': Run)
    requires IsRun(r, workers) && Enabled(Last(r), st)
    ensures Continues(r, r', workers) && |r'.steps| == |r.steps| + 1
    ensures r'.steps[|r.steps|] == st && Last(r') == Apply(Last(r), st)
  {
    r' := Run(r.states + [Apply(Last(r), st)], r.steps + [st]);
    forall i | 0 <= i < |r'.steps| ensures Next(r', i) {
      if i < |r.steps| {
        assert Next(r, i);
      }
    }
  }

  lemma {:induction false} StoppingCanReturn(r: Run, workers: nat) returns (r': Run)
    requires IsRun(r, workers) && workers >= 1 && Stopping(Last(r))
    ensures Continues(r, r', workers) && Last(r').pc == Exited
    decreases ExitLeft(Last(r))
  {
    r' := r;
    if Last(r).pc != Exited {
      var st := NeverStuck(r, workers, |r.steps|);
      StoppingStep(Last(r), st);
      var r1 := Then(r, workers, st);
      r' := StoppingCanReturn(r1, workers);
    }
  }

  /** With a worker, every run can be continued to one in which Run has returned. */
  lemma CanReturn(r: Run, workers: nat) returns (r': Run)
    requires IsRun(r, workers) && workers >= 1
    ensures Continues(r, r', workers) && Last(r').pc == Exited
  {
    r' := Then(r, workers, Cancel);
    if Last(r').pc == Pulling {
      var r1 := Then(r', workers, PullError);
      PullWhenCancelled(Last(r'), PullError);
      r' := r1;
    }
    r' := StoppingCanReturn(r', workers);
  }

  // ---------- Pacing ----------

  /** Waiting for the poll interval, or on the way out. */
  predicate Idling(s: State) { s.pc.ErrorWait? || s.pc.IdleWait? || Stopping(s) }

  lemma IdlingStep(s: State, st: Step)
    requires Enabled(s, st) && !st.Timer?
    requires Idling(s) || st == PullError || st == PullOk([])
    ensures Idling(Apply(s, st))
  {
  }

  lemma {:induction false} IdlesUntilTimer(r: Run, workers: nat, i: nat, n: nat)
    requires IsRun(r, workers) && i < n < |r.states| && (r.steps[i] == PullError || r.steps[i] == PullOk([]))
    requires forall k :: i < k < n ==> !r.steps[k].Timer?
    ensures Idling(r.states[n])
    decreases n
  {
    assert Next(r, n - 1);
    if i < n - 1 { IdlesUntilTimer(r, workers, i, n - 1); }
    IdlingStep(r.states[n - 1], r.steps[n - 1]);
  }

  /** After a PullBatch that failed or brought nothing, the next one comes only after the poll interval. */
  lemma PullsArePaced(r: Run, workers: nat, i: nat, j: nat)
    requires IsRun(r, workers) && i < j < |r.steps| && IsPull(r.steps[j])
    requires r.steps[i] == PullError || r.steps[i] == PullOk([])
    ensures exists k :: i < k < j && r.steps[k].Timer?
  {
    assert Next(r, j);
    if forall k :: i < k < j ==> !r.steps[k].Timer? {
      IdlesUntilTimer(r, workers, i, j);
    }
  }
}
