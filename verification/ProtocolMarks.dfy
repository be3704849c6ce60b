/** What the pending mark of an id, which has no expiry, does to its Gets while no Put comes. */
module ProtocolMarks {
  import opened Basics
  import opened Protocol
  import opened ProtocolInvariants
  import opened ProtocolTheorems

  /** From state m to state n no Put of the id runs and nobody deletes the id. */
  ghost predicate NothingNew(r: Run, m: nat, n: nat, id: string) {
    && IsRun(r) && m <= n < |r.states|
    && forall k :: m <= k < n ==> !PutsFor(r.states[k], r.steps[k], id) && r.steps[k] != Remove(id)
  }

  lemma PendingNext(s: State, st: Step, id: string)
    requires Enabled(s, st) && !PutsFor(s, st, id) && st != Remove(id)
    ensures id in s.store.pending ==> id in Apply(s, st).store.pending
    ensures id !in s.store.results ==> id !in Apply(s, st).store.results
  {
  }

  /** Without a Put or a delete an id stays pending for ever, and a result that is gone stays gone. */
  lemma {:induction false} PendingForever(r: Run, m: nat, i: nat, n: nat, id: string)
    requires NothingNew(r, m, n, id) && m <= i <= n
    ensures id in r.states[m].store.pending ==> id in r.states[i].store.pending
    ensures id !in r.states[m].store.results ==> id !in r.states[i].store.results
    decreases i
  {
    if m < i {
      PendingForever(r, m, i - 1, n, id);
      assert Next(r, i - 1);
      PendingNext(r.states[i - 1], r.steps[i - 1], id);
    }
  }

  predicate Unanswered(s: State, g: nat) { OutcomeOf(s, g) == None }

  lemma NotFoundOnlyWhenUnknown(s: State, st: Step, g: nat)
    requires Enabled(s, st) && OutcomeOf(Apply(s, st), g) == Some(NotFound) && g in s.gets
    ensures OutcomeOf(s, g) == Some(NotFound) || (st == First(g) && s.gets[g].id !in s.store.pending)
  {
    if MovesGet(st) != Some(g) {
      OtherGetsStand(s, st, g);
    }
  }

  /** Meanwhile no Get of the id is answered NotFound. */
  lemma {:induction false} NeverNotFound(r: Run, m: nat, i: nat, n: nat, g: nat, id: string)
    requires NothingNew(r, m, n, id) && m <= i <= n && id in r.states[m].store.pending
    requires Unanswered(r.states[m], g) && g in r.states[i].gets && r.states[i].gets[g].id == id
    ensures OutcomeOf(r.states[i], g) != Some(NotFound)
    decreases i
  {
    if m < i {
      assert Next(r, i - 1);
      var s, st := r.states[i - 1], r.steps[i - 1];
      assert Enabled(s, st) && r.states[i] == Apply(s, st);
      if g in s.gets {
        GetGoesOn(s, st, g);
        NeverNotFound(r, m, i - 1, n, g, id);
        PendingForever(r, m, i - 1, n, id);
        if OutcomeOf(r.states[i], g) == Some(NotFound) {
          NotFoundOnlyWhenUnknown(s, st, g);
        }
      }
    }
  }

  /** A Get past its first lock region is not answered NotFound any more. */
  lemma {:induction false} WaitingNeverMisses(r: Run, m: nat, n: nat, g: nat)
    requires IsRun(r) && m <= n < |r.states| && Unanswered(r.states[m], g)
    requires g in r.states[m].gets && !r.states[m].gets[g].pc.Called?
    ensures OutcomeOf(r.states[n], g) != Some(NotFound)
    decreases n
  {
    if m < n {
      WaitingNeverMisses(r, m, n - 1, g);
      NotCalledAgain(r, m, n - 1, g);
      assert Next(r, n - 1);
      if OutcomeOf(r.states[n], g) == Some(NotFound) {
        NotFoundOnlyWhenUnknown(r.states[n - 1], r.steps[n - 1], g);
      }
    }
  }

  lemma {:induction false} GetsPersist(r: Run, m: nat, n: nat, g: nat)
    requires IsRun(r) && m <= n < |r.states| && g in r.states[m].gets
    ensures g in r.states[n].gets && r.states[n].gets[g].id == r.states[m].gets[g].id
    decreases n
  {
    if m < n {
      GetsPersist(r, m, n - 1, g);
      assert Next(r, n - 1);
      GetGoesOn(r.states[n - 1], r.steps[n - 1], g);
    }
  }

  /** No Put has a message for a Get that began after m. */
  lemma NoMessage(r: Run, m: nat, i: nat, n: nat, g: nat, id: string)
    requires NothingNew(r, m, n, id) && m <= i <= n && g !in r.states[m].gets
    requires g in r.states[i].gets && r.states[i].gets[g].id == id
    ensures forall p :: !Captured(r.states[i], p, g)
  {
    forall p: nat ensures !Captured(r.states[i], p, g) {
      if Captured(r.states[i], p, g) {
        var k := CapturedSince(r, i, p, g);
        InvAlways(r, k);
        GetsPersist(r, k, i, g);
        if k < m { GetsPersist(r, k, m, g); }
      }
    }
  }

  lemma FindsNothing(s: State, st: Step, g: nat, id: string)
    requires Enabled(s, st) && g in s.gets && s.gets[g].id == id && id in s.store.pending && id !in s.store.results
    requires g !in s.bufs && (Unanswered(s, g) || OutcomeOf(s, g) == Some(TimedOut))
    ensures Unanswered(Apply(s, st), g) || OutcomeOf(Apply(s, st), g) == Some(TimedOut)
  {
    if MovesGet(st) != Some(g) {
      OtherGetsStand(s, st, g);
    }
  }

  /** A Get that begins when the id is pending and not stored can only time out. */
  lemma {:induction false} PendingGetTimesOut(r: Run, m: nat, i: nat, n: nat, g: nat, id: string)
    requires NothingNew(r, m, n, id) && m <= i <= n
    requires id in r.states[m].store.pending && id !in r.states[m].store.results
    requires g !in r.states[m].gets && g in r.states[i].gets && r.states[i].gets[g].id == id
    ensures Unanswered(r.states[i], g) || OutcomeOf(r.states[i], g) == Some(TimedOut)
    decreases i
  {
    assert Next(r, i - 1);
    var s, st := r.states[i - 1], r.steps[i - 1];
    assert Enabled(s, st) && r.states[i] == Apply(s, st);
    if g in s.gets {
      GetGoesOn(s, st, g);
      PendingGetTimesOut(r, m, i - 1, n, g, id);
      PendingForever(r, m, i - 1, n, id);
      NoMessage(r, m, i - 1, n, g, id);
      InvAlways(r, i - 1);
      if g in s.bufs { assert Captured(s, s.bufs[g].ptr, g); }
      FindsNothing(s, st, g, id);
    } else if MovesGet(st) != Some(g) {
      OtherGetsStand(s, st, g);
    }
  }

  // ---------- An id that is not known at all ----------

  predicate IdUnknown(s: State, id: string) { id !in s.store.pending && id !in s.store.results }

  /** From state m to state n nobody registers the id. */
  ghost predicate NotMarked(r: Run, m: nat, n: nat, id: string)
    requires IsRun(r) && n < |r.states|
  {
    forall k :: m <= k < n ==> r.steps[k] != Register(id)
  }

  lemma UnknownNext(s: State, st: Step, id: string)
    requires Enabled(s, st) && IdUnknown(s, id) && !PutsFor(s, st, id) && st != Register(id)
    ensures IdUnknown(Apply(s, st), id)
  {
  }

  lemma {:induction false} UnknownForever(r: Run, m: nat, i: nat, n: nat, id: string)
    requires NothingNew(r, m, n, id) && NotMarked(r, m, n, id) && m <= i <= n && IdUnknown(r.states[m], id)
    ensures IdUnknown(r.states[i], id)
    decreases i
  {
    if m < i {
      UnknownForever(r, m, i - 1, n, id);
      assert Next(r, i - 1);
      UnknownNext(r.states[i - 1], r.steps[i - 1], id);
    }
  }

  predicate MissesOrWillMiss(s: State, g: nat) { At(s, g, Called) || At(s, g, Done(NotFound)) }

  lemma MissNext(s: State, st: Step, g: nat)
    requires Enabled(s, st) && MissesOrWillMiss(s, g) && IdUnknown(s, s.gets[g].id)
    ensures MissesOrWillMiss(Apply(s, st), g)
  {
    if MovesGet(st) != Some(g) {
      OtherGetsStand(s, st, g);
    }
  }

  /** A Get of such an id that begins later is answered NotFound, and with nothing else. */
  lemma {:induction false} UnknownGetMisses(r: Run, m: nat, i: nat, n: nat, g: nat, id: string)
    requires NothingNew(r, m, n, id) && NotMarked(r, m, n, id) && m <= i <= n && IdUnknown(r.states[m], id)
    requires g !in r.states[m].gets && g in r.states[i].gets && r.states[i].gets[g].id == id
    ensures MissesOrWillMiss(r.states[i], g)
    decreases i
  {
    assert Next(r, i - 1);
    var s, st := r.states[i - 1], r.steps[i - 1];
    if g in s.gets {
      GetGoesOn(s, st, g);
      UnknownGetMisses(r, m, i - 1, n, g, id);
      UnknownForever(r, m, i - 1, n, id);
      MissNext(s, st, g);
    } else if MovesGet(st) != Some(g) {
      OtherGetsStand(s, st, g);
    }
  }
}
