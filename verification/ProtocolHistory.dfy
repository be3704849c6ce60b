/** What the store knows of an id, as a function of what has happened to it. */
module ProtocolHistory {
  import opened Basics
  import opened StoreSpec
  import opened Protocol
  import opened ProtocolInvariants

  /** The step takes the id's stored result: a Get that returns it from the map, or the sweeper. */
  predicate TakesResult(s: State, st: Step, id: string) {
    id in s.store.results &&
    match st
    case First(g) => g in s.gets && s.gets[g].id == id
    case Recheck(g) => g in s.gets && s.gets[g].id == id
    case SweepAt(at) => Expired(s.store.results[id], at)
    case _ => false
  }

  lemma PendingNextIff(s: State, st: Step, id: string)
    requires Enabled(s, st)
    ensures id in Apply(s, st).store.pending <==>
            st == Register(id) || (id in s.store.pending && !PutsFor(s, st, id) && st != Remove(id))
  {
  }

  lemma StoredNextIff(s: State, st: Step, id: string)
    requires Enabled(s, st)
    ensures id in Apply(s, st).store.results <==>
            PutsFor(s, st, id) || (id in s.store.results && !TakesResult(s, st, id) && st != Remove(id))
  {
  }

  lemma StoredStays(s: State, st: Step, id: string)
    requires Enabled(s, st) && id in s.store.results && !PutsFor(s, st, id) && id in Apply(s, st).store.results
    ensures Apply(s, st).store.results[id] == s.store.results[id]
  {
  }

  ghost predicate PutAt(r: Run, k: nat, id: string)
    requires IsRun(r)
  {
    k < |r.steps| && PutsFor(r.states[k], r.steps[k], id)
  }

  ghost predicate PutOrDelete(r: Run, k: nat, id: string)
    requires IsRun(r) && k < |r.steps|
  {
    PutsFor(r.states[k], r.steps[k], id) || r.steps[k] == Remove(id)
  }

  ghost predicate TakenAt(r: Run, j: nat, id: string)
    requires IsRun(r)
  {
    j < |r.steps| && TakesResult(r.states[j], r.steps[j], id)
  }

  /** The id was registered at step a, and neither put nor deleted since. */
  ghost predicate MarkedSince(r: Run, a: nat, n: nat, id: string)
    requires IsRun(r) && n < |r.states|
  {
    a < n && r.steps[a] == Register(id) && forall k :: a < k < n ==> !PutOrDelete(r, k, id)
  }

  /** The id was put at step k, and neither put again nor deleted nor taken since. */
  ghost predicate StoredSince(r: Run, k: nat, n: nat, id: string)
    requires IsRun(r) && n < |r.states|
  {
    k < n && PutAt(r, k, id) && forall j :: k < j < n ==> !PutOrDelete(r, j, id) && !TakenAt(r, j, id)
  }

  lemma MarkedSinceNext(r: Run, n: nat, n': nat, id: string)
    requires IsRun(r) && n < |r.steps| && n' == n + 1
    ensures (exists a: nat :: MarkedSince(r, a, n', id)) <==>
            r.steps[n] == Register(id) || (!PutOrDelete(r, n, id) && exists a: nat :: MarkedSince(r, a, n, id))
  {
    if r.steps[n] == Register(id) {
      assert MarkedSince(r, n, n', id);
    }
    if a: nat :| MarkedSince(r, a, n, id) && !PutOrDelete(r, n, id) {
      assert MarkedSince(r, a, n', id);
    }
    if a: nat :| MarkedSince(r, a, n', id) && a < n {
      assert MarkedSince(r, a, n, id) && !PutOrDelete(r, n, id);
    }
  }

  lemma StoredSinceNext(r: Run, n: nat, n': nat, id: string)
    requires IsRun(r) && n < |r.steps| && n' == n + 1
    ensures (exists k: nat :: StoredSince(r, k, n', id)) <==>
            PutAt(r, n, id) ||
            (!PutOrDelete(r, n, id) && !TakenAt(r, n, id) && exists k: nat :: StoredSince(r, k, n, id))
  {
    if PutAt(r, n, id) {
      assert StoredSince(r, n, n', id);
    }
    if k: nat :| StoredSince(r, k, n, id) && !PutOrDelete(r, n, id) && !TakenAt(r, n, id) {
      assert StoredSince(r, k, n', id);
    }
    if k: nat :| StoredSince(r, k, n', id) && k < n {
      assert StoredSince(r, k, n, id) && !PutOrDelete(r, n, id) && !TakenAt(r, n, id);
    }
  }

  /** An id is pending exactly when it was registered and has been neither put nor deleted since. */
  lemma {:induction false} PendingIff(r: Run, n: nat, id: string)
    requires IsRun(r) && n < |r.states|
    ensures id in r.states[n].store.pending <==> exists a: nat :: MarkedSince(r, a, n, id)
  {
    if n > 0 {
      PendingIff(r, n - 1, id);
      assert Next(r, n - 1);
      PendingNextIff(r.states[n - 1], r.steps[n - 1], id);
      MarkedSinceNext(r, n - 1, n, id);
    }
  }

  /** An id is stored exactly when it was put and has been neither put again nor deleted nor taken since. */
  lemma {:induction false} StoredIff(r: Run, n: nat, id: string)
    requires IsRun(r) && n < |r.states|
    ensures id in r.states[n].store.results <==> exists k: nat :: StoredSince(r, k, n, id)
  {
    if n > 0 {
      StoredIff(r, n - 1, id);
      assert Next(r, n - 1);
      StoredNextIff(r.states[n - 1], r.steps[n - 1], id);
      StoredSinceNext(r, n - 1, n, id);
    }
  }

  /** ... and what is stored then is what that Put wrote. */
  lemma {:induction false} StoredIsPut(r: Run, k: nat, n: nat, id: string)
    requires IsRun(r) && n < |r.states| && StoredSince(r, k, n, id)
    ensures id in r.states[n].store.results
    ensures r.states[n].store.results[id].result == r.states[k].puts[r.steps[k].p].result
    decreases n
  {
    assert Next(r, n - 1);
    if k < n - 1 {
      assert StoredSince(r, k, n - 1, id) && !PutOrDelete(r, n - 1, id) && !TakenAt(r, n - 1, id);
      StoredIsPut(r, k, n - 1, id);
      StoredNextIff(r.states[n - 1], r.steps[n - 1], id);
      StoredStays(r.states[n - 1], r.steps[n - 1], id);
    }
  }

  lemma FirstDecides(s: State, g: nat)
    requires Enabled(s, First(g))
    ensures var id, o := s.gets[g].id, OutcomeOf(Apply(s, First(g)), g);
            && (o == Some(NotFound) <==> id !in s.store.pending && id !in s.store.results)
            && (o == None <==> id in s.store.pending && id !in s.store.results)
            && (id in s.store.results ==> o == Some(Found(s.store.results[id].result, FromMap)))
  {
  }

  /** What a Get's first lock region decides, in any run and for any id, in terms of what has happened to the id:
      a result if there is a Put whose result is left, NotFound if there is no registration left either,
      and to wait otherwise. */
  lemma FirstRegionDecides(r: Run, i: nat, g: nat, id: string)
    requires IsRun(r) && Makes(r, i, First(g)) && r.states[i].gets[g].id == id
    ensures var o := OutcomeOf(r.states[i + 1], g);
            && (o == Some(NotFound) <==> !(exists a: nat :: MarkedSince(r, a, i, id)) &&
                                         !(exists k: nat :: StoredSince(r, k, i, id)))
            && (o == None <==> (exists a: nat :: MarkedSince(r, a, i, id)) &&
                               !(exists k: nat :: StoredSince(r, k, i, id)))
            && (forall k: nat :: StoredSince(r, k, i, id) ==>
                  o == Some(Found(r.states[k].puts[r.steps[k].p].result, FromMap)))
  {
    PendingIff(r, i, id);
    StoredIff(r, i, id);
    FirstDecides(r.states[i], g);
    forall k: nat | StoredSince(r, k, i, id)
      ensures OutcomeOf(r.states[i + 1], g) == Some(Found(r.states[k].puts[r.steps[k].p].result, FromMap))
    {
      StoredIsPut(r, k, i, id);
    }
  }
}
