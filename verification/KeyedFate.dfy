/** Exactly-once handoff, request by request, for operations in flight as well. */
module KeyedFate {
  import opened QueueSpec
  import opened KeyedMachine
  import opened KeyedTheorems

  /** Entry i of the removals is its taker's take number TakeIndex. */
  function TakeIndex(s: seq<Removal>, i: nat): nat
    requires i < |s|
  {
    |TakenBy(s[..i], s[i].taker)|
  }

  lemma {:induction false} TakeAt(s: seq<Removal>, i: nat)
    requires i < |s|
    ensures TakeIndex(s, i) < |TakenBy(s, s[i].taker)| && TakenBy(s, s[i].taker)[TakeIndex(s, i)] == s[i].req
    decreases |s|
  {
    var n := |s| - 1;
    if i < n {
      TakeAt(s[..n], i);
      assert s[..n][..i] == s[..i];
    }
  }

  lemma {:induction false} TakeIndexGrows(s: seq<Removal>, i: nat, j: nat, o: nat)
    requires i <= j <= |s|
    ensures |TakenBy(s[..i], o)| <= |TakenBy(s[..j], o)|
    ensures i < j && s[i].taker == o ==> |TakenBy(s[..i], o)| < |TakenBy(s[..j], o)|
    decreases j
  {
    if i < j {
      assert s[..j][..j - 1] == s[..j - 1];
      TakeIndexGrows(s, i, j - 1, o);
    }
  }

  /** Two removals by one Dequeue are different takes of it. */
  lemma TakesDiffer(s: seq<Removal>, i: nat, j: nat)
    requires i < j < |s| && s[i].taker == s[j].taker
    ensures TakeIndex(s, i) < TakeIndex(s, j)
  {
    TakeIndexGrows(s, i, j, s[i].taker);
  }

  lemma {:induction false} CheckedAt(log: seq<Checked>, i: nat)
    requires i < |log|
    ensures |CheckedReqs(log)| == |log| && CheckedReqs(log)[i] == log[i].req
    decreases |log|
  {
    if |log| > 1 { CheckedAt(log[..|log| - 1], if i < |log| - 1 then i else 0); }
  }

  /** A check that found its request live put it in this place of the output. */
  lemma {:induction false} LiveAt(log: seq<Checked>, i: nat)
    requires i < |log| && log[i].req.expiresAt >= log[i].at
    ensures |LiveOnes(log[..i])| < |LiveOnes(log)| && LiveOnes(log)[|LiveOnes(log[..i])|] == log[i].req
    decreases |log|
  {
    var n := |log| - 1;
    if i < n {
      LiveAt(log[..n], i);
      assert log[..n][..i] == log[..i];
    }
  }

  /** Where a Dequeue has its take number j: in its hand, dropped as expired when it was checked,
      or in its place in the output. */
  predicate Accounted(op: Op, j: nat, r: Req)
    requires op.Deq?
  {
    if j < |op.log| then
      op.log[j].req == r &&
      (r.expiresAt < op.log[j].at ||
       (|LiveOnes(op.log[..j])| < |op.out| && op.out[|LiveOnes(op.log[..j])|] == r))
    else j == |op.log| && op.pc.InHand? && op.pc.req == r
  }

  lemma TakeAccounted(s: State, o: nat, j: nat)
    requires o in s.ops && s.ops[o].Deq? && DequeueHistory(s, o) && j < |TakenOf(s, o)|
    ensures Accounted(s.ops[o], j, TakenOf(s, o)[j])
  {
    var op := s.ops[o];
    if op.log != [] { CheckedAt(op.log, if j < |op.log| then j else 0); }
    if j < |op.log| && op.log[j].req.expiresAt >= op.log[j].at {
      LiveAt(op.log, j);
    }
  }

  /** Request i of a queue waits in its place in the channel, or its one taker accounts for it. */
  ghost predicate Fate(s: State, q: nat, i: nat)
    requires HasQueue(s, q) && i < |s.accepted[q]|
  {
    if i < |s.removed[q]| then
      var o := s.removed[q][i].taker;
      o in s.ops && Takes(s, s.ops[o], q) && Accounted(s.ops[o], TakeIndex(s.removed[q], i), s.accepted[q][i])
    else i - |s.removed[q]| < |s.mem[q].buf| && s.mem[q].buf[i - |s.removed[q]|] == s.accepted[q][i]
  }

  lemma HasFate(s: State, q: nat, i: nat)
    requires Inv(s) && HasQueue(s, q) && i < |s.accepted[q]|
    ensures Fate(s, q, i)
  {
    HistoryInPlace(s, q, i);
    if i < |s.removed[q]| {
      var o := s.removed[q][i].taker;
      TakeAt(s.removed[q], i);
      assert TakenOf(s, o) == TakenBy(s.removed[q], o);
      TakeAccounted(s, o, TakeIndex(s.removed[q], i));
    }
  }

  /** In every state of every interleaving, each request a queue ever accepted is in exactly one place: in its
      place in the channel, in the hand of the one Dequeue that took it, dropped by that Dequeue as expired,
      or in that Dequeue's output; and no two requests are the same take of a Dequeue. */
  lemma ExactlyOnce(r: Run, n: nat, q: nat)
    requires IsRun(r) && n < |r.states| && HasQueue(r.states[n], q)
    ensures forall i :: 0 <= i < |r.states[n].accepted[q]| ==> Fate(r.states[n], q, i)
    ensures var gone := r.states[n].removed[q];
            forall i, j :: 0 <= i < j < |gone| && gone[i].taker == gone[j].taker ==>
              TakeIndex(gone, i) < TakeIndex(gone, j)
  {
    InvAlways(r, n);
    forall i | 0 <= i < |r.states[n].accepted[q]| ensures Fate(r.states[n], q, i) {
      HasFate(r.states[n], q, i);
    }
    var gone := r.states[n].removed[q];
    forall i, j | 0 <= i < j < |gone| && gone[i].taker == gone[j].taker
      ensures TakeIndex(gone, i) < TakeIndex(gone, j)
    {
      TakesDiffer(gone, i, j);
    }
  }
}
