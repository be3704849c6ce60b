/** KeyedQueue of internal/queue/keyed.go as a class, run without interference. */
module KeyedQueues {
  import opened Basics
  import opened QueueSpec
  import opened MemoryQueues

  /** The queue of a key, empty until first used. */
  function QueueOf(m: map<string, Queue>, key: string): Queue { if key in m then m[key] else EmptyQueue() }

  /** All requests waiting, over all keys. */
  ghost function Depth(m: map<string, Queue>): nat {
    if m == map[] then 0
    else
      var key :| key in m;
      |m[key].buf| + Depth(m - {key})
  }

  lemma {:induction false} DepthWithout(m: map<string, Queue>, key: string)
    requires key in m
    ensures Depth(m) == |m[key].buf| + Depth(m - {key})
    decreases |m|
  {
    var picked :| picked in m && Depth(m) == |m[picked].buf| + Depth(m - {picked});
    if picked != key {
      DepthWithout(m - {picked}, key);
      DepthWithout(m - {key}, picked);
      assert m - {picked} - {key} == m - {key} - {picked};
    }
  }

  /** The queue of every key that a caller could give for another one is as it was. */
  ghost predicate OthersStay(m: map<string, Queue>, m': map<string, Queue>, key: string) {
    forall a :: !SameKey(a, key) ==> QueueOf(m', NormalizeKey(a)) == QueueOf(m, NormalizeKey(a))
  }

  lemma OtherKeysStay(m: map<string, Queue>, key: string, x: Queue)
    ensures OthersStay(m, m[NormalizeKey(key) := x], key)
  {
    forall a | !SameKey(a, key)
      ensures QueueOf(m[NormalizeKey(key) := x], NormalizeKey(a)) == QueueOf(m, NormalizeKey(a))
    {
      NormalizedIffSame(a, key);
    }
  }

  class KeyedQueue {
    const maxSize: nat
    var queues: map<string, MemoryQueue>

    /** Every key has a queue object of its own, of the common size. */
    ghost predicate Valid()
      reads this
    {
      && (forall key :: key in queues ==> queues[key].maxSize == maxSize)
      && forall key, other :: key in queues && other in queues && queues[key] == queues[other] ==> key == other
    }

    function View(): map<string, Queue>
      reads this, queues.Values
    {
      map key | key in queues :: queues[key].View()
    }

    constructor (maxSize: nat)
      ensures Valid() && this.maxSize == maxSize && View() == map[DEFAULT_KEY := EmptyQueue()] && fresh(queues.Values)
    {
      var q := new MemoryQueue(maxSize);
      this.maxSize := maxSize;
      queues := map[DEFAULT_KEY := q];
    }

    method GetOrCreate(key: string) returns (q: MemoryQueue)
      requires Valid()
      modifies this
      ensures Valid() && key in queues && queues[key] == q && fresh(queues.Values - old(queues.Values))
      ensures View() == old(View())[key := QueueOf(old(View()), key)] && q.View() == QueueOf(old(View()), key)
    {
      if key in queues {
        return queues[key];
      }
      q := new MemoryQueue(maxSize);
      queues := queues[key := q];
    }

    /** When one key's queue alone has moved on, the view changes at that key. */
    twostate lemma OneMoved(key: string)
      requires old(Valid()) && queues == old(queues) && key in queues
      requires forall other :: other in queues && other != key ==> queues[other].View() == old(queues[other].View())
      ensures View() == old(View())[key := queues[key].View()]
    {
    }

    method Enqueue(key: string, r: Req) returns (ok: bool)
      requires Valid()
      modifies this, queues.Values
      ensures Valid() && fresh(queues.Values - old(queues.Values))
      ensures var (x, accepted) := Offer(QueueOf(old(View()), NormalizeKey(key)), maxSize, r);
              ok == accepted && View() == old(View())[if key == "" then "default" else key := x]
      ensures OthersStay(old(View()), View(), key)
    {
      var q := GetOrCreate(NormalizeKey(key));
      label Found:
      ok := q.Enqueue(r);
      OneMoved@Found(NormalizeKey(key));
      OtherKeysStay(old(View()), key, q.View());
    }

    method Dequeue(key: string, n: nat, clock: nat -> Time) returns (out: seq<Req>)
      requires Valid()
      modifies this, queues.Values
      ensures Valid() && fresh(queues.Values - old(queues.Values))
      ensures var drained := Drain(QueueOf(old(View()), NormalizeKey(key)), n, clock);
              out == drained.1 && View() == old(View())[if key == "" then "default" else key := drained.0]
      ensures OthersStay(old(View()), View(), key)
    {
      var q := GetOrCreate(NormalizeKey(key));
      label Found:
      ghost var drained := Drain(q.View(), n, clock);
      out := q.Dequeue(n, clock);
      assert q.View() == drained.0 && out == drained.1;
      OneMoved@Found(NormalizeKey(key));
      OtherKeysStay(old(View()), key, q.View());
    }

    /** The loop over all queues. */
    method TotalLen() returns (total: nat)
      requires Valid()
      ensures total == Depth(View())
    {
      total := 0;
      ghost var rest := View();
      var todo := queues.Keys;
      while todo != {}
        invariant todo == rest.Keys && todo <= queues.Keys
        invariant forall key :: key in rest ==> rest[key] == queues[key].View()
        invariant total + Depth(rest) == Depth(View())
        decreases todo
      {
        var key :| key in todo;
        DepthWithout(rest, key);
        total := total + queues[key].Len();
        rest := rest - {key};
        todo := todo - {key};
      }
      assert rest == map[];
    }
  }
}
