/** internal/store/memory.go as a class: one method for each lock region, each proved to have
    the effect its specification in StoreSpec gives, and the channel as a heap object. */
module MemoryStores {
  import opened Basics
  import opened StoreSpec

  /** A channel of capacity one. */
  class WaiterChan {
    var buf: Option<Result>

    constructor ()
      ensures buf == None
    {
      buf := None;
    }

    /** The select of Put: send, or drop the message when the place is taken. */
    method TrySend(r: Result)
      modifies this
      ensures buf == (if old(buf) == None then Some(r) else old(buf))
    {
      if buf == None {
        buf := Some(r);
      }
    }
  }

  class MemoryStore {
    var results: map<string, Entry>
    var pending: set<string>
    var waiters: map<string, WaiterChan>
    const resultTTL: Time

    function View(): Store<WaiterChan>
      reads this
    {
      Store(results, pending, waiters)
    }

    constructor (resultTTL: Time)
      ensures View() == Store(map[], {}, map[]) && this.resultTTL == resultTTL
    {
      results, pending, waiters := map[], {}, map[];
      this.resultTTL := resultTTL;
    }

    method RegisterPending(id: string)
      modifies this
      ensures View() == StoreSpec.RegisterPending(old(View()), id)
    {
      pending := pending + {id};
    }

    /** The lock region of Put: store first, then look for a waiter. */
    method PutLocked(r: Result, now: Time) returns (ch: Option<WaiterChan>)
      modifies this
      ensures View() == PutRegion(old(View()), r, now, resultTTL)
      ensures ch == Waiter(old(View()), r.requestID)
    {
      results := results[r.requestID := Entry(r, now + resultTTL)];
      pending := pending - {r.requestID};
      if r.requestID in waiters {
        ch := Some(waiters[r.requestID]);
      } else {
        ch := None;
      }
    }

    /** An uninterrupted Put: whoever had registered holds a message afterwards, the rest is untouched. */
    method Put(r: Result, now: Time)
      modifies this, waiters.Values
      ensures View() == PutRegion(old(View()), r, now, resultTTL)
      ensures r.requestID in old(waiters) ==>
                old(waiters)[r.requestID].buf ==
                  if old(waiters[r.requestID].buf) == None then Some(r) else old(waiters[r.requestID].buf)
      ensures forall c :: c in old(waiters.Values) && (r.requestID in old(waiters) ==> c != old(waiters)[r.requestID])
                          ==> c.buf == old(c.buf)
    {
      var ch := PutLocked(r, now);
      if ch.Some? {
        ch.value.TrySend(r);
      }
    }

    /** The first lock region of Get. The channel made here is returned when it was registered. */
    method GetFirst(id: string) returns (seen: Lookup, ch: WaiterChan)
      modifies this
      ensures fresh(ch) && ch.buf == None
      ensures (View(), seen) == StoreSpec.GetFirst(old(View()), id, ch)
    {
      ch := new WaiterChan();
      if id in results {
        seen := Hit(results[id].result);
        results := results - {id};
      } else if id !in pending {
        seen := Unknown;
      } else {
        waiters := waiters[id := ch];
        seen := Wait;
      }
    }

    /** The second lock region of Get. */
    method GetRecheck(id: string) returns (hit: Option<Result>)
      modifies this
      ensures (View(), hit) == Take(old(View()), id)
    {
      if id in results {
        hit := Some(results[id].result);
        results := results - {id};
      } else {
        hit := None;
      }
    }

    method GetCleanup(id: string)
      modifies this
      ensures View() == StoreSpec.GetCleanup(old(View()), id)
    {
      waiters := waiters - {id};
    }

    /** A whole Get. When it comes to block, a worker may put a result for the id (`arrival`); otherwise it
        ends by timeout. */
    method Get(id: string, arrival: Option<Arrival>) returns (seen: Lookup)
      requires arrival.Some? ==> arrival.value.result.requestID == id
      modifies this
      ensures (View(), seen) == GetAlone(old(View()), id, arrival, resultTTL)
    {
      var ch;
      seen, ch := GetFirst(id);
      if seen != Wait {
        return;
      }
      var found := GetRecheck(id);
      if found == None {
        if arrival.Some? { // another goroutine's Put
          var to := PutLocked(arrival.value.result, arrival.value.at);
          if to.Some? {
            to.value.TrySend(arrival.value.result);
          }
        }
        found := ch.buf; // None when nothing was sent: the select ends by timeout
      }
      GetCleanup(id);
      assert waiters == old(waiters) - {id};
      if found.Some? {
        seen := Hit(found.value);
      }
    }

    method Delete(id: string)
      modifies this
      ensures View() == StoreSpec.Delete(old(View()), id)
    {
      results := results - {id};
      pending := pending - {id};
    }

    method ActiveWaiters() returns (n: nat)
      ensures n == |View().waiters|
    {
      n := |waiters|;
    }

    /** The sweeper's loop over the map, deleting as it goes. */
    method SweepExpired(now: Time)
      modifies this
      ensures View() == Sweep(old(View()), now)
    {
      var todo := results.Keys;
      while todo != {}
        invariant todo <= results.Keys <= old(results).Keys
        invariant forall id :: id in results ==> results[id] == old(results)[id]
        invariant forall id :: id in old(results) && id !in todo ==>
                    (id in results <==> !Expired(old(results)[id], now))
        invariant pending == old(pending) && waiters == old(waiters)
        decreases todo
      {
        var id :| id in todo;
        if results[id].expiresAt < now {
          results := results - {id};
        }
        todo := todo - {id};
      }
      assert results == Sweep(old(View()), now).results;
    }
  }
}
