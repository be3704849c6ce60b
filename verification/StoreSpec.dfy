/** The result store as a value: each function is the effect of one lock region of
    internal/store/memory.go. The type C stands for a waiter channel, so the same
    functions specify the class MemoryStore (C is a heap object) and the interleaving
    machine of module Protocol (C is the number of the Get that made the channel). */
module StoreSpec {
  import opened Basics

  /** `ptr` is the identity of the *model.Result: every push decodes a result of its own. */
  datatype Result =
    Result(ptr: nat, requestID: string, payload: string, statusCode: int, completedAt: Option<Time>)

  datatype Entry = Entry(result: Result, expiresAt: Time)

  datatype Store<C> = Store(results: map<string, Entry>, pending: set<string>, waiters: map<string, C>)

  /** What the first lock region of Get decides. */
  datatype Lookup = Hit(result: Result) | Unknown | Wait

  function RegisterPending<C>(s: Store<C>, id: string): Store<C> {
    s.(pending := s.pending + {id})
  }

  function PutRegion<C>(s: Store<C>, r: Result, now: Time, ttl: Time): Store<C> {
    s.(results := s.results[r.requestID := Entry(r, now + ttl)], pending := s.pending - {r.requestID})
  }

  /** The channel a Put will send on, read inside its lock region. */
  function Waiter<C>(s: Store<C>, id: string): Option<C> {
    if id in s.waiters then Some(s.waiters[id]) else None
  }

  /** Look a result up and remove it: the map hit of both lock regions of Get. */
  function Take<C>(s: Store<C>, id: string): (Store<C>, Option<Result>) {
    if id in s.results
    then (s.(results := s.results - {id}), Some(s.results[id].result))
    else (s, None)
  }

  function GetFirst<C>(s: Store<C>, id: string, ch: C): (Store<C>, Lookup) {
    var (s', hit) := Take(s, id);
    if hit.Some? then (s', Hit(hit.value))
    else if id !in s.pending then (s, Unknown)
    else (s.(waiters := s.waiters[id := ch]), Wait)
  }

  /** Get's deferred cleanup deletes by request id, whatever channel is there now. */
  function GetCleanup<C>(s: Store<C>, id: string): Store<C> {
    s.(waiters := s.waiters - {id})
  }

  /** A result that a worker puts at some time. */
  datatype Arrival = Arrival(result: Result, at: Time)

  /** A Get that nothing disturbs, but for the Put of its id that may come while it blocks. Wait is an end by
      timeout. What has come by the channel stays in the map. */
  function GetAlone<C>(s: Store<C>, id: string, arrival: Option<Arrival>, ttl: Time): (Store<C>, Lookup) {
    var (s', hit) := Take(s, id);
    if hit.Some? then (s', Hit(hit.value))
    else if id !in s.pending then (s, Unknown)
    else if arrival == None then (GetCleanup(s, id), Wait)
    else (GetCleanup(PutRegion(s, arrival.value.result, arrival.value.at, ttl), id), Hit(arrival.value.result))
  }

  function Delete<C>(s: Store<C>, id: string): Store<C> {
    s.(results := s.results - {id}, pending := s.pending - {id})
  }

  predicate Expired(e: Entry, at: Time) { e.expiresAt < at }

  function Sweep<C>(s: Store<C>, at: Time): Store<C> {
    s.(results := map id | id in s.results && !Expired(s.results[id], at) :: s.results[id])
  }
}
