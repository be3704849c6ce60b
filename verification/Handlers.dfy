/** The HTTP handlers as sequences of queue and store calls, run without interference. */
module Handlers {
  import opened Basics
  import opened StoreSpec
  import Q = QueueSpec
  import opened MemoryStores
  import opened KeyedQueues

  datatype Status =
    | Ok200 | Accepted202 | NoContent204
    | BadRequest400 | NotFound404
    | InternalError500 | Unavailable503

  /** An id nobody has used: what a newly generated UUID is. */
  predicate Unused<C>(s: Store<C>, id: string) { id !in s.results && id !in s.pending && id !in s.waiters }

  /** HandlePull clamps the batch parameter (None when it is absent or not a number) to the configured maximum. */
  function BatchSize(maxBatch: nat, param: Option<int>): nat {
    if param.Some? && 0 < param.value < maxBatch then param.value else maxBatch
  }

  class Broker {
    const q: KeyedQueue
    const s: MemoryStore

    constructor (q: KeyedQueue, s: MemoryStore)
      ensures this.q == q && this.s == s
    {
      this.q, this.s := q, s;
    }

    /** The queue of a key, whatever key is given. */
    ghost function Line(key: string): Q.Queue
      reads q, q.queues.Values
    {
      QueueOf(q.View(), Q.NormalizeKey(key))
    }

    /** Nothing has changed. */
    twostate predicate Untouched()
      reads q, q.queues.Values, s
    {
      q.View() == old(q.View()) && s.View() == old(s.View())
    }

    /** Enqueue under a key answers true exactly when there is room, and queues the request then. */
    twostate predicate Offered(key: string, r: Q.Req, room: bool)
      reads q, q.queues.Values
    {
      (Line(key), room) == Q.Offer(old(Line(key)), q.maxSize, r)
    }

    /** POST /request: enqueue, then register. `payload` is false when the body is not JSON or has no payload,
        `newID` is None when no UUID could be made. */
    method HandleSubmit(payload: bool, newID: Option<string>, key: string, expiresAt: Time)
      returns (status: Status, waitMs: int)
      requires q.Valid()
      modifies q, q.queues.Values, s
      ensures q.Valid()
      ensures !payload ==> status == BadRequest400 && Untouched()
      ensures payload && newID == None ==> status == InternalError500 && Untouched()
      ensures payload && newID.Some? ==>
                && status in {Accepted202, Unavailable503}
                && Offered(key, Q.Req(newID.value, expiresAt), status == Accepted202)
                && (status == Accepted202 ==>
                      s.View() == RegisterPending(old(s.View()), newID.value) && waitMs == Depth(q.View()) * 100)
                && (status == Unavailable503 ==> s.View() == old(s.View()))
    {
      if !payload {
        return BadRequest400, 0;
      }
      if newID == None {
        return InternalError500, 0;
      }
      var ok := q.Enqueue(key, Q.Req(newID.value, expiresAt));
      if !ok {
        return Unavailable503, 0;
      }
      s.RegisterPending(newID.value);
      var depth := q.TotalLen();
      return Accepted202, depth * 100;
    }

    /** POST /request/sync: register, then enqueue, then wait; `arrival` is the result that a worker puts while the
        handler blocks, if one does. A refusal leaves no trace of the id in the store. Without an arrival the
        id is left pending; with one it is answered, and stays in the map. No waiter is left. */
    method HandleSync(payload: bool, newID: Option<string>, key: string, expiresAt: Time, arrival: Option<Arrival>)
      returns (status: Status, found: Option<Result>)
      requires q.Valid() && (newID.Some? ==> Unused(s.View(), newID.value))
      requires newID.Some? && arrival.Some? ==> arrival.value.result.requestID == newID.value
      modifies q, q.queues.Values, s
      ensures q.Valid()
      ensures !payload ==> status == BadRequest400 && Untouched()
      ensures payload && newID == None ==> status == InternalError500 && Untouched()
      ensures payload && newID.Some? ==>
                && status in {Ok200, Accepted202, Unavailable503}
                && Offered(key, Q.Req(newID.value, expiresAt), status != Unavailable503)
                && (status != Unavailable503 ==> (status == Ok200 <==> arrival.Some?))
                && (status == Ok200 ==>
                      && found == Some(arrival.value.result)
                      && s.View() == PutRegion(old(s.View()), arrival.value.result, arrival.value.at, s.resultTTL))
                && (status == Accepted202 ==> s.View() == RegisterPending(old(s.View()), newID.value))
                && (status == Unavailable503 ==> s.View() == old(s.View()))
      ensures status != Ok200 ==> found == None
    {
      if !payload {
        return BadRequest400, None;
      }
      if newID == None {
        return InternalError500, None;
      }
      NoTrace(s.View(), newID.value);
      s.RegisterPending(newID.value);
      var ok := q.Enqueue(key, Q.Req(newID.value, expiresAt));
      if !ok {
        s.Delete(newID.value);
        return Unavailable503, None;
      }
      if arrival.Some? {
        NoTraceButResult(old(s.View()), arrival.value, s.resultTTL);
      }
      status, found := AwaitResult(newID.value, arrival);
    }

    /** The Get of HandleSync, and the answer made of it. */
    method AwaitResult(id: string, arrival: Option<Arrival>) returns (status: Status, found: Option<Result>)
      requires arrival.Some? ==> arrival.value.result.requestID == id
      modifies s
      ensures s.View() == GetAlone(old(s.View()), id, arrival, s.resultTTL).0
      ensures (status, found) == SyncAnswer(GetAlone(old(s.View()), id, arrival, s.resultTTL).1)
    {
      var seen := s.Get(id, arrival);
      match seen {
        case Unknown => return InternalError500, None;
        case Hit(r) => return Ok200, Some(r);
        case Wait => return Accepted202, None;
      }
    }

    /** GET /result/{id}; `arrival` is the result that a worker puts during the long poll, if one does. */
    method HandleGetResult(id: string, arrival: Option<Arrival>) returns (status: Status, found: Option<Result>)
      requires arrival.Some? ==> arrival.value.result.requestID == id
      modifies s
      ensures id == "" ==> status == BadRequest400 && found == None && s.View() == old(s.View())
      ensures id != "" ==> s.View() == GetAlone(old(s.View()), id, arrival, s.resultTTL).0
      ensures id != "" ==> (status, found) == PollAnswer(GetAlone(old(s.View()), id, arrival, s.resultTTL).1)
    {
      if id == "" {
        return BadRequest400, None;
      }
      var seen := s.Get(id, arrival);
      match seen {
        case Unknown => return NotFound404, None;
        case Hit(r) => return Ok200, Some(r);
        case Wait => return NoContent204, None;
      }
    }

    /** GET /queue/pull */
    method HandlePull(maxBatch: nat, param: Option<int>, key: string, clock: nat -> Time) returns (out: seq<Q.Req>)
      requires q.Valid()
      modifies q, q.queues.Values
      ensures q.Valid() && (Line(key), out) == Q.Drain(old(Line(key)), BatchSize(maxBatch, param), clock)
      ensures |out| <= maxBatch && (param.Some? && param.value > 0 ==> |out| <= param.value)
      ensures |out| < maxBatch && (param.Some? && param.value > 0 ==> |out| < param.value) ==> Line(key).buf == []
      ensures forall other :: other in old(q.View()) && other != Q.NormalizeKey(key) ==>
                other in q.View() && q.View()[other] == old(q.View())[other]
    {
      var batchSize := maxBatch;
      if param.Some? && param.value > 0 {
        if param.value < batchSize {
          batchSize := param.value;
        }
      }
      Q.ReceivesExactly(Line(key).buf, batchSize, clock, 0);
      out := q.Dequeue(key, batchSize, clock);
    }

    /** The channel c was registered for the id of r when the call began. */
    twostate predicate Wakes(r: Result, c: WaiterChan)
      reads s
    {
      r.requestID in old(s.waiters) && old(s.waiters)[r.requestID] == c
    }

    /** POST /queue/result: any id is accepted, known or not. `body` is None when it is not JSON, and a missing
        completion time is filled in. */
    method HandleResult(body: Option<Result>, filled: Time, now: Time) returns (status: Status)
      modifies s, s.waiters.Values
      ensures status == if body == None || body.value.requestID == "" then BadRequest400 else NoContent204
      ensures status == BadRequest400 ==> s.View() == old(s.View())
      ensures status == NoContent204 ==>
                s.View() == PutRegion(old(s.View()), Completed(body.value, filled), now, s.resultTTL)
      ensures status == NoContent204 ==>
                && body.value.requestID in s.results
                && IsCompletion(s.results[body.value.requestID].result, body.value, filled)
                && s.results[body.value.requestID].expiresAt == now + s.resultTTL
      ensures forall c :: c in old(s.waiters.Values) && old(c.buf) == None &&
                            status == NoContent204 && Wakes(body.value, c)
                          ==> c.buf.Some? && IsCompletion(c.buf.value, body.value, filled)
      ensures forall c :: c in old(s.waiters.Values) && status == NoContent204 && Wakes(body.value, c)
                          ==> c.buf == if old(c.buf) == None then Some(Completed(body.value, filled)) else old(c.buf)
      ensures forall c :: c in old(s.waiters.Values) && !(status == NoContent204 && Wakes(body.value, c))
                          ==> c.buf == old(c.buf)
    {
      if body == None || body.value.requestID == "" {
        return BadRequest400;
      }
      var r := body.value;
      if r.completedAt == None {
        r := r.(completedAt := Some(filled));
      }
      s.Put(r, now);
      return NoContent204;
    }
  }

  /** x is r as it was pushed, with the completion time it came with, or the one filled in when it came without. */
  predicate IsCompletion(x: Result, r: Result, filled: Time) {
    && x.ptr == r.ptr && x.requestID == r.requestID && x.payload == r.payload && x.statusCode == r.statusCode
    && (if r.completedAt.Some? then x.completedAt == r.completedAt else x.completedAt == Some(filled))
  }

  /** A result with its completion time. */
  function Completed(r: Result, filled: Time): Result {
    if r.completedAt == None then r.(completedAt := Some(filled)) else r
  }

  /** How HandleSync answers for what its Get saw, and how HandleGetResult does. */
  function SyncAnswer(seen: Lookup): (Status, Option<Result>) {
    match seen
    case Hit(r) => (Ok200, Some(r))
    case Unknown => (InternalError500, None)
    case Wait => (Accepted202, None)
  }

  function PollAnswer(seen: Lookup): (Status, Option<Result>) {
    match seen
    case Hit(r) => (Ok200, Some(r))
    case Unknown => (NotFound404, None)
    case Wait => (NoContent204, None)
  }

  /** Registering a new id and having its result put comes to the same as the Put alone. */
  lemma NoTraceButResult<C>(s: Store<C>, a: Arrival, ttl: Time)
    requires Unused(s, a.result.requestID)
    ensures GetAlone(RegisterPending(s, a.result.requestID), a.result.requestID, Some(a), ttl) ==
            (PutRegion(s, a.result, a.at, ttl), Hit(a.result))
  {
    var id := a.result.requestID;
    var s' := PutRegion(RegisterPending(s, id), a.result, a.at, ttl);
    assert s'.pending == s.pending && s'.waiters - {id} == s.waiters && s.pending - {id} == s.pending;
  }

  /** Undoing a registration, and cleaning up a wait, leave the store as it was. */
  lemma NoTrace<C>(s: Store<C>, id: string)
    requires Unused(s, id)
    ensures Delete(RegisterPending(s, id), id) == s
    ensures GetCleanup(RegisterPending(s, id), id) == RegisterPending(s, id)
  {
    assert s.results - {id} == s.results && s.waiters - {id} == s.waiters;
  }
}
