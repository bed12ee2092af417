/**
 * The single-slot response cache of the `/api/optionchain` handler in
 * server/server.js.  Three process-wide variables drive it: the last
 * upstream payload, the time it was fetched, and the in-flight flag.
 *
 * The handler's `await` on the upstream call splits one request into two
 * atomic steps: `Begin` (everything before the await) and `Complete`
 * (everything after it, including the `finally`).  The upstream call itself
 * is abstracted as a `FetchOutcome`.
 */
module OptionChainCache {
  import opened Wrappers

  /** Freshness window of the cached payload, in milliseconds. */
  const CACHE_DURATION_MS: int := 3100

  /** The body fields of a chain request; they are forwarded upstream, never used as a cache key. */
  datatype ChainQuery = ChainQuery(underlyingScrip: int, underlyingSeg: string, expiry: string)

  /** The result of the upstream call: its payload, or the error details. */
  datatype FetchOutcome<P> = Fetched(data: P) | FetchFailed(details: string)

  /** What a request decides before any upstream call. */
  datatype Decision<P> =
    | Hit(payload: P)                 // fresh cache: answered at once
    | Pending(last: Option<P>)        // a fetch is in flight: last cache, or the pending marker
    | StartFetch(query: ChainQuery)   // this request triggers the upstream call

  /** What the HTTP layer sends back. */
  datatype Response<P> =
    | Json(body: P)                   // `res.json(payload)`
    | BeingFetched                    // `{ message: 'Data is being fetched' }`
    | FetchError(details: string)     // status 500, `{ error: 'Failed to fetch from Dhan API', details }`

  /** The three module-level variables. */
  datatype CacheState<P> = CacheState(lastRequestTime: int, cachedResponse: Option<P>, isFetching: bool)

  datatype Step<P> = Step(next: CacheState<P>, decision: Decision<P>)

  datatype Settled<P> = Settled(next: CacheState<P>, response: Response<P>)

  /** The state at process start. */
  function Initial<P>(): (s: CacheState<P>)
    ensures s.cachedResponse.None? && !s.isFetching && s.lastRequestTime == 0
  {
    CacheState(0, None, false)
  }

  /** A payload is cached and it was fetched less than the freshness window ago. */
  predicate IsFresh<P>(s: CacheState<P>, now: int) {
    s.cachedResponse.Some? && now - s.lastRequestTime < CACHE_DURATION_MS
  }

  /** The part of the handler that runs before the upstream call. */
  function Begin<P>(s: CacheState<P>, now: int, q: ChainQuery): (r: Step<P>)
    // the slot and its timestamp are never touched before the fetch settles
    ensures r.next.cachedResponse == s.cachedResponse
    ensures r.next.lastRequestTime == s.lastRequestTime
    // a fresh cache is served exactly, and then nothing changes
    ensures r.decision.Hit? <==> IsFresh(s, now)
    ensures r.decision.Hit? ==> s.cachedResponse == Some(r.decision.payload)
    // otherwise a request arriving during a fetch gets the last cache and starts nothing
    ensures r.decision.Pending? <==> !IsFresh(s, now) && s.isFetching
    ensures r.decision.Pending? ==> r.decision.last == s.cachedResponse
    // a fetch starts only when none is in flight, and it raises the flag
    ensures r.decision.StartFetch? ==> !s.isFetching && r.next.isFetching
    ensures r.decision.StartFetch? ==> r.decision.query == q
    ensures !r.decision.StartFetch? ==> r.next == s
  {
    if IsFresh(s, now) then Step(s, Hit(s.cachedResponse.value))
    else if s.isFetching then Step(s, Pending(s.cachedResponse))
    else Step(s.(isFetching := true), StartFetch(q))
  }

  /** The immediate answer of a request that did not start a fetch. */
  function Immediate<P>(d: Decision<P>): (r: Response<P>)
    requires !d.StartFetch?
    ensures d.Hit? ==> r == Json(d.payload)
    ensures d.Pending? && d.last.Some? ==> r == Json(d.last.value)
    ensures r == BeingFetched <==> d == Pending(None)
    ensures !r.FetchError?
  {
    match d
    case Hit(p) => Json(p)
    case Pending(last) => if last.Some? then Json(last.value) else BeingFetched
  }

  /** The part of the handler that runs when the upstream call settles at time `t`. */
  function Complete<P>(s: CacheState<P>, outcome: FetchOutcome<P>, t: int): (r: Settled<P>)
    // the flag is always cleared (the `finally` block)
    ensures !r.next.isFetching
    // success replaces the slot and its timestamp, and the caller gets that payload
    ensures outcome.Fetched? ==>
      r.next.cachedResponse == Some(outcome.data) && r.next.lastRequestTime == t && r.response == Json(outcome.data)
    // failure keeps the old slot and timestamp, and only this caller sees the error
    ensures outcome.FetchFailed? ==>
      r.next.cachedResponse == s.cachedResponse && r.next.lastRequestTime == s.lastRequestTime
      && r.response == FetchError(outcome.details)
  {
    match outcome
    case Fetched(p) => Settled(CacheState(t, Some(p), false), Json(p))
    case FetchFailed(e) => Settled(s.(isFetching := false), FetchError(e))
  }

  /** A fresh hit does not depend on the request body: the cache key ignores the query. */
  lemma HitIgnoresQuery<P>(s: CacheState<P>, now: int, q1: ChainQuery, q2: ChainQuery)
    requires IsFresh(s, now)
    ensures Begin(s, now, q1) == Begin(s, now, q2) == Step(s, Hit(s.cachedResponse.value))
  {
  }

  /** The state change of a request never depends on the query either. */
  lemma TransitionIgnoresQuery<P>(s: CacheState<P>, now: int, q1: ChainQuery, q2: ChainQuery)
    ensures Begin(s, now, q1).next == Begin(s, now, q2).next
    ensures Begin(s, now, q1).decision.StartFetch? == Begin(s, now, q2).decision.StartFetch?
  {
  }

  /**
   * The handler's module state, updated in place.  `BeginRequest` and
   * `CompleteFetch` are the two halves of one request around the `await`.
   */
  class OptionChainHandler<P> {
    var lastRequestTime: int
    var cachedResponse: Option<P>
    var isFetching: bool

    /** The abstract value of the three fields. */
    function State(): CacheState<P>
      reads this
    {
      CacheState(lastRequestTime, cachedResponse, isFetching)
    }

    constructor ()
      ensures State() == Initial()
    {
      lastRequestTime := 0;
      cachedResponse := None;
      isFetching := false;
    }

    /** Decides a request arriving at `now`; on `StartFetch` the caller must perform the upstream call. */
    method BeginRequest(now: int, query: ChainQuery) returns (d: Decision<P>)
      modifies this
      ensures d == Begin(old(State()), now, query).decision
      ensures State() == Begin(old(State()), now, query).next
      ensures !d.StartFetch? ==> State() == old(State())
    {
      if cachedResponse.Some? && now - lastRequestTime < CACHE_DURATION_MS {
        return Hit(cachedResponse.value);
      }
      if isFetching {
        return Pending(cachedResponse);
      }
      isFetching := true;
      return StartFetch(query);
    }

    /** Applies the settled upstream call at time `t` and returns the triggering caller's response. */
    method CompleteFetch(outcome: FetchOutcome<P>, t: int) returns (response: Response<P>)
      modifies this
      ensures response == Complete(old(State()), outcome, t).response
      ensures State() == Complete(old(State()), outcome, t).next
      ensures !isFetching
      ensures outcome.FetchFailed? ==>
        cachedResponse == old(cachedResponse) && lastRequestTime == old(lastRequestTime)
    {
      match outcome {
        case Fetched(p) =>
          lastRequestTime := t;
          cachedResponse := Some(p);
          response := Json(p);
        case FetchFailed(e) =>
          response := FetchError(e);
      }
      isFetching := false;
    }
  }
}
