/**
 * Interleavings of the option-chain handler.  Every request is one `Request`
 * event (the handler up to its `await`); every upstream call that settles is
 * one `Settle` event (the code after the `await`).  Concurrent requests of
 * the Node.js event loop are exactly the orders in which these events can
 * occur, so properties of the cache under concurrency are properties of
 * event sequences.
 */
module CacheInterleavings {
  import opened Wrappers
  import opened OptionChainCache

  datatype Event<P> = Request(now: int, query: ChainQuery) | Settle(outcome: FetchOutcome<P>, t: int)

  datatype Output<P> = Decided(decision: Decision<P>) | Replied(response: Response<P>)

  datatype Transition<P> = Transition(next: CacheState<P>, output: Output<P>)

  datatype Run<P> = Run(final: CacheState<P>, outputs: seq<Output<P>>)

  /** One event applied to the cache state. */
  function Apply<P>(s: CacheState<P>, e: Event<P>): Transition<P> {
    match e
    case Request(now, q) =>
      var st := Begin(s, now, q);
      Transition(st.next, Decided(st.decision))
    case Settle(o, t) =>
      var c := Complete(s, o, t);
      Transition(c.next, Replied(c.response))
  }

  /** A fetch can only settle while one is in flight. */
  predicate Enabled<P>(s: CacheState<P>, e: Event<P>) {
    e.Settle? ==> s.isFetching
  }

  /** The events applied in order, with one output per event. */
  function Execute<P>(s: CacheState<P>, evs: seq<Event<P>>): (r: Run<P>)
    ensures |r.outputs| == |evs|
    decreases |evs|
  {
    if |evs| == 0 then Run(s, [])
    else
      var tr := Apply(s, evs[0]);
      var rest := Execute(tr.next, evs[1..]);
      Run(rest.final, [tr.output] + rest.outputs)
  }

  /** Every `Settle` settles a fetch that some earlier `Request` started. */
  predicate WellFormed<P>(s: CacheState<P>, evs: seq<Event<P>>)
    decreases |evs|
  {
    |evs| == 0 || (Enabled(s, evs[0]) && WellFormed(Apply(s, evs[0]).next, evs[1..]))
  }

  predicate IsStart<P>(o: Output<P>) {
    o.Decided? && o.decision.StartFetch?
  }

  predicate IsSuccess<P>(e: Event<P>) {
    e.Settle? && e.outcome.Fetched?
  }

  predicate AllRequests<P>(evs: seq<Event<P>>) {
    forall i :: 0 <= i < |evs| ==> evs[i].Request?
  }

  /** Number of upstream calls started. */
  function Starts<P>(outs: seq<Output<P>>): nat
    decreases |outs|
  {
    if |outs| == 0 then 0 else (if IsStart(outs[0]) then 1 else 0) + Starts(outs[1..])
  }

  /** Number of upstream calls settled. */
  function Settles<P>(evs: seq<Event<P>>): nat
    decreases |evs|
  {
    if |evs| == 0 then 0 else (if evs[0].Settle? then 1 else 0) + Settles(evs[1..])
  }

  function Flag(b: bool): nat {
    if b then 1 else 0
  }

  /** The in-flight flag is exactly the number of started and not yet settled upstream calls. */
  lemma {:induction false} InFlightMatchesFlag<P>(s: CacheState<P>, evs: seq<Event<P>>)
    requires WellFormed(s, evs)
    ensures Flag(s.isFetching) + Starts(Execute(s, evs).outputs)
         == Settles(evs) + Flag(Execute(s, evs).final.isFetching)
    decreases |evs|
  {
    if |evs| > 0 {
      var tr := Apply(s, evs[0]);
      InFlightMatchesFlag(tr.next, evs[1..]);
      var outs := Execute(s, evs).outputs;
      assert outs[0] == tr.output && outs[1..] == Execute(tr.next, evs[1..]).outputs;
    }
  }

  lemma {:induction false} StartsAppend<P>(a: seq<Output<P>>, b: seq<Output<P>>)
    ensures Starts(a + b) == Starts(a) + Starts(b)
    decreases |a|
  {
    if |a| > 0 {
      assert (a + b)[1..] == a[1..] + b;
      StartsAppend(a[1..], b);
    } else {
      assert a + b == b;
    }
  }

  /** Running two event sequences one after the other is running their concatenation. */
  lemma {:induction false} ExecuteAppend<P>(s: CacheState<P>, a: seq<Event<P>>, b: seq<Event<P>>)
    ensures Execute(s, a + b).final == Execute(Execute(s, a).final, b).final
    ensures Execute(s, a + b).outputs == Execute(s, a).outputs + Execute(Execute(s, a).final, b).outputs
    ensures WellFormed(s, a + b) <==> WellFormed(s, a) && WellFormed(Execute(s, a).final, b)
    decreases |a|
  {
    if |a| == 0 {
      assert a + b == b;
    } else {
      assert (a + b)[0] == a[0] && (a + b)[1..] == a[1..] + b;
      ExecuteAppend(Apply(s, a[0]).next, a[1..], b);
    }
  }

  /**
   * At most one upstream call is in flight at any point of a well-formed run
   * from process start: every prefix has started at most one call more than
   * it has settled.
   */
  lemma AtMostOneInFlight<P>(evs: seq<Event<P>>, k: nat)
    requires WellFormed(Initial<P>(), evs)
    requires k <= |evs|
    ensures Settles(evs[..k]) <= Starts(Execute(Initial<P>(), evs).outputs[..k]) <= Settles(evs[..k]) + 1
  {
    var s := Initial<P>();
    assert evs == evs[..k] + evs[k..];
    ExecuteAppend(s, evs[..k], evs[k..]);
    assert Execute(s, evs).outputs[..k] == Execute(s, evs[..k]).outputs;
    InFlightMatchesFlag(s, evs[..k]);
  }

  /**
   * The slot and its timestamp are only ever written by a successful fetch:
   * after any run they hold the payload and completion time of the last
   * successful `Settle`, or their starting values if there was none.
   */
  lemma {:induction false} SlotOnlyFromSuccess<P>(s: CacheState<P>, evs: seq<Event<P>>)
    ensures (forall i :: 0 <= i < |evs| ==> !IsSuccess(evs[i])) ==>
      Execute(s, evs).final.cachedResponse == s.cachedResponse
      && Execute(s, evs).final.lastRequestTime == s.lastRequestTime
    ensures forall i :: 0 <= i < |evs| && IsSuccess(evs[i]) && (forall j :: i < j < |evs| ==> !IsSuccess(evs[j])) ==>
      Execute(s, evs).final.cachedResponse == Some(evs[i].outcome.data)
      && Execute(s, evs).final.lastRequestTime == evs[i].t
    decreases |evs|
  {
    if |evs| > 0 {
      var next := Apply(s, evs[0]).next;
      var tail := evs[1..];
      SlotOnlyFromSuccess(next, tail);
      assert Execute(s, evs).final == Execute(next, tail).final;
      forall i | 0 <= i < |evs| && IsSuccess(evs[i]) && (forall j :: i < j < |evs| ==> !IsSuccess(evs[j]))
        ensures Execute(s, evs).final.cachedResponse == Some(evs[i].outcome.data)
        ensures Execute(s, evs).final.lastRequestTime == evs[i].t
      {
        if i > 0 {
          assert tail[i - 1] == evs[i];
          assert forall j :: i - 1 < j < |tail| ==> tail[j] == evs[j + 1];
        } else {
          assert forall j :: 0 <= j < |tail| ==> tail[j] == evs[j + 1];
        }
      }
      if forall i :: 0 <= i < |evs| ==> !IsSuccess(evs[i]) {
        assert !IsSuccess(evs[0]);
        assert forall j :: 0 <= j < |tail| ==> tail[j] == evs[j + 1];
      }
    }
  }

  /** Requests against a fresh cache are all served that payload, and no fetch starts. */
  lemma {:induction false} FreshBurst<P>(s: CacheState<P>, evs: seq<Event<P>>)
    requires s.cachedResponse.Some?
    requires AllRequests(evs)
    requires forall i :: 0 <= i < |evs| ==> evs[i].now - s.lastRequestTime < CACHE_DURATION_MS
    ensures Execute(s, evs).final == s
    ensures forall i :: 0 <= i < |evs| ==> Execute(s, evs).outputs[i] == Decided(Hit(s.cachedResponse.value))
    decreases |evs|
  {
    if |evs| > 0 {
      assert evs[0].Request? && evs[0].now - s.lastRequestTime < CACHE_DURATION_MS;
      assert Apply(s, evs[0]) == Transition(s, Decided(Hit(s.cachedResponse.value)));
      FreshBurst(s, evs[1..]);
    }
  }

  /** While the first fetch is still in flight on an empty cache, every request gets the pending marker. */
  lemma {:induction false} PendingBurst<P>(s: CacheState<P>, evs: seq<Event<P>>)
    requires s.cachedResponse.None? && s.isFetching
    requires AllRequests(evs)
    ensures Execute(s, evs).final == s
    ensures forall i :: 0 <= i < |evs| ==> Execute(s, evs).outputs[i] == Decided(Pending(None))
    decreases |evs|
  {
    if |evs| > 0 {
      assert evs[0].Request?;
      PendingBurst(s, evs[1..]);
    }
  }

  /**
   * A burst of concurrent requests on a cold cache starts exactly one
   * upstream call: the first request triggers it and every other one gets
   * the pending marker.
   */
  lemma ColdBurst<P>(s: CacheState<P>, evs: seq<Event<P>>)
    requires s.cachedResponse.None? && !s.isFetching
    requires AllRequests(evs) && |evs| > 0
    ensures Execute(s, evs).outputs[0] == Decided(StartFetch(evs[0].query))
    ensures forall i :: 1 <= i < |evs| ==> Execute(s, evs).outputs[i] == Decided(Pending(None))
    ensures Starts(Execute(s, evs).outputs) == 1
    ensures Execute(s, evs).final == s.(isFetching := true)
  {
    var s1 := s.(isFetching := true);
    assert Apply(s, evs[0]) == Transition(s1, Decided(StartFetch(evs[0].query)));
    assert AllRequests(evs[1..]) by {
      assert forall i :: 0 <= i < |evs[1..]| ==> evs[1..][i] == evs[i + 1];
    }
    PendingBurst(s1, evs[1..]);
    var outs := Execute(s, evs).outputs;
    assert outs[1..] == Execute(s1, evs[1..]).outputs;
    assert Starts(outs) == 1 + Starts(outs[1..]);
    NoStartsInPending(outs[1..]);
  }

  lemma {:induction false} NoStartsInPending<P>(outs: seq<Output<P>>)
    requires forall i :: 0 <= i < |outs| ==> outs[i] == Decided(Pending(None))
    ensures Starts(outs) == 0
    decreases |outs|
  {
    if |outs| > 0 {
      NoStartsInPending(outs[1..]);
    }
  }

  /**
   * Concurrent callers on a cold cache, then a successful fetch, then more
   * callers within the freshness window: one upstream call in all, the
   * triggering caller gets the payload, the callers during the fetch get the
   * pending marker, and every later caller gets the fetched payload.  No
   * caller sees an error.
   */
  lemma CoalescedColdStart<P>(burst: seq<Event<P>>, p: P, t: int, later: seq<Event<P>>)
    requires AllRequests(burst) && |burst| > 0
    requires AllRequests(later)
    requires forall i :: 0 <= i < |later| ==> later[i].now - t < CACHE_DURATION_MS
    ensures WellFormed(Initial<P>(), burst + [Settle(Fetched(p), t)] + later)
    ensures var outs := Execute(Initial<P>(), burst + [Settle(Fetched(p), t)] + later).outputs;
      && Starts(outs) == 1
      && outs[0] == Decided(StartFetch(burst[0].query))
      && (forall i :: 1 <= i < |burst| ==> outs[i] == Decided(Pending(None)))
      && outs[|burst|] == Replied(Json(p))
      && (forall i :: |burst| < i < |outs| ==> outs[i] == Decided(Hit(p)))
      // the HTTP responses: the marker for the waiters, the payload for everyone after
      && (forall i :: 1 <= i < |burst| ==> Immediate(outs[i].decision) == BeingFetched)
      && (forall i :: |burst| < i < |outs| ==> Immediate(outs[i].decision) == Json(p))
  {
    var s0 := Initial<P>();
    var settle: seq<Event<P>> := [Settle(Fetched(p), t)];
    ColdBurst(s0, burst);
    var s1 := Execute(s0, burst).final;
    AllRequestsWellFormed(s0, burst);
    var s2 := CacheState(t, Some(p), false);
    assert Execute(s1, settle).final == s2;
    assert Execute(s1, settle).outputs == [Replied(Json(p))];
    assert WellFormed(s1, settle);
    FreshBurst(s2, later);
    AllRequestsWellFormed(s2, later);
    ExecuteAppend(s0, burst, settle);
    ExecuteAppend(s0, burst + settle, later);
    var outs := Execute(s0, burst + settle + later).outputs;
    var o1 := Execute(s0, burst).outputs;
    var o3 := Execute(s2, later).outputs;
    assert outs == o1 + [Replied(Json(p))] + o3;
    StartsAppend(o1, [Replied(Json(p))]);
    StartsAppend(o1 + [Replied(Json(p))], o3);
    assert Starts([Replied(Json(p))]) == 0;
    NoStartsInHits(o3, p);
    forall i | |burst| < i < |outs| ensures outs[i] == Decided(Hit(p)) {
      assert outs[i] == o3[i - |burst| - 1];
    }
  }

  lemma {:induction false} NoStartsInHits<P>(outs: seq<Output<P>>, p: P)
    requires forall i :: 0 <= i < |outs| ==> outs[i] == Decided(Hit(p))
    ensures Starts(outs) == 0
    decreases |outs|
  {
    if |outs| > 0 {
      NoStartsInHits(outs[1..], p);
    }
  }

  /** A run of requests alone is always well formed. */
  lemma {:induction false} AllRequestsWellFormed<P>(s: CacheState<P>, evs: seq<Event<P>>)
    requires AllRequests(evs)
    ensures WellFormed(s, evs)
    decreases |evs|
  {
    if |evs| > 0 {
      assert evs[0].Request?;
      AllRequestsWellFormed(Apply(s, evs[0]).next, evs[1..]);
    }
  }

  /**
   * A failed fetch leaves the previous entry in place for later callers:
   * a request after the failure is served the old payload while it is fresh,
   * and otherwise starts a new fetch (the next poll is the retry).
   */
  lemma FailureKeepsEntry<P>(s: CacheState<P>, details: string, t: int, now: int, q: ChainQuery)
    requires s.isFetching
    ensures var after := Complete(s, FetchFailed(details), t).next;
      && after.cachedResponse == s.cachedResponse
      && after.lastRequestTime == s.lastRequestTime
      && Begin(after, now, q).decision
         == (if IsFresh(s, now) then Hit(s.cachedResponse.value) else StartFetch(q))
  {
  }
}
