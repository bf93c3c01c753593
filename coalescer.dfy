/**
 The request coalescer of server.js (`fetchWithCache` and the completion
 handlers of its upstream request), as a state machine over values. The
 state is the TTL cache, the table of pending requests, the log of upstream
 calls made so far, and the outcome of each call that has settled. An
 upstream request is identified by a handle, its index in that log; all
 callers that join a pending request hold the same handle and so observe the
 one outcome recorded for it when it settles.

 One call of `fetchWithCache` up to its first suspension is indivisible on
 the JavaScript event loop, so `Fetch` is a single step; the settling of an
 upstream promise is the separate step `Complete`, which may happen for any
 call that was started and has not settled yet.
 */
module Coalescer {
  import opened Optional
  import opened Values
  import opened TtlCache

  /** The ttl used when the caller gives none: five minutes, in milliseconds. */
  const DEFAULT_TTL: int := 5 * 60 * 1000

  function TtlOrDefault(ttl: Option<int>): int {
    if ttl.Some? then ttl.value else DEFAULT_TTL
  }

  /** Whatever the upstream call reports when it fails; the coalescer does not interpret it. */
  datatype UpstreamError = UpstreamError(message: string)

  /** How an upstream request settles: the response body, or the error it was rejected with. */
  datatype Outcome = Resolved(data: Json) | Rejected(error: UpstreamError)

  /**
   One upstream call: the cache key it fills, the URL and the query
   parameters, and the ttl its success handler caches the data with.
   */
  datatype Request = Request(key: Key, url: string, params: map<string, Json>, ttl: int)

  /** What one call of `fetchWithCache` gives its caller. */
  datatype Reply =
    | Hit(value: Json)        // the cached data itself
    | Joined(handle: nat)     // the request already in flight for the key
    | Started(handle: nat)    // a request it has just sent upstream

  /**
   `pending` maps a key to the handle of its in-flight request; `settled`
   maps the handle of every call that has settled to its outcome.
   */
  datatype State = State(cache: Cache, pending: map<Key, nat>, calls: seq<Request>, settled: map<nat, Outcome>)

  datatype Step = Step(state: State, reply: Reply)

  /** The arguments of one call of `fetchWithCache` for a fixed key, and the instant it is made. */
  datatype Call = Call(url: string, params: map<string, Json>, ttl: Option<int>, now: int)

  /** The fast path fires: a live entry whose data is truthy. */
  predicate Servable(c: Cache, key: Key, now: int) {
    Live(c, key, now) && Truthy(c[key].data)
  }

  /** Upstream call `h` was started and has not settled: it is running. */
  predicate Running(s: State, h: nat) {
    h < |s.calls| && h !in s.settled
  }

  /**
   The invariant every reachable state keeps: each pending entry is a running
   call made for that key; each running call is the one pending for its key;
   only calls that were made have settled; and a key with a request in flight
   has no truthy entry in the cache, live or stale.
   */
  ghost predicate Inv(s: State) {
    && (forall k :: k in s.pending ==> Running(s, s.pending[k]) && s.calls[s.pending[k]].key == k)
    && (forall h :: 0 <= h < |s.calls| && h !in s.settled ==>
          s.calls[h].key in s.pending && s.pending[s.calls[h].key] == h)
    && (forall h :: h in s.settled ==> h < |s.calls|)
    && (forall k :: k in s.pending && k in s.cache ==> !Truthy(s.cache[k].data))
  }

  /** The state before any request: both tables empty, no upstream call made. */
  function Initial(): (s: State)
    ensures Inv(s)
    ensures s.cache == map[] && s.pending == map[] && s.calls == [] && s.settled == map[]
  {
    State(map[], map[], [], map[])
  }

  /**
   One call of `fetchWithCache(key, url, params, ttl)` at time `now`: serve a
   live truthy entry; otherwise (after the read has deleted a stale or absent
   entry) join the request in flight for the key, or send exactly one new
   upstream request and register it as pending.
   */
  function Fetch(s: State, key: Key, url: string, params: map<string, Json>, ttl: Option<int>, now: int): (out: Step)
    ensures out.state.settled == s.settled
    ensures out.reply.Hit? <==> Servable(s.cache, key, now)
    ensures out.reply.Hit? ==> out.reply.value == s.cache[key].data && out.state == s
    ensures out.reply.Joined? <==> !Servable(s.cache, key, now) && key in s.pending
    ensures out.reply.Joined? ==>
              && out.reply.handle == s.pending[key]
              && out.state == s.(cache := AfterGet(s.cache, key, now))
    ensures out.reply.Started? ==>
              && out.reply.handle == |s.calls|
              && out.state.calls == s.calls + [Request(key, url, params, TtlOrDefault(ttl))]
              && out.state.pending == s.pending[key := |s.calls|]
              && out.state.cache == AfterGet(s.cache, key, now)
  {
    var cached := Get(s.cache, key, now);
    var cache' := AfterGet(s.cache, key, now);
    if cached.Some? && Truthy(cached.value) then
      Step(s.(cache := cache'), Hit(cached.value))
    else if key in s.pending then
      Step(s.(cache := cache'), Joined(s.pending[key]))
    else
      var handle := |s.calls|;
      Step(s.(cache := cache', pending := s.pending[key := handle],
              calls := s.calls + [Request(key, url, params, TtlOrDefault(ttl))]),
           Started(handle))
  }

  /**
   Running call `handle` settles at time `now`, and its handlers run. They
   act by the call's key, not by its handle: on success the data is cached
   with the call's ttl and then the key's pending entry is removed; on
   failure only the pending entry is removed. The outcome is recorded for
   the handle.
   */
  function Complete(s: State, handle: nat, outcome: Outcome, now: int): (s': State)
    requires Running(s, handle)
    ensures s'.pending == s.pending - {s.calls[handle].key}
    ensures s'.calls == s.calls
    ensures s'.settled == s.settled[handle := outcome]
    ensures outcome.Rejected? ==> s'.cache == s.cache
    ensures outcome.Resolved? ==>
              s'.cache == Set(s.cache, s.calls[handle].key, outcome.data, s.calls[handle].ttl, now)
  {
    var request := s.calls[handle];
    var pending' := s.pending - {request.key};
    match outcome
    case Resolved(data) =>
      State(Set(s.cache, request.key, data, request.ttl, now), pending', s.calls, s.settled[handle := outcome])
    case Rejected(_) =>
      s.(pending := pending', settled := s.settled[handle := outcome])
  }

  /**
   The call that settles is always the one pending for its key, so the
   handlers' delete by key removes that call's own entry and no other.
   */
  lemma SettlingIsPending(s: State, handle: nat)
    requires Inv(s) && Running(s, handle)
    ensures s.calls[handle].key in s.pending && s.pending[s.calls[handle].key] == handle
  {
  }

  /** Single flight at any instant: two running calls for the same key are the same call. */
  lemma AtMostOneRunning(s: State, h1: nat, h2: nat)
    requires Inv(s) && Running(s, h1) && Running(s, h2)
    requires s.calls[h1].key == s.calls[h2].key
    ensures h1 == h2
  {
    SettlingIsPending(s, h1);
    SettlingIsPending(s, h2);
  }

  /** No two keys share a pending request. */
  lemma PendingHandlesDistinct(s: State, k1: Key, k2: Key)
    requires Inv(s)
    requires k1 in s.pending && k2 in s.pending && k1 != k2
    ensures s.pending[k1] != s.pending[k2]
  {
  }

  /** The handle the next upstream call will get is held by no pending entry and has not settled. */
  lemma NextHandleIsFresh(s: State)
    requires Inv(s)
    ensures forall k :: k in s.pending ==> s.pending[k] != |s.calls|
    ensures forall h :: h in s.settled ==> h != |s.calls|
  {
  }

  /** Every call of `fetchWithCache` keeps the invariant. */
  lemma FetchPreservesInv(s: State, key: Key, url: string, params: map<string, Json>, ttl: Option<int>, now: int)
    requires Inv(s)
    ensures Inv(Fetch(s, key, url, params, ttl, now).state)
  {
  }

  /** Every settling of a running call keeps the invariant. */
  lemma CompletePreservesInv(s: State, handle: nat, outcome: Outcome, now: int)
    requires Inv(s) && Running(s, handle)
    ensures Inv(Complete(s, handle, outcome, now))
  {
  }

  /** A fetch for one key changes neither the cache entry nor the pending entry of any other key. */
  lemma FetchLeavesOtherKeys(s: State, key: Key, url: string, params: map<string, Json>, ttl: Option<int>, now: int, other: Key)
    requires other != key
    ensures var t := Fetch(s, key, url, params, ttl, now).state;
            && (other in t.cache <==> other in s.cache)
            && (other in s.cache ==> t.cache[other] == s.cache[other])
            && (other in t.pending <==> other in s.pending)
            && (other in s.pending ==> t.pending[other] == s.pending[other])
  {
  }

  /**
   The state after a run of calls of `fetchWithCache` for one key, each with
   its own arguments and instant, with no settling in between, and the
   replies in order.
   */
  function FetchAll(s: State, key: Key, run: seq<Call>): (out: (State, seq<Reply>))
    ensures |out.1| == |run|
    decreases |run|
  {
    if run == [] then (s, [])
    else
      var c := run[0];
      var first := Fetch(s, key, c.url, c.params, c.ttl, c.now);
      var rest := FetchAll(first.state, key, run[1..]);
      (rest.0, [first.reply] + rest.1)
  }

  /**
   While a request is pending for the key, every further call joins it: the
   same handle for all, no new upstream call, the pending table and the
   settled outcomes unchanged.
   */
  lemma {:induction false} AllJoin(s: State, key: Key, run: seq<Call>)
    requires Inv(s) && key in s.pending
    ensures var (t, replies) := FetchAll(s, key, run);
            && Inv(t)
            && (forall i :: 0 <= i < |replies| ==> replies[i] == Joined(s.pending[key]))
            && t.calls == s.calls
            && t.pending == s.pending
            && t.settled == s.settled
    decreases |run|
  {
    if run != [] {
      var c := run[0];
      var first := Fetch(s, key, c.url, c.params, c.ttl, c.now);
      assert !Servable(s.cache, key, c.now);
      FetchPreservesInv(s, key, c.url, c.params, c.ttl, c.now);
      AllJoin(first.state, key, run[1..]);
    }
  }

  /**
   Single flight: when the first of N callers misses and nothing is in flight
   for the key, exactly one upstream call is made, with the first caller's
   arguments. The first caller starts it and every later caller joins that
   same request.
   */
  lemma {:induction false} SingleFlight(s: State, key: Key, run: seq<Call>)
    requires Inv(s) && key !in s.pending
    requires |run| > 0 && !Servable(s.cache, key, run[0].now)
    ensures var (t, replies) := FetchAll(s, key, run);
            && Inv(t)
            && replies[0] == Started(|s.calls|)
            && (forall i :: 1 <= i < |replies| ==> replies[i] == Joined(|s.calls|))
            && t.calls == s.calls + [Request(key, run[0].url, run[0].params, TtlOrDefault(run[0].ttl))]
            && t.pending == s.pending[key := |s.calls|]
            && t.settled == s.settled
  {
    var c := run[0];
    var first := Fetch(s, key, c.url, c.params, c.ttl, c.now);
    FetchPreservesInv(s, key, c.url, c.params, c.ttl, c.now);
    AllJoin(first.state, key, run[1..]);
  }

  /**
   All N callers of a single flight observe one outcome: each reply holds the
   handle of the one call, and when that call settles its outcome is recorded
   for that handle and the key is no longer pending.
   */
  lemma SharedOutcome(s: State, key: Key, run: seq<Call>, outcome: Outcome, done: int)
    requires Inv(s) && key !in s.pending
    requires |run| > 0 && !Servable(s.cache, key, run[0].now)
    ensures var (t, replies) := FetchAll(s, key, run);
            && Running(t, |s.calls|)
            && (forall i :: 0 <= i < |replies| ==> !replies[i].Hit? && replies[i].handle == |s.calls|)
            && var u := Complete(t, |s.calls|, outcome, done);
               u.settled[|s.calls|] == outcome && key !in u.pending && Inv(u)
  {
    SingleFlight(s, key, run);
    var (t, replies) := FetchAll(s, key, run);
    CompletePreservesInv(t, |s.calls|, outcome, done);
  }

  /**
   After a successful settling with truthy data, a fetch for the key before
   the call's ttl has elapsed is served from the cache and changes nothing.
   */
  lemma SuccessThenHit(s: State, handle: nat, data: Json, now: int,
                       url: string, params: map<string, Json>, ttl: Option<int>, later: int)
    requires Running(s, handle) && Truthy(data)
    requires later < now + s.calls[handle].ttl
    ensures var s' := Complete(s, handle, Resolved(data), now);
            Fetch(s', s.calls[handle].key, url, params, ttl, later) == Step(s', Hit(data))
  {
  }

  /**
   After a failed settling nothing is served from the cache: the next fetch
   for the key, at any time, sends a new upstream call.
   */
  lemma FailureThenRefetch(s: State, handle: nat, e: UpstreamError, now: int,
                           url: string, params: map<string, Json>, ttl: Option<int>, later: int)
    requires Inv(s) && Running(s, handle)
    ensures var s' := Complete(s, handle, Rejected(e), now);
            Fetch(s', s.calls[handle].key, url, params, ttl, later).reply == Started(|s.calls|)
  {
  }

  /**
   A live entry whose data is falsy is never served. With nothing in flight
   the fetch sends an upstream call, and the read keeps the entry because it
   is live; a second fetch while that call runs joins it.
   */
  lemma LiveFalsyEntryIsRefetched(s: State, key: Key, url: string, params: map<string, Json>, ttl: Option<int>, now: int,
                                  url2: string, params2: map<string, Json>, ttl2: Option<int>, now2: int)
    requires Live(s.cache, key, now) && !Truthy(s.cache[key].data)
    requires key !in s.pending
    ensures var out := Fetch(s, key, url, params, ttl, now);
            && out.reply == Started(|s.calls|) && out.state.cache == s.cache
            && Fetch(out.state, key, url2, params2, ttl2, now2).reply == Joined(|s.calls|)
  {
  }
}
