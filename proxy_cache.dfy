/**
 The process-wide state of server.js as one object: the `cache` and
 `pendingRequests` maps, updated in place by `setCache`, `getCache`,
 `fetchWithCache` and its completion handlers, and the log of upstream calls
 sent so far (which stands for the calls `axios.get` makes). The ghost
 field `settled` records the outcome of each call whose promise has settled.
 Each method is proved against the step functions of module Coalescer.
 */
module Server {
  import opened Optional
  import opened Values
  import opened TtlCache
  import opened Coalescer

  class ProxyCache {
    var cache: Cache
    var pendingRequests: map<Key, nat>
    var upstreamCalls: seq<Request>
    ghost var settled: map<nat, Outcome>

    /** The abstract state the methods are specified against. */
    ghost function Current(): State
      reads this
    {
      State(cache, pendingRequests, upstreamCalls, settled)
    }

    ghost predicate Valid()
      reads this
    {
      Inv(Current())
    }

    constructor ()
      ensures Valid()
      ensures Current() == Initial()
    {
      cache := map[];
      pendingRequests := map[];
      upstreamCalls := [];
      settled := map[];
    }

    /**
     `setCache(key, data, ttl)` at time `now`. It does not keep `Valid()` on
     its own: writing truthy data for a pending key breaks the invariant
     until the pending entry is removed, as `Complete` does next.
     */
    method SetCache(key: Key, data: Json, ttl: int, now: int)
      modifies this
      ensures cache == Set(old(cache), key, data, ttl, now)
      ensures pendingRequests == old(pendingRequests) && upstreamCalls == old(upstreamCalls)
      ensures settled == old(settled)
    {
      cache := cache[key := Entry(data, now + ttl)];
    }

    /** `getCache(key)` at time `now`: the live entry's data, or a miss that deletes the key. */
    method GetCache(key: Key, now: int) returns (r: Option<Json>)
      modifies this
      ensures r == Get(old(cache), key, now)
      ensures cache == AfterGet(old(cache), key, now)
      ensures pendingRequests == old(pendingRequests) && upstreamCalls == old(upstreamCalls)
      ensures settled == old(settled)
      ensures old(Valid()) ==> Valid()
    {
      if key in cache && cache[key].expiry > now {
        return Some(cache[key].data);
      }
      cache := cache - {key};
      return None;
    }

    /**
     `fetchWithCache(key, url, params, ttl)` at time `now`, up to the point
     where it hands back a value or a promise; `ttl` None is the default.
     */
    method FetchWithCache(key: Key, url: string, params: map<string, Json>, ttl: Option<int>, now: int)
      returns (reply: Reply)
      requires Valid()
      modifies this
      ensures Valid()
      ensures Step(Current(), reply) == Fetch(old(Current()), key, url, params, ttl, now)
    {
      ghost var before := Current();
      FetchPreservesInv(before, key, url, params, ttl, now);
      var cached := GetCache(key, now);
      if cached.Some? && Truthy(cached.value) {
        return Hit(cached.value);
      }
      if key in pendingRequests {
        return Joined(pendingRequests[key]);
      }
      var handle := |upstreamCalls|;
      upstreamCalls := upstreamCalls + [Request(key, url, params, TtlOrDefault(ttl))];
      pendingRequests := pendingRequests[key := handle];
      return Started(handle);
    }

    /**
     The upstream call `handle`, started and not yet settled, settles with
     `outcome` at time `now`. Its handlers act by the call's key: the success
     handler caches the data and then removes the key's pending entry; the
     failure handler only removes it. Callers that joined the call hold the
     same handle, so they share this one outcome, recorded in `settled`.
     */
    method Complete(handle: nat, outcome: Outcome, now: int)
      requires Valid()
      requires handle < |upstreamCalls| && handle !in settled
      modifies this
      ensures Valid()
      ensures Current() == Coalescer.Complete(old(Current()), handle, outcome, now)
      ensures old(upstreamCalls[handle].key) !in pendingRequests
    {
      CompletePreservesInv(Current(), handle, outcome, now);
      var request := upstreamCalls[handle];
      match outcome {
        case Resolved(data) =>
          SetCache(request.key, data, request.ttl, now);
          pendingRequests := pendingRequests - {request.key};
        case Rejected(_) =>
          pendingRequests := pendingRequests - {request.key};
      }
      settled := settled[handle := outcome];
    }
  }

  /**
   Two simultaneous requests for the same market list: one upstream call,
   both callers hold its handle, and once it has succeeded a third request
   before the two-minute ttl has elapsed is a cache hit with its data.
   */
  method MarketsScenario(list: Json) returns (first: Reply, second: Reply, third: Reply, calls: nat)
    requires Truthy(list)
    ensures first == Started(0) && second == Joined(0)
    ensures third == Hit(list)
    ensures calls == 1
  {
    var proxy := new ProxyCache();
    var url := "https://api.coingecko.com/api/v3/coins/markets";
    first := proxy.FetchWithCache("markets-usd-1", url, map[], Some(120000), 0);
    second := proxy.FetchWithCache("markets-usd-1", url, map[], Some(120000), 0);
    proxy.Complete(0, Resolved(list), 50);
    third := proxy.FetchWithCache("markets-usd-1", url, map[], Some(120000), 120049);
    calls := |proxy.upstreamCalls|;
  }
}
