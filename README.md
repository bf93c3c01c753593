# Cache and request coalescer of a market-data proxy

The proxy in `server.js` answers clients from a time-to-live cache in front
of a third-party market-data API. Identical concurrent requests share one
upstream call. This project models that core in Dafny and proves what it
guarantees.

- **TTL cache** (`setCache`, `getCache`). A map from cache key to
  `{data, expiry}`. A write overwrites unconditionally with
  `expiry = now + ttl`. A read returns the data only while `expiry > now`.
  The comparison is strict, so at `now == expiry` the entry is already stale.
  Every miss deletes the key, even a key that was never present.
- **Coalescer** (`fetchWithCache`). It serves a live entry whose data is
  truthy. Otherwise it returns the request already pending for the key, if
  there is one. If there is none, it sends one upstream request and registers
  it as pending. The TTL defaults to five minutes.
- **Completion handlers.** On success the data is cached with the
  request's TTL, and only then is the pending entry removed. On failure only
  the pending entry is removed.

Files and modules:

- `values.dfy`: `Optional.Option`, and `Values.Json` with `Values.Truthy`.
  `Truthy` gives JavaScript truthiness on parsed JSON: `null`, `false`, `0`
  and `""` are falsy.
- `ttl_cache.dfy`: module `TtlCache`. The cache map, the value `getCache`
  returns (`Get`) and the cache it leaves behind (`AfterGet`), `Set`, and the
  lemmas about reading back what was written.
- `coalescer.dfy`: module `Coalescer`. The whole state as a value: cache,
  pending table, the log of upstream calls, and the outcome of every call
  that has settled. It gives `fetchWithCache`
  (`Fetch`) and promise settlement (`Complete`) as steps, the invariant
  `Inv` those steps keep, and the single-flight lemmas.
- `proxy_cache.dfy`: module `Server`. Class `ProxyCache` holds the two maps
  as fields, `cache` and `pendingRequests`, plus `upstreamCalls`, which
  records each `axios.get` call, and a ghost field `settled` with the
  outcome of each settled call. The methods update the fields in place and
  are proved against the step functions. `MarketsScenario` runs two
  simultaneous requests, one completion and a later hit.

Modelling choices:

- Time is an explicit millisecond parameter `now`, where the source reads
  `Date.now()`.
- The upstream call is abstract. Starting a fetch appends a `Request` to the
  log. The request's handle is its index in the log, so every new handle is
  fresh.
- `Complete(handle, outcome, now)` stands for a promise settling. It may
  happen for any call that was started and has not settled yet, since a
  promise settles once and only after it was started. Like the source's
  handlers, it deletes the pending entry by the call's key, not by its
  handle. The invariant proves that the settling call is always the one
  pending for its key (`SettlingIsPending`). So at most one upstream call
  per key is running at any time (`AtMostOneRunning`).
- One call of `fetchWithCache`, up to the upstream request, runs without
  interruption on the JavaScript event loop. So `FetchWithCache` is one
  atomic method. It returns `Hit(data)`, `Joined(handle)` or
  `Started(handle)`.
- The invariant `Inv` says four things:
  - every pending entry names a running call made for that key;
  - every running call is the one pending for its key;
  - only logged calls have settled;
  - a key with a request in flight has no truthy cache entry, live or
    stale.
- The fast path serves a live entry only when its data is truthy
  (`if (cached)`, server.js:29). A live entry whose
  data is `null`, `false`, `0` or `""` therefore triggers a new upstream
  call whenever no request for the key is in flight, and the read keeps
  that entry. While that call runs, further requests join it.
  `LiveFalsyEntryIsRefetched` states this.

## Model

| member | source | states |
|---|---|---|
| TtlCache.Set | server.js:13-15 | the written key holds exactly `{data, now + ttl}`; the key set grows by that key only; every other entry is unchanged |
| TtlCache.Get | server.js:17-24 | a read returns a value exactly when the key has an entry with `expiry > now` (strict), and then it is that entry's data |
| TtlCache.AfterGet | server.js:17-24 | a live read leaves the cache unchanged; any miss removes the key (and only that key), whether or not it was present |
| TtlCache.SetThenGetBeforeExpiry | server.js:13-21 | after a write with `ttl` at `t0`, every read at `now < t0 + ttl` returns the written value and leaves the cache as it was |
| TtlCache.SetThenGetAfterExpiry | server.js:13-23 | after a write with `ttl` at `t0`, a read at `now >= t0 + ttl` returns nothing and leaves the cache as it was before the write, minus the key |
| TtlCache.GetExpired | server.js:19-23 | reading an entry at or past its expiry returns nothing and removes exactly that key |
| TtlCache.GetAbsent | server.js:18-23 | reading an absent key returns nothing and the cache is unchanged, still without that key |
| TtlCache.SetOverwrites | server.js:13-15 | a second write to a key replaces the first entirely; afterwards reads return the second value exactly while `now < t2 + ttl2` |
| TtlCache.SetLeavesOtherKeys | server.js:13-15 | writing one key changes neither the result nor the side effect of reading any other key |
| TtlCache.GetIdempotent | server.js:17-24 | repeating a read at the same instant returns the same result and leaves the same cache |
| TtlCache.CoinEntryScenario | server.js:13-23 | a 600000 ms entry written at 0 is read at 599999 and is absent at 600000 and at 600001 |
| Coalescer.Initial | server.js:9-10 | the initial state has empty cache and pending tables, no upstream call and nothing settled, and satisfies the invariant |
| Coalescer.Fetch | server.js:27-49 | hit exactly on a live truthy entry, with the whole state unchanged; otherwise join exactly when the key is pending (same handle, no new call, pending table unchanged); otherwise exactly one new logged call and one new pending entry with the given or default ttl; in both miss paths the read has deleted a stale or absent entry |
| Coalescer.Complete | server.js:37-45 | the settling of a running call always removes its key from the pending table, makes no upstream call and records the outcome for its handle; success caches `{data, now + ttl}` with the call's ttl; failure leaves the cache untouched |
| Coalescer.SettlingIsPending | server.js:32-47 | in every reachable state, a call that settles is the one pending for its key, so the handlers' delete by key removes that call's own entry |
| Coalescer.AtMostOneRunning | server.js:32-47 | in every reachable state, two running upstream calls for the same key are the same call |
| Coalescer.PendingHandlesDistinct | server.js:32-47 | in every state satisfying the invariant, distinct pending keys have distinct pending requests |
| Coalescer.NextHandleIsFresh | server.js:36-47 | in every state satisfying the invariant, the handle the next upstream call gets is held by no pending entry and has not settled |
| Coalescer.FetchPreservesInv | server.js:27-49 | every fetch keeps the invariant, so each pending entry stays a running call for its key and no pending key gains a truthy entry |
| Coalescer.CompletePreservesInv | server.js:37-45 | the settling of any running call keeps the invariant |
| Coalescer.FetchLeavesOtherKeys | server.js:27-49 | a fetch for one key leaves the cache entry and the pending entry of every other key as they were |
| Coalescer.AllJoin | server.js:32-34 | while a request is pending for a key, any number of further fetches, each with its own arguments and instant, all join that same handle, make no upstream call and leave the pending table unchanged |
| Coalescer.SingleFlight | server.js:28-48 | N fetches of a key that misses with nothing in flight make exactly one upstream call, with the first caller's arguments: the first starts it, all later ones join the same handle, and one pending entry is registered |
| Coalescer.SharedOutcome | server.js:28-48 | every one of those N callers holds the handle of the one call; when it settles, its outcome is recorded for that handle and the key is no longer pending |
| Coalescer.SuccessThenHit | server.js:28-40 | after a call succeeds with truthy data, a fetch for its key before the call's ttl has elapsed is a hit with that data and changes nothing |
| Coalescer.FailureThenRefetch | server.js:28-47 | after a call fails, the next fetch of its key, at any time, sends a new upstream call and never serves the failure |
| Coalescer.LiveFalsyEntryIsRefetched | server.js:17-36 | with no request in flight for the key, a live entry holding falsy data is not served: the fetch sends a new upstream call and the read keeps the entry; a second fetch while that call runs joins it |
| Server.ProxyCache.constructor | server.js:9-10 | a new proxy starts in the initial state, with nothing settled, which satisfies the invariant |
| Server.ProxyCache.SetCache | server.js:13-15 | the cache field becomes `Set` of its old value; the pending table and the call log are unchanged |
| Server.ProxyCache.GetCache | server.js:17-24 | returns `Get` of the old cache and replaces the cache by `AfterGet`; nothing else changes, and the invariant is kept |
| Server.ProxyCache.FetchWithCache | server.js:27-49 | the reply and the new fields are exactly those of `Fetch` on the old fields, and the invariant is kept |
| Server.ProxyCache.Complete | server.js:37-45 | any running call may settle; the new fields are exactly those of `Complete` on the old fields; the call's key is no longer pending; the invariant holds again after both map updates |
| Server.MarketsScenario | server.js:27-49 | two simultaneous market requests make one upstream call and share handle 0; after it succeeds, a request 119999 ms later is a hit with its data |

## Left out

- HTTP plumbing: the Express app, `cors`, the three route handlers with their responses, and `app.listen` (server.js:2-7, 52-97). This is I/O outside the core.
- The HTTP call `axios.get`, a network call into a library that is not part of this model. A call is recorded as a `Request` (key, URL, parameters, ttl) in the call log, and its result arrives through `Complete`.
- Promise machinery and real concurrency. A shared promise is a handle number. Callers that joined it share its outcome because they hold the same handle (`AllJoin`, `SingleFlight`), and that outcome is recorded once for the handle in `settled` (`SharedOutcome`). Delivering the outcome to each caller is not modelled. Interleavings are the sequences of `FetchWithCache` and `Complete` calls.
- `Date.now()`. It is replaced by an explicit integer time parameter in milliseconds.
- The default for `params` (`{}`): callers pass the parameter map explicitly. The TTL default is modelled (`DEFAULT_TTL`, five minutes).
- Building the cache keys and the query-parameter defaults in the routes (server.js:55, 68, 71, 83, 86). These are caller-side plumbing.
- Logging through `console.error` and `console.log` (server.js:62, 97).
- JSON numbers are exact reals (`Values.Json`). IEEE double behaviour is not modelled, including `NaN` (falsy in JavaScript), `-0` and underflow to zero. JSON has no `undefined`.
- Coalescer.Fetch: the reply on a hit does not depend on the pending table, and the pending table and the call log are unchanged. Only that the pending table is not read at all is not expressible, because a function over values has no notion of reading one of its arguments.
