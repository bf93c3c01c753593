/**
 The time-to-live cache of server.js: a map from cache key to the cached
 data and the instant (in milliseconds) from which it is stale. Expiry is
 checked lazily, when an entry is read, and a read that misses deletes the
 key. Here the cache is a map value; the object that owns it and updates it
 in place is ProxyCache, in module Server.
 */
module TtlCache {
  import opened Optional
  import opened Values

  type Key = string

  datatype Entry = Entry(data: Json, expiry: int)

  type Cache = map<Key, Entry>

  /** An entry exists for `key` and is still fresh at `now` (the comparison is strict). */
  predicate Live(c: Cache, key: Key, now: int) {
    key in c && c[key].expiry > now
  }

  /** The cache after `setCache(key, data, ttl)` at time `now`: the entry is overwritten unconditionally. */
  function Set(c: Cache, key: Key, data: Json, ttl: int, now: int): (c': Cache)
    ensures key in c' && c'[key].data == data && c'[key].expiry == now + ttl
    ensures c'.Keys == c.Keys + {key}
    ensures forall k :: k in c && k != key ==> c'[k] == c[k]
  {
    c[key := Entry(data, now + ttl)]
  }

  /** What `getCache(key)` at time `now` returns: the data of a live entry, or nothing. */
  function Get(c: Cache, key: Key, now: int): (r: Option<Json>)
    ensures r.Some? <==> Live(c, key, now)
    ensures r.Some? ==> r.value == c[key].data
  {
    if Live(c, key, now) then Some(c[key].data) else None
  }

  /** The cache after `getCache(key)` at time `now`: every miss deletes the key, present or not. */
  function AfterGet(c: Cache, key: Key, now: int): (c': Cache)
    ensures Live(c, key, now) ==> c' == c
    ensures !Live(c, key, now) ==> key !in c' && c'.Keys == c.Keys - {key}
    ensures forall k :: k in c' ==> k in c && c'[k] == c[k]
  {
    if Live(c, key, now) then c else c - {key}
  }

  /** A value written with `ttl` is read back, and the read changes nothing, until `ttl` has elapsed. */
  lemma SetThenGetBeforeExpiry(c: Cache, key: Key, data: Json, ttl: int, t0: int, now: int)
    requires now < t0 + ttl
    ensures Get(Set(c, key, data, ttl, t0), key, now) == Some(data)
    ensures AfterGet(Set(c, key, data, ttl, t0), key, now) == Set(c, key, data, ttl, t0)
  {
  }

  /** From the instant the ttl has elapsed, the value is gone and the read deletes it. */
  lemma SetThenGetAfterExpiry(c: Cache, key: Key, data: Json, ttl: int, t0: int, now: int)
    requires now >= t0 + ttl
    ensures Get(Set(c, key, data, ttl, t0), key, now) == None
    ensures AfterGet(Set(c, key, data, ttl, t0), key, now) == c - {key}
  {
  }

  /** Reading a stale entry yields nothing and removes exactly that key. */
  lemma GetExpired(c: Cache, key: Key, now: int)
    requires key in c && now >= c[key].expiry
    ensures Get(c, key, now) == None
    ensures AfterGet(c, key, now) == c - {key}
  {
  }

  /** Reading an absent key yields nothing and the cache still has no entry for it (the delete is a no-op). */
  lemma GetAbsent(c: Cache, key: Key, now: int)
    requires key !in c
    ensures Get(c, key, now) == None
    ensures AfterGet(c, key, now) == c
  {
  }

  /** A second write replaces the first: the first value is no longer observable at any time. */
  lemma SetOverwrites(c: Cache, key: Key, v1: Json, ttl1: int, t1: int, v2: Json, ttl2: int, t2: int)
    ensures Set(Set(c, key, v1, ttl1, t1), key, v2, ttl2, t2) == Set(c, key, v2, ttl2, t2)
    ensures forall now :: Get(Set(Set(c, key, v1, ttl1, t1), key, v2, ttl2, t2), key, now)
                          == if now < t2 + ttl2 then Some(v2) else None
  {
  }

  /** Writing one key does not change what is read, or what a read leaves behind, for any other key. */
  lemma SetLeavesOtherKeys(c: Cache, key: Key, data: Json, ttl: int, t0: int, other: Key, now: int)
    requires other != key
    ensures Get(Set(c, key, data, ttl, t0), other, now) == Get(c, other, now)
    ensures AfterGet(Set(c, key, data, ttl, t0), other, now) == Set(AfterGet(c, other, now), key, data, ttl, t0)
  {
  }

  /** Reading twice at the same instant gives the same answer and leaves the same cache as reading once. */
  lemma GetIdempotent(c: Cache, key: Key, now: int)
    ensures Get(AfterGet(c, key, now), key, now) == Get(c, key, now)
    ensures AfterGet(AfterGet(c, key, now), key, now) == AfterGet(c, key, now)
  {
  }

  /** A ten-minute coin entry written at t = 0 is read at t = 599999 and is gone from t = 600000 on. */
  lemma CoinEntryScenario(v: Json)
    ensures Get(Set(map[], "coin-bitcoin", v, 600000, 0), "coin-bitcoin", 599999) == Some(v)
    ensures Get(Set(map[], "coin-bitcoin", v, 600000, 0), "coin-bitcoin", 600000) == None
    ensures Get(Set(map[], "coin-bitcoin", v, 600000, 0), "coin-bitcoin", 600001) == None
  {
  }
}
