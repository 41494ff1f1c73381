/**
 * The Redis caching layer: a `CacheManager` bound to a key-value store with
 * expiring entries, and the `get_cache` singleton.
 *
 * The store is a `Store` object holding its entries with their expiry
 * times; the clock, the store's reachability (a call that raises) and the
 * MD5 digest are parameters. Cached data is held as its JSON text, so
 * `json.dumps` and `json.loads` are the identity on it.
 */
module Cache {
  import opened Wrappers
  import opened Text

  /** `settings.cache_ttl_seconds`, the default time to live. */
  const CacheTtlSeconds: int := 600

  /** A stored value and the time it expires. */
  datatype Stored = Stored(value: string, expiresAt: real)

  /** What a Redis `GET` answers at `now`: the value of an unexpired entry. */
  function Lookup(entries: map<string, Stored>, key: string, now: real): (r: Option<string>)
    ensures r.Some? <==> key in entries && now < entries[key].expiresAt
    ensures r.Some? ==> r.value == entries[key].value
  {
    if key in entries && now < entries[key].expiresAt then Some(entries[key].value) else None
  }

  /** The key-value store behind the cache: Redis `GET`, `SETEX` and `DEL` with lazy expiry. */
  class Store {
    var entries: map<string, Stored>

    constructor ()
      ensures entries == map[]
    {
      entries := map[];
    }

    /** `GET key` at `now`. */
    method Get(key: string, now: real) returns (r: Option<string>)
      ensures r == Lookup(entries, key, now)
    {
      if key in entries && now < entries[key].expiresAt {
        r := Some(entries[key].value);
      } else {
        r := None;
      }
    }

    /** `SETEX key ttl value` at `now`; a time to live below one is refused with an error. */
    method SetEx(key: string, ttl: int, value: string, now: real) returns (ok: bool)
      modifies this
      ensures ok <==> ttl > 0
      ensures entries == if ok then old(entries)[key := Stored(value, now + ttl as real)] else old(entries)
    {
      if ttl <= 0 {
        return false;
      }
      entries := entries[key := Stored(value, now + ttl as real)];
      ok := true;
    }

    /** `DEL key`. */
    method Delete(key: string)
      modifies this
      ensures entries == old(entries) - {key}
    {
      entries := entries - {key};
    }
  }

  /** `_generate_key`: the prefix, a colon and the digest of the lower-cased query. */
  function CacheKey(prefix: string, query: string, digest: string -> string): string {
    prefix + ":" + digest(Lower(query))
  }

  /** `ttl_seconds or settings.cache_ttl_seconds`: `None` and 0 fall back to the default. */
  function TtlFor(ttlSeconds: Option<int>): (ttl: int)
    ensures ttlSeconds.None? || ttlSeconds.value == 0 ==> ttl == CacheTtlSeconds
    ensures ttlSeconds.Some? && ttlSeconds.value != 0 ==> ttl == ttlSeconds.value
    ensures ttl > 0 <==> ttlSeconds.None? || ttlSeconds.value >= 0
  {
    if ttlSeconds.None? || ttlSeconds.value == 0 then CacheTtlSeconds else ttlSeconds.value
  }

  /** What `get` reports for a stored answer: a falsy (missing or empty) value is a miss. */
  function Reported(cached: Option<string>): (r: Option<string>)
    ensures r.Some? <==> cached.Some? && cached.value != ""
    ensures r.Some? ==> r == cached
  {
    if cached.Some? && cached.value != "" then cached else None
  }

  class CacheManager {
    var redis: Store?
    var enabled: bool
    const digest: string -> string

    /** The client is set exactly when the cache is enabled. */
    predicate Valid()
      reads this
    {
      enabled <==> redis != null
    }

    /**
     * `__init__`: enabled only with both credentials and a client that
     * could be built (`connects`), bound to the store `server`.
     */
    constructor (url: string, token: string, connects: bool, server: Store, digest: string -> string)
      ensures enabled <==> url != "" && token != "" && connects
      ensures redis == if enabled then server else null
      ensures this.digest == digest
      ensures Valid()
    {
      this.digest := digest;
      redis := null;
      enabled := false;
      if url != "" && token != "" {
        if connects {
          redis := server;
          enabled := true;
        } else {
          enabled := false;
        }
      }
    }

    /** `get` at `now`; `reachable` is false when the store call raises. */
    method Get(prefix: string, query: string, now: real, reachable: bool) returns (r: Option<string>)
      ensures r == if enabled && redis != null && reachable
        then Reported(Lookup(redis.entries, CacheKey(prefix, query, digest), now)) else None
    {
      if !enabled || redis == null {
        return None;
      }
      var key := CacheKey(prefix, query, digest);
      if !reachable {
        return None;
      }
      var cached := redis.Get(key, now);
      if cached.Some? && cached.value != "" {
        return cached;
      }
      return None;
    }

    /**
     * `set` at `now` of the JSON text `data`; `reachable` is false when the
     * store call raises. A refused time to live is an error as well.
     */
    method Set(prefix: string, query: string, data: string, ttlSeconds: Option<int>, now: real, reachable: bool)
      returns (ok: bool)
      modifies redis
      ensures ok <==> enabled && redis != null && reachable && TtlFor(ttlSeconds) > 0
      ensures redis != null ==> (redis.entries ==
        if ok then old(redis.entries)[CacheKey(prefix, query, digest) := Stored(data, now + TtlFor(ttlSeconds) as real)]
        else old(redis.entries))
    {
      if !enabled || redis == null {
        return false;
      }
      var key := CacheKey(prefix, query, digest);
      var ttl := TtlFor(ttlSeconds);
      if !reachable {
        return false;
      }
      ok := redis.SetEx(key, ttl, data, now);
    }

    /** `delete`; `reachable` is false when the store call raises. */
    method Delete(prefix: string, query: string, reachable: bool) returns (ok: bool)
      modifies redis
      ensures ok <==> enabled && redis != null && reachable
      ensures redis != null ==> (redis.entries ==
        if ok then old(redis.entries) - {CacheKey(prefix, query, digest)} else old(redis.entries))
    {
      if !enabled || redis == null {
        return false;
      }
      var key := CacheKey(prefix, query, digest);
      if !reachable {
        return false;
      }
      redis.Delete(key);
      ok := true;
    }
  }

  /** The module global `_cache_manager` that `get_cache` fills once. */
  class CacheRegistry {
    var cacheManager: CacheManager?

    constructor ()
      ensures cacheManager == null
    {
      cacheManager := null;
    }

    /** `get_cache`: the first call builds the manager; every later call returns that same instance. */
    method GetCache(url: string, token: string, connects: bool, server: Store, digest: string -> string)
      returns (c: CacheManager)
      modifies this
      ensures cacheManager == c
      ensures old(cacheManager) != null ==> c == old(cacheManager)
      ensures old(cacheManager) == null ==> fresh(c) && c.Valid() && (c.enabled <==> url != "" && token != "" && connects)
      ensures old(cacheManager) == null ==> c.redis == (if c.enabled then server else null) && c.digest == digest
    {
      if cacheManager == null {
        cacheManager := new CacheManager(url, token, connects, server, digest);
      }
      c := cacheManager;
    }
  }

  /** A query and its lower-case form share their cache key, and so do queries that differ only in ASCII case. */
  lemma KeyIgnoresCase(prefix: string, query: string, other: string, digest: string -> string)
    ensures CacheKey(prefix, query, digest) == CacheKey(prefix, Lower(query), digest)
    ensures Lower(query) == Lower(other) ==> CacheKey(prefix, query, digest) == CacheKey(prefix, other, digest)
  {
    LowerIdempotent(query);
  }

  /** Keys under colon-free prefixes determine the prefix and the digest. */
  lemma KeyDeterminesPrefix(p1: string, q1: string, p2: string, q2: string, digest: string -> string)
    requires ':' !in p1 && ':' !in p2
    requires CacheKey(p1, q1, digest) == CacheKey(p2, q2, digest)
    ensures p1 == p2 && digest(Lower(q1)) == digest(Lower(q2))
  {
    var k := CacheKey(p1, q1, digest);
    assert |p1| == |p2| by {
      assert |p1| == |CutAt(k, ':')| == |p2| by {
        CutAtPrefix(p1, ':', digest(Lower(q1)));
        CutAtPrefix(p2, ':', digest(Lower(q2)));
      }
    }
    assert p1 == k[..|p1|] == p2;
    assert digest(Lower(q1)) == k[|p1| + 1..] == digest(Lower(q2));
  }

  /**
   * A value set with time to live `ttl` is found until it expires, and the
   * entries under other keys are not touched.
   */
  lemma SetThenLookup(entries: map<string, Stored>, key: string, value: string, ttl: int, setAt: real, now: real, other: string)
    requires now < setAt + ttl as real
    requires other != key
    ensures Lookup(entries[key := Stored(value, setAt + ttl as real)], key, now) == Some(value)
    ensures Lookup(entries[key := Stored(value, setAt + ttl as real)], other, now) == Lookup(entries, other, now)
  {
  }

  /** After a delete, the key is a miss at any time; other keys are not touched. */
  lemma DeleteThenLookup(entries: map<string, Stored>, key: string, now: real, other: string)
    requires other != key
    ensures Lookup(entries - {key}, key, now) == None
    ensures Lookup(entries - {key}, other, now) == Lookup(entries, other, now)
  {
  }

  /**
   * `set(p, q, v)` followed by `get(p, q)` before the time to live runs out
   * answers `v` when `v` is not empty; the default time to live is 600 seconds.
   */
  lemma SetThenGet(entries: map<string, Stored>, prefix: string, query: string, data: string,
                   ttlSeconds: Option<int>, setAt: real, now: real, digest: string -> string)
    requires TtlFor(ttlSeconds) > 0 && now < setAt + TtlFor(ttlSeconds) as real
    requires data != ""
    ensures var key := CacheKey(prefix, query, digest);
      Reported(Lookup(entries[key := Stored(data, setAt + TtlFor(ttlSeconds) as real)], key, now)) == Some(data)
  {
  }
}
