/** The cache facade of cache/cache.go: a named wrapper that forwards Get, Put and
    Delete to a gocache store. The store is modelled as a map from keys to values
    with an optional expiry instant; its failures are parameters, and the clock
    is the parameter `now` (nanoseconds). */
module Cache {
  import opened Base
  import ConfigCache

  /** A stored value and the instant from which it no longer reads back. */
  datatype CacheEntry<V> = CacheEntry(value: V, expiresAt: Option<int>)

  /** Nanoseconds per second: Go's `time.Second`. */
  const Second := 1_000_000_000

  /** Which store backs the facade, with the parameters it was built from: a
      freecache buffer of the configured size in megabytes with a 10-second
      default expiration, or a Redis client. */
  datatype StoreKind =
    | Freecache(bufferBytes: int, defaultExpiration: int)
    | Redis(address: string, username: string, password: string, database: int)

  /** The value under `key` at `now`: a missing or expired key is a miss. */
  function Lookup<V>(entries: map<string, CacheEntry<V>>, key: string, now: int): Result<V>
  {
    if key in entries && (entries[key].expiresAt.None? || now < entries[key].expiresAt.value)
    then Ok(entries[key].value)
    else Err(NotFound)
  }

  /** The entries after storing `val` under `key` at `now` with expiration `d`;
      a duration that is not positive sets no expiry. */
  function Stored<V>(entries: map<string, CacheEntry<V>>, key: string, val: V, d: int, now: int): map<string, CacheEntry<V>>
  {
    entries[key := CacheEntry(val, if d > 0 then Some(now + d) else None)]
  }

  function Removed<V>(entries: map<string, CacheEntry<V>>, key: string): map<string, CacheEntry<V>>
  {
    entries - {key}
  }

  /** Get's value and error: a store failure replaces the lookup. */
  function GetOutcome<V>(entries: map<string, CacheEntry<V>>, key: string, now: int, fault: Option<Error>): (Option<V>, Option<Error>)
  {
    if fault.Some? then (None, fault)
    else match Lookup(entries, key, now)
      case Ok(v) => (Some(v), None)
      case Err(e) => (None, Some(e))
  }

  /** The name `NewCache` gives a cache of the configured type. */
  function CacheName(cacheType: int): string
  {
    if cacheType == 2 then "Redis" else "Freecache"
  }

  /** The store `NewCache` builds for a configuration. */
  function KindOf(config: ConfigCache.CacheConfig): StoreKind
  {
    if config.cacheType == 2 then Redis(config.address, config.username, config.password, config.database)
    else Freecache(config.size * 1024 * 1024, 10 * Second)
  }

  class CustomCache<V> {
    const kind: StoreKind
    const name: string
    var entries: map<string, CacheEntry<V>>

    constructor (kind: StoreKind, name: string)
      ensures this.kind == kind && this.name == name && entries == map[]
    {
      this.kind := kind;
      this.name := name;
      entries := map[];
    }

    /** The timestamp is `now` whether or not the lookup fails. */
    method Get(key: string, now: int, fault: Option<Error>) returns (value: Option<V>, at: int, err: Option<Error>)
      ensures (value, err) == GetOutcome(entries, key, now, fault)
      ensures at == now
    {
      at := now;
      if fault.Some? {
        return None, at, fault;
      }
      if key in entries && (entries[key].expiresAt.None? || now < entries[key].expiresAt.value) {
        value, err := Some(entries[key].value), None;
      } else {
        value, err := None, Some(NotFound);
      }
    }

    method Put(key: string, val: V, d: int, now: int, fault: Option<Error>) returns (err: Option<Error>)
      modifies this
      ensures err == fault
      ensures entries == if fault.Some? then old(entries) else Stored(old(entries), key, val, d, now)
    {
      err := fault;
      if fault.None? {
        entries := entries[key := CacheEntry(val, if d > 0 then Some(now + d) else None)];
      }
    }

    method Delete(key: string, fault: Option<Error>) returns (err: Option<Error>)
      modifies this
      ensures err == fault
      ensures entries == if fault.Some? then old(entries) else Removed(old(entries), key)
    {
      err := fault;
      if fault.None? {
        entries := entries - {key};
      }
    }

    /** The name the cache was built under. */
    function String(): (r: string)
      ensures r == name
    {
      name
    }
  }

  /** `NewCache`: Redis for type 2, freecache for type 1 and every other value. */
  method NewCache<V>(config: ConfigCache.CacheConfig) returns (c: CustomCache<V>)
    ensures fresh(c) && c.entries == map[]
    ensures c.name == CacheName(config.cacheType) && c.kind == KindOf(config)
    ensures c.String() == CacheName(config.cacheType)
  {
    if config.cacheType == 1 {
      c := new CustomCache(Freecache(config.size * 1024 * 1024, 10 * Second), "Freecache");
    } else if config.cacheType == 2 {
      c := new CustomCache(Redis(config.address, config.username, config.password, config.database), "Redis");
    } else {
      c := new CustomCache(Freecache(config.size * 1024 * 1024, 10 * Second), "Freecache");
    }
  }

  /** A cache is named "Redis" exactly for type 2 and is then backed by Redis;
      every other type gives a freecache named "Freecache". */
  lemma NameMatchesKind(config: ConfigCache.CacheConfig)
    ensures CacheName(config.cacheType) == "Redis" <==> config.cacheType == 2
    ensures CacheName(config.cacheType) == "Freecache" <==> config.cacheType != 2
    ensures KindOf(config).Redis? <==> config.cacheType == 2
    ensures KindOf(config).Freecache? ==> KindOf(config).bufferBytes == config.size * 1048576
  {
  }

  /** A value put under a key reads back before it expires, and reads as a miss
      from its expiry on; other keys are unaffected. */
  lemma PutThenGet<V>(entries: map<string, CacheEntry<V>>, key: string, val: V, d: int, now: int, later: int)
    ensures d <= 0 || later < now + d ==> GetOutcome(Stored(entries, key, val, d, now), key, later, None) == (Some(val), None)
    ensures d > 0 && later >= now + d ==> GetOutcome(Stored(entries, key, val, d, now), key, later, None) == (None, Some(NotFound))
    ensures forall k :: k != key ==> Lookup(Stored(entries, key, val, d, now), k, later) == Lookup(entries, k, later)
  {
  }

  /** A deleted key is a miss, and only that key changes. */
  lemma DeleteThenGet<V>(entries: map<string, CacheEntry<V>>, key: string, now: int)
    ensures GetOutcome(Removed(entries, key), key, now, None) == (None, Some(NotFound))
    ensures forall k :: k != key ==> Lookup(Removed(entries, key), k, now) == Lookup(entries, k, now)
  {
  }

  /** A failed store call is reported unchanged and yields no value. */
  lemma GetReportsFault<V>(entries: map<string, CacheEntry<V>>, key: string, now: int, e: Error)
    ensures GetOutcome(entries, key, now, Some(e)) == (None, Some(e))
  {
  }
}
