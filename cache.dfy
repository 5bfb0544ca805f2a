/** The in-process TTL cache of lib/cache.ts: a map from keys to values
    with an expiry instant in milliseconds. The clock (`Date.now()`) is a
    parameter `now` of the operations that read it. */
module Cache {
  import opened Wrappers

  /** A stored value and the instant (ms) after which it is stale. */
  datatype Entry<V> = Entry(value: V, expiresAt: real)

  type Store<V> = map<string, Entry<V>>

  // ---------------------------------------------------------------------------
  // The store as a value: what a read returns and what it leaves behind

  /** The value a read of `key` at `now` returns: nothing when the key is
      absent or its entry expired strictly before `now`. */
  function Lookup<V>(m: Store<V>, key: string, now: real): (r: Option<V>)
    ensures r.Some? <==> key in m && now <= m[key].expiresAt
    ensures r.Some? ==> r.value == m[key].value
  {
    if key !in m then None
    else if now > m[key].expiresAt then None
    else Some(m[key].value)
  }

  /** The store after a read of `key` at `now`: the read drops the key's
      entry when it has expired, and only that entry. */
  function AfterLookup<V>(m: Store<V>, key: string, now: real): (r: Store<V>)
    ensures r.Keys <= m.Keys
    ensures forall k :: k in r ==> r[k] == m[k]
    ensures key in r <==> key in m && now <= m[key].expiresAt
    ensures forall k :: k in m && k != key ==> k in r
  {
    if key in m && now > m[key].expiresAt then m - {key} else m
  }

  /** The instant an entry written at `now` with `ttlSeconds` expires. */
  function ExpiryOf(now: real, ttlSeconds: real): real
  {
    now + ttlSeconds * 1000.0
  }

  /** The store after a write: the key holds the new entry whatever it
      held before. */
  function Written<V>(m: Store<V>, key: string, value: V, ttlSeconds: real, now: real): (r: Store<V>)
    ensures r.Keys == m.Keys + {key}
    ensures r[key] == Entry(value, ExpiryOf(now, ttlSeconds))
    ensures forall k :: k in m && k != key ==> r[k] == m[k]
  {
    m[key := Entry(value, ExpiryOf(now, ttlSeconds))]
  }

  /** The store after a delete. */
  function Deleted<V>(m: Store<V>, key: string): (r: Store<V>)
    ensures key !in r
    ensures r.Keys == m.Keys - {key}
    ensures forall k :: k in r ==> r[k] == m[k]
  {
    m - {key}
  }

  // ---------------------------------------------------------------------------
  // Properties of the cache

  /** A value written with a non-negative TTL is read back at every
      instant from the write to its expiry, both included. */
  lemma WrittenIsReadBack<V>(m: Store<V>, key: string, value: V, ttlSeconds: real, now: real, later: real)
    requires ttlSeconds >= 0.0
    requires now <= later <= ExpiryOf(now, ttlSeconds)
    ensures Lookup(Written(m, key, value, ttlSeconds, now), key, later) == Some(value)
    ensures AfterLookup(Written(m, key, value, ttlSeconds, now), key, later) == Written(m, key, value, ttlSeconds, now)
  {
  }

  /** In particular, a write followed by a read at the same instant. */
  lemma WriteThenReadAtOnce<V>(m: Store<V>, key: string, value: V, ttlSeconds: real, now: real)
    requires ttlSeconds >= 0.0
    ensures Lookup(Written(m, key, value, ttlSeconds, now), key, now) == Some(value)
  {
    WrittenIsReadBack(m, key, value, ttlSeconds, now, now);
  }

  /** After its expiry a written value is gone, and the read that finds it
      stale leaves exactly the store from before the write, less the key. */
  lemma WrittenExpires<V>(m: Store<V>, key: string, value: V, ttlSeconds: real, now: real, later: real)
    requires later > ExpiryOf(now, ttlSeconds)
    ensures Lookup(Written(m, key, value, ttlSeconds, now), key, later) == None
    ensures AfterLookup(Written(m, key, value, ttlSeconds, now), key, later) == Deleted(m, key)
  {
    assert Written(m, key, value, ttlSeconds, now) - {key} == m - {key};
  }

  /** A write is invisible to reads of other keys. */
  lemma WriteLeavesOtherKeys<V>(m: Store<V>, key: string, value: V, ttlSeconds: real, now: real, other: string, t: real)
    requires other != key
    ensures Lookup(Written(m, key, value, ttlSeconds, now), other, t) == Lookup(m, other, t)
  {
  }

  /** A delete hides the key from every later read and does not touch the
      other keys; a second delete changes nothing. */
  lemma DeleteHidesKey<V>(m: Store<V>, key: string, other: string, t: real)
    ensures Lookup(Deleted(m, key), key, t) == None
    ensures other != key ==> Lookup(Deleted(m, key), other, t) == Lookup(m, other, t)
    ensures Deleted(Deleted(m, key), key) == Deleted(m, key)
  {
  }

  /** Reading twice at the same instant gives the same answer: the first
      read only removes what the second would not return anyway. */
  lemma LookupIsStable<V>(m: Store<V>, key: string, now: real)
    ensures Lookup(AfterLookup(m, key, now), key, now) == Lookup(m, key, now)
    ensures AfterLookup(AfterLookup(m, key, now), key, now) == AfterLookup(m, key, now)
  {
  }

  // ---------------------------------------------------------------------------
  // The module-level `mem` map and its three operations

  class MemoryCache<V> {
    var mem: Store<V>

    /** `const mem = new Map()`. */
    constructor()
      ensures mem == map[]
    {
      mem := map[];
    }

    /** `cacheGet`: a missing key gives nothing; an entry whose expiry is
        strictly before `now` is deleted and gives nothing; otherwise the
        stored value, with the map unchanged. */
    method Get(key: string, now: real) returns (r: Option<V>)
      modifies this
      ensures r == Lookup(old(mem), key, now)
      ensures mem == AfterLookup(old(mem), key, now)
    {
      if key !in mem {
        return None;
      }
      var entry := mem[key];
      if now > entry.expiresAt {
        mem := mem - {key};
        return None;
      }
      return Some(entry.value);
    }

    /** `cacheSet`: stores the value with expiry `now + ttlSeconds * 1000`. */
    method Set(key: string, value: V, ttlSeconds: real, now: real)
      modifies this
      ensures mem == Written(old(mem), key, value, ttlSeconds, now)
    {
      mem := mem[key := Entry(value, now + ttlSeconds * 1000.0)];
    }

    /** `cacheDel`. */
    method Del(key: string)
      modifies this
      ensures mem == Deleted(old(mem), key)
    {
      mem := mem - {key};
    }
  }
}
