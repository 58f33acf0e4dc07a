/**
 * The frontend's in-memory response cache: a map from string keys to data
 * with an expiry time. Entries are written with a time-to-live, read while
 * live, and dropped when a read finds them expired. The clock is a
 * parameter (`now`, in milliseconds).
 */
module ApiCache {
  import opened Wrappers

  /** The default time-to-live of an entry, in milliseconds. */
  const DefaultTtl: int := 120000

  /**
   * A cache key as callers pass it: a string, or any other value, which
   * the cache serialises with JSON.stringify (kept here as its text).
   */
  datatype Key = Text(s: string) | Structured(json: string)

  /** `makeKey`: strings are used as they are, other values serialised. */
  function MakeKey(key: Key): (k: string)
    ensures key.Text? ==> k == key.s
  {
    match key
    case Text(s) => s
    case Structured(json) => json
  }

  /** A string key and a value serialising to the same text share an entry. */
  lemma MakeKeyNotInjective(s: string)
    ensures MakeKey(Text(s)) == MakeKey(Structured(s))
  {
  }

  /** A cached value and the time after which it is stale. */
  datatype Entry<T> = Entry(data: T, expiry: int)

  /**
   * `entry.expiry && now > entry.expiry`: an entry is expired once the
   * clock is past its expiry; an expiry of 0 (falsy) never expires.
   */
  predicate Expired<T>(e: Entry<T>, now: int) {
    e.expiry != 0 && now > e.expiry
  }

  /** What `getCached` returns for key `k` at time `now`. */
  function Lookup<T>(entries: map<string, Entry<T>>, k: string, now: int): (r: Option<T>)
    ensures k !in entries ==> r == None
    ensures r.Some? ==> k in entries && r.value == entries[k].data
    ensures k in entries && now <= entries[k].expiry ==> r == Some(entries[k].data)
    ensures k in entries && Expired(entries[k], now) ==> r == None
  {
    if k in entries && !Expired(entries[k], now) then Some(entries[k].data) else None
  }

  /** The entries after `getCached(k)` at `now`: an expired entry for `k` is dropped. */
  function Purged<T>(entries: map<string, Entry<T>>, k: string, now: int): (r: map<string, Entry<T>>)
    ensures k in entries && Expired(entries[k], now) ==> r.Keys == entries.Keys - {k}
    ensures !(k in entries && Expired(entries[k], now)) ==> r == entries
    ensures forall k' :: k' in r ==> k' in entries && r[k'] == entries[k']
  {
    if k in entries && Expired(entries[k], now) then entries - {k} else entries
  }

  /**
   * The entries after `setCached(k, data, ttl)` at `now`: the entry for `k`
   * is replaced, with expiry `now + ttl`, and no other key changes.
   */
  function Stored<T>(entries: map<string, Entry<T>>, k: string, data: T, ttl: int, now: int): (r: map<string, Entry<T>>)
    ensures r.Keys == entries.Keys + {k}
    ensures r[k] == Entry(data, now + ttl)
    ensures forall k' :: k' in entries && k' != k ==> r[k'] == entries[k']
  {
    entries[k := Entry(data, now + ttl)]
  }

  /**
   * A value stored at `now` with a time-to-live `ttl` is served up to and
   * including the instant `now + ttl`, and not after it (unless its expiry
   * is 0, which never expires).
   */
  lemma StoredIsServedUntilExpiry<T>(entries: map<string, Entry<T>>, k: string, data: T, ttl: int, now: int, later: int)
    ensures later <= now + ttl ==> Lookup(Stored(entries, k, data, ttl, now), k, later) == Some(data)
    ensures later > now + ttl && now + ttl != 0 ==> Lookup(Stored(entries, k, data, ttl, now), k, later) == None
  {
  }

  /**
   * With the default time-to-live, a value written at a (positive) clock
   * reading `now` is served for exactly two minutes: through
   * `now + 120000` and not a millisecond later.
   */
  lemma DefaultTtlServesTwoMinutes<T>(entries: map<string, Entry<T>>, k: string, data: T, now: int, later: int)
    requires now > 0
    ensures Lookup(Stored(entries, k, data, DefaultTtl, now), k, later) == Some(data) <==> later <= now + 120000
  {
    StoredIsServedUntilExpiry(entries, k, data, DefaultTtl, now, later);
  }

  /** A read that misses leaves the key absent, so a second read misses too and changes nothing. */
  lemma MissIsStable<T>(entries: map<string, Entry<T>>, k: string, now: int, later: int)
    requires Lookup(entries, k, now) == None
    requires later >= now
    ensures k !in Purged(entries, k, now) || Expired(entries[k], later)
    ensures Lookup(Purged(entries, k, now), k, later) == None
  {
  }

  /** How the network answers a fetch: a parsed body, or a failed response with its text and status. */
  datatype Response<T> = Body(data: T) | Failed(text: string, status: nat)

  /** What `fetchWithCache` throws: the response text, or "Request failed: <status>" when it is empty. */
  datatype FetchError = ErrorText(text: string) | RequestFailed(status: nat)

  datatype Fetched<T> = Fetched(data: T) | Thrown(error: FetchError)

  /** The module-level cache. */
  class Cache<T> {
    var entries: map<string, Entry<T>>

    constructor()
      ensures entries == map[]
    {
      entries := map[];
    }

    /** `getCached`: the live value for the key, dropping an expired entry. */
    method Get(key: Key, now: int) returns (data: Option<T>)
      modifies this
      ensures data == Lookup(old(entries), MakeKey(key), now)
      ensures entries == Purged(old(entries), MakeKey(key), now)
    {
      var k := MakeKey(key);
      if k !in entries {
        return None;
      }
      var entry := entries[k];
      if entry.expiry != 0 && now > entry.expiry {
        entries := entries - {k};
        return None;
      }
      data := Some(entry.data);
    }

    /** `setCached`: stores the value with expiry `now + ttl`, two minutes unless a ttl is given. */
    method Set(key: Key, data: T, now: int, ttl: int := DefaultTtl)
      modifies this
      ensures entries == Stored(old(entries), MakeKey(key), data, ttl, now)
    {
      entries := entries[MakeKey(key) := Entry(data, now + ttl)];
    }

    /** `clearCached`: drops exactly the entry for the key. */
    method Clear(key: Key)
      modifies this
      ensures entries == old(entries) - {MakeKey(key)}
    {
      entries := entries - {MakeKey(key)};
    }

    /** `clearAllCached`: empties the cache. */
    method ClearAll()
      modifies this
      ensures entries == map[]
    {
      entries := map[];
    }

    /**
     * `fetchWithCache`: unless `skipCache`, a live entry is returned without
     * using the network's `response`; otherwise the response is used, and a
     * successful body is cached under the same key with the given ttl (two
     * minutes by default), at the time `fetchedAt` the body arrived. The
     * cache is consulted unless `skipCache` is passed as true.
     */
    method FetchWithCache(key: Key, response: Response<T>, now: int, fetchedAt: int,
                          ttl: int := DefaultTtl, skipCache: bool := false)
      returns (r: Fetched<T>)
      modifies this
      ensures var k := MakeKey(key);
        var read := if skipCache then old(entries) else Purged(old(entries), k, now);
        if !skipCache && Lookup(old(entries), k, now).Some? then
          r == Fetched(Lookup(old(entries), k, now).value) && entries == old(entries)
        else if response.Failed? then
          r == Thrown(if response.text != "" then ErrorText(response.text) else RequestFailed(response.status))
          && entries == read
        else
          r == Fetched(response.data) && entries == Stored(read, k, response.data, ttl, fetchedAt)
    {
      if !skipCache {
        var cached := Get(key, now);
        if cached.Some? {
          return Fetched(cached.value);
        }
      }
      match response {
        case Failed(text, status) =>
          return Thrown(if text != "" then ErrorText(text) else RequestFailed(status));
        case Body(data) =>
          Set(key, data, fetchedAt, ttl);
          return Fetched(data);
      }
    }
  }
}
