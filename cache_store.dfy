/** Laravel's cache as the services use it: `Cache::get` / `Cache::put` with a
    time-to-live in seconds and lazy expiry against an integer clock. */
module CacheStore {
  import opened Wrappers

  datatype Entry<V> = Entry(value: V, expiresAt: int)

  /** `Cache::get($key)`: the stored value while it has not expired, else null. */
  function Lookup<V>(store: map<string, Entry<V>>, key: string, now: int): (r: Option<V>)
  {
    if key in store && now < store[key].expiresAt then Some(store[key].value) else None
  }

  /** `Cache::put($key, $value, $ttl)`. */
  function Put<V>(store: map<string, Entry<V>>, key: string, value: V, ttl: nat, now: int): map<string, Entry<V>>
  {
    store[key := Entry(value, now + ttl)]
  }

  /** A stored value is read back unchanged for exactly `ttl` seconds, and
      storing under one key leaves every other key as it was. */
  lemma PutThenLookup<V>(store: map<string, Entry<V>>, key: string, value: V, ttl: nat, now: int, later: int, other: string)
    requires other != key
    ensures Lookup(Put(store, key, value, ttl, now), key, later) == (if later < now + ttl then Some(value) else None)
    ensures Lookup(Put(store, key, value, ttl, now), other, later) == Lookup(store, other, later)
  {
  }
}
