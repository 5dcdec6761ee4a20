/** The in-process provider cache: entries with a deadline, dropped lazily by the read that finds them stale. */
module ProviderCache {
  import opened Wrappers

  datatype Entry<V> = Entry(value: V, expiresAt: int)

  /** What a read at `now` answers. */
  function Lookup<K, V>(entries: map<K, Entry<V>>, key: K, now: int): Option<V> {
    if key in entries && now < entries[key].expiresAt then Some(entries[key].value) else None
  }

  /** What a read at `now` leaves behind. */
  function AfterGet<K, V>(entries: map<K, Entry<V>>, key: K, now: int): map<K, Entry<V>> {
    if key in entries && entries[key].expiresAt <= now then entries - {key} else entries
  }

  function AfterSet<K, V>(entries: map<K, Entry<V>>, key: K, value: V, ttlSeconds: int, now: int): map<K, Entry<V>> {
    if ttlSeconds <= 0 then entries - {key} else entries[key := Entry(value, now + ttlSeconds * 1000)]
  }

  class InMemoryProviderCache<K(==), V> {
    var entries: map<K, Entry<V>>

    constructor ()
      ensures entries == map[]
    {
      entries := map[];
    }

    method Get(key: K, now: int) returns (r: Option<V>)
      modifies this
      ensures r == Lookup(old(entries), key, now)
      ensures entries == AfterGet(old(entries), key, now)
    {
      if key !in entries {
        return None;
      }
      if entries[key].expiresAt <= now {
        entries := entries - {key};
        return None;
      }
      r := Some(entries[key].value);
    }

    method Set(key: K, value: V, ttlSeconds: int, now: int)
      modifies this
      ensures entries == AfterSet(old(entries), key, value, ttlSeconds, now)
    {
      if ttlSeconds <= 0 {
        entries := entries - {key};
        return;
      }
      entries := entries[key := Entry(value, now + ttlSeconds * 1000)];
    }
  }

  /** A read answers a written value exactly until its deadline; other keys never notice the write. */
  lemma SetThenGet<K, V>(entries: map<K, Entry<V>>, key: K, value: V, ttlSeconds: int, now: int, other: K, later: int)
    ensures now <= later ==>
              (Lookup(AfterSet(entries, key, value, ttlSeconds, now), key, later) == Some(value)
               <==> later < now + ttlSeconds * 1000)
    ensures other != key ==>
              Lookup(AfterSet(entries, key, value, ttlSeconds, now), other, later) == Lookup(entries, other, later)
  {
  }

  /**
   * Dropping a stale entry at one read shows at a later read exactly when the clock has
   * been set back to before the deadline in between.
   */
  lemma LazyExpiryShowsIffClockWentBack<K, V>(entries: map<K, Entry<V>>, key: K, now: int, other: K, later: int)
    ensures Lookup(AfterGet(entries, key, now), other, later) != Lookup(entries, other, later)
       <==> other == key && key in entries && later < entries[key].expiresAt <= now
    ensures now <= later ==> Lookup(AfterGet(entries, key, now), other, later) == Lookup(entries, other, later)
  {
  }
}
