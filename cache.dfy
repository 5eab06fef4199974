/**
 * The in-memory TTL cache of the serving layer (`_api_cache`, `cache_get`,
 * `cache_set` in src/api/main.py). Each key maps to a value and the clock
 * time at which it expires; the clock is a parameter.
 */
module ApiCache {
  import opened Wrappers

  type Entries<V> = map<string, (V, real)>

  /** What a read of `key` at time `now` returns. */
  function Lookup<V>(entries: Entries<V>, key: string, now: real): Option<V>
  {
    if key in entries && now < entries[key].1 then Some(entries[key].0) else None
  }

  /** The entries after a read of `key` at `now`: an expired entry for `key` is deleted. */
  function AfterRead<V>(entries: Entries<V>, key: string, now: real): Entries<V>
  {
    if key in entries && !(now < entries[key].1) then entries - {key} else entries
  }

  class TtlCache<V> {
    var entries: Entries<V>

    constructor ()
      ensures entries == map[]
    {
      entries := map[];
    }

    /** `cache_get`: the stored value while it is live; an expired entry is removed. */
    method Get(key: string, now: real) returns (r: Option<V>)
      modifies this
      ensures r == Lookup(old(entries), key, now)
      ensures entries == AfterRead(old(entries), key, now)
    {
      r := None;
      if key in entries {
        var (value, expireAt) := entries[key];
        if now < expireAt {
          return Some(value);
        }
        entries := entries - {key};
      }
    }

    /** `cache_set`: replace the entry for `key`; every other key is untouched. */
    method Set(key: string, value: V, ttl: int, now: real)
      modifies this
      ensures entries == old(entries)[key := (value, now + ttl as real)]
    {
      entries := entries[key := (value, now + ttl as real)];
    }
  }

  /** A value written at `now` with `ttl` is read back exactly until `now + ttl`. */
  lemma SetThenLookup<V>(entries: Entries<V>, key: string, value: V, ttl: int, now: real, t: real)
    ensures Lookup(entries[key := (value, now + ttl as real)], key, t)
         == (if t < now + ttl as real then Some(value) else None)
  {
  }

  /** Writing one key never changes what another key reads. */
  lemma SetOtherKey<V>(entries: Entries<V>, key: string, other: string, value: V, ttl: int, now: real, t: real)
    requires other != key
    ensures Lookup(entries[key := (value, now + ttl as real)], other, t) == Lookup(entries, other, t)
  {
  }

  /**
   * Deleting an expired entry on read is invisible: at that time or any
   * later one, every key reads as it did before.
   */
  lemma ReadEvictionInvisible<V>(entries: Entries<V>, key: string, now: real, k: string, t: real)
    requires now <= t
    ensures Lookup(AfterRead(entries, key, now), k, t) == Lookup(entries, k, t)
  {
  }

  /** A read removes at most the key it reads, and only when that entry has expired. */
  lemma ReadRemovesOnlyExpired<V>(entries: Entries<V>, key: string, now: real)
    ensures AfterRead(entries, key, now).Keys <= entries.Keys
    ensures entries.Keys - AfterRead(entries, key, now).Keys <= {key}
    ensures key !in AfterRead(entries, key, now) ==> Lookup(entries, key, now).None?
  {
  }
}
