/** A Redis key-value store with per-key expiry, on the abstract clock. Only
    the three commands the services issue are modelled: `GET`, `SET` with
    `EX`, and `DEL`. */
module KvCache {
  import opened Common

  datatype Entry<V> = Entry(value: V, expiresAt: Time)

  type Cache<V> = map<string, Entry<V>>

  /** `GET key`: the stored value while its time to live has not run out. */
  function Get<V>(c: Cache<V>, key: string, now: Time): Option<V> {
    if key in c && now < c[key].expiresAt then Some(c[key].value) else None
  }

  /** `SET key value EX ttl`. */
  function Set<V>(c: Cache<V>, key: string, value: V, ttl: nat, now: Time): Cache<V> {
    c[key := Entry(value, now + ttl)]
  }

  /** `DEL key`. */
  function Delete<V>(c: Cache<V>, key: string): Cache<V> {
    c - {key}
  }

  /** A value set with a time to live is read back until it expires and
      not after; no other key is affected. */
  lemma GetAfterSet<V>(c: Cache<V>, key: string, value: V, ttl: nat, now: Time, later: Time)
    ensures Get(Set(c, key, value, ttl, now), key, later) == (if later < now + ttl then Some(value) else None)
    ensures forall k :: k != key ==> Get(Set(c, key, value, ttl, now), k, later) == Get(c, k, later)
  {
  }

  /** A deleted key reads as absent; every other key reads as before. */
  lemma GetAfterDelete<V>(c: Cache<V>, key: string, now: Time)
    ensures Get(Delete(c, key), key, now).None?
    ensures forall k :: k != key ==> Get(Delete(c, key), k, now) == Get(c, k, now)
  {
  }
}
