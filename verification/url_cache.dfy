/** `UrlServiceCache`: service name to base URL, read through a Redis cache
    that is filled from the `service_urls` collection on a miss and keeps
    each URL for 24 hours. */
module UrlCache {
  import opened Common
  import opened Documents
  import KvCache

  /** Cached service URLs expire after 24 hours. */
  const EXPIRE: nat := 60 * 60 * 24

  /** The `service_urls` collection: service name to its document. */
  type Registry = map<string, Doc>

  /** The cache after a lookup, and the URL, or `None` when the lookup
      raised: no registry document (`TypeError`) or no string `url` in it
      (`KeyError`). */
  datatype Lookup = Lookup(cache: KvCache.Cache<string>, url: Option<string>)

  /** The URL the registry holds for a service, if it holds a string one. */
  function RegistryUrl(registry: Registry, key: string): Option<string> {
    if key in registry && "url" in registry[key] && registry[key]["url"].VStr? then
      Some(registry[key]["url"].s)
    else None
  }

  /** `UrlServiceCache.get`: a non-empty cached value is returned as it is;
      otherwise the registry is read and its URL cached for `EXPIRE`
      seconds. An empty cached string counts as a miss. */
  function Get(cache: KvCache.Cache<string>, registry: Registry, key: string, now: Time): (r: Lookup)
    ensures KvCache.Get(cache, key, now).Some? && KvCache.Get(cache, key, now).value != "" ==>
      r == Lookup(cache, KvCache.Get(cache, key, now))
    ensures (KvCache.Get(cache, key, now).None? || KvCache.Get(cache, key, now).value == "") ==>
      && r.url == RegistryUrl(registry, key)
      && (r.url.Some? ==> r.cache == KvCache.Set(cache, key, r.url.value, EXPIRE, now))
      && (r.url.None? ==> r.cache == cache)
    ensures r.url.None? ==> r.cache == cache
  {
    var cached := KvCache.Get(cache, key, now);
    if cached.Some? && cached.value != "" then Lookup(cache, cached)
    else
      match RegistryUrl(registry, key)
      case None => Lookup(cache, None)
      case Some(url) => Lookup(KvCache.Set(cache, key, url, EXPIRE, now), Some(url))
  }

  /** A URL fetched from the registry is served from the cache for the next
      24 hours, whatever the registry says by then, and the cache is not
      written again; an empty URL is never served from the cache. */
  lemma {:induction false} RepeatLookup(cache: KvCache.Cache<string>, registry: Registry, registry': Registry,
                                        key: string, now: Time, later: Time)
    requires KvCache.Get(cache, key, now).None?
    requires RegistryUrl(registry, key).Some?
    requires now <= later < now + EXPIRE
    ensures var first := Get(cache, registry, key, now);
      RegistryUrl(registry, key).value != "" ==>
        Get(first.cache, registry', key, later) == Lookup(first.cache, first.url)
    ensures var first := Get(cache, registry, key, now);
      RegistryUrl(registry, key).value == "" ==>
        Get(first.cache, registry', key, later).url == RegistryUrl(registry', key)
  {
    var first := Get(cache, registry, key, now);
    KvCache.GetAfterSet(cache, key, first.url.value, EXPIRE, now, later);
  }
}
