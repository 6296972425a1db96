/** Everything an OrderService handler reads or changes: the order
    repository, the service-URL cache with the registry behind it, and the
    requests sent so far. */
module OrderWorld {
  import opened Common
  import opened OrderRepository
  import UrlCache
  import KvCache
  import opened Http

  datatype World = World(
    repo: Repo,
    urls: KvCache.Cache<string>,
    registry: UrlCache.Registry,
    sent: seq<Call>)

  datatype Resolved = Resolved(world: World, root: Option<string>)

  /** `await cache.get(service)`: the service's base URL, or `None` when the
      lookup raises; the URL cache is filled on a miss. */
  function Resolve(w: World, service: string, now: Time): (r: Resolved)
    ensures r.world == w.(urls := r.world.urls)
    ensures r.world.sent == w.sent && r.world.repo == w.repo
    ensures r.root.None? ==> r.world == w
  {
    var look := UrlCache.Get(w.urls, w.registry, service, now);
    Resolved(w.(urls := look.cache), look.url)
  }

  function Send(w: World, call: Call): (r: World)
    ensures r.sent == w.sent + [call] && r == w.(sent := r.sent)
  {
    w.(sent := w.sent + [call])
  }

  /** Looking one service up leaves every other service's lookup as it was:
      only the looked-up key is written to the URL cache. */
  lemma ResolveOther(w: World, a: string, b: string, now: Time)
    requires a != b
    ensures Resolve(Resolve(w, a, now).world, b, now).root == Resolve(w, b, now).root
  {
    var look := UrlCache.Get(w.urls, w.registry, a, now);
    if look.cache != w.urls {
      KvCache.GetAfterSet(w.urls, a, look.url.value, UrlCache.EXPIRE, now, now);
    }
  }
}
