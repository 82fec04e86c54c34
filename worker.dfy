/** The offline-caching service worker of the sample PWA (`public/sw.js`): its constants, the
    cacheable-path test, the install, activate and fetch handlers as functions of the cache store, and a
    class whose methods run those handlers on the store in place. */
module Worker {
  import opened Http
  import opened CacheStorage

  /** The current cache generation; every other cache name is stale. */
  const CACHE_NAME: string := "sample-pwa-v4"

  /** The path under which the application is served. */
  const BASE_PATH: string := "/sample-pwa"

  /** The root document of the application. */
  function RootUrl(origin: string): Url {
    Url(origin, "/sample-pwa/", "")
  }

  /** The precache list, resolved against the worker's own origin: three variants of the root document
      (plain, opened as an installed app, opened from a QR code), the manifest and two icons. */
  function UrlsToCache(origin: string): (urls: seq<Url>)
    ensures |urls| == 6 && NoDuplicates(urls)
    ensures urls[0] == RootUrl(origin)
    ensures forall k :: 0 <= k < |urls| ==> urls[k].origin == origin && StartsWith(urls[k].pathname, BASE_PATH + "/")
  {
    var urls := [
      Url(origin, "/sample-pwa/", ""),
      Url(origin, "/sample-pwa/", "?source=installed"),
      Url(origin, "/sample-pwa/", "?source=qr"),
      Url(origin, "/sample-pwa/manifest.json", ""),
      Url(origin, "/sample-pwa/icons/icon-192.png", ""),
      Url(origin, "/sample-pwa/icons/icon-512.png", "")
    ];
    assert urls[1].search != urls[2].search by { assert urls[1].search[8] != urls[2].search[8]; }
    assert urls[4].pathname != urls[5].pathname by { assert urls[4].pathname[23] != urls[5].pathname[23]; }
    urls
  }

  /** `String.prototype.startsWith`. */
  predicate StartsWith(s: string, prefix: string) {
    |prefix| <= |s| && s[..|prefix|] == prefix
  }

  /** `String.prototype.endsWith`. */
  predicate EndsWith(s: string, suffix: string) {
    |suffix| <= |s| && s[|s| - |suffix|..] == suffix
  }

  /** Whether a response fetched on a cache miss may be stored: build output and icons under the base
      path, and any script, style sheet or web font wherever it lives. */
  predicate IsCacheablePath(pathname: string) {
    || StartsWith(pathname, BASE_PATH + "/_next/")
    || StartsWith(pathname, BASE_PATH + "/icons/")
    || EndsWith(pathname, ".js")
    || EndsWith(pathname, ".css")
    || EndsWith(pathname, ".woff2")
  }

  /** The `install` handler: open the current cache, then add every precache URL, all or nothing.
      `fetched[k]` is what the network yields for the k-th precache URL. */
  function Installed(c: Caches, origin: string, fetched: seq<Outcome>): (i: Caches)
    requires |fetched| == |UrlsToCache(origin)|
    ensures c.Valid() ==> i.Valid()
    ensures i.names == if CACHE_NAME in c.stores then c.names else c.names + [CACHE_NAME]
    ensures i.stores.Keys == c.stores.Keys + {CACHE_NAME}
    ensures forall n :: n in c.stores && n != CACHE_NAME ==> i.stores[n] == c.stores[n]
  {
    c.Open(CACHE_NAME).AddAll(CACHE_NAME, UrlsToCache(origin), fetched)
  }

  /** The caches the `activate` handler deletes: every existing one but the current generation. */
  function Stale(c: Caches): set<string> {
    StaleAmong(c.names)
  }

  /** The names in `names` that are not the current generation, gathered from the front. */
  function StaleAmong(names: seq<string>): (stale: set<string>)
    ensures forall n :: n in stale <==> n in names && n != CACHE_NAME
  {
    if names == [] then {}
    else
      var init, last := names[..|names| - 1], names[|names| - 1];
      assert names == init + [last];
      StaleAmong(init) + if last != CACHE_NAME then {last} else {}
  }

  /** The `activate` handler: the store after every stale cache is deleted. */
  function Activated(c: Caches): (a: Caches)
    ensures c.Valid() ==> a.Valid()
    ensures c.Valid() ==> forall n :: n in a.stores <==> n in c.stores && n == CACHE_NAME
    ensures forall n :: n in a.stores ==> n in c.stores && a.stores[n] == c.stores[n]
  {
    Caches(Retain(c.names, Stale(c)), c.stores - Stale(c))
  }

  /** What the worker does with an intercepted request. `NotIntercepted`: `respondWith` is never called
      and the browser handles the request itself. `NoResponse`: `respondWith` receives a promise that
      settles to nothing, which the page sees as a network error. */
  datatype FetchResult = NotIntercepted | Responded(response: Response) | NoResponse

  /** The result of one fetch event and the cache store once its background work has completed. */
  datatype Served = Served(result: FetchResult, after: Caches)

  /** The synthetic response for a failed non-navigation request. */
  const OFFLINE: Response := Response(503, "Offline")

  /** `caches.open(CACHE_NAME)` followed by `cache.put(request, response)`. */
  function StoreCurrent(c: Caches, req: Request, resp: Response): (s: Caches)
    ensures c.Valid() ==> s.Valid()
    ensures s.names == if CACHE_NAME in c.stores then c.names else c.names + [CACHE_NAME]
    ensures s.stores.Keys == c.stores.Keys + {CACHE_NAME}
    ensures forall n :: n in c.stores && n != CACHE_NAME ==> s.stores[n] == c.stores[n]
    ensures s.stores[CACHE_NAME] ==
      var current := if CACHE_NAME in c.stores then c.stores[CACHE_NAME] else map[];
      if req.verb == "GET" then current[req.url := resp] else current
  {
    c.Open(CACHE_NAME).Put(CACHE_NAME, req, resp)
  }

  /** The background refresh after a cache hit: a 200 response replaces the entry in the current cache;
      any other status, or a network failure, is swallowed. */
  function Revalidated(c: Caches, req: Request, net: Outcome): Caches {
    if net.Delivered? && net.response.status == 200 then StoreCurrent(c, req, net.response) else c
  }

  /** The answer when the network fails on a miss: the cached root document for a navigation (which may
      be missing), the synthetic 503 otherwise. */
  function OfflineFallback(c: Caches, origin: string, req: Request): FetchResult {
    if req.navigate then
      match c.Match(GetRequest(RootUrl(origin)))
      case Some(root) => Responded(root)
      case None => NoResponse
    else Responded(OFFLINE)
  }

  /** The `fetch` handler. `net` is the outcome of the one network fetch the event makes: the background
      refresh on a hit, the live fetch on a miss. */
  function Serve(c: Caches, origin: string, req: Request, net: Outcome): (s: Served)
    ensures (s.result == NotIntercepted) <==> req.url.origin != origin
    ensures req.url.origin == origin && !req.navigate ==> s.result.Responded?
    ensures c.Valid() ==> s.after.Valid()
    ensures s.after.names == c.names || (CACHE_NAME !in c.stores && s.after.names == c.names + [CACHE_NAME])
    ensures s.after.stores.Keys <= c.stores.Keys + {CACHE_NAME}
    ensures forall n :: n in c.stores && n != CACHE_NAME ==> n in s.after.stores && s.after.stores[n] == c.stores[n]
  {
    if req.url.origin != origin then Served(NotIntercepted, c)
    else
      match c.Match(req)
      case Some(cached) => Served(Responded(cached), Revalidated(c, req, net))
      case None =>
        match net
        case NetworkError => Served(OfflineFallback(c, origin, req), c)
        case Delivered(resp) =>
          if resp.status != 200 then Served(Responded(resp), c)
          else if IsCacheablePath(req.url.pathname) then Served(Responded(resp), StoreCurrent(c, req, resp))
          else Served(Responded(resp), c)
  }

  /** Retaining `s` without `gone`, then without `x`, is retaining it without `gone` and `x`. */
  lemma {:induction false} RetainTwice(s: seq<string>, gone: set<string>, x: string)
    ensures Retain(Retain(s, gone), {x}) == Retain(s, gone + {x})
    decreases |s|
  {
    if s != [] {
      RetainTwice(s[1..], gone, x);
    }
  }

  /** Deleting one more cache from a store whose caches in `gone` are already deleted. */
  lemma DeleteOneMore(names: seq<string>, stores: map<string, Entries>, gone: set<string>, x: string)
    ensures Caches(Retain(names, gone), stores - gone).Delete(x) == Caches(Retain(names, gone + {x}), stores - (gone + {x}))
  {
    RetainTwice(names, gone, x);
    assert (stores - gone) - {x} == stores - (gone + {x});
  }

  /** The store part-way through activation: the stale caches among the first `i` names are deleted. */
  function PartlyActivated(names: seq<string>, stores: map<string, Entries>, i: nat): Caches
    requires i <= |names|
  {
    var gone := StaleAmong(names[..i]);
    Caches(Retain(names, gone), stores - gone)
  }

  /** The stale names among one more listed name. */
  lemma StaleAmongNext(names: seq<string>, i: nat)
    requires i < |names|
    ensures StaleAmong(names[..i + 1]) == StaleAmong(names[..i]) + if names[i] != CACHE_NAME then {names[i]} else {}
  {
  }

  /** One step of activation: the next name is deleted unless it is the current generation. */
  lemma ActivationStep(names: seq<string>, stores: map<string, Entries>, i: nat)
    requires i < |names|
    ensures PartlyActivated(names, stores, i + 1)
         == if names[i] != CACHE_NAME then PartlyActivated(names, stores, i).Delete(names[i])
            else PartlyActivated(names, stores, i)
  {
    var gone, x := StaleAmong(names[..i]), names[i];
    var before, after := PartlyActivated(names, stores, i), PartlyActivated(names, stores, i + 1);
    StaleAmongNext(names, i);
    assert before == Caches(Retain(names, gone), stores - gone);
    if x != CACHE_NAME {
      assert after == Caches(Retain(names, gone + {x}), stores - (gone + {x}));
      DeleteOneMore(names, stores, gone, x);
    } else {
      assert StaleAmong(names[..i + 1]) == gone;
    }
  }

  /** Before the first step nothing is deleted; after the last one the store is activated. */
  lemma ActivationEnds(c: Caches)
    ensures PartlyActivated(c.names, c.stores, 0) == c
    ensures PartlyActivated(c.names, c.stores, |c.names|) == Activated(c)
  {
    assert StaleAmong(c.names[..0]) == {};
    RetainNothing(c.names);
    assert c.stores - {} == c.stores;
    assert c.names[..|c.names|] == c.names;
  }

  /** Retaining `s` without nothing gives `s` back. */
  lemma {:induction false} RetainNothing(s: seq<string>)
    ensures Retain(s, {}) == s
    decreases |s|
  {
    if s != [] {
      RetainNothing(s[1..]);
    }
  }

  /** The worker running in one origin, with the origin's cache store. */
  class ServiceWorker {
    const origin: string
    var caches: Caches

    ghost predicate Valid()
      reads this
    {
      caches.Valid()
    }

    constructor (origin: string, existing: Caches)
      requires existing.Valid()
      ensures Valid() && this.origin == origin && caches == existing
    {
      this.origin := origin;
      caches := existing;
    }

    /** The `install` event. `ok` tells whether the `waitUntil` promise fulfils. */
    method Install(fetched: seq<Outcome>) returns (ok: bool)
      requires Valid() && |fetched| == |UrlsToCache(origin)|
      modifies this
      ensures Valid()
      ensures ok <==> forall k :: 0 <= k < |fetched| ==> Storable(fetched[k])
      ensures caches == Installed(old(caches), origin, fetched)
    {
      caches := caches.Open(CACHE_NAME);
      ok := forall k :: 0 <= k < |fetched| ==> Storable(fetched[k]);
      caches := caches.AddAll(CACHE_NAME, UrlsToCache(origin), fetched);
    }

    /** The `activate` event: take the list of cache names, then delete each one that is not current. */
    method Activate()
      requires Valid()
      modifies this
      ensures Valid()
      ensures caches == Activated(old(caches))
    {
      var cacheNames := caches.names;
      ActivationEnds(caches);
      var i := 0;
      while i < |cacheNames|
        invariant i <= |cacheNames|
        invariant caches == PartlyActivated(cacheNames, old(caches.stores), i)
      {
        var name := cacheNames[i];
        ActivationStep(cacheNames, old(caches.stores), i);
        if name != CACHE_NAME {
          caches := caches.Delete(name);
        }
        i := i + 1;
      }
    }

    /** A `fetch` event for `req`, with `net` the outcome of its one network fetch. */
    method HandleFetch(req: Request, net: Outcome) returns (res: FetchResult)
      requires Valid()
      modifies this
      ensures Valid()
      ensures Served(res, caches) == Serve(old(caches), origin, req, net)
    {
      if req.url.origin != origin {
        return NotIntercepted;
      }
      var cached := caches.Match(req);
      if cached.Some? {
        res := Responded(cached.value);
        if net.Delivered? && net.response.status == 200 {
          caches := caches.Open(CACHE_NAME);
          caches := caches.Put(CACHE_NAME, req, net.response);
        }
        return;
      }
      match net {
        case NetworkError =>
          if req.navigate {
            var root := caches.Match(GetRequest(RootUrl(origin)));
            res := if root.Some? then Responded(root.value) else NoResponse;
          } else {
            res := Responded(OFFLINE);
          }
        case Delivered(resp) =>
          res := Responded(resp);
          if resp.status == 200 && IsCacheablePath(req.url.pathname) {
            caches := caches.Open(CACHE_NAME);
            caches := caches.Put(CACHE_NAME, req, resp);
          }
      }
    }
  }
}
