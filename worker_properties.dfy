/** What the worker's handlers guarantee, stated over the handler functions of module Worker. */
module WorkerProperties {
  import opened Http
  import opened CacheStorage
  import opened Worker

  // ----- The cacheable-path test -----

  lemma StartsWithMeans(s: string, prefix: string)
    ensures StartsWith(s, prefix) <==> exists rest :: s == prefix + rest
  {
    if StartsWith(s, prefix) {
      assert s == prefix + s[|prefix|..];
    }
  }

  lemma EndsWithMeans(s: string, suffix: string)
    ensures EndsWith(s, suffix) <==> exists stem :: s == stem + suffix
  {
    if EndsWith(s, suffix) {
      assert s == s[..|s| - |suffix|] + suffix;
    }
    forall stem ensures EndsWith(stem + suffix, suffix) {
      assert (stem + suffix)[|stem|..] == suffix;
    }
  }

  /** A path is cacheable exactly when it lies under the build-output or icon folder of the base path,
      or names a script, style sheet or web font, under any folder. */
  lemma CacheablePathMeans(path: string)
    ensures IsCacheablePath(path) <==>
      || (exists rest :: path == "/sample-pwa/_next/" + rest)
      || (exists rest :: path == "/sample-pwa/icons/" + rest)
      || (exists stem :: path == stem + ".js")
      || (exists stem :: path == stem + ".css")
      || (exists stem :: path == stem + ".woff2")
  {
    StartsWithMeans(path, BASE_PATH + "/_next/");
    StartsWithMeans(path, BASE_PATH + "/icons/");
    EndsWithMeans(path, ".js");
    EndsWithMeans(path, ".css");
    EndsWithMeans(path, ".woff2");
    assert BASE_PATH + "/_next/" == "/sample-pwa/_next/";
    assert BASE_PATH + "/icons/" == "/sample-pwa/icons/";
  }

  /** The extension rule does not look at the base path: a script is cacheable wherever it lives. */
  lemma ExtensionRuleIgnoresBasePath(stem: string)
    ensures IsCacheablePath(stem + ".js") && IsCacheablePath(stem + ".css") && IsCacheablePath(stem + ".woff2")
  {
  }

  /** The precached pages and the manifest would not be stored if they were fetched on a miss. */
  lemma PrecachedPagesNotCacheable(origin: string)
    ensures forall k :: 0 <= k < 4 ==> !IsCacheablePath(UrlsToCache(origin)[k].pathname)
  {
    var urls := UrlsToCache(origin);
    forall k | 0 <= k < 4 ensures !IsCacheablePath(urls[k].pathname) {
      var p := urls[k].pathname;
      assert p == "/sample-pwa/" || p == "/sample-pwa/manifest.json";
      assert p[|p| - 1] == '/' || p[|p| - 1] == 'n';
      assert p == "/sample-pwa/manifest.json" ==> p[12] == 'm';
    }
  }

  /** The precached icons would be stored if they were fetched on a miss. */
  lemma PrecachedIconsCacheable(origin: string)
    ensures IsCacheablePath(UrlsToCache(origin)[4].pathname) && IsCacheablePath(UrlsToCache(origin)[5].pathname)
  {
    var urls := UrlsToCache(origin);
    assert urls[4].pathname[..18] == BASE_PATH + "/icons/";
    assert urls[5].pathname[..18] == BASE_PATH + "/icons/";
  }

  // ----- install -----

  /** A successful install leaves the current cache holding every precache URL with the response fetched
      for it; a failed one adds nothing, though the current cache has been created. Other caches are
      untouched either way. */
  lemma InstallPrecaches(c: Caches, origin: string, fetched: seq<Outcome>)
    requires c.Valid() && |fetched| == |UrlsToCache(origin)|
    ensures Installed(c, origin, fetched).Valid()
    ensures CACHE_NAME in Installed(c, origin, fetched).stores
    ensures forall n :: n in c.stores && n != CACHE_NAME ==> Installed(c, origin, fetched).stores[n] == c.stores[n]
    ensures (forall k :: 0 <= k < |fetched| ==> Storable(fetched[k])) ==>
      forall k :: 0 <= k < |fetched| ==>
        var i := Installed(c, origin, fetched);
        UrlsToCache(origin)[k] in i.stores[CACHE_NAME] && i.stores[CACHE_NAME][UrlsToCache(origin)[k]] == fetched[k].response
    ensures (exists k :: 0 <= k < |fetched| && !Storable(fetched[k])) ==>
      Installed(c, origin, fetched).stores[CACHE_NAME] == if CACHE_NAME in c.stores then c.stores[CACHE_NAME] else map[]
    ensures CACHE_NAME in c.stores ==>
      forall u :: u in c.stores[CACHE_NAME] && u !in UrlsToCache(origin) ==>
        var i := Installed(c, origin, fetched);
        u in i.stores[CACHE_NAME] && i.stores[CACHE_NAME][u] == c.stores[CACHE_NAME][u]
  {
  }

  // ----- activate -----

  /** Activation leaves only the current generation, with its entries as they were. */
  lemma ActivationKeepsOnlyCurrent(c: Caches)
    requires c.Valid()
    ensures Activated(c).stores.Keys == c.stores.Keys * {CACHE_NAME}
    ensures CACHE_NAME in c.stores ==> Activated(c).stores[CACHE_NAME] == c.stores[CACHE_NAME]
  {
  }

  /** Running activation a second time changes nothing. */
  lemma ActivationIdempotent(c: Caches)
    requires c.Valid()
    ensures Activated(Activated(c)) == Activated(c)
  {
  }

  /** Once activated, a lookup consults the current generation only. */
  lemma ActivatedLookupUsesCurrent(c: Caches, req: Request)
    requires c.Valid()
    ensures Activated(c).Match(req) ==
      if req.verb == "GET" && Holds(c.stores, CACHE_NAME, req.url) then Some(c.stores[CACHE_NAME][req.url]) else None
  {
  }

  // ----- fetch -----

  /** A request to another origin is not intercepted and leaves the caches alone. */
  lemma CrossOriginNotIntercepted(c: Caches, origin: string, req: Request, net: Outcome)
    requires req.url.origin != origin
    ensures Serve(c, origin, req, net) == Served(NotIntercepted, c)
  {
  }

  /** On a hit the response is the entry stored for the request, whatever the background refresh yields. */
  lemma HitServesStoredEntry(c: Caches, origin: string, req: Request, net: Outcome, cached: Response)
    requires req.url.origin == origin && c.Match(req) == Some(cached)
    ensures Serve(c, origin, req, net).result == Responded(cached)
    ensures req.verb == "GET" && exists n :: n in c.names && Holds(c.stores, n, req.url) && c.stores[n][req.url] == cached
  {
  }

  /** The background refresh on a hit: a 200 replaces the request's entry in the current cache and
      nothing else; any other status or a network failure leaves the caches as they were. */
  lemma HitRevalidates(c: Caches, origin: string, req: Request, net: Outcome)
    requires c.Valid() && req.url.origin == origin && c.Match(req).Some?
    ensures var after := Serve(c, origin, req, net).after;
      && after.Valid()
      && (net.Delivered? && net.response.status == 200 ==>
            && after.names == (if CACHE_NAME in c.stores then c.names else c.names + [CACHE_NAME])
            && after.stores.Keys == c.stores.Keys + {CACHE_NAME}
            && after.stores[CACHE_NAME] == (if CACHE_NAME in c.stores then c.stores[CACHE_NAME] else map[])[req.url := net.response]
            && forall n :: n in c.stores && n != CACHE_NAME ==> after.stores[n] == c.stores[n])
      && (!(net.Delivered? && net.response.status == 200) ==> after == c)
  {
  }

  /** On a miss the live response goes back unchanged. It is stored in the current cache exactly when it
      has status 200, its path is cacheable and the request is a GET, and a later lookup then finds it;
      every other entry of every cache is kept. A non-200 status or a path that is not cacheable leaves
      the store unchanged; a non-GET request with status 200 on a cacheable path only opens (and so may
      create) the current cache, since `put` then rejects. */
  lemma MissReturnsLiveResponse(c: Caches, origin: string, req: Request, resp: Response)
    requires c.Valid() && req.url.origin == origin && c.Match(req).None?
    ensures var s := Serve(c, origin, req, Delivered(resp));
      && s.result == Responded(resp)
      && s.after.Valid()
      && (Holds(s.after.stores, CACHE_NAME, req.url) <==>
            Holds(c.stores, CACHE_NAME, req.url) || (resp.status == 200 && IsCacheablePath(req.url.pathname) && req.verb == "GET"))
      && (resp.status == 200 && IsCacheablePath(req.url.pathname) && req.verb == "GET" ==> s.after.Match(req) == Some(resp))
      && (resp.status == 200 && IsCacheablePath(req.url.pathname) && req.verb == "GET" ==>
            && s.after.names == (if CACHE_NAME in c.stores then c.names else c.names + [CACHE_NAME])
            && s.after.stores.Keys == c.stores.Keys + {CACHE_NAME}
            && s.after.stores[CACHE_NAME] == (if CACHE_NAME in c.stores then c.stores[CACHE_NAME] else map[])[req.url := resp]
            && forall n :: n in c.stores && n != CACHE_NAME ==> s.after.stores[n] == c.stores[n])
      && (resp.status == 200 && IsCacheablePath(req.url.pathname) && req.verb != "GET" ==> s.after == c.Open(CACHE_NAME))
      && (resp.status != 200 || !IsCacheablePath(req.url.pathname) ==> s.after == c)
  {
  }

  /** After a miss, storing a response in the current cache makes it the one every later lookup finds. */
  lemma MatchAfterStore(c: Caches, req: Request, resp: Response)
    requires c.Valid() && c.Match(req).None? && req.verb == "GET"
    ensures StoreCurrent(c, req, resp).Match(req) == Some(resp)
  {
  }

  /** A network failure on a miss never escapes: a navigation gets the cached root document when there
      is one and no response otherwise, anything else gets the synthetic 503 "Offline"; the caches stay as
      they were. */
  lemma MissOfflineFallback(c: Caches, origin: string, req: Request)
    requires req.url.origin == origin && c.Match(req).None?
    ensures var s := Serve(c, origin, req, NetworkError);
      && s.after == c
      && (req.navigate ==> s.result == match c.Match(GetRequest(RootUrl(origin)))
                                       case Some(root) => Responded(root)
                                       case None => NoResponse)
      && (!req.navigate ==> s.result == Responded(Response(503, "Offline")))
  {
  }

  // ----- scenarios -----

  /** A cacheable asset fetched with status 200 on a cold cache is served from the cache when the
      network is down afterwards. */
  lemma StoredAssetServedOffline(c: Caches, origin: string, req: Request, resp: Response)
    requires c.Valid() && req.url.origin == origin && req.verb == "GET" && c.Match(req).None?
    requires resp.status == 200 && IsCacheablePath(req.url.pathname)
    ensures var first := Serve(c, origin, req, Delivered(resp));
      Serve(first.after, origin, req, NetworkError) == Served(Responded(resp), first.after)
  {
  }

  /** Once only the current generation is left, a 200 from the background refresh is what the next hit
      serves. */
  lemma RefreshServedNextTime(c: Caches, origin: string, req: Request, renewed: Response, later: Outcome)
    requires c.Valid() && forall n :: n in c.stores ==> n == CACHE_NAME
    requires req.url.origin == origin && c.Match(req).Some? && renewed.status == 200
    ensures var first := Serve(c, origin, req, Delivered(renewed));
      Serve(first.after, origin, req, later).result == Responded(renewed)
  {
  }

  /** Before activation a stale generation earlier in the order still answers: here the refresh writes
      the fresh copy into the current cache, yet the next hit serves the old generation's entry again. */
  lemma StaleGenerationAnswersBeforeActivation(origin: string, stale: Response, renewed: Response)
    requires stale != renewed && renewed.status == 200
    ensures var url := Url(origin, "/sample-pwa/app.js", "");
      var req := Request("GET", url, false);
      var c := Caches(["sample-pwa-v3", CACHE_NAME], map["sample-pwa-v3" := map[url := stale], CACHE_NAME := map[url := stale]]);
      var first := Serve(c, origin, req, Delivered(renewed));
      && first.after.stores[CACHE_NAME][url] == renewed
      && Serve(first.after, origin, req, NetworkError).result == Responded(stale)
  {
    var url := Url(origin, "/sample-pwa/app.js", "");
    var req := Request("GET", url, false);
    var c := Caches(["sample-pwa-v3", CACHE_NAME], map["sample-pwa-v3" := map[url := stale], CACHE_NAME := map[url := stale]]);
    assert "sample-pwa-v3" != CACHE_NAME by { assert "sample-pwa-v3"[12] != CACHE_NAME[12]; }
    assert c.Match(req) == Some(stale);
    var after := Serve(c, origin, req, Delivered(renewed)).after;
    assert after.names == c.names && after.stores["sample-pwa-v3"] == map[url := stale];
    assert after.Match(req) == Some(stale);
  }

  /** After a successful install and activation, the root document answers from the precache and a
      request whose URL was neither in the current cache before nor precached finds nothing. */
  lemma InstalledActivatedLookups(c: Caches, origin: string, fetched: seq<Outcome>, req: Request)
    requires c.Valid() && |fetched| == |UrlsToCache(origin)|
    requires forall k :: 0 <= k < |fetched| ==> Storable(fetched[k])
    requires req.url !in UrlsToCache(origin) && !Holds(c.stores, CACHE_NAME, req.url)
    ensures Activated(Installed(c, origin, fetched)).Match(GetRequest(RootUrl(origin))) == Some(fetched[0].response)
    ensures Activated(Installed(c, origin, fetched)).Match(req) == None
  {
    var i := Installed(c, origin, fetched);
    InstallPrecaches(c, origin, fetched);
    assert UrlsToCache(origin)[0] == RootUrl(origin);
    assert !Holds(i.stores, CACHE_NAME, req.url);
    ActivatedLookupUsesCurrent(i, req);
    ActivatedLookupUsesCurrent(i, GetRequest(RootUrl(origin)));
  }

  /** Installing, then activating, gives an offline navigation to any uncached page the precached root
      document. */
  lemma OfflineShellAfterInstall(c: Caches, origin: string, fetched: seq<Outcome>, req: Request)
    requires c.Valid() && |fetched| == |UrlsToCache(origin)|
    requires forall k :: 0 <= k < |fetched| ==> Storable(fetched[k])
    requires req.url.origin == origin && req.navigate
    requires req.url !in UrlsToCache(origin) && !Holds(c.stores, CACHE_NAME, req.url)
    ensures Serve(Activated(Installed(c, origin, fetched)), origin, req, NetworkError).result == Responded(fetched[0].response)
  {
    var a := Activated(Installed(c, origin, fetched));
    InstalledActivatedLookups(c, origin, fetched, req);
    MissOfflineFallback(a, origin, req);
  }
}
