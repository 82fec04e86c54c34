# sample-pwa offline cache worker, modelled in Dafny

The sample PWA registers one service worker, `public/sw.js`. It keeps the site usable offline. At
install time it pre-fills a versioned cache, `sample-pwa-v4`, with six fixed URLs. At activation it
deletes every other cache. It then answers each same-origin request from the cache when it can, and
refreshes the cached copy in the background (stale-while-revalidate, without any `Cache-Control`
parsing). A miss goes to the network and stores successful static assets. A failed fetch on a miss
falls back to the cached root page for navigations, and to a synthetic `503 Offline` otherwise.

The model has four files:

- `http.dfy` (module `Http`): URLs (origin, path, query), requests (verb, URL, navigation flag),
  responses (status, body) and the outcome of a network fetch (`Delivered(response)` or
  `NetworkError`).
- `cache_storage.dfy` (module `CacheStorage`): the browser's `caches` object as a value `Caches`. It
  holds the cache names in creation order and, per cache, a map from request URL to response. It
  covers the operations the worker calls: `open`, `put`, `addAll`, `delete`, `keys` and `match`.
- `worker.dfy` (module `Worker`): the worker's constants and the cacheable-path test. It defines each
  handler as a function of the cache store: `Installed`, `Activated` and `Serve`. A class,
  `ServiceWorker`, holds the store in a mutable field. Its methods `Install`, `Activate` and
  `HandleFetch` update that field step by step, as the handlers do, and are proved equal to those
  functions.
- `worker_properties.dfy` (module `WorkerProperties`): the guarantees of the handlers, as lemmas.

Modelling choices:

- The network is an input. `Install` takes one outcome per precache URL. `HandleFetch` takes the
  outcome of the one fetch an event makes: the background refresh on a hit, the live fetch on a miss.
  The refresh is fire-and-forget in the source. Here it is applied after the cached response has been
  chosen, so the returned response is the one read before the refresh writes.
- Cache keys are URLs of GET requests, query string included. The Cache API never matches a non-GET
  request, and `cache.put` rejects one. That rejection goes unhandled in the source, so the model
  stores nothing. `caches.open(CACHE_NAME)` has already run by then, so the current cache may have
  been created.
- `caches.match` searches every cache in creation order, not only the current one. Before
  activation, an older generation can therefore still answer a hit. The lemma
  `StaleGenerationAnswersBeforeActivation` shows such a case.
- `cache.addAll` is all or nothing, as the Cache API defines it. Every URL must be fetched with a
  status from 200 to 299 other than 206; otherwise nothing is stored.

## Model

| member | source | states |
|---|---|---|
| CacheStorage.MatchIn | public/sw.js:45 | the lookup finds nothing exactly when no cache in the order holds the URL; otherwise it returns the entry of the first cache that holds it |
| CacheStorage.Caches.Match | public/sw.js:88 | a hit comes only from a GET request and is an entry some existing cache holds for that URL; a GET whose URL some cache holds always hits |
| CacheStorage.Caches.Open | public/sw.js:16 | opening creates an empty cache only when none has the name and then puts it last in the creation order; the existing order and every existing cache stay as they were, and the store stays well formed |
| CacheStorage.Caches.Put | public/sw.js:55 | a GET entry replaces that URL's entry in the named cache only; a non-GET put changes nothing |
| CacheStorage.PutEach | public/sw.js:17 | after the batch, each of the distinct URLs maps to its own response, and URLs outside the batch keep their entries |
| CacheStorage.Caches.AddAll | public/sw.js:17 | all or nothing: if any fetch is not storable the store is unchanged, else every URL holds its fetched response, no other URL is added and the cache's entries for other URLs are kept; other caches are untouched |
| CacheStorage.Storable | public/sw.js:17 | no contract: the rule `cache.addAll` applies to each fetched response (delivered, status 200 to 299, not 206); `Caches.AddAll` and `ServiceWorker.Install` state its effect |
| CacheStorage.Caches.Delete | public/sw.js:28 | deletion removes exactly the named cache; the remaining names keep their creation order (a subsequence of the old list) and their entries, and the store stays well formed |
| CacheStorage.Retain | public/sw.js:26-27 | the filtered name list is a subsequence of the original (order kept), holds exactly the names not removed, and still has no duplicates |
| Worker.UrlsToCache | public/sw.js:5-12 | six distinct URLs on the worker's own origin, all under the base path, the first being the root document |
| Worker.IsCacheablePath | public/sw.js:72-76 | no contract: the five-way test as written; `CacheablePathMeans`, `ExtensionRuleIgnoresBasePath`, `PrecachedPagesNotCacheable` and `PrecachedIconsCacheable` state what it accepts |
| Worker.Installed | public/sw.js:14-18 | the install handler creates the current cache if needed, last in the creation order and so behind every older generation, keeps the existing order, changes no other cache and keeps the store well formed; `InstallPrecaches` states what the current cache then holds |
| Worker.StaleAmong | public/sw.js:27 | the names to delete are exactly the listed names other than the current generation |
| Worker.Activated | public/sw.js:24-29 | after activation only the current generation can remain, with its entries unchanged, and the store stays well formed |
| Worker.ActivationStep | public/sw.js:26-28 | deleting the next listed name unless it is current carries the partly activated store one name further |
| Worker.ActivationEnds | public/sw.js:24-29 | before the loop nothing is deleted; after the last name the store equals the activated store |
| Worker.StoreCurrent | public/sw.js:54-55 | opening the current cache and putting the response, used for the background refresh here and for the miss-path write at public/sw.js:78-79: the current cache exists afterwards, a newly created one last in the creation order while the existing order is kept, its entry for a GET URL is the response and its other entries are kept, a non-GET adds nothing, and no other cache changes |
| Worker.Revalidated | public/sw.js:49-60 | no contract: the background refresh as written; `HitRevalidates` states that a 200 replaces the entry in the current cache and anything else leaves the store unchanged |
| Worker.OfflineFallback | public/sw.js:85-91 | no contract: the catch branch as written; `MissOfflineFallback` and `OfflineShellAfterInstall` state the navigation and 503 outcomes |
| Worker.Serve | public/sw.js:35-94 | the fetch handler: it intercepts exactly the same-origin requests, always gives a non-navigation same-origin request a response, writes to no cache but the current one (which it may create, last in the order, leaving the existing order as it was) and keeps the store well formed |
| Worker.ServiceWorker.Install | public/sw.js:14-20 | the install event opens the current cache, reports success exactly when every precache fetch is storable, and leaves the store as `Installed` describes |
| Worker.ServiceWorker.Activate | public/sw.js:22-33 | the activate event walks the name list and deletes each non-current cache; the store ends as `Activated` of the old store |
| Worker.ServiceWorker.HandleFetch | public/sw.js:35-94 | the fetch event's result and the store after its background work are those given by `Serve` |
| WorkerProperties.StartsWithMeans | public/sw.js:72-73 | `startsWith` holds exactly when the string is the prefix followed by some rest |
| WorkerProperties.EndsWithMeans | public/sw.js:74-76 | `endsWith` holds exactly when the string is some stem followed by the suffix |
| WorkerProperties.CacheablePathMeans | public/sw.js:72-76 | a path is cacheable iff it is under `/sample-pwa/_next/` or `/sample-pwa/icons/`, or ends in `.js`, `.css` or `.woff2` |
| WorkerProperties.ExtensionRuleIgnoresBasePath | public/sw.js:74-76 | any path ending in `.js`, `.css` or `.woff2` is cacheable, whatever its folder |
| WorkerProperties.PrecachedPagesNotCacheable | public/sw.js:6-9 | the root page variants and the manifest would not be stored by the miss path |
| WorkerProperties.PrecachedIconsCacheable | public/sw.js:10-11 | the two precached icons satisfy the cacheable-path test |
| WorkerProperties.InstallPrecaches | public/sw.js:14-18 | after install the current cache exists; on success it holds each of the six URLs with its fetched response, on failure its entries are as before; other caches are untouched |
| WorkerProperties.ActivationKeepsOnlyCurrent | public/sw.js:24-29 | the cache names after activation are the old names intersected with {`sample-pwa-v4`}, and the current cache keeps its entries |
| WorkerProperties.ActivationIdempotent | public/sw.js:24-29 | activating an activated store changes nothing |
| WorkerProperties.ActivatedLookupUsesCurrent | public/sw.js:45 | after activation a lookup answers exactly from the current cache's entry for a GET URL |
| WorkerProperties.CrossOriginNotIntercepted | public/sw.js:39-42 | a request to another origin gets no response from the worker and leaves the store unchanged |
| WorkerProperties.HitServesStoredEntry | public/sw.js:45-47 | on a hit the response is exactly the cached entry, which some existing cache holds for that GET URL |
| WorkerProperties.HitRevalidates | public/sw.js:49-60 | on a hit, a 200 refresh replaces that URL's entry in the current cache (appended to the name order if it did not exist) and nothing else; any other status or a network failure leaves the store unchanged |
| WorkerProperties.MissReturnsLiveResponse | public/sw.js:65-83 | on a miss the live response is returned unchanged; it is stored in the current cache iff status 200, cacheable path and GET, and then a later lookup returns it, the name order gains at most the current cache at its end, and every other entry of every cache is kept; a non-200 status or an uncacheable path leaves the store unchanged, and a non-GET 200 on a cacheable path only opens the current cache |
| WorkerProperties.MatchAfterStore | public/sw.js:77-80 | after a miss, the response written into the current cache is what every later lookup of that request returns |
| WorkerProperties.MissOfflineFallback | public/sw.js:85-91 | a network failure on a miss never escapes: a navigation gets the cached root or no response, anything else gets status 503 with body "Offline"; the store is unchanged |
| WorkerProperties.StoredAssetServedOffline | public/sw.js:72-80 | a cacheable asset fetched with 200 on a cold cache is served from the cache by a later request made offline |
| WorkerProperties.RefreshServedNextTime | public/sw.js:49-61 | once only the current generation exists, the next hit serves what a 200 background refresh stored |
| WorkerProperties.StaleGenerationAnswersBeforeActivation | public/sw.js:45 | with an older generation ahead in the cache order, a refresh updates the current cache, yet the next hit still serves the older entry |
| WorkerProperties.InstalledActivatedLookups | public/sw.js:5-29 | after a successful install and activation, the root document is found with its precached response, and a URL neither precached nor in the current cache before is found nowhere |
| WorkerProperties.OfflineShellAfterInstall | public/sw.js:85-89 | after a successful install and activation, an offline navigation to a page neither precached nor cached before gets the precached root document |

## Left out

- Promise scheduling, `event.waitUntil`, `event.respondWith` as a mechanism, `self.skipWaiting()` and
  `self.clients.claim()` (`public/sw.js:15`, `:19`, `:32`). Handlers run one at a time, each to
  completion, background refresh included.
- The lifecycle state machine (registering, installed, active). Any handler may run on any store;
  the browser alone decides when events fire.
- Races between handlers writing the same key, and ordering across concurrent events.
- `Response.clone()`, body streams and headers. A response is its status and body. `Vary` matching
  and the options of `match` (`ignoreSearch`, `ignoreMethod`) are not modelled.
- URL parsing (`new URL(request.url)`). Origin, path and query arrive as fields of the request.
- The null-response tests `response &&` at `public/sw.js:52` and `!response` at `public/sw.js:67`:
  `fetch` always resolves to a response or rejects, so the first always holds and the second never
  does.
- Failures of cache writes other than the non-GET rejection, such as a full quota. Writes always
  succeed in the model.
- The service worker's registration by the page, the React pages, the clock, the counter and the map
  component: they hold no cache state.
