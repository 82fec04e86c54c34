/** Values exchanged between a page, the service worker, the network and the cache store. */
module Http {

  datatype Option<+T> = None | Some(value: T)

  /** A URL as the worker reads it: origin, path and query string. The fragment never reaches a cache
      key, so it is not represented. */
  datatype Url = Url(origin: string, pathname: string, search: string)

  /** An intercepted request; `verb` is its HTTP method. `navigate` is true exactly when the request mode is "navigate". */
  datatype Request = Request(verb: string, url: Url, navigate: bool)

  /** A response: its status code and its body. Headers play no part in the worker's decisions. */
  datatype Response = Response(status: int, body: string)

  /** What one call of `fetch` yields: a response of any status, or a network failure (a rejected promise). */
  datatype Outcome = Delivered(response: Response) | NetworkError

  /** The GET request the Cache API builds from a bare URL (`caches.match(url)`, `cache.addAll(urls)`). */
  function GetRequest(url: Url): Request {
    Request("GET", url, false)
  }
}
