/** The browser's CacheStorage (`caches`) and Cache objects, as far as the worker uses them: caches are
    named, kept in creation order, and each maps the URL of a GET request to a stored response. */
module CacheStorage {
  import opened Http

  type Entries = map<Url, Response>

  predicate NoDuplicates<T(==)>(s: seq<T>) {
    forall i, j :: 0 <= i < j < |s| ==> s[i] != s[j]
  }

  /** The cache called `name` exists and holds an entry for `url`. */
  predicate Holds(stores: map<string, Entries>, name: string, url: Url) {
    name in stores && url in stores[name]
  }

  /** `CacheStorage.match`: the entry for `url` in the first cache, in creation order, that has one. */
  function MatchIn(names: seq<string>, stores: map<string, Entries>, url: Url): (r: Option<Response>)
    ensures r.None? <==> forall i :: 0 <= i < |names| ==> !Holds(stores, names[i], url)
    ensures r.Some? ==>
      exists i :: 0 <= i < |names| && Holds(stores, names[i], url) && stores[names[i]][url] == r.value
                  && forall j :: 0 <= j < i ==> !Holds(stores, names[j], url)
    decreases |names|
  {
    if names == [] then None
    else if Holds(stores, names[0], url) then Some(stores[names[0]][url])
    else
      var r := MatchIn(names[1..], stores, url);
      assert forall i :: 1 <= i < |names| ==> names[i] == names[1..][i - 1];
      r
  }

  /** `sub` can be obtained from `s` by dropping elements: its elements appear in `s` in the same order. */
  predicate IsSubsequence<T(==)>(sub: seq<T>, s: seq<T>)
    decreases |s|
  {
    if sub == [] then true
    else if s == [] then false
    else (sub[0] == s[0] && IsSubsequence(sub[1..], s[1..])) || IsSubsequence(sub, s[1..])
  }

  /** `names` with every occurrence of a member of `gone` removed, order kept. */
  function Retain(names: seq<string>, gone: set<string>): (r: seq<string>)
    ensures IsSubsequence(r, names)
    ensures forall n :: n in r <==> n in names && n !in gone
    ensures |r| <= |names|
    ensures NoDuplicates(names) ==> NoDuplicates(r)
  {
    if names == [] then []
    else if names[0] in gone then Retain(names[1..], gone)
    else
      var rest := Retain(names[1..], gone);
      assert NoDuplicates(names) ==> names[0] !in names[1..] && NoDuplicates(names[1..]);
      [names[0]] + rest
  }

  /** A response `cache.addAll` accepts: delivered, with an ok status (200 to 299) other than 206. */
  predicate Storable(o: Outcome) {
    o.Delivered? && 200 <= o.response.status <= 299 && o.response.status != 206
  }

  /** The entries after putting `fetched[k]` under `urls[k]`, one after another. */
  function PutEach(entries: Entries, urls: seq<Url>, fetched: seq<Outcome>): (r: Entries)
    requires |urls| == |fetched|
    requires forall k :: 0 <= k < |fetched| ==> fetched[k].Delivered?
    ensures r.Keys == entries.Keys + set u | u in urls
    ensures forall u :: u in entries && u !in urls ==> r[u] == entries[u]
    ensures NoDuplicates(urls) ==> forall k :: 0 <= k < |urls| ==> r[urls[k]] == fetched[k].response
    decreases |urls|
  {
    if urls == [] then entries
    else
      var r := PutEach(entries[urls[0] := fetched[0].response], urls[1..], fetched[1..]);
      assert forall k :: 1 <= k < |urls| ==> urls[k] == urls[1..][k - 1] && fetched[k] == fetched[1..][k - 1];
      r
  }

  /** The whole cache store: cache names in creation order, and the entries of each cache. */
  datatype Caches = Caches(names: seq<string>, stores: map<string, Entries>) {

    /** Every name is listed once, and the listed names are exactly the existing caches. */
    ghost predicate Valid() {
      NoDuplicates(names) && forall n :: n in names <==> n in stores
    }

    /** `caches.open(name)`: creates an empty cache at the end of the order when none has that name. */
    function Open(name: string): (c: Caches)
      ensures Valid() ==> c.Valid()
      ensures c.names == if name in stores then names else names + [name]
      ensures c.stores.Keys == stores.Keys + {name}
      ensures forall n :: n in stores ==> c.stores[n] == stores[n]
      ensures name !in stores ==> c.stores[name] == map[]
    {
      if name in stores then this else Caches(names + [name], stores[name := map[]])
    }

    /** `cache.put(request, response)` on the cache called `name`. A request whose verb is not GET makes `put` reject,
        and then nothing is stored. */
    function Put(name: string, req: Request, resp: Response): (c: Caches)
      requires name in stores
      ensures Valid() ==> c.Valid()
      ensures c.names == names && c.stores.Keys == stores.Keys
      ensures forall n :: n in stores && n != name ==> c.stores[n] == stores[n]
      ensures req.verb == "GET" ==> c.stores[name] == stores[name][req.url := resp]
      ensures req.verb != "GET" ==> c == this
    {
      if req.verb != "GET" then this
      else Caches(names, stores[name := stores[name][req.url := resp]])
    }

    /** `cache.addAll(urls)` on the cache called `name`, given the outcome of fetching each URL: every
        entry is stored when every fetch yields a storable response, and none otherwise. */
    function AddAll(name: string, urls: seq<Url>, fetched: seq<Outcome>): (c: Caches)
      requires name in stores && |urls| == |fetched|
      ensures Valid() ==> c.Valid()
      ensures c.names == names && c.stores.Keys == stores.Keys
      ensures forall n :: n in stores && n != name ==> c.stores[n] == stores[n]
      ensures (exists k :: 0 <= k < |fetched| && !Storable(fetched[k])) ==> c == this
      ensures c.stores[name].Keys <= stores[name].Keys + set u | u in urls
      ensures forall u :: u in stores[name] && u !in urls ==> u in c.stores[name] && c.stores[name][u] == stores[name][u]
      ensures (forall k :: 0 <= k < |fetched| ==> Storable(fetched[k])) && NoDuplicates(urls) ==>
        forall k :: 0 <= k < |urls| ==> urls[k] in c.stores[name] && c.stores[name][urls[k]] == fetched[k].response
    {
      if forall k :: 0 <= k < |fetched| ==> Storable(fetched[k])
      then Caches(names, stores[name := PutEach(stores[name], urls, fetched)])
      else this
    }

    /** `caches.delete(name)`: removes the cache called `name`, if there is one. */
    function Delete(name: string): (c: Caches)
      ensures Valid() ==> c.Valid()
      ensures IsSubsequence(c.names, names) && forall n :: n in c.names <==> n in names && n != name
      ensures c.stores.Keys == stores.Keys - {name}
      ensures forall n :: n in c.stores ==> c.stores[n] == stores[n]
    {
      Caches(Retain(names, {name}), stores - {name})
    }

    /** `caches.match(request)`: only GET requests are looked up, in every cache, first match wins. */
    function Match(req: Request): (r: Option<Response>)
      ensures r.Some? ==> req.verb == "GET" && exists n :: n in names && Holds(stores, n, req.url) && stores[n][req.url] == r.value
      ensures req.verb == "GET" && (exists n :: n in names && Holds(stores, n, req.url)) ==> r.Some?
    {
      if req.verb != "GET" then None else MatchIn(names, stores, req.url)
    }
  }
}
