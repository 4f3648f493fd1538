/** The offline cache policy of the site's service worker (sw.js): the
    install, activate and fetch handlers over the browser's cache storage.

    Cache storage is an ordered map from store names to stores (section 5.5 of
    the W3C Service Workers specification); a store maps request URLs to
    responses. The value-level `Storage` and the functions over it specify the
    handlers; `CacheStorage` is the mutable object the handlers act on. The
    network and the success of store writes are inputs of each handler. */
module ServiceWorker {
  import opened Wrappers
  import opened Strings
  import Seqs

  /** The one store name this version of the worker keeps. */
  const CacheName: string := "bh-portfolio-v1"

  datatype Url = Url(origin: string, pathname: string, search: string)

  /** `Request.mode`; only `Navigate` matters to the policy. */
  datatype Mode = Navigate | SameOrigin | NoCors | Cors

  datatype Request = Request(httpMethod: string, mode: Mode, url: Url)

  datatype Response = Response(status: int, body: string)

  /** The eight URLs seeded at install time, resolved against the worker's
      origin. */
  function SeedUrls(origin: string): seq<Url>
  {
    [ Url(origin, "/", ""),
      Url(origin, "/index.html", ""),
      Url(origin, "/assets/css/styles.css", ""),
      Url(origin, "/assets/js/main.js", ""),
      Url(origin, "/manifest.webmanifest", ""),
      Url(origin, "/assets/icons/icon-192.svg", ""),
      Url(origin, "/assets/icons/icon-512.svg", ""),
      Url(origin, "/blog.html", "") ]
  }

  /** The offline fallback for navigations. */
  function IndexUrl(origin: string): Url
  {
    Url(origin, "/index.html", "")
  }

  // ---------------------------------------------------------------------
  // Cache storage as a value
  // ---------------------------------------------------------------------

  type Store = map<Url, Response>

  /** Store names in creation order, and the store under each name. */
  datatype Storage = Storage(names: seq<string>, stores: map<string, Store>)

  predicate Distinct(names: seq<string>)
  {
    forall i, j :: 0 <= i < j < |names| ==> names[i] != names[j]
  }

  /** The names are listed once each and are exactly the stores' names. */
  ghost predicate WellFormed(s: Storage)
  {
    && Distinct(s.names)
    && (forall n :: n in s.stores <==> n in s.names)
  }

  /** `caches.match(key)` over the given names in order: the response under
      `key` in the first store that holds one. */
  function FirstMatch(names: seq<string>, stores: map<string, Store>, key: Url): (r: Option<Response>)
    requires forall n :: n in names ==> n in stores
    ensures r.Some? <==> exists i :: 0 <= i < |names| && key in stores[names[i]]
    ensures r.Some? ==> exists i :: 0 <= i < |names| && key in stores[names[i]]
                                    && stores[names[i]][key] == r.value
                                    && forall j :: 0 <= j < i ==> key !in stores[names[j]]
  {
    if names == [] then None
    else if key in stores[names[0]] then Some(stores[names[0]][key])
    else
      var tail := names[1..];
      var r := FirstMatch(tail, stores, key);
      assert forall i :: 0 < i < |names| ==> names[i] == tail[i - 1];
      assert r.Some? ==> exists i :: 0 <= i < |names| && key in stores[names[i]]
                                     && stores[names[i]][key] == r.value
                                     && forall j :: 0 <= j < i ==> key !in stores[names[j]] by {
        if r.Some? {
          var i :| 0 <= i < |tail| && key in stores[tail[i]] && stores[tail[i]][key] == r.value
                   && forall j :: 0 <= j < i ==> key !in stores[tail[j]];
          assert names[i + 1] == tail[i];
        }
      }
      r
  }

  /** `caches.match(key)`: the stores are searched in creation order. */
  function MatchAll(s: Storage, key: Url): (r: Option<Response>)
    requires WellFormed(s)
    ensures r.Some? <==> exists n :: n in s.stores && key in s.stores[n]
  {
    var r := FirstMatch(s.names, s.stores, key);
    assert r.Some? ==> exists i :: 0 <= i < |s.names| && key in s.stores[s.names[i]];
    assert (exists n :: n in s.stores && key in s.stores[n]) ==>
             exists i :: 0 <= i < |s.names| && key in s.stores[s.names[i]] by {
      if n :| n in s.stores && key in s.stores[n] {
        var i :| 0 <= i < |s.names| && s.names[i] == n;
      }
    }
    r
  }

  /** `caches.open(name)`: the named store, created empty and listed last
      when it does not exist yet. */
  function Opened(s: Storage, name: string): (r: Storage)
    requires WellFormed(s)
    ensures WellFormed(r) && name in r.stores
    ensures name in s.stores ==> r == s
    ensures name !in s.stores ==> r.names == s.names + [name] && r.stores == s.stores[name := map[]]
  {
    if name in s.stores then s
    else
      var r := Storage(s.names + [name], s.stores[name := map[]]);
      assert forall n :: n in r.names <==> n in s.names || n == name;
      r
  }

  /** `cache.put(key, response)` on the named store, which is opened first:
      the entry under `key` is replaced and nothing else changes. */
  function WithEntry(s: Storage, name: string, key: Url, response: Response): (r: Storage)
    requires WellFormed(s)
    ensures WellFormed(r) && r.names == Opened(s, name).names
    ensures name in r.stores && r.stores[name] == Opened(s, name).stores[name][key := response]
    ensures forall n :: n in s.stores && n != name ==> n in r.stores && r.stores[n] == s.stores[n]
  {
    var o := Opened(s, name);
    Storage(o.names, o.stores[name := o.stores[name][key := response]])
  }

  /** `names` without `name`, in the same order. */
  function RemoveName(names: seq<string>, name: string): (r: seq<string>)
    requires Distinct(names)
    ensures Distinct(r)
    ensures forall n :: n in r <==> n in names && n != name
    ensures Seqs.IsSublist(r, names)
  {
    if names == [] then []
    else
      var rest := RemoveName(names[1..], name);
      assert forall n :: n in names <==> n == names[0] || n in names[1..];
      assert names[0] !in names[1..] by {
        forall j | 0 <= j < |names[1..]| ensures names[1..][j] != names[0] {
          assert names[1..][j] == names[j + 1];
        }
      }
      if names[0] == name then rest
      else
        var r := [names[0]] + rest;
        assert forall j :: 0 < j < |r| ==> r[j] == rest[j - 1] && r[j] in rest;
        r
  }

  /** `caches.delete(name)`. */
  function Without(s: Storage, name: string): (r: Storage)
    requires WellFormed(s)
    ensures WellFormed(r) && r.stores == s.stores - {name}
  {
    Storage(RemoveName(s.names, name), s.stores - {name})
  }

  // ---------------------------------------------------------------------
  // The lifecycle handlers, specified on values
  // ---------------------------------------------------------------------

  /** `Cache.addAll` stores nothing unless every URL was fetched with an ok
      status (200 to 299) other than 206. */
  predicate AllFetched(urls: seq<Url>, network: map<Url, Response>)
  {
    forall i :: 0 <= i < |urls| ==>
      urls[i] in network && 200 <= network[urls[i]].status <= 299 && network[urls[i]].status != 206
  }

  /** The store after putting the fetched response of every URL into it. */
  function PutAll(store: Store, urls: seq<Url>, network: map<Url, Response>): (r: Store)
    requires forall i :: 0 <= i < |urls| ==> urls[i] in network
    ensures forall u :: u in r <==> u in store || u in urls
    ensures forall u :: u in urls ==> r[u] == network[u]
    ensures forall u :: u in store && u !in urls ==> r[u] == store[u]
    decreases |urls|
  {
    if urls == [] then store
    else
      assert forall u :: u in urls <==> u == urls[0] || u in urls[1..];
      PutAll(store[urls[0] := network[urls[0]]], urls[1..], network)
  }

  /** The install handler: open the current store, then seed it with every
      seed URL or with none; a failed seeding is swallowed. `openSucceeds` says
      whether `caches.open` succeeds: a rejected open fails the install and
      creates no store. `network` holds the response each reachable URL
      would give. */
  function Install(s: Storage, origin: string, network: map<Url, Response>, openSucceeds: bool): (r: Storage)
    requires WellFormed(s)
    ensures WellFormed(r)
    ensures CacheName in r.stores <==> openSucceeds || CacheName in s.stores
    ensures !openSucceeds ==> r == s
  {
    if !openSucceeds then s
    else
      var o := Opened(s, CacheName);
      var seeds := SeedUrls(origin);
      if AllFetched(seeds, network) then
        Storage(o.names, o.stores[CacheName := PutAll(o.stores[CacheName], seeds, network)])
      else o
  }

  /** The activate handler: every store but the current one is deleted. */
  function Activate(s: Storage): (r: Storage)
    requires WellFormed(s)
    ensures WellFormed(r)
  {
    if CacheName in s.stores then Storage([CacheName], map[CacheName := s.stores[CacheName]])
    else Storage([], map[])
  }

  // ---------------------------------------------------------------------
  // The fetch handler, specified on values
  // ---------------------------------------------------------------------

  /** How a write-back into the current store turns out: `caches.open`
      rejects, `cache.put` rejects, or the put succeeds. */
  datatype StoreWrite = OpenFails | PutFails | PutSucceeds

  /** What the handler asks of the network and of cache storage. */
  datatype Effect = NetworkFetch | CacheLookup(key: Url) | CacheWrite(key: Url)

  /** What the page gets: the browser's default handling, a response, an
      `undefined` response (a failed navigation), or a rejection. */
  datatype Answer = NotIntercepted | Respond(response: Response) | RespondUndefined | Reject

  datatype FetchResult = FetchResult(storage: Storage, answer: Answer, effects: seq<Effect>)

  /** The request classes of the fetch handler, in the order it tests them. */
  datatype Route = PassThrough | NetworkFirst | CacheFirst | Ignored

  predicate IsStaticAsset(pathname: string)
  {
    StartsWith(pathname, "/assets/") || EndsWith(pathname, ".webmanifest")
  }

  function Classify(req: Request): Route
  {
    if req.httpMethod != "GET" then PassThrough
    else if req.mode == Navigate then NetworkFirst
    else if IsStaticAsset(req.url.pathname) then CacheFirst
    else Ignored
  }

  /** The best-effort copy of a network response into the current store; a
      rejected `cache.put` (a 206 response always is) leaves the store as
      `caches.open` left it. */
  function WrittenBack(s: Storage, key: Url, response: Response, write: StoreWrite): (r: Storage)
    requires WellFormed(s)
    ensures WellFormed(r)
  {
    match write
    case OpenFails => s
    case PutFails => Opened(s, CacheName)
    case PutSucceeds =>
      if response.status == 206 then Opened(s, CacheName) else WithEntry(s, CacheName, key, response)
  }

  /** The fetch handler. `network` is what `fetch(req)` would settle to
      (`None` for a rejection); it is consulted only when the handler fetches. */
  function Fetch(s: Storage, origin: string, req: Request, network: Option<Response>, write: StoreWrite): (r: FetchResult)
    requires WellFormed(s)
    ensures WellFormed(r.storage)
  {
    var key := req.url;
    match Classify(req)
    case PassThrough => FetchResult(s, NotIntercepted, [])
    case Ignored => FetchResult(s, NotIntercepted, [])
    case NetworkFirst =>
      if network.Some? then
        FetchResult(WrittenBack(s, key, network.value, write), Respond(network.value),
                    [NetworkFetch, CacheWrite(key)])
      else if MatchAll(s, key).Some? then
        FetchResult(s, Respond(MatchAll(s, key).value), [NetworkFetch, CacheLookup(key)])
      else
        var index := IndexUrl(origin);
        var fallback := MatchAll(s, index);
        FetchResult(s, if fallback.Some? then Respond(fallback.value) else RespondUndefined,
                    [NetworkFetch, CacheLookup(key), CacheLookup(index)])
    case CacheFirst =>
      if MatchAll(s, key).Some? then
        FetchResult(s, Respond(MatchAll(s, key).value), [CacheLookup(key)])
      else if network.Some? then
        FetchResult(WrittenBack(s, key, network.value, write), Respond(network.value),
                    [CacheLookup(key), NetworkFetch, CacheWrite(key)])
      else
        FetchResult(s, Reject, [CacheLookup(key), NetworkFetch])
  }

  // ---------------------------------------------------------------------
  // Properties of the policy
  // ---------------------------------------------------------------------

  /** A request whose method is not GET is left to the browser: no answer,
      no network fetch, no store read or write. */
  lemma NonGetUntouched(s: Storage, origin: string, req: Request, network: Option<Response>, write: StoreWrite)
    requires WellFormed(s) && req.httpMethod != "GET"
    ensures Fetch(s, origin, req, network, write) == FetchResult(s, NotIntercepted, [])
  {
  }

  /** A GET navigation is network-first even when its path is an asset path:
      its first effect is the network fetch and it is always answered. */
  lemma NavigationBeforeAssetRule(s: Storage, origin: string, req: Request, network: Option<Response>, write: StoreWrite)
    requires WellFormed(s) && req.httpMethod == "GET" && req.mode == Navigate
    ensures var r := Fetch(s, origin, req, network, write);
      && r.effects != [] && r.effects[0] == NetworkFetch
      && r.answer != NotIntercepted && r.answer != Reject
  {
  }

  /** The page's answer and the handler's requests do not depend on whether
      the best-effort write-back succeeds. */
  lemma AnswerIgnoresWrite(s: Storage, origin: string, req: Request, network: Option<Response>, w1: StoreWrite, w2: StoreWrite)
    requires WellFormed(s)
    ensures Fetch(s, origin, req, network, w1).answer == Fetch(s, origin, req, network, w2).answer
    ensures Fetch(s, origin, req, network, w1).effects == Fetch(s, origin, req, network, w2).effects
  {
  }

  /** An online navigation is answered with exactly the network response; a
      successful put leaves a copy under the request in the current store,
      where `caches.match` then finds it; a failed one changes no entry. */
  lemma NavigationOnline(s: Storage, origin: string, req: Request, response: Response, write: StoreWrite)
    requires WellFormed(s) && req.httpMethod == "GET" && req.mode == Navigate
    ensures var r := Fetch(s, origin, req, Some(response), write);
      && r.answer == Respond(response)
      && (forall n :: n in s.stores ==> n in r.storage.stores)
      && (forall n :: n in s.stores && n != CacheName ==> r.storage.stores[n] == s.stores[n])
      && (write == PutSucceeds && response.status != 206 ==>
            && r.storage.stores[CacheName][req.url] == response
            && (CacheName in s.stores ==>
                  forall u :: u in s.stores[CacheName] && u != req.url ==>
                    u in r.storage.stores[CacheName]
                    && r.storage.stores[CacheName][u] == s.stores[CacheName][u])
            && (forall u :: u in r.storage.stores[CacheName] ==>
                  u == req.url || (CacheName in s.stores && u in s.stores[CacheName])))
      && (write != PutSucceeds || response.status == 206 ==>
            forall n :: n in s.stores ==> r.storage.stores[n] == s.stores[n])
  {
  }

  /** An offline navigation is answered with the cached entry for the
      request, else the cached `/index.html`, else `undefined`; cache storage
      is not changed. */
  lemma NavigationOffline(s: Storage, origin: string, req: Request, write: StoreWrite)
    requires WellFormed(s) && req.httpMethod == "GET" && req.mode == Navigate
    ensures var r := Fetch(s, origin, req, None, write);
      var own := MatchAll(s, req.url);
      var index := MatchAll(s, IndexUrl(origin));
      && r.storage == s
      && (own.Some? ==> r.answer == Respond(own.value))
      && (own.None? && index.Some? ==> r.answer == Respond(index.value))
      && (own.None? && index.None? ==> r.answer == RespondUndefined)
  {
  }

  /** A cached static asset is answered from the cache, unchanged, without
      any network fetch. */
  lemma StaticAssetHit(s: Storage, origin: string, req: Request, network: Option<Response>, write: StoreWrite, cached: Response)
    requires WellFormed(s) && req.httpMethod == "GET" && req.mode != Navigate
    requires IsStaticAsset(req.url.pathname) && MatchAll(s, req.url) == Some(cached)
    ensures Fetch(s, origin, req, network, write) == FetchResult(s, Respond(cached), [CacheLookup(req.url)])
  {
  }

  /** In cache storage where no store holds `key`, putting it into the
      current store makes `caches.match` find exactly that response. */
  lemma MatchAfterPut(s: Storage, key: Url, response: Response)
    requires WellFormed(s) && MatchAll(s, key).None?
    ensures MatchAll(WithEntry(s, CacheName, key, response), key) == Some(response)
  {
    var r := WithEntry(s, CacheName, key, response);
    var m := MatchAll(r, key);
    assert key in r.stores[CacheName];
    assert m.Some?;
    var i :| 0 <= i < |r.names| && key in r.stores[r.names[i]] && r.stores[r.names[i]][key] == m.value;
  }

  /** An uncached static asset is fetched and the network response returned;
      a successful put makes the next `caches.match` return it. Offline, the
      rejection reaches the page and storage is unchanged. */
  lemma StaticAssetMiss(s: Storage, origin: string, req: Request, network: Option<Response>, write: StoreWrite)
    requires WellFormed(s) && req.httpMethod == "GET" && req.mode != Navigate
    requires IsStaticAsset(req.url.pathname) && MatchAll(s, req.url).None?
    ensures var r := Fetch(s, origin, req, network, write);
      && NetworkFetch in r.effects
      && (network.Some? ==> r.answer == Respond(network.value))
      && (network.Some? && write == PutSucceeds && network.value.status != 206 ==>
            MatchAll(r.storage, req.url) == network)
      && (network.None? ==> r.answer == Reject && r.storage == s)
  {
    if network.Some? && write == PutSucceeds && network.value.status != 206 {
      MatchAfterPut(s, req.url, network.value);
    }
  }

  /** A GET that is neither a navigation nor a static asset is not
      intercepted and touches nothing. */
  lemma OtherGetIgnored(s: Storage, origin: string, req: Request, network: Option<Response>, write: StoreWrite)
    requires WellFormed(s) && req.httpMethod == "GET" && req.mode != Navigate
    requires !IsStaticAsset(req.url.pathname)
    ensures Fetch(s, origin, req, network, write) == FetchResult(s, NotIntercepted, [])
  {
  }

  /** A cold request for a static asset that the network serves, followed by
      the same request: the second is answered with the same response from
      the cache, without touching the network or the storage. */
  lemma WarmCacheRepeat(s: Storage, origin: string, req: Request, response: Response,
                        network2: Option<Response>, write2: StoreWrite)
    requires WellFormed(s) && req.httpMethod == "GET" && req.mode != Navigate
    requires IsStaticAsset(req.url.pathname) && MatchAll(s, req.url).None?
    requires response.status != 206
    ensures var first := Fetch(s, origin, req, Some(response), PutSucceeds);
      var second := Fetch(first.storage, origin, req, network2, write2);
      && first.answer == Respond(response)
      && second == FetchResult(first.storage, Respond(response), [CacheLookup(req.url)])
  {
    StaticAssetMiss(s, origin, req, Some(response), PutSucceeds);
  }

  /** Once the store opens, install seeds every seed URL with its network
      response, or, when any seed fails, adds no entry at all; the failed
      seeding does not fail the install. Other stores are untouched. */
  lemma InstallSeeds(s: Storage, origin: string, network: map<Url, Response>, openSucceeds: bool)
    requires WellFormed(s)
    ensures var r := Install(s, origin, network, openSucceeds);
      && (forall n :: n in s.stores && n != CacheName ==> n in r.stores && r.stores[n] == s.stores[n])
      && (openSucceeds && AllFetched(SeedUrls(origin), network) ==>
            forall u :: u in SeedUrls(origin) ==> u in r.stores[CacheName] && r.stores[CacheName][u] == network[u])
      && (openSucceeds && !AllFetched(SeedUrls(origin), network) ==>
            r.stores[CacheName] == if CacheName in s.stores then s.stores[CacheName] else map[])
  {
  }

  /** After activation the current store is the only one left, and
      `caches.match` answers exactly from it. */
  lemma ActivateKeepsOnlyCurrent(s: Storage, key: Url)
    requires WellFormed(s)
    ensures var r := Activate(s);
      && r.stores.Keys <= {CacheName}
      && (CacheName in s.stores <==> r.names == [CacheName])
      && (CacheName in s.stores ==> r.stores[CacheName] == s.stores[CacheName])
      && MatchAll(r, key) == if CacheName in s.stores && key in s.stores[CacheName]
                             then Some(s.stores[CacheName][key]) else None
  {
  }

  /** Install followed by activate leaves exactly the current store, however
      many older stores existed. A rejected open fails the install, so no
      activation follows it; the second clause only records that the failed
      install left nothing for activation to see. */
  lemma InstallThenActivate(s: Storage, origin: string, network: map<Url, Response>, openSucceeds: bool)
    requires WellFormed(s)
    ensures openSucceeds ==> Activate(Install(s, origin, network, openSucceeds)).names == [CacheName]
    ensures !openSucceeds ==> Activate(Install(s, origin, network, openSucceeds)) == Activate(s)
  {
  }

  // ---------------------------------------------------------------------
  // The handlers, acting on cache storage in place
  // ---------------------------------------------------------------------

  /** The browser's `caches` object. */
  class CacheStorage {
    var names: seq<string>
    var stores: map<string, Store>

    function View(): Storage
      reads this
    {
      Storage(names, stores)
    }

    ghost predicate Valid()
      reads this
    {
      WellFormed(View())
    }

    constructor (initial: Storage)
      requires WellFormed(initial)
      ensures Valid() && View() == initial
    {
      names := initial.names;
      stores := initial.stores;
    }

    /** `caches.keys()`. */
    method Keys() returns (keys: seq<string>)
      requires Valid()
      ensures keys == names
    {
      keys := names;
    }

    /** `caches.open(name)`. */
    method Open(name: string)
      requires Valid()
      modifies this
      ensures Valid() && View() == Opened(old(View()), name)
    {
      if name !in stores {
        names := names + [name];
        stores := stores[name := map[]];
        assert View() == Opened(old(View()), name);
      }
    }

    /** `cache.put(key, response)` on an open store. */
    method Put(name: string, key: Url, response: Response)
      requires Valid() && name in stores
      modifies this
      ensures Valid() && View() == WithEntry(old(View()), name, key, response)
    {
      stores := stores[name := stores[name][key := response]];
    }

    /** `caches.delete(name)`. */
    method Delete(name: string)
      requires Valid()
      modifies this
      ensures Valid() && View() == Without(old(View()), name)
    {
      names := RemoveName(names, name);
      stores := stores - {name};
    }

    /** `cache.addAll(urls)` on an open store: all or nothing. */
    method AddAll(name: string, urls: seq<Url>, network: map<Url, Response>) returns (ok: bool)
      requires Valid() && name in stores
      modifies this
      ensures Valid() && ok == AllFetched(urls, network)
      ensures names == old(names)
      ensures stores == if ok then old(stores)[name := PutAll(old(stores)[name], urls, network)]
                        else old(stores)
    {
      ok := forall i | 0 <= i < |urls| ::
        urls[i] in network && 200 <= network[urls[i]].status <= 299 && network[urls[i]].status != 206;
      if ok {
        stores := stores[name := PutAll(stores[name], urls, network)];
      }
    }

    /** `caches.match(key)`: the stores are searched in creation order and
        the first entry found is the answer. */
    method Match(key: Url) returns (r: Option<Response>)
      requires Valid()
      ensures r == MatchAll(View(), key)
    {
      var i := 0;
      while i < |names|
        invariant 0 <= i <= |names|
        invariant FirstMatch(names[i..], stores, key) == FirstMatch(names, stores, key)
      {
        assert names[i..][1..] == names[i + 1..];
        if key in stores[names[i]] {
          return Some(stores[names[i]][key]);
        }
        i := i + 1;
      }
      return None;
    }
  }

  /** The `install` listener. */
  method OnInstall(caches: CacheStorage, origin: string, network: map<Url, Response>, openSucceeds: bool)
    requires caches.Valid()
    modifies caches
    ensures caches.Valid() && caches.View() == Install(old(caches.View()), origin, network, openSucceeds)
  {
    if openSucceeds {
      caches.Open(CacheName);
      // A rejected addAll is caught and dropped.
      var _ := caches.AddAll(CacheName, SeedUrls(origin), network);
    }
  }

  /** A distinct list whose members are all `x` is empty or `[x]`. */
  lemma DistinctOfAtMostOne(names: seq<string>, x: string)
    requires Distinct(names) && forall n :: n in names ==> n == x
    ensures names == [] || names == [x]
  {
    if names != [] {
      assert names[0] == x == names[|names| - 1] by {
        assert names[0] in names && names[|names| - 1] in names;
      }
      assert |names| == 1;
    }
  }

  /** A well-formed storage holding just what `s` holds under the current
      name is the result of activation. */
  lemma IsActivated(s: Storage, r: Storage)
    requires WellFormed(s) && WellFormed(r)
    requires forall n :: n in r.stores <==> n in s.stores && n == CacheName
    requires forall n :: n in r.stores ==> r.stores[n] == s.stores[n]
    ensures r == Activate(s)
  {
    DistinctOfAtMostOne(r.names, CacheName);
    if CacheName in s.stores {
      assert r.stores == map[CacheName := s.stores[CacheName]];
    } else {
      assert r.stores == map[];
    }
  }

  /** Deleting every stale name activates the storage. */
  lemma Swept(s: Storage, r: Storage, stale: seq<string>)
    requires WellFormed(s) && WellFormed(r)
    requires forall n :: n in stale <==> n in s.names && n != CacheName
    requires r.stores == s.stores - set n | n in stale
    ensures r == Activate(s)
  {
    IsActivated(s, r);
  }

  /** The names `keys.filter(key => key !== CACHE_NAME)` keeps. */
  function Stale(keys: seq<string>): (r: seq<string>)
    ensures forall n :: n in r <==> n in keys && n != CacheName
  {
    Seqs.FilterMembers(keys, k => k != CacheName);
    Seqs.Filter(keys, k => k != CacheName)
  }

  /** `Promise.all(names.map(name => caches.delete(name)))`. */
  method DeleteAll(caches: CacheStorage, doomed: seq<string>)
    requires caches.Valid()
    modifies caches
    ensures caches.Valid() && caches.stores == old(caches.stores) - set n | n in doomed
  {
    ghost var gone: set<string> := {};
    for i := 0 to |doomed|
      invariant caches.Valid()
      invariant gone == set j | 0 <= j < i :: doomed[j]
      invariant caches.stores == old(caches.stores) - gone
    {
      caches.Delete(doomed[i]);
      gone := gone + {doomed[i]};
    }
    assert gone == set n | n in doomed by {
      forall n | n in doomed ensures n in gone {
        var j :| 0 <= j < |doomed| && doomed[j] == n;
      }
    }
  }

  /** The `activate` listener: every store named otherwise than the current
      one is deleted. */
  method OnActivate(caches: CacheStorage)
    requires caches.Valid()
    modifies caches
    ensures caches.Valid() && caches.View() == Activate(old(caches.View()))
  {
    var keys := caches.Keys();
    var stale := Stale(keys);
    DeleteAll(caches, stale);
    Swept(old(caches.View()), caches.View(), stale);
  }

  /** The best-effort `caches.open(...).then(cache => cache.put(...))`, whose
      failure is dropped. */
  method WriteBack(caches: CacheStorage, key: Url, response: Response, write: StoreWrite)
    requires caches.Valid()
    modifies caches
    ensures caches.Valid() && caches.View() == WrittenBack(old(caches.View()), key, response, write)
  {
    if write == OpenFails {
      return;
    }
    caches.Open(CacheName);
    if write == PutSucceeds && response.status != 206 {
      caches.Put(CacheName, key, response);
    }
  }

  /** The `fetch` listener. */
  method OnFetch(caches: CacheStorage, origin: string, req: Request, network: Option<Response>, write: StoreWrite)
    returns (answer: Answer, effects: seq<Effect>)
    requires caches.Valid()
    modifies caches
    ensures caches.Valid()
    ensures var r := Fetch(old(caches.View()), origin, req, network, write);
      caches.View() == r.storage && answer == r.answer && effects == r.effects
  {
    if req.httpMethod != "GET" {
      return NotIntercepted, [];
    }
    if req.mode == Navigate {
      if network.Some? {
        WriteBack(caches, req.url, network.value, write);
        return Respond(network.value), [NetworkFetch, CacheWrite(req.url)];
      }
      var cached := caches.Match(req.url);
      if cached.Some? {
        return Respond(cached.value), [NetworkFetch, CacheLookup(req.url)];
      }
      var fallback := caches.Match(IndexUrl(origin));
      answer := if fallback.Some? then Respond(fallback.value) else RespondUndefined;
      return answer, [NetworkFetch, CacheLookup(req.url), CacheLookup(IndexUrl(origin))];
    }
    if IsStaticAsset(req.url.pathname) {
      var cached := caches.Match(req.url);
      if cached.Some? {
        return Respond(cached.value), [CacheLookup(req.url)];
      }
      if network.None? {
        return Reject, [CacheLookup(req.url), NetworkFetch];
      }
      WriteBack(caches, req.url, network.value, write);
      return Respond(network.value), [CacheLookup(req.url), NetworkFetch, CacheWrite(req.url)];
    }
    return NotIntercepted, [];
  }
}
