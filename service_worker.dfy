/**
 * The offline cache engine of the service worker: the fetch-handler
 * classification, the three caching strategies, install-time precaching,
 * activate-time eviction of old caches and the replay of pending transaction
 * POSTs. Each network call is an input outcome; the worker records every
 * request it sends in `fetchLog`, so "no network call" is observable.
 */
module ServiceWorker {
  import opened Basics
  import opened Text
  import opened CacheStore

  const CACHE_NAME := "e-coris-v1"
  const STATIC_CACHE := "e-coris-static-v1"
  const DYNAMIC_CACHE := "e-coris-dynamic-v1"

  /** Resources precached at install, relative to the worker's origin unless absolute. */
  const STATIC_ASSETS: seq<string> := [
    "/",
    "/index.html",
    "/css/main.css",
    "/css/components.css",
    "/js/app.js",
    "/js/config.js",
    "/js/api.js",
    "/js/auth.js",
    "/js/finances.js",
    "/js/formation.js",
    "/manifest.json",
    "/assets/icon-192.png",
    "/assets/icon-512.png",
    "https://fonts.googleapis.com/css2?family=Outfit:wght@300;400;500;600;700&family=JetBrains+Mono:wght@400;500&display=swap"
  ]

  const STATIC_EXTENSIONS: seq<string> := [".css", ".js", ".png", ".jpg", ".jpeg", ".gif", ".svg", ".woff", ".woff2"]

  const OFFLINE_PAGE := "/offline.html"

  /** Body of the 503 answer `networkFirst` builds when offline with nothing cached. */
  const OFFLINE_JSON := "{\"error\":\"Hors ligne\",\"offline\":true}"

  /** The outcome of one `fetch`: it rejects, or it resolves to a response of any status. */
  datatype Network = Unreachable | Answered(response: Response)

  /** A request reaching the fetch handler, its URL split as `new URL(request.url)` splits it. */
  datatype Request = Request(verb: string, origin: string, pathname: string, search: string) {
    function Url(): string {
      origin + pathname + search
    }

    function CacheKey(): Key {
      Key(verb, Url())
    }
  }

  datatype Strategy = Bypass | NetworkFirst | CacheFirst | StaleWhileRevalidate

  /** What the fetch handler does with a request: leave it to the browser, or answer it. */
  datatype Handled = NotIntercepted | Responded(answer: Option<Response>)

  // ---------------------------------------------------------------------------
  // Classification

  function SomeEndsWith(pathname: string, exts: seq<string>): (b: bool)
    ensures b <==> exists i :: 0 <= i < |exts| && EndsWith(pathname, exts[i])
  {
    if |exts| == 0 then false
    else EndsWith(pathname, exts[0]) || SomeEndsWith(pathname, exts[1..])
  }

  /** `isStaticAsset(url)`: the pathname ends with one of the listed extensions. */
  predicate IsStaticAsset(pathname: string) {
    SomeEndsWith(pathname, STATIC_EXTENSIONS)
  }

  /** The fetch handler's decision, rule by rule in the order the handler tests them. */
  function Classify(req: Request): (s: Strategy)
    ensures s == Bypass <==> req.verb != "GET"
    ensures s == NetworkFirst <==> req.verb == "GET" && StartsWith(req.pathname, "/api/")
    ensures s == CacheFirst <==>
      req.verb == "GET" && !StartsWith(req.pathname, "/api/") && IsStaticAsset(req.pathname)
    ensures s == StaleWhileRevalidate <==>
      req.verb == "GET" && !StartsWith(req.pathname, "/api/") && !IsStaticAsset(req.pathname)
  {
    if req.verb != "GET" then Bypass
    else if StartsWith(req.pathname, "/api/") then NetworkFirst
    else if IsStaticAsset(req.pathname) then CacheFirst
    else StaleWhileRevalidate
  }

  /** A pathname whose last character ends no listed extension is not a static asset. */
  lemma NotStaticByLastChar(pathname: string)
    requires |pathname| > 0 && pathname[|pathname| - 1] !in {'s', 'g', 'f', '2'}
    ensures !IsStaticAsset(pathname)
  {
    forall i | 0 <= i < |STATIC_EXTENSIONS| ensures !EndsWith(pathname, STATIC_EXTENSIONS[i]) {
      var e := STATIC_EXTENSIONS[i];
      assert e[|e| - 1] in {'s', 'g', 'f', '2'};
      EndsWithLast(pathname, e);
    }
  }

  /** The page shell and the manifest carry no static extension, so they are served stale-while-revalidate. */
  lemma ShellIsNotStatic()
    ensures !IsStaticAsset("/") && !IsStaticAsset("/index.html") && !IsStaticAsset("/manifest.json")
  {
    NotStaticByLastChar("/");
    NotStaticByLastChar("/index.html");
    NotStaticByLastChar("/manifest.json");
  }

  /** Every GET under `/api/` is network-first, static extension or not: the API rule is tested first. */
  lemma ApiPrefixBeforeExtensions(origin: string, pathname: string, search: string)
    requires StartsWith(pathname, "/api/")
    ensures Classify(Request("GET", origin, pathname, search)) == NetworkFirst
    ensures IsStaticAsset(pathname) ==> Classify(Request("GET", origin, pathname, search)) != CacheFirst
  {
  }

  /** A script under the API is a static asset by its extension, yet it is served network-first. */
  lemma ApiScriptIsNetworkFirst(origin: string)
    ensures IsStaticAsset("/api/export.js")
    ensures Classify(Request("GET", origin, "/api/export.js", "")) == NetworkFirst
  {
    var p := "/api/export.js";
    assert p[|p| - 3..] == ".js" == STATIC_EXTENSIONS[1];
    assert "/api/" <= p;
    ApiPrefixBeforeExtensions(origin, p, "");
  }

  /** A script outside the API is cache-first; a page without extension falls to the default. */
  lemma ClassifyExamples(origin: string)
    ensures Classify(Request("GET", origin, "/js/app.js", "")) == CacheFirst
    ensures Classify(Request("GET", origin, "/dashboard", "")) == StaleWhileRevalidate
    ensures Classify(Request("POST", origin, "/api/transactions", "")) == Bypass
  {
    var js := "/js/app.js";
    assert js[|js| - 3..] == ".js" == STATIC_EXTENSIONS[1];
    assert !("/api/" <= js) by { assert js[1] != 'a'; }
    assert !("/api/" <= "/dashboard") by { assert "/dashboard"[1] != 'a'; }
    NotStaticByLastChar("/dashboard");
  }

  // ---------------------------------------------------------------------------
  // Store effects, as functions of the old store

  /** The URL a relative asset path denotes for a worker served from `origin`. */
  function Resolve(origin: string, path: string): string {
    if StartsWith(path, "https://") then path else origin + path
  }

  function PrecacheKeys(origin: string, paths: seq<string>): (ks: seq<Key>)
    ensures |ks| == |paths|
    ensures forall i :: 0 <= i < |paths| ==> ks[i] == Key("GET", Resolve(origin, paths[i]))
  {
    if |paths| == 0 then [] else [Key("GET", Resolve(origin, paths[0]))] + PrecacheKeys(origin, paths[1..])
  }

  /** The key `caches.match('/offline.html')` looks up. */
  function OfflineKey(origin: string): Key {
    Key("GET", Resolve(origin, OFFLINE_PAGE))
  }

  predicate AllOk(keys: seq<Key>, net: Key -> Network) {
    forall i :: 0 <= i < |keys| ==> net(keys[i]).Answered? && IsOk(net(keys[i]).response)
  }

  function PutAll(s: Store, name: string, keys: seq<Key>, net: Key -> Network): Store
    requires AllOk(keys, net)
    decreases |keys|
  {
    if |keys| == 0 then s
    else PutAll(Put(s, name, keys[0], net(keys[0]).response), name, keys[1..], net)
  }

  /** `(await caches.open(name)).addAll(keys)`: every key stored, or (some fetch failing or not ok) none. */
  function AddAll(s: Store, name: string, keys: seq<Key>, net: Key -> Network): Store {
    var o := Open(s, name);
    if AllOk(keys, net) then PutAll(o, name, keys, net) else o
  }

  /** The store after a strategy's fetch: an `ok` answer is put into cache `name`, anything else changes nothing. */
  function Refreshed(s: Store, name: string, k: Key, net: Network): Store {
    if net.Answered? && IsOk(net.response) then Put(s, name, k, net.response) else s
  }

  /** The caches activate keeps: the current static and dynamic ones, in their order. */
  predicate Current(name: string) {
    name == STATIC_CACHE || name == DYNAMIC_CACHE
  }

  function Evicted(s: Store): (r: Store)
    ensures forall c :: c in r <==> c in s && Current(c.name)
  {
    if |s| == 0 then []
    else if Current(s[0].name) then [s[0]] + Evicted(s[1..])
    else Evicted(s[1..])
  }

  /** The store with every cache whose name is in `drop` deleted. */
  function Retain(s: Store, drop: set<string>): (r: Store)
    ensures forall c :: c in r <==> c in s && c.name !in drop
  {
    if |s| == 0 then []
    else if s[0].name in drop then Retain(s[1..], drop)
    else [s[0]] + Retain(s[1..], drop)
  }

  lemma {:induction false} DeleteCacheRetain(s: Store, drop: set<string>, n: string)
    ensures DeleteCache(Retain(s, drop), n) == Retain(s, drop + {n})
  {
    if |s| > 0 {
      DeleteCacheRetain(s[1..], drop, n);
    }
  }

  lemma {:induction false} RetainNothing(s: Store)
    ensures Retain(s, {}) == s
  {
    if |s| > 0 {
      RetainNothing(s[1..]);
    }
  }

  lemma StaleStep(names: seq<string>, i: nat, drop: set<string>)
    requires i < |names|
    requires forall n :: n in drop <==> n in names[..i] && !Current(n)
    ensures forall n ::
      n in (if Current(names[i]) then drop else drop + {names[i]}) <==> n in names[..i + 1] && !Current(n)
  {
    assert names[..i + 1] == names[..i] + [names[i]];
  }

  lemma RetainStaleNamesIsEvicted(s: Store, drop: set<string>)
    requires forall n :: n in drop <==> n in Names(s) && !Current(n)
    ensures Retain(s, drop) == Evicted(s)
  {
    var names := Names(s);
    forall c | c in s ensures c.name in drop <==> !Current(c.name) {
      var j :| 0 <= j < |s| && s[j] == c;
      assert names[j] == c.name;
    }
    RetainStaleIsEvicted(s, drop);
  }

  lemma {:induction false} RetainStaleIsEvicted(s: Store, drop: set<string>)
    requires forall c :: c in s ==> (c.name in drop <==> !Current(c.name))
    ensures Retain(s, drop) == Evicted(s)
  {
    if |s| > 0 {
      RetainStaleIsEvicted(s[1..], drop);
    }
  }

  /** A request `syncTransactions` replays: a POST whose URL mentions `/api/transactions`. */
  predicate IsPendingTransaction(k: Key) {
    Contains(k.url, "/api/transactions") && k.verb == "POST"
  }

  /** The keys replayed, in snapshot order. */
  function Pending(keys: seq<Key>): (r: seq<Key>)
    ensures forall k :: k in r <==> k in keys && IsPendingTransaction(k)
  {
    if |keys| == 0 then []
    else Pending(keys[..|keys| - 1]) + (if IsPendingTransaction(keys[|keys| - 1]) then [keys[|keys| - 1]] else [])
  }

  /** The replayed keys whose fetch resolved, whatever its status: these are deleted. */
  function Delivered(keys: seq<Key>, net: Key -> Network): (r: seq<Key>)
    ensures forall k :: k in r <==> k in keys && IsPendingTransaction(k) && net(k).Answered?
  {
    if |keys| == 0 then []
    else
      var k := keys[|keys| - 1];
      Delivered(keys[..|keys| - 1], net) + (if IsPendingTransaction(k) && net(k).Answered? then [k] else [])
  }

  /** The entries left once every key of `ks` has been deleted in turn. */
  function RemoveKeys(entries: seq<Entry>, ks: seq<Key>): seq<Entry> {
    if |ks| == 0 then entries else Without(RemoveKeys(entries, ks[..|ks| - 1]), ks[|ks| - 1])
  }

  lemma {:induction false} RemoveKeysMembers(entries: seq<Entry>, ks: seq<Key>)
    ensures forall e :: e in RemoveKeys(entries, ks) <==> e in entries && e.key !in ks
  {
    if |ks| > 0 {
      RemoveKeysMembers(entries, ks[..|ks| - 1]);
      assert ks == ks[..|ks| - 1] + [ks[|ks| - 1]];
    }
  }

  lemma {:induction false} SetEntriesTwice(s: Store, name: string, a: seq<Entry>, b: seq<Entry>)
    ensures SetEntries(SetEntries(s, name, a), name, b) == SetEntries(s, name, b)
  {
    var o := Open(s, name);
    var i := IndexOf(o, name).value;
    var r := SetEntries(s, name, a);
    assert r == o[i := Cache(name, a)];
    IndexOfUpdate(o, i, Cache(name, a), name);
  }

  /** The dynamic cache's entries carry only GET requests. */
  ghost predicate OnlyGetKeys(s: Store) {
    forall e :: e in EntriesOf(s, DYNAMIC_CACHE) ==> e.key.verb == "GET"
  }

  /** Storing a GET request anywhere keeps the dynamic cache free of anything else. */
  lemma PutGetKeepsOnlyGet(s: Store, name: string, k: Key, resp: Response)
    requires OnlyGetKeys(s) && k.verb == "GET"
    ensures OnlyGetKeys(Put(s, name, k, resp))
  {
    PutFrames(s, name, k, resp);
  }

  /**
   * Nothing in the fetch handler ever stores a POST (it ignores non-GET requests),
   * so against such a cache the replay loop sends nothing and deletes nothing.
   */
  lemma {:induction false} ReplayIdleWithoutPosts(keys: seq<Key>, net: Key -> Network)
    requires forall i :: 0 <= i < |keys| ==> keys[i].verb == "GET"
    ensures Pending(keys) == [] && Delivered(keys, net) == []
  {
    if |keys| > 0 {
      ReplayIdleWithoutPosts(keys[..|keys| - 1], net);
    }
  }

  /** An entry survives a replay iff it was not a pending transaction or its fetch rejected. */
  lemma ReplayKeeps(entries: seq<Entry>, net: Key -> Network, e: Entry)
    requires e in entries
    ensures e in RemoveKeys(entries, Delivered(KeysOf(entries), net))
      <==> !IsPendingTransaction(e.key) || net(e.key).Unreachable?
  {
    RemoveKeysMembers(entries, Delivered(KeysOf(entries), net));
    var i :| 0 <= i < |entries| && entries[i] == e;
    assert KeysOf(entries)[i] == e.key;
  }

  // ---------------------------------------------------------------------------
  // Install and activate

  /** Precaching never stores the offline page, so its lookup is whatever it was before install. */
  lemma PrecacheSkipsOfflinePage(s: Store, origin: string, net: Key -> Network)
    ensures Lookup(EntriesOf(AddAll(s, STATIC_CACHE, PrecacheKeys(origin, STATIC_ASSETS), net), STATIC_CACHE), OfflineKey(origin))
         == Lookup(EntriesOf(s, STATIC_CACHE), OfflineKey(origin))
  {
    var keys := PrecacheKeys(origin, STATIC_ASSETS);
    forall i | 0 <= i < |keys| ensures keys[i] != OfflineKey(origin) {
      AssetIsNotOfflinePage(origin, STATIC_ASSETS[i]);
    }
    PutAllOthers(Open(s, STATIC_CACHE), STATIC_CACHE, keys, net, OfflineKey(origin));
  }

  lemma AssetIsNotOfflinePage(origin: string, a: string)
    requires a in STATIC_ASSETS
    ensures Resolve(origin, a) != Resolve(origin, OFFLINE_PAGE)
  {
    assert !StartsWith(OFFLINE_PAGE, "https://") by { assert OFFLINE_PAGE[0] != 'h'; }
    var off := origin + OFFLINE_PAGE;
    assert off[|origin|..] == OFFLINE_PAGE;
    if a[0] == '/' {
      assert !StartsWith(a, "https://") by { assert a[0] != 'h'; }
      assert a != OFFLINE_PAGE;
      assert (origin + a)[|origin|..] == a;
    } else {
      assert a[|a| - 1] == 'p' && off[|off| - 1] == 'l';
    }
  }

  lemma {:induction false} PutAllOthers(s: Store, name: string, keys: seq<Key>, net: Key -> Network, other: Key)
    requires forall i :: 0 <= i < |keys| ==> keys[i] != other
    ensures AllOk(keys, net) ==>
      Lookup(EntriesOf(PutAll(s, name, keys, net), name), other) == Lookup(EntriesOf(s, name), other)
    decreases |keys|
  {
    if |keys| > 0 && AllOk(keys, net) {
      var s1 := Put(s, name, keys[0], net(keys[0]).response);
      PutFrames(s, name, keys[0], net(keys[0]).response);
      assert AllOk(keys[1..], net);
      PutAllOthers(s1, name, keys[1..], net, other);
    }
  }

  /** A precache whose fetches all succeed stores every key with its answer, and touches no other cache. */
  lemma {:induction false} PutAllStores(s: Store, name: string, keys: seq<Key>, net: Key -> Network)
    requires AllOk(keys, net)
    ensures forall k :: k in keys ==> Lookup(EntriesOf(PutAll(s, name, keys, net), name), k) == Some(net(k).response)
    ensures forall n :: n != name ==> EntriesOf(PutAll(s, name, keys, net), n) == EntriesOf(s, n)
    decreases |keys|
  {
    if |keys| > 0 {
      var k0 := keys[0];
      var s1 := Put(s, name, k0, net(k0).response);
      PutStores(s, name, k0, net(k0).response);
      PutFrames(s, name, k0, net(k0).response);
      assert AllOk(keys[1..], net);
      PutAllStores(s1, name, keys[1..], net);
      forall k | k in keys
        ensures Lookup(EntriesOf(PutAll(s, name, keys, net), name), k) == Some(net(k).response)
      {
        if k !in keys[1..] {
          assert k == k0;
          forall i | 0 <= i < |keys[1..]| ensures keys[1..][i] != k {
            assert keys[1..][i] in keys[1..];
          }
          PutAllOthers(s1, name, keys[1..], net, k);
        }
      }
    }
  }

  /**
   * `addAll` is all or nothing: when every fetch is `ok` each key is stored with
   * its answer; otherwise the cache keeps the entries it had. No other cache changes.
   */
  lemma AddAllEffect(s: Store, name: string, keys: seq<Key>, net: Key -> Network)
    ensures AllOk(keys, net) ==>
      forall k :: k in keys ==> Lookup(EntriesOf(AddAll(s, name, keys, net), name), k) == Some(net(k).response)
    ensures !AllOk(keys, net) ==> EntriesOf(AddAll(s, name, keys, net), name) == EntriesOf(s, name)
    ensures forall n :: n != name ==> EntriesOf(AddAll(s, name, keys, net), n) == EntriesOf(s, n)
  {
    var o := Open(s, name);
    forall n | n != name ensures EntriesOf(o, n) == EntriesOf(s, n) {
      assert IndexOf(o, n) == IndexOf(s, n);
    }
    if AllOk(keys, net) {
      PutAllStores(o, name, keys, net);
    }
  }

  /** After activate only the two current caches remain, untouched, and nothing is created. */
  lemma EvictionKeepsCurrent(s: Store)
    ensures forall i :: 0 <= i < |Evicted(s)| ==> Current(Evicted(s)[i].name)
    ensures !Has(Evicted(s), CACHE_NAME)
    ensures |Evicted(s)| <= |s|
    ensures forall c :: c in s && Current(c.name) ==> c in Evicted(s)
  {
    EvictedShrinks(s);
    var r := Evicted(s);
    assert forall i :: 0 <= i < |r| ==> r[i] in r;
  }

  lemma {:induction false} EvictedShrinks(s: Store)
    ensures |Evicted(s)| <= |s|
  {
    if |s| > 0 {
      EvictedShrinks(s[1..]);
    }
  }

  // ---------------------------------------------------------------------------
  // Precached copies shadow revalidated ones

  /**
   * `caches.match` searches the static cache first when it was created first:
   * a page precached there (such as `/`) keeps being answered from the install-time
   * copy, whatever stale-while-revalidate later stores in the dynamic cache.
   */
  lemma PrecachedShadowsRevalidated(s: Store, k: Key, stale: Response, revalidated: Response)
    requires |s| > 0 && s[0].name == STATIC_CACHE && Lookup(s[0].entries, k) == Some(stale)
    ensures Match(Put(s, DYNAMIC_CACHE, k, revalidated), k) == Some(stale)
  {
    var p := Put(s, DYNAMIC_CACHE, k, revalidated);
    PutFrames(s, DYNAMIC_CACHE, k, revalidated);
    assert IndexOf(s, STATIC_CACHE) == Some(0);
    assert IndexOf(p, STATIC_CACHE) == Some(0);
    assert p[0].entries == EntriesOf(p, STATIC_CACHE);
  }

  // ---------------------------------------------------------------------------
  // The worker

  class Worker {
    /** The worker's own origin, against which `caches.match('/offline.html')` and the asset list resolve. */
    const origin: string
    var store: Store
    /** Every request sent to the network, in order. */
    var fetchLog: seq<Key>

    constructor (origin: string, store: Store)
      ensures this.origin == origin && this.store == store && fetchLog == []
    {
      this.origin := origin;
      this.store := store;
      fetchLog := [];
    }

    /** The install handler: open the static cache and precache every asset, all or nothing. */
    method Install(net: Key -> Network)
      modifies this
      ensures store == AddAll(old(store), STATIC_CACHE, PrecacheKeys(origin, STATIC_ASSETS), net)
      ensures fetchLog == old(fetchLog) + PrecacheKeys(origin, STATIC_ASSETS)
      ensures AllOk(PrecacheKeys(origin, STATIC_ASSETS), net) ==>
        forall k :: k in PrecacheKeys(origin, STATIC_ASSETS) ==> Lookup(EntriesOf(store, STATIC_CACHE), k) == Some(net(k).response)
      ensures !AllOk(PrecacheKeys(origin, STATIC_ASSETS), net) ==> EntriesOf(store, STATIC_CACHE) == EntriesOf(old(store), STATIC_CACHE)
      ensures forall n :: n != STATIC_CACHE ==> EntriesOf(store, n) == EntriesOf(old(store), n)
    {
      var keys := PrecacheKeys(origin, STATIC_ASSETS);
      AddAllEffect(store, STATIC_CACHE, keys, net);
      fetchLog := fetchLog + keys;
      store := AddAll(store, STATIC_CACHE, keys, net);
    }

    /** The activate handler: delete every cache other than the current static and dynamic ones. */
    method Activate()
      modifies this
      ensures store == Evicted(old(store))
      ensures fetchLog == old(fetchLog)
    {
      var names := Names(store);
      ghost var initial := store;
      ghost var drop: set<string> := {};
      RetainNothing(initial);
      var i := 0;
      while i < |names|
        invariant 0 <= i <= |names|
        invariant store == Retain(initial, drop)
        invariant forall n :: n in drop <==> n in names[..i] && !Current(n)
        invariant fetchLog == old(fetchLog)
      {
        var name := names[i];
        StaleStep(names, i, drop);
        if !Current(name) {
          DeleteCacheRetain(initial, drop, name);
          store := DeleteCache(store, name);
          drop := drop + {name};
        }
        i := i + 1;
      }
      assert names[..i] == names;
      RetainStaleNamesIsEvicted(initial, drop);
    }

    /** `cacheFirst`: a cached answer wins without a network call; a miss fetches and keeps `ok` answers. */
    method CacheFirst(req: Key, net: Network) returns (answer: Option<Response>)
      modifies this
      ensures Match(old(store), req).Some? ==>
        answer == Match(old(store), req) && store == old(store) && fetchLog == old(fetchLog)
      ensures Match(old(store), req).None? ==> fetchLog == old(fetchLog) + [req]
      ensures Match(old(store), req).None? && net.Answered? ==>
        answer == Some(net.response) &&
        store == (if IsOk(net.response) then Put(old(store), STATIC_CACHE, req, net.response) else old(store))
      ensures Match(old(store), req).None? && net.Unreachable? ==>
        answer == Match(old(store), OfflineKey(origin)) && store == old(store)
    {
      var cached := Match(store, req);
      if cached.Some? {
        return cached;
      }
      fetchLog := fetchLog + [req];
      match net
      case Answered(response) =>
        if IsOk(response) {
          store := Put(store, STATIC_CACHE, req, response);
        }
        answer := Some(response);
      case Unreachable =>
        // `caches.match(...) || new Response(...)`: the left operand is a promise,
        // always truthy, so the 503 fallback is never taken.
        answer := Match(store, OfflineKey(origin));
    }

    /** `networkFirst`: always asks the network; falls back to the cache, then to a 503 JSON body. */
    method NetworkFirst(req: Key, net: Network) returns (answer: Response)
      modifies this
      ensures fetchLog == old(fetchLog) + [req]
      ensures net.Answered? ==> (answer == net.response &&
        store == (if IsOk(net.response) then Put(old(store), DYNAMIC_CACHE, req, net.response) else old(store)))
      ensures net.Unreachable? ==> (store == old(store) &&
        answer == Match(old(store), req).GetOr(Response(503, OFFLINE_JSON)))
    {
      fetchLog := fetchLog + [req];
      match net
      case Answered(response) =>
        if IsOk(response) {
          store := Put(store, DYNAMIC_CACHE, req, response);
        }
        answer := response;
      case Unreachable =>
        var cached := Match(store, req);
        if cached.Some? {
          answer := cached.value;
        } else {
          answer := Response(503, OFFLINE_JSON);
        }
    }

    /**
     * `staleWhileRevalidate`: answers from the cache when it can, else with the
     * network's answer; the fetch is always sent and an `ok` answer is stored for
     * next time (the detached refresh, taken here as the step right after).
     */
    method StaleWhileRevalidate(req: Key, net: Network) returns (answer: Option<Response>)
      modifies this
      ensures fetchLog == old(fetchLog) + [req]
      ensures Match(old(store), req).Some? ==> answer == Match(old(store), req)
      ensures Match(old(store), req).None? ==>
        answer == (if net.Answered? then Some(net.response) else None)
      ensures store == (if net.Answered? && IsOk(net.response)
                        then Put(old(store), DYNAMIC_CACHE, req, net.response) else old(store))
    {
      var cached := Match(store, req);
      fetchLog := fetchLog + [req];
      var fetched: Option<Response> := cached;
      if net.Answered? {
        if IsOk(net.response) {
          store := Put(store, DYNAMIC_CACHE, req, net.response);
        }
        fetched := Some(net.response);
      }
      answer := if cached.Some? then cached else fetched;
    }

    /** The fetch handler: non-GET requests pass through untouched; GETs go to their strategy. */
    method HandleFetch(req: Request, net: Network) returns (h: Handled)
      modifies this
      ensures Classify(req) == Strategy.Bypass <==> h == NotIntercepted
      ensures h == NotIntercepted ==> store == old(store) && fetchLog == old(fetchLog)
      ensures Classify(req) == Strategy.CacheFirst && Match(old(store), req.CacheKey()).Some? ==>
        h == Responded(Match(old(store), req.CacheKey())) && store == old(store) && fetchLog == old(fetchLog)
      ensures Classify(req) == Strategy.CacheFirst && Match(old(store), req.CacheKey()).None? ==>
        && fetchLog == old(fetchLog) + [req.CacheKey()]
        && store == Refreshed(old(store), STATIC_CACHE, req.CacheKey(), net)
        && h == Responded(if net.Answered? then Some(net.response) else Match(old(store), OfflineKey(origin)))
      ensures Classify(req) == Strategy.NetworkFirst ==>
        && fetchLog == old(fetchLog) + [req.CacheKey()]
        && store == Refreshed(old(store), DYNAMIC_CACHE, req.CacheKey(), net)
        && h == Responded(Some(if net.Answered? then net.response
                               else Match(old(store), req.CacheKey()).GetOr(Response(503, OFFLINE_JSON))))
      ensures Classify(req) == Strategy.StaleWhileRevalidate ==>
        && fetchLog == old(fetchLog) + [req.CacheKey()]
        && store == Refreshed(old(store), DYNAMIC_CACHE, req.CacheKey(), net)
        && h == Responded(if Match(old(store), req.CacheKey()).Some? then Match(old(store), req.CacheKey())
                          else if net.Answered? then Some(net.response) else None)
      ensures OnlyGetKeys(old(store)) ==> OnlyGetKeys(store)
    {
      var k := req.CacheKey();
      match Classify(req)
      case Bypass() =>
        return NotIntercepted;
      case NetworkFirst() =>
        var a := NetworkFirst(k, net);
        h := Responded(Some(a));
        if net.Answered? && IsOk(net.response) && OnlyGetKeys(old(store)) {
          PutGetKeepsOnlyGet(old(store), DYNAMIC_CACHE, k, net.response);
        }
      case CacheFirst() =>
        var a := CacheFirst(k, net);
        h := Responded(a);
        if net.Answered? && IsOk(net.response) && OnlyGetKeys(old(store)) {
          PutGetKeepsOnlyGet(old(store), STATIC_CACHE, k, net.response);
        }
      case StaleWhileRevalidate() =>
        var a := StaleWhileRevalidate(k, net);
        h := Responded(a);
        if net.Answered? && IsOk(net.response) && OnlyGetKeys(old(store)) {
          PutGetKeepsOnlyGet(old(store), DYNAMIC_CACHE, k, net.response);
        }
    }

    /**
     * `syncTransactions`: walk a snapshot of the dynamic cache's keys in order,
     * replay each pending transaction POST, and delete its entry once the fetch
     * resolves (whatever the status); a rejected fetch keeps the entry.
     */
    method SyncTransactions(net: Key -> Network)
      modifies this
      ensures var snapshot := KeysOf(EntriesOf(old(store), DYNAMIC_CACHE));
        && fetchLog == old(fetchLog) + Pending(snapshot)
        && store == SetEntries(old(store), DYNAMIC_CACHE,
             RemoveKeys(EntriesOf(old(store), DYNAMIC_CACHE), Delivered(snapshot, net)))
    {
      store := Open(store, DYNAMIC_CACHE);
      var snapshot := KeysOf(EntriesOf(store, DYNAMIC_CACHE));
      var replayed, sent := ReplayPending(store, snapshot, net);
      SetEntriesOpened(old(store), DYNAMIC_CACHE, RemoveKeys(EntriesOf(store, DYNAMIC_CACHE), Delivered(snapshot, net)));
      fetchLog := fetchLog + sent;
      store := replayed;
    }
  }

  /** The store after replaying `keys` against the opened store `s` whose dynamic entries were `entries`. */
  function Replayed(s: Store, entries: seq<Entry>, keys: seq<Key>, net: Key -> Network): Store {
    SetEntries(s, DYNAMIC_CACHE, RemoveKeys(entries, Delivered(keys, net)))
  }

  /**
   * The replay loop of `syncTransactions` over a snapshot of the dynamic
   * cache's keys: each pending transaction is sent again, in order, and removed
   * from the cache when an answer comes back.
   */
  method ReplayPending(s: Store, snapshot: seq<Key>, net: Key -> Network) returns (result: Store, sent: seq<Key>)
    requires Has(s, DYNAMIC_CACHE)
    ensures sent == Pending(snapshot)
    ensures result == Replayed(s, EntriesOf(s, DYNAMIC_CACHE), snapshot, net)
  {
    ghost var entries := EntriesOf(s, DYNAMIC_CACHE);
    result := s;
    sent := [];
    assert snapshot[..0] == [];
    var i := 0;
    while i < |snapshot|
      invariant 0 <= i <= |snapshot|
      invariant sent == Pending(snapshot[..i])
      invariant result == Replayed(s, entries, snapshot[..i], net)
    {
      var k := snapshot[i];
      ReplayStep(s, entries, snapshot, i, net);
      if Contains(k.url, "/api/transactions") && k.verb == "POST" {
        sent := sent + [k];
        if net(k).Answered? {
          result := Delete(result, DYNAMIC_CACHE, k);
        }
      }
      i := i + 1;
    }
    assert snapshot[..i] == snapshot;
  }

  lemma ReplayStep(s: Store, entries: seq<Entry>, keys: seq<Key>, i: nat, net: Key -> Network)
    requires i < |keys|
    ensures IsPendingTransaction(keys[i]) ==> Pending(keys[..i + 1]) == Pending(keys[..i]) + [keys[i]]
    ensures !IsPendingTransaction(keys[i]) ==> Pending(keys[..i + 1]) == Pending(keys[..i])
    ensures Replayed(s, entries, keys[..i + 1], net) ==
      if IsPendingTransaction(keys[i]) && net(keys[i]).Answered?
      then Delete(Replayed(s, entries, keys[..i], net), DYNAMIC_CACHE, keys[i])
      else Replayed(s, entries, keys[..i], net)
  {
    assert keys[..i + 1][..i] == keys[..i];
    var d := Delivered(keys[..i], net);
    if IsPendingTransaction(keys[i]) && net(keys[i]).Answered? {
      assert (d + [keys[i]])[..|d|] == d;
      DeleteAfterSet(s, DYNAMIC_CACHE, RemoveKeys(entries, d), keys[i]);
    } else {
      assert d + [] == d;
    }
  }

  lemma DeleteAfterSet(s: Store, name: string, e: seq<Entry>, k: Key)
    ensures Delete(SetEntries(s, name, e), name, k) == SetEntries(s, name, Without(e, k))
  {
    SetEntriesTwice(s, name, e, Without(e, k));
  }

  lemma SetEntriesOpened(s: Store, name: string, e: seq<Entry>)
    ensures SetEntries(Open(s, name), name, e) == SetEntries(s, name, e)
  {
  }
}
