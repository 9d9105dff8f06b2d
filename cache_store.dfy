/**
 * The origin's CacheStorage as the service worker sees it: an ordered list of
 * named caches (in creation order, which is the order `caches.match` searches
 * them), each an ordered list of request/response entries (in insertion order,
 * which is the order `cache.keys()` returns them).
 */
module CacheStore {
  import opened Basics

  /** A request as a cache keys it: its method (`verb`) and absolute URL. */
  datatype Key = Key(verb: string, url: string)

  /** A response: HTTP status and body text. */
  datatype Response = Response(status: int, body: string)

  /** `response.ok`: the status is in 200..299. */
  predicate IsOk(r: Response) {
    200 <= r.status <= 299
  }

  datatype Entry = Entry(key: Key, response: Response)

  datatype Cache = Cache(name: string, entries: seq<Entry>)

  type Store = seq<Cache>

  // ---------------------------------------------------------------------------
  // One cache

  /** `cache.match(k)`: the response stored under `k`, if any. */
  function Lookup(entries: seq<Entry>, k: Key): (r: Option<Response>)
    ensures r.Some? ==> Entry(k, r.value) in entries
    ensures r.None? ==> forall e :: e in entries ==> e.key != k
  {
    if |entries| == 0 then None
    else if entries[0].key == k then Some(entries[0].response)
    else Lookup(entries[1..], k)
  }

  /** `cache.keys()`: the stored request keys, in insertion order. */
  function KeysOf(entries: seq<Entry>): (ks: seq<Key>)
    ensures |ks| == |entries|
    ensures forall i :: 0 <= i < |entries| ==> ks[i] == entries[i].key
  {
    if |entries| == 0 then [] else [entries[0].key] + KeysOf(entries[1..])
  }

  /** The entries with every entry for `k` removed, the rest in their order. */
  function Without(entries: seq<Entry>, k: Key): (r: seq<Entry>)
    ensures forall e :: e in r <==> e in entries && e.key != k
    ensures |r| <= |entries|
  {
    if |entries| == 0 then []
    else if entries[0].key == k then Without(entries[1..], k)
    else [entries[0]] + Without(entries[1..], k)
  }

  /** At most one entry per request key. */
  ghost predicate DistinctKeys(entries: seq<Entry>) {
    forall i, j :: 0 <= i < j < |entries| ==> entries[i].key != entries[j].key
  }

  lemma {:induction false} WithoutKeepsDistinct(entries: seq<Entry>, k: Key)
    requires DistinctKeys(entries)
    ensures DistinctKeys(Without(entries, k))
  {
    if |entries| > 0 {
      WithoutKeepsDistinct(entries[1..], k);
      var rest := Without(entries[1..], k);
      if entries[0].key != k {
        var r := [entries[0]] + rest;
        forall i, j | 0 <= i < j < |r| ensures r[i].key != r[j].key {
          if i == 0 {
            assert r[j] in entries[1..];
          }
        }
      }
    }
  }

  lemma {:induction false} LookupAppended(entries: seq<Entry>, k: Key, resp: Response)
    ensures Lookup(Without(entries, k) + [Entry(k, resp)], k) == Some(resp)
  {
    if |entries| > 0 {
      var e := entries[0];
      var tail := Without(entries[1..], k) + [Entry(k, resp)];
      LookupAppended(entries[1..], k, resp);
      if e.key == k {
        assert Without(entries, k) + [Entry(k, resp)] == tail;
      } else {
        var all := [e] + tail;
        assert Without(entries, k) + [Entry(k, resp)] == all;
        assert all[0] == e && all[1..] == tail;
      }
    }
  }

  lemma {:induction false} LookupOtherAppended(entries: seq<Entry>, k: Key, resp: Response, other: Key)
    requires other != k
    ensures Lookup(Without(entries, k) + [Entry(k, resp)], other) == Lookup(entries, other)
  {
    if |entries| > 0 {
      var e := entries[0];
      var tail := Without(entries[1..], k) + [Entry(k, resp)];
      LookupOtherAppended(entries[1..], k, resp, other);
      if e.key == k {
        assert Without(entries, k) + [Entry(k, resp)] == tail;
      } else {
        var all := [e] + tail;
        assert Without(entries, k) + [Entry(k, resp)] == all;
        assert all[0] == e && all[1..] == tail;
      }
    }
  }

  lemma {:induction false} LookupWithoutOther(entries: seq<Entry>, k: Key, other: Key)
    requires other != k
    ensures Lookup(Without(entries, k), other) == Lookup(entries, other)
  {
    if |entries| > 0 {
      LookupWithoutOther(entries[1..], k, other);
    }
  }

  // ---------------------------------------------------------------------------
  // The store of named caches

  /** Position of the cache called `name`, if it exists. */
  function IndexOf(s: Store, name: string): (r: Option<nat>)
    ensures r.Some? ==> r.value < |s| && s[r.value].name == name
    ensures r.Some? ==> forall j :: 0 <= j < r.value ==> s[j].name != name
    ensures r.None? ==> forall j :: 0 <= j < |s| ==> s[j].name != name
  {
    if |s| == 0 then None
    else if s[0].name == name then Some(0)
    else match IndexOf(s[1..], name)
      case None => None
      case Some(i) => Some(i + 1)
  }

  /** `caches.keys()`: the cache names in creation order. */
  function Names(s: Store): (ns: seq<string>)
    ensures |ns| == |s|
    ensures forall i :: 0 <= i < |s| ==> ns[i] == s[i].name
  {
    if |s| == 0 then [] else [s[0].name] + Names(s[1..])
  }

  predicate Has(s: Store, name: string) {
    IndexOf(s, name).Some?
  }

  /** The entries of the cache called `name`; none when it does not exist. */
  function EntriesOf(s: Store, name: string): seq<Entry> {
    match IndexOf(s, name)
    case Some(i) => s[i].entries
    case None => []
  }

  /** `caches.open(name)`: creates an empty cache at the end when none has that name. */
  function Open(s: Store, name: string): (r: Store)
    ensures Has(r, name)
    ensures forall n :: n != name ==> IndexOf(r, n) == IndexOf(s, n)
    ensures EntriesOf(r, name) == EntriesOf(s, name)
  {
    if Has(s, name) then s
    else
      var r := s + [Cache(name, [])];
      assert forall n :: n != name ==> IndexOf(r, n) == IndexOf(s, n) by {
        forall n | n != name ensures IndexOf(r, n) == IndexOf(s, n) {
          IndexOfAppend(s, Cache(name, []), n);
        }
      }
      IndexOfAppend(s, Cache(name, []), name);
      r
  }

  lemma {:induction false} IndexOfAppend(s: Store, c: Cache, n: string)
    ensures IndexOf(s + [c], n) == if Has(s, n) then IndexOf(s, n) else if c.name == n then Some(|s|) else None
  {
    if |s| > 0 {
      assert (s + [c])[1..] == s[1..] + [c];
      IndexOfAppend(s[1..], c, n);
    }
  }

  lemma {:induction false} IndexOfUpdate(s: Store, i: nat, c: Cache, n: string)
    requires i < |s| && c.name == s[i].name
    ensures IndexOf(s[i := c], n) == IndexOf(s, n)
  {
    if |s| > 0 && i > 0 {
      assert s[i := c][1..] == s[1..][i - 1 := c];
      IndexOfUpdate(s[1..], i - 1, c, n);
    }
  }

  /** Replaces the entries of the cache called `name`, creating it when absent. */
  function SetEntries(s: Store, name: string, entries: seq<Entry>): (r: Store)
    ensures Has(r, name) && EntriesOf(r, name) == entries
    ensures forall n :: n != name ==> IndexOf(r, n) == IndexOf(Open(s, name), n)
    ensures forall n :: n != name ==> EntriesOf(r, n) == EntriesOf(s, n)
  {
    var o := Open(s, name);
    var i := IndexOf(o, name).value;
    var r := o[i := Cache(name, entries)];
    assert forall n :: IndexOf(r, n) == IndexOf(o, n) by {
      forall n ensures IndexOf(r, n) == IndexOf(o, n) {
        IndexOfUpdate(o, i, Cache(name, entries), n);
      }
    }
    r
  }

  /** `(await caches.open(name)).put(k, resp)`: the new entry replaces any entry for `k` and goes last. */
  function Put(s: Store, name: string, k: Key, resp: Response): Store {
    SetEntries(s, name, Without(EntriesOf(s, name), k) + [Entry(k, resp)])
  }

  /** `cache.delete(k)` on the cache called `name`. */
  function Delete(s: Store, name: string, k: Key): Store {
    SetEntries(s, name, Without(EntriesOf(s, name), k))
  }

  /** `caches.delete(name)`: drops the cache called `name` with all its entries. */
  function DeleteCache(s: Store, name: string): (r: Store)
    ensures forall c :: c in r <==> c in s && c.name != name
  {
    if |s| == 0 then []
    else if s[0].name == name then DeleteCache(s[1..], name)
    else [s[0]] + DeleteCache(s[1..], name)
  }

  /** `caches.match(k)`: the first cache, in creation order, holding `k` answers. */
  function Match(s: Store, k: Key): Option<Response> {
    if |s| == 0 then None
    else match Lookup(s[0].entries, k)
      case Some(r) => Some(r)
      case None => Match(s[1..], k)
  }

  // ---------------------------------------------------------------------------
  // Properties of the store operations

  lemma {:induction false} MatchIff(s: Store, k: Key)
    ensures Match(s, k).Some? <==> exists i :: 0 <= i < |s| && Lookup(s[i].entries, k).Some?
    ensures Match(s, k).Some? ==> exists i :: 0 <= i < |s| && Lookup(s[i].entries, k) == Match(s, k)
  {
    if |s| > 0 {
      MatchIff(s[1..], k);
      if Lookup(s[0].entries, k).None? {
        assert forall i :: 1 <= i < |s| ==> s[i] == s[1..][i - 1];
      }
    }
  }

  /** A cache searched before any other that holds `k` answers `caches.match(k)`. */
  lemma {:induction false} MatchFirstHolder(s: Store, i: nat, k: Key)
    requires i < |s| && Lookup(s[i].entries, k).Some?
    requires forall j :: 0 <= j < i ==> Lookup(s[j].entries, k).None?
    ensures Match(s, k) == Lookup(s[i].entries, k)
  {
    if i > 0 {
      MatchFirstHolder(s[1..], i - 1, k);
    }
  }

  /** After a put, the cache written holds exactly the new response under that key. */
  lemma PutStores(s: Store, name: string, k: Key, resp: Response)
    ensures Lookup(EntriesOf(Put(s, name, k, resp), name), k) == Some(resp)
  {
    LookupAppended(EntriesOf(s, name), k, resp);
  }

  /** A put changes no other key of that cache and no other cache. */
  lemma PutFrames(s: Store, name: string, k: Key, resp: Response)
    ensures forall other :: other != k ==>
      Lookup(EntriesOf(Put(s, name, k, resp), name), other) == Lookup(EntriesOf(s, name), other)
    ensures forall n :: n != name ==> EntriesOf(Put(s, name, k, resp), n) == EntriesOf(s, n)
  {
    forall other | other != k
      ensures Lookup(EntriesOf(Put(s, name, k, resp), name), other) == Lookup(EntriesOf(s, name), other)
    {
      LookupOtherAppended(EntriesOf(s, name), k, resp, other);
    }
  }

  /** A put keeps a cache free of duplicate keys. */
  lemma PutKeepsDistinct(s: Store, name: string, k: Key, resp: Response)
    requires DistinctKeys(EntriesOf(s, name))
    ensures DistinctKeys(EntriesOf(Put(s, name, k, resp), name))
  {
    var w := Without(EntriesOf(s, name), k);
    WithoutKeepsDistinct(EntriesOf(s, name), k);
    var e := w + [Entry(k, resp)];
    forall i, j | 0 <= i < j < |e| ensures e[i].key != e[j].key {
      if j == |e| - 1 {
        assert e[i] in w;
      }
    }
  }

  /** After a delete, the cache holds nothing under that key and every other key is untouched. */
  lemma DeleteRemoves(s: Store, name: string, k: Key)
    ensures Lookup(EntriesOf(Delete(s, name, k), name), k).None?
    ensures forall other :: other != k ==>
      Lookup(EntriesOf(Delete(s, name, k), name), other) == Lookup(EntriesOf(s, name), other)
    ensures forall n :: n != name ==> EntriesOf(Delete(s, name, k), n) == EntriesOf(s, n)
  {
    forall other | other != k
      ensures Lookup(EntriesOf(Delete(s, name, k), name), other) == Lookup(EntriesOf(s, name), other)
    {
      LookupWithoutOther(EntriesOf(s, name), k, other);
    }
  }

  /** Looking a key up after storing it: `caches.match` now finds a response for it. */
  lemma {:induction false} MatchAfterPut(s: Store, name: string, k: Key, resp: Response)
    ensures Match(Put(s, name, k, resp), k).Some?
  {
    var p := Put(s, name, k, resp);
    PutStores(s, name, k, resp);
    var i := IndexOf(p, name).value;
    assert Lookup(p[i].entries, k).Some?;
    MatchIff(p, k);
  }
}
