/**
 * The background page's analysis cache and message dispatcher
 * (src/background/background.js). The module-level `Map` becomes the class
 * `AnalysisCache`, whose value is a `CacheState`: the keys in insertion order
 * (JavaScript `Map` iteration order) and the entries by key. `Date.now()` is
 * a parameter. The operations on states are functions, and the lemmas about
 * them carry the cache's promises; the class methods are proved equal to them.
 */
module Background {
  import opened Wrappers

  // =============================================================== CONFIG

  /** `CONFIG.CACHE_DURATION`: one hour in milliseconds. */
  const CacheDuration := 3600000

  /** `CONFIG.MAX_CACHE_ITEMS`. */
  const MaxCacheItems := 100

  // ========================================================= cache values

  /** What `cacheAnalysis` stores: `{data, timestamp}`. */
  datatype Entry<D> = Entry(data: D, timestamp: int)

  datatype CacheState<D> = CacheState(keys: seq<string>, entries: map<string, Entry<D>>)

  predicate Distinct(s: seq<string>)
  {
    forall i, j :: 0 <= i < j < |s| ==> s[i] != s[j]
  }

  /** The keys are listed once each, and they are exactly the entries' keys. */
  ghost predicate WellFormed<D>(s: CacheState<D>)
  {
    Distinct(s.keys) && forall k :: k in s.entries <==> k in s.keys
  }

  function EmptyCache<D>(): (s: CacheState<D>)
    ensures WellFormed(s) && s.keys == [] && s.entries == map[]
  {
    CacheState([], map[])
  }

  /** `analysisCache.size` is the number of listed keys. */
  lemma {:induction false} SizeIsKeyCount<D>(s: CacheState<D>)
    requires WellFormed(s)
    ensures |s.entries| == |s.keys|
    decreases |s.keys|
  {
    if s.keys == [] {
      assert s.entries.Keys == {};
    } else {
      var n := |s.keys| - 1;
      var last := s.keys[n];
      var t := CacheState(s.keys[..n], s.entries - {last});
      assert last !in s.keys[..n];
      SizeIsKeyCount(t);
      assert s.entries.Keys == t.entries.Keys + {last};
    }
  }

  /** `keys` without `k`, order kept. */
  function RemoveKey(keys: seq<string>, k: string): (r: seq<string>)
    ensures forall x :: x in r <==> x in keys && x != k
    ensures Distinct(keys) ==> Distinct(r)
    ensures k !in keys ==> r == keys
    ensures Distinct(keys) && k in keys ==>
              exists i :: 0 <= i < |keys| && keys[i] == k && r == keys[..i] + keys[i + 1..]
  {
    if keys == [] then []
    else
      var rest := RemoveKey(keys[1..], k);
      if keys[0] == k then
        assert Distinct(keys) ==> rest == keys[..0] + keys[1..] by {
          if Distinct(keys) {
            DistinctCons(keys);
          }
        }
        rest
      else
        assert Distinct(keys) ==> Distinct([keys[0]] + rest) by {
          if Distinct(keys) {
            DistinctCons(keys);
            DistinctPrepend(keys[0], rest);
          }
        }
        assert Distinct(keys) && k in keys ==>
                 exists i :: 0 <= i < |keys| && keys[i] == k && [keys[0]] + rest == keys[..i] + keys[i + 1..] by {
          if Distinct(keys) && k in keys {
            DistinctCons(keys);
            assert keys == [keys[0]] + keys[1..];
            var j :| 0 <= j < |keys| - 1 && keys[1..][j] == k && rest == keys[1..][..j] + keys[1..][j + 1..];
            ConsSplit(keys, j);
            assert keys[j + 1] == k;
          }
        }
        [keys[0]] + rest
  }

  /** Taking out the element after position `j` of the tail is taking out
      position `j + 1` of the whole sequence. */
  lemma ConsSplit(keys: seq<string>, j: nat)
    requires j + 1 < |keys|
    ensures [keys[0]] + (keys[1..][..j] + keys[1..][j + 1..]) == keys[..j + 1] + keys[j + 2..]
  {
    assert keys[..j + 1] == [keys[0]] + keys[1..][..j];
    assert keys[j + 2..] == keys[1..][j + 1..];
  }

  lemma DistinctCons(s: seq<string>)
    requires Distinct(s) && s != []
    ensures Distinct(s[1..]) && s[0] !in s[1..]
  {
    assert forall i :: 0 <= i < |s| - 1 ==> s[1..][i] == s[i + 1];
  }

  lemma DistinctPrepend(x: string, s: seq<string>)
    requires Distinct(s) && x !in s
    ensures Distinct([x] + s)
  {
    var t := [x] + s;
    forall i, j | 0 <= i < j < |t|
      ensures t[i] != t[j]
    {
      assert t[j] == s[j - 1];
      if i > 0 {
        assert t[i] == s[i - 1];
      }
    }
  }

  /** `Map.delete`. */
  function Delete<D>(s: CacheState<D>, k: string): (t: CacheState<D>)
    requires WellFormed(s)
    ensures WellFormed(t)
  {
    CacheState(RemoveKey(s.keys, k), s.entries - {k})
  }

  /** `Map.set`: a key already present keeps its place, a new one goes last. */
  function SetEntry<D>(s: CacheState<D>, k: string, e: Entry<D>): (t: CacheState<D>)
    requires WellFormed(s)
    ensures WellFormed(t)
  {
    CacheState(if k in s.entries then s.keys else s.keys + [k], s.entries[k := e])
  }

  /** The first step of `cacheAnalysis`: at or above capacity the first key in
      insertion order is deleted. */
  function EvictOldest<D>(s: CacheState<D>): (t: CacheState<D>)
    requires WellFormed(s)
    ensures WellFormed(t)
  {
    if |s.keys| >= MaxCacheItems then
      assert forall i :: 0 <= i < |s.keys| - 1 ==> s.keys[1..][i] == s.keys[i + 1];
      CacheState(s.keys[1..], s.entries - {s.keys[0]})
    else s
  }

  /** `cacheAnalysis(url, data)` at time `now`. */
  function Put<D>(s: CacheState<D>, url: string, data: D, now: int): (t: CacheState<D>)
    requires WellFormed(s)
    ensures WellFormed(t)
  {
    SetEntry(EvictOldest(s), url, Entry(data, now))
  }

  datatype LookupResult<D> = LookupResult(state: CacheState<D>, data: Option<D>)

  /** `getCachedAnalysis(url)` at time `now`: the state afterwards and the result. */
  function Lookup<D>(s: CacheState<D>, url: string, now: int): (r: LookupResult<D>)
    requires WellFormed(s)
    ensures WellFormed(r.state)
  {
    if url !in s.entries then LookupResult(s, None)
    else if now - s.entries[url].timestamp > CacheDuration then LookupResult(Delete(s, url), None)
    else LookupResult(s, Some(s.entries[url].data))
  }

  // ============================================================ cache lemmas

  /** Below or at capacity before, below or at capacity after; the url holds
      the new entry. */
  lemma PutBound<D>(s: CacheState<D>, url: string, data: D, now: int)
    requires WellFormed(s) && |s.keys| <= MaxCacheItems
    ensures |Put(s, url, data, now).keys| <= MaxCacheItems
    ensures |Put(s, url, data, now).entries| <= MaxCacheItems
    ensures Put(s, url, data, now).entries[url] == Entry(data, now)
  {
    SizeIsKeyCount(Put(s, url, data, now));
  }

  /** At capacity exactly one key goes, the first inserted, even when `url` is
      already cached; every other entry is kept as it was. */
  lemma PutWhenFull<D>(s: CacheState<D>, url: string, data: D, now: int)
    requires WellFormed(s) && |s.keys| >= MaxCacheItems
    ensures var t := Put(s, url, data, now);
            var rest := s.keys[1..];
            t.keys == (if url in rest then rest else rest + [url])
            && (forall k :: k != url ==> (k in t.entries <==> k in s.entries && k != s.keys[0]))
            && (forall k :: k != url && k in t.entries ==> t.entries[k] == s.entries[k])
  {
  }

  /** Below capacity no key is removed: a new url goes last, and every other
      entry is kept as it was. */
  lemma PutWhenNotFull<D>(s: CacheState<D>, url: string, data: D, now: int)
    requires WellFormed(s) && |s.keys| < MaxCacheItems
    ensures var t := Put(s, url, data, now);
            t.keys == (if url in s.entries then s.keys else s.keys + [url])
            && t.entries.Keys == s.entries.Keys + {url}
            && (forall k :: k != url && k in t.entries ==> t.entries[k] == s.entries[k])
  {
  }

  /** Re-caching a key below capacity changes only that key's entry: the size
      and the key order stay. */
  lemma OverwriteKeepsOrder<D>(s: CacheState<D>, url: string, data: D, now: int)
    requires WellFormed(s) && |s.keys| < MaxCacheItems && url in s.entries
    ensures Put(s, url, data, now).keys == s.keys
    ensures Put(s, url, data, now).entries == s.entries[url := Entry(data, now)]
  {
  }

  /** At capacity, re-caching the OLDEST key deletes it first and so moves it
      to the end of the insertion order. */
  lemma OverwriteOldestWhenFull<D>(s: CacheState<D>, data: D, now: int)
    requires WellFormed(s) && |s.keys| >= MaxCacheItems
    ensures s.keys != [] && Put(s, s.keys[0], data, now).keys == s.keys[1..] + [s.keys[0]]
  {
    DistinctCons(s.keys);
  }

  /** The three outcomes of a lookup. Expiry is strict: an entry exactly
      `CACHE_DURATION` old is still returned. Only an expired entry is removed. */
  lemma LookupRules<D>(s: CacheState<D>, url: string, now: int)
    requires WellFormed(s)
    ensures url !in s.entries ==> Lookup(s, url, now) == LookupResult(s, None)
    ensures url in s.entries && now - s.entries[url].timestamp > CacheDuration ==>
              var t := Lookup(s, url, now).state;
              Lookup(s, url, now).data == None
              && url !in t.entries && t.keys == RemoveKey(s.keys, url)
              && forall k :: k in t.entries ==> k in s.entries && t.entries[k] == s.entries[k]
    ensures url in s.entries && now - s.entries[url].timestamp <= CacheDuration ==>
              Lookup(s, url, now) == LookupResult(s, Some(s.entries[url].data))
  {
  }

  /** Storing then looking up within `CACHE_DURATION` gives the data back and
      changes nothing; one millisecond later it is gone. */
  lemma PutThenLookup<D>(s: CacheState<D>, url: string, data: D, t: int, t': int)
    requires WellFormed(s)
    ensures t' - t <= CacheDuration ==>
              Lookup(Put(s, url, data, t), url, t') == LookupResult(Put(s, url, data, t), Some(data))
    ensures t' - t > CacheDuration ==>
              Lookup(Put(s, url, data, t), url, t').data == None
              && url !in Lookup(Put(s, url, data, t), url, t').state.entries
  {
  }

  /** An entry stays retrievable across other puts as long as it is not the
      one evicted. */
  lemma PutKeepsOthers<D>(s: CacheState<D>, url: string, data: D, now: int, k: string)
    requires WellFormed(s) && k != url && k in s.entries
    requires |s.keys| < MaxCacheItems || s.keys[0] != k
    ensures k in Put(s, url, data, now).entries && Put(s, url, data, now).entries[k] == s.entries[k]
  {
  }

  /** `cacheAnalysis` for each of `urls` in turn. */
  function PutAll<D>(s: CacheState<D>, urls: seq<string>, data: D, now: int): (t: CacheState<D>)
    requires WellFormed(s)
    ensures WellFormed(t)
    decreases |urls|
  {
    if urls == [] then s else PutAll(Put(s, urls[0], data, now), urls[1..], data, now)
  }

  function Min(a: int, b: int): int
  {
    if a <= b then a else b
  }

  lemma DistinctSuffix(s: seq<string>, d: nat)
    requires Distinct(s) && d <= |s|
    ensures Distinct(s[d..])
  {
    assert forall i :: 0 <= i < |s| - d ==> s[d..][i] == s[d + i];
  }

  /** Caching a url not yet cached appends it, after the eviction if full. */
  lemma PutFresh<D>(s: CacheState<D>, url: string, data: D, now: int)
    requires WellFormed(s) && url !in s.keys
    ensures Put(s, url, data, now).keys == (if |s.keys| >= MaxCacheItems then s.keys[1..] else s.keys) + [url]
  {
    if |s.keys| >= MaxCacheItems {
      assert url !in s.keys[1..];
    }
  }

  lemma HeadNotInFront(a: seq<string>, b: seq<string>)
    requires Distinct(a + b) && b != []
    ensures b[0] !in a
  {
    assert forall i :: 0 <= i < |a| ==> (a + b)[i] == a[i];
    assert (a + b)[|a|] == b[0];
  }

  /** The key order after caching a fresh url. */
  function AppendKey(keys: seq<string>, url: string): seq<string>
  {
    (if |keys| >= MaxCacheItems then keys[1..] else keys) + [url]
  }

  function AppendKeys(keys: seq<string>, urls: seq<string>): seq<string>
    decreases |urls|
  {
    if urls == [] then keys else AppendKeys(AppendKey(keys, urls[0]), urls[1..])
  }

  lemma {:induction false} PutAllKeys<D>(s: CacheState<D>, urls: seq<string>, data: D, now: int)
    requires WellFormed(s) && Distinct(s.keys + urls)
    ensures PutAll(s, urls, data, now).keys == AppendKeys(s.keys, urls)
    decreases |urls|
  {
    if urls != [] {
      var s1 := Put(s, urls[0], data, now);
      var d := if |s.keys| >= MaxCacheItems then 1 else 0;
      assert s1.keys == AppendKey(s.keys, urls[0]) && s1.keys + urls[1..] == (s.keys + urls)[d..] by {
        HeadNotInFront(s.keys, urls);
        PutFresh(s, urls[0], data, now);
        assert [urls[0]] + urls[1..] == urls;
      }
      DistinctSuffix(s.keys + urls, d);
      PutAllKeys(s1, urls[1..], data, now);
    }
  }

  lemma {:induction false} AppendKeysKeepsLast(keys: seq<string>, urls: seq<string>)
    requires |keys| <= MaxCacheItems
    ensures var all := keys + urls;
            AppendKeys(keys, urls) == all[|all| - Min(|all|, MaxCacheItems)..]
    decreases |urls|
  {
    var all := keys + urls;
    if urls == [] {
      assert all == keys;
    } else {
      var k1 := AppendKey(keys, urls[0]);
      assert [urls[0]] + urls[1..] == urls;
      AppendKeysKeepsLast(k1, urls[1..]);
      if |keys| >= MaxCacheItems {
        assert k1 + urls[1..] == all[1..];
        assert all[1..][|all| - 1 - MaxCacheItems..] == all[|all| - MaxCacheItems..];
      } else {
        assert k1 + urls[1..] == all;
      }
    }
  }

  /** Inserting fresh keys keeps exactly the last `MAX_CACHE_ITEMS` of all the
      keys ever inserted, oldest first. */
  lemma PutAllFresh<D>(s: CacheState<D>, urls: seq<string>, data: D, now: int)
    requires WellFormed(s) && |s.keys| <= MaxCacheItems
    requires Distinct(s.keys + urls)
    ensures var all := s.keys + urls;
            PutAll(s, urls, data, now).keys == all[|all| - Min(|all|, MaxCacheItems)..]
  {
    PutAllKeys(s, urls, data, now);
    AppendKeysKeepsLast(s.keys, urls);
  }

  lemma DroppedNotInSuffix(s: seq<string>, k: nat)
    requires Distinct(s) && k <= |s|
    ensures forall i :: 0 <= i < k ==> s[i] !in s[k..]
  {
    forall i, j | 0 <= i < k && 0 <= j < |s| - k
      ensures s[k..][j] != s[i]
    {
      assert s[k..][j] == s[k + j];
    }
  }

  /** Filling an empty cache with `MAX_CACHE_ITEMS + k` distinct urls leaves
      exactly `MAX_CACHE_ITEMS` entries: the first `k` urls are gone. */
  lemma CacheBoundScenario<D>(urls: seq<string>, data: D, now: int, k: nat)
    requires Distinct(urls) && |urls| == MaxCacheItems + k
    ensures var t := PutAll(EmptyCache<D>(), urls, data, now);
            t.keys == urls[k..] && |t.entries| == MaxCacheItems
            && forall i :: 0 <= i < k ==> urls[i] !in t.entries
  {
    var e := EmptyCache<D>();
    assert e.keys + urls == urls;
    PutAllFresh(e, urls, data, now);
    var t := PutAll(e, urls, data, now);
    assert t.keys == urls[k..];
    SizeIsKeyCount(t);
    DroppedNotInSuffix(urls, k);
  }

  // ============================================================ cache object

  /** The module-level `analysisCache`. */
  class AnalysisCache<D> {
    var keys: seq<string>
    var entries: map<string, Entry<D>>

    function State(): CacheState<D>
      reads this
    {
      CacheState(keys, entries)
    }

    ghost predicate Valid()
      reads this
    {
      WellFormed(State())
    }

    constructor ()
      ensures Valid() && State() == EmptyCache()
    {
      keys := [];
      entries := map[];
    }

    /** `cacheAnalysis(url, data)`, with `Date.now()` as `now`. */
    method CacheAnalysis(url: string, data: D, now: int)
      requires Valid()
      modifies this
      ensures Valid() && State() == Put(old(State()), url, data, now)
    {
      if |keys| >= MaxCacheItems {
        var oldestKey := keys[0];
        keys := keys[1..];
        entries := entries - {oldestKey};
      }
      if url !in entries {
        keys := keys + [url];
      }
      entries := entries[url := Entry(data, now)];
    }

    /** `getCachedAnalysis(url)`, with `Date.now()` as `now`; `None` is `null`. */
    method GetCachedAnalysis(url: string, now: int) returns (r: Option<D>)
      requires Valid()
      modifies this
      ensures Valid() && LookupResult(State(), r) == Lookup(old(State()), url, now)
    {
      if url !in entries {
        return None;
      }
      var cached := entries[url];
      if now - cached.timestamp > CacheDuration {
        keys := RemoveKey(keys, url);
        entries := entries - {url};
        return None;
      }
      return Some(cached.data);
    }

    /** `clearAnalysisCache`. */
    method ClearAnalysisCache() returns (ok: bool)
      requires Valid()
      modifies this
      ensures Valid() && ok && State() == EmptyCache()
    {
      keys := [];
      entries := map[];
      return true;
    }
  }

  // ============================================================ analyzePage

  /** The results of the four analysis helpers `analyzePage` awaits. */
  datatype Findings<F> = Findings(basic: F, technical: F, performance: F, security: F)

  datatype AnalysisResult<F> = AnalysisResult(url: string, timestamp: int, findings: Findings<F>)

  /** The three `Date.now()` readings on the way through `analyzePage`: in the
      cache lookup, in the result, and in `cacheAnalysis`. */
  datatype Clock = Clock(lookup: int, result: int, store: int)

  datatype PageOutcome<F> = PageOutcome(result: AnalysisResult<F>, state: CacheState<AnalysisResult<F>>)

  /** `analyzePage(url)` on a cache state. */
  function AnalyzePageSpec<F>(s: CacheState<AnalysisResult<F>>, url: string, clock: Clock, findings: Findings<F>): (o: PageOutcome<F>)
    requires WellFormed(s)
    ensures WellFormed(o.state)
  {
    var lookup := Lookup(s, url, clock.lookup);
    match lookup.data
    case Some(cached) => PageOutcome(cached, lookup.state)
    case None =>
      var result := AnalysisResult(url, clock.result, findings);
      PageOutcome(result, Put(lookup.state, url, result, clock.store))
  }

  /** A fresh hit is returned as stored, and the cache is left as it was. */
  lemma AnalyzePageHit<F>(s: CacheState<AnalysisResult<F>>, url: string, clock: Clock, findings: Findings<F>)
    requires WellFormed(s) && url in s.entries && clock.lookup - s.entries[url].timestamp <= CacheDuration
    ensures AnalyzePageSpec(s, url, clock, findings) == PageOutcome(s.entries[url].data, s)
  {
  }

  /** On a miss (absent or expired) the result carries the url, is stored, and
      a lookup within `CACHE_DURATION` of storing returns it. */
  lemma AnalyzePageMiss<F>(s: CacheState<AnalysisResult<F>>, url: string, clock: Clock, findings: Findings<F>, later: int)
    requires WellFormed(s)
    requires url !in s.entries || clock.lookup - s.entries[url].timestamp > CacheDuration
    requires later - clock.store <= CacheDuration
    ensures var o := AnalyzePageSpec(s, url, clock, findings);
            o.result == AnalysisResult(url, clock.result, findings)
            && o.result.url == url
            && Lookup(o.state, url, later).data == Some(o.result)
  {
  }

  /** `analyzePage(url)`. The helpers' results are an input, as the helpers
      are not part of this model. */
  method AnalyzePage<F>(cache: AnalysisCache<AnalysisResult<F>>, url: string, clock: Clock, findings: Findings<F>)
    returns (r: AnalysisResult<F>)
    requires cache.Valid()
    modifies cache
    ensures cache.Valid()
    ensures PageOutcome(r, cache.State()) == AnalyzePageSpec(old(cache.State()), url, clock, findings)
  {
    var cachedResult := cache.GetCachedAnalysis(url, clock.lookup);
    if cachedResult.Some? {
      return cachedResult.value;
    }
    var result := AnalysisResult(url, clock.result, findings);
    cache.CacheAnalysis(url, result, clock.store);
    return result;
  }

  // ========================================================== handleMessage

  datatype Action = AnalyzeUrl | GetCachedAnalysis | ClearCache | GetSettings | UpdateSettings

  function ActionName(a: Action): string
  {
    match a
    case AnalyzeUrl => "analyzeUrl"
    case GetCachedAnalysis => "getCachedAnalysis"
    case ClearCache => "clearCache"
    case GetSettings => "getSettings"
    case UpdateSettings => "updateSettings"
  }

  lemma NoActionNamed(action: string)
    requires action !in ["analyzeUrl", "getCachedAnalysis", "clearCache", "getSettings", "updateSettings"]
    ensures forall a :: ActionName(a) != action
  {
  }

  /** The `switch (request.action)` of `handleMessage`. */
  function RouteAction(action: string): (r: Result<Action, string>)
    ensures r.Success? ==> ActionName(r.value) == action
    ensures r.Failure? <==> forall a :: ActionName(a) != action
    ensures r.Failure? ==> r.error == "Unknown action: " + action
  {
    if action == "analyzeUrl" then Success(AnalyzeUrl)
    else if action == "getCachedAnalysis" then Success(GetCachedAnalysis)
    else if action == "clearCache" then Success(ClearCache)
    else if action == "getSettings" then Success(GetSettings)
    else if action == "updateSettings" then Success(UpdateSettings)
    else
      NoActionNamed(action);
      Failure("Unknown action: " + action)
  }

  /** Every action's name routes to that action. */
  lemma RouteActionName(a: Action)
    ensures RouteAction(ActionName(a)) == Success(a)
  {
  }

  datatype Request<S> = Request(action: string, url: string, settings: S)

  datatype Response<F, S> =
    | Analysis(result: AnalysisResult<F>)
    | Cached(cached: Option<AnalysisResult<F>>)
    | Cleared(cleared: bool)
    | Settings(settings: S)
    | SettingsSaved(saved: bool)
    | Rejected(error: string)

  /** `handleMessage(request)`. The stored settings (`chrome.storage.sync`) are
      passed in as `stored` and come back as `newStored`. */
  method HandleMessage<F, S>(cache: AnalysisCache<AnalysisResult<F>>, request: Request<S>, clock: Clock,
                             findings: Findings<F>, stored: S)
    returns (response: Response<F, S>, newStored: S)
    requires cache.Valid()
    modifies cache
    ensures cache.Valid()
    ensures match RouteAction(request.action)
      case Failure(e) => response == Rejected(e) && cache.State() == old(cache.State()) && newStored == stored
      case Success(AnalyzeUrl) =>
        var o := AnalyzePageSpec(old(cache.State()), request.url, clock, findings);
        response == Analysis(o.result) && cache.State() == o.state && newStored == stored
      case Success(GetCachedAnalysis) =>
        var l := Lookup(old(cache.State()), request.url, clock.lookup);
        response == Cached(l.data) && cache.State() == l.state && newStored == stored
      case Success(ClearCache) =>
        response == Cleared(true) && cache.State() == EmptyCache() && newStored == stored
      case Success(GetSettings) =>
        response == Settings(stored) && cache.State() == old(cache.State()) && newStored == stored
      case Success(UpdateSettings) =>
        response == SettingsSaved(true) && cache.State() == old(cache.State()) && newStored == request.settings
  {
    newStored := stored;
    var route := RouteAction(request.action);
    match route
    case Failure(e) =>
      response := Rejected(e);
    case Success(action) =>
      match action
      case AnalyzeUrl =>
        var result := AnalyzePage(cache, request.url, clock, findings);
        response := Analysis(result);
      case GetCachedAnalysis =>
        var cached := cache.GetCachedAnalysis(request.url, clock.lookup);
        response := Cached(cached);
      case ClearCache =>
        var ok := cache.ClearAnalysisCache();
        response := Cleared(ok);
      case GetSettings =>
        response := Settings(stored);
      case UpdateSettings =>
        newStored := request.settings;
        response := SettingsSaved(true);
  }
}
