/** The image cache service: a map from url to cache entry plus an access
    order used for least-recently-used eviction, and the flag machine each
    entry goes through while its request is in flight. A request (an
    `XMLHttpRequest` object in the service) is represented by a number handed
    out once; its completion, failure and abort callbacks are methods that
    name the request they belong to. */
module ImageCache {
  import opened Seqs

  /** `LoadPriority`: LOW = 0, NORMAL = 1, HIGH = 2. */
  datatype Priority = Low | Normal | High

  function Level(p: Priority): (r: nat)
    ensures r <= 2
  {
    match p
    case Low => 0
    case Normal => 1
    case High => 2
  }

  /** A cache entry. `request` is the request that last started loading it,
      if any; `progress` is 0 until a successful load sets it to 100. */
  datatype CachedImage = CachedImage(
    url: string,
    objectUrl: string,
    loaded: bool,
    loading: bool,
    error: bool,
    progress: nat,
    priority: Priority,
    request: Option<nat>)

  /** What `loadImage` hands back: an already loaded object url, the request
      already in flight for that url, or the request it has just started. */
  datatype LoadOutcome = Resolved(objectUrl: string) | Joined(request: nat) | Started(request: nat)

  const MaxCacheSize: nat := 50

  /** The priority an entry keeps when requested again: the higher of the two. */
  function Raised(current: Priority, requested: Priority): (r: Priority)
    ensures Level(r) >= Level(current) && Level(r) >= Level(requested)
    ensures r == current || r == requested
  {
    if Level(requested) > Level(current) then requested else current
  }

  /** The cache after a repeated request for a cached url: the entry keeps
      the higher of its priority and the requested one. */
  function WithRaisedPriority(cache: map<string, CachedImage>, url: string, priority: Priority): (r: map<string, CachedImage>)
    requires url in cache
    ensures r.Keys == cache.Keys
    ensures r[url] == cache[url].(priority := Raised(cache[url].priority, priority))
    ensures forall u :: u in cache && u != url ==> r[u] == cache[u]
  {
    cache[url := cache[url].(priority := Raised(cache[url].priority, priority))]
  }

  /** Every url of `cache` other than `url` was in `before` with the same entry. */
  ghost predicate Agrees(cache: map<string, CachedImage>, before: map<string, CachedImage>, url: string) {
    forall u :: u in cache && u != url ==> u in before && cache[u] == before[u]
  }

  /** The entry as a request `request` starts loading it. */
  function LoadingEntry(url: string, priority: Priority, request: nat): CachedImage {
    CachedImage(url, "", false, true, false, 0, priority, Some(request))
  }

  /** An entry's flags are consistent: at most one of loading, loaded and
      failed; only a loaded entry has an object url and full progress; an
      entry in the cache always has had a request. */
  predicate EntryOk(url: string, e: CachedImage) {
    e.url == url
    && !(e.loaded && e.loading) && !(e.error && e.loading) && !(e.loaded && e.error)
    && (if e.loaded then e.progress == 100 else e.progress == 0 && e.objectUrl == "")
    && e.request.Some?
  }

  /** The urls that `cleanupCache` keeps: the `MaxCacheSize` most recently used. */
  function Evicted(order: seq<string>): (r: seq<string>)
    ensures |r| == if |order| > MaxCacheSize then MaxCacheSize else |order|
    ensures r == order[|order| - |r|..]
  {
    if |order| > MaxCacheSize then order[|order| - MaxCacheSize..] else order
  }

  /** The url a load has just moved to the back is never the one evicted. */
  lemma RequestedUrlSurvives(order: seq<string>, url: string)
    ensures Evicted(MoveToBack(order, url)) != []
    ensures Last(Evicted(MoveToBack(order, url))) == url
  {
  }

  /** A map whose keys are exactly the elements of a duplicate-free sequence
      has as many entries as the sequence. */
  lemma CardFromOrder(m: map<string, CachedImage>, s: seq<string>)
    requires NoDuplicates(s)
    requires forall u :: u in m <==> u in s
    ensures |m| == |s|
  {
    DistinctCardinality(s);
    assert m.Keys == set x | x in s;
  }

  // ---------------------------------------- cleanupCache as the service writes it

  /** `cleanupCache` as written: the shifted url is cleared only if it is
      truthy, so an empty url leaves the access order but stays in the map. */
  function CleanupAsWritten(cache: map<string, CachedImage>, order: seq<string>): (r: (map<string, CachedImage>, seq<string>))
    ensures r.0.Keys <= cache.Keys
    ensures forall u :: u in cache && u !in r.0 ==> u in order && u != ""
    ensures forall i :: 0 <= i < |r.1| ==> r.1[i] in order
    ensures |r.0| > MaxCacheSize ==> r.1 == []
    decreases |order|
  {
    if |cache| > MaxCacheSize && |order| > 0 then
      var oldest := order[0];
      var rest := order[1..];
      if oldest != "" && oldest in cache then CleanupAsWritten(cache - {oldest}, RemoveFirst(rest, oldest))
      else CleanupAsWritten(cache, rest)
    else (cache, order)
  }

  /** Once the empty url is in the map but not in the access order, the
      written cleanup never removes it from the map. */
  lemma {:induction false} OrphanStaysCached(cache: map<string, CachedImage>, order: seq<string>)
    requires "" in cache && "" !in order
    ensures "" in CleanupAsWritten(cache, order).0 && "" !in CleanupAsWritten(cache, order).1
    decreases |order|
  {
    if |cache| > MaxCacheSize && |order| > 0 {
      var oldest := order[0];
      var rest := order[1..];
      assert "" !in rest;
      if oldest != "" && oldest in cache {
        OrphanStaysCached(cache - {oldest}, RemoveFirst(rest, oldest));
      } else {
        OrphanStaysCached(cache, rest);
      }
    }
  }

  /** The written cleanup breaks the cache invariant: with the empty url least
      recently used in an over-full cache, it ends up in the map without a
      place in the access order, out of eviction's reach until the empty url
      is requested again and so returns to the order. */
  lemma CleanupAsWrittenLosesEmptyUrl(cache: map<string, CachedImage>, order: seq<string>)
    requires NoDuplicates(order) && forall u :: u in cache <==> u in order
    requires order != [] && order[0] == "" && |cache| > MaxCacheSize
    ensures "" in CleanupAsWritten(cache, order).0 && "" !in CleanupAsWritten(cache, order).1
  {
    var rest := order[1..];
    assert "" in cache;
    assert "" !in rest by {
      forall i | 0 <= i < |rest| ensures rest[i] != "" {
        assert rest[i] == order[i + 1];
      }
    }
    assert CleanupAsWritten(cache, order) == CleanupAsWritten(cache, rest);
    OrphanStaysCached(cache, rest);
  }

  /** The cache service. */
  class ImageCacheService {
    var cache: map<string, CachedImage>
    var accessOrder: seq<string>
    /** The number the next request gets. */
    var nextRequest: nat

    /** Keys and access order agree, without duplicates, entries are
        consistent and their requests were handed out before. */
    ghost predicate Consistent()
      reads this
    {
      NoDuplicates(accessOrder)
      && (forall u :: u in cache <==> u in accessOrder)
      && (forall u :: u in cache ==> EntryOk(u, cache[u]) && cache[u].request.value < nextRequest)
    }

    /** The invariant every public operation keeps: consistent and within the size bound. */
    ghost predicate Valid()
      reads this
    {
      Consistent() && |cache| <= MaxCacheSize
    }

    constructor ()
      ensures Valid() && cache == map[] && accessOrder == []
    {
      cache := map[];
      accessOrder := [];
      nextRequest := 0;
    }

    /** `updateAccessOrder`. */
    method UpdateAccessOrder(url: string)
      modifies this
      ensures accessOrder == MoveToBack(old(accessOrder), url)
      ensures cache == old(cache) && nextRequest == old(nextRequest)
    {
      accessOrder := MoveToBackOf(accessOrder, url);
    }

    /** `getCachedImage`: the entry, if any, which also becomes the most recently used. */
    method GetCachedImage(url: string) returns (r: Option<CachedImage>)
      requires Valid()
      modifies this
      ensures Valid()
      ensures url !in old(cache) ==> r.None? && accessOrder == old(accessOrder)
      ensures url in old(cache) ==> r == Some(old(cache)[url]) && accessOrder == MoveToBack(old(accessOrder), url)
      ensures cache == old(cache) && nextRequest == old(nextRequest)
    {
      if url in cache {
        var cached := cache[url];
        MoveToBackSpec(accessOrder, url);
        UpdateAccessOrder(url);
        CardFromOrder(cache, accessOrder);
        return Some(cached);
      }
      return None;
    }

    /** `clearCachedImage`: forget the url in the map and the access order
      (aborting its request and revoking its object url are not modelled). */
    method ClearCachedImage(url: string)
      modifies this
      ensures cache == old(cache) - {url}
      ensures url in old(cache) ==> accessOrder == RemoveFirst(old(accessOrder), url)
      ensures url !in old(cache) ==> accessOrder == old(accessOrder)
      ensures nextRequest == old(nextRequest)
      ensures old(Valid()) ==> Valid()
    {
      if url in cache {
        ghost var wasValid := Valid();
        ghost var before := accessOrder;
        cache := cache - {url};
        accessOrder := RemoveFirstOf(accessOrder, url);
        if wasValid {
          RemoveFirstIsFilter(before, url);
          RemoveFirstNoDuplicates(before, url);
          CardFromOrder(old(cache), before);
          CardFromOrder(cache, accessOrder);
        }
      }
    }

    /** `cleanupCache`: evict least recently used urls from the front of the
        access order while the cache is over its size. Every shifted url is
        cleared, whatever its text. */
    method CleanupCache()
      requires Consistent()
      modifies this
      ensures Valid()
      ensures accessOrder == Evicted(old(accessOrder))
      ensures forall u :: u in cache ==> u in old(cache) && cache[u] == old(cache)[u]
      ensures nextRequest == old(nextRequest)
    {
      CardFromOrder(cache, accessOrder);
      ghost var shifted := 0;
      while |cache| > MaxCacheSize && |accessOrder| > 0
        invariant Consistent()
        invariant |cache| == |accessOrder|
        invariant 0 <= shifted <= |old(accessOrder)| && accessOrder == old(accessOrder)[shifted..]
        invariant |old(accessOrder)| <= MaxCacheSize ==> shifted == 0
        invariant |old(accessOrder)| > MaxCacheSize ==> |accessOrder| >= MaxCacheSize
        invariant forall u :: u in cache ==> u in old(cache) && cache[u] == old(cache)[u]
        invariant nextRequest == old(nextRequest)
        decreases |accessOrder|
      {
        EvictOldest();
        shifted := shifted + 1;
      }
      if |old(accessOrder)| > MaxCacheSize {
        assert |accessOrder| == MaxCacheSize;
        assert shifted == |old(accessOrder)| - MaxCacheSize;
      }
    }

    /** One round of the eviction loop: shift the least recently used url off
        the access order and clear it. */
    method EvictOldest()
      requires Consistent() && accessOrder != []
      modifies this
      ensures Consistent() && |cache| == |accessOrder|
      ensures accessOrder == old(accessOrder)[1..]
      ensures cache == old(cache) - {old(accessOrder)[0]}
      ensures nextRequest == old(nextRequest)
    {
      var oldest := accessOrder[0];
      ghost var before := accessOrder;
      accessOrder := accessOrder[1..];
      assert oldest !in accessOrder by {
        forall i | 0 <= i < |accessOrder| ensures accessOrder[i] != oldest {
          assert accessOrder[i] == before[i + 1];
        }
      }
      assert NoDuplicates(accessOrder) by {
        forall i, j | 0 <= i < j < |accessOrder| ensures accessOrder[i] != accessOrder[j] {
          assert accessOrder[i] == before[i + 1] && accessOrder[j] == before[j + 1];
        }
      }
      ClearCachedImage(oldest);
      assert forall u :: u in cache <==> u in accessOrder;
      CardFromOrder(cache, accessOrder);
    }

    /** `loadImage` (state transitions only): a loaded entry resolves to its
        object url and a loading one joins its request, both keeping the
        higher priority; otherwise a failed entry is discarded, and a fresh
        or idle entry starts a new request and the cache is cleaned up. */
    method LoadImage(url: string, priority: Priority) returns (outcome: LoadOutcome)
      requires Valid()
      modifies this
      ensures Valid()
      ensures url in cache && accessOrder != [] && Last(accessOrder) == url
      ensures old(url in cache && cache[url].loaded && !cache[url].error) ==>
                outcome == Resolved(old(cache[url].objectUrl))
                && cache == WithRaisedPriority(old(cache), url, priority)
                && accessOrder == MoveToBack(old(accessOrder), url) && nextRequest == old(nextRequest)
      ensures old(url in cache && cache[url].loading) ==>
                outcome == Joined(old(cache[url].request.value))
                && cache == WithRaisedPriority(old(cache), url, priority)
                && accessOrder == MoveToBack(old(accessOrder), url) && nextRequest == old(nextRequest)
      ensures !old(url in cache && (cache[url].loaded || cache[url].loading)) ==>
                outcome == Started(old(nextRequest)) && nextRequest == old(nextRequest) + 1
                && cache[url] == LoadingEntry(url, priority, old(nextRequest))
                && accessOrder == Evicted(MoveToBack(old(accessOrder), url))
                && Agrees(cache, old(cache), url)
    {
      ghost var order0, cache0 := accessOrder, cache;
      MoveToBackSpec(order0, url);
      var early := Revisit(url, priority);
      if early.Some? {
        return early.value;
      }
      assert Agrees(cache, cache0, url);
      ghost var order1 := accessOrder;
      assert url !in cache ==> order1 == RemoveFirst(order0, url);
      outcome := Start(url, priority);
      assert url !in cache0 || cache0[url].error ==> MoveToBack(order1, url) == MoveToBack(order0, url);
    }

    /** The part of `loadImage` that starts a request: a url not cached gets
        a new entry at the back of the access order, the entry starts loading
        under a new request, and the cache is cleaned up. */
    method Start(url: string, priority: Priority) returns (outcome: LoadOutcome)
      requires Valid()
      requires url in cache ==> !cache[url].loaded && !cache[url].loading && !cache[url].error
                                && accessOrder != [] && Last(accessOrder) == url
      modifies this
      ensures Valid()
      ensures outcome == Started(old(nextRequest)) && nextRequest == old(nextRequest) + 1
      ensures url in cache && cache[url] == LoadingEntry(url, priority, old(nextRequest))
      ensures url in old(cache) ==> accessOrder == Evicted(old(accessOrder))
      ensures url !in old(cache) ==> accessOrder == Evicted(old(accessOrder) + [url])
      ensures Agrees(cache, old(cache), url)
    {
      ghost var order0 := accessOrder;
      if url !in cache {
        InsertEntry(url, priority);
      }
      assert Agrees(cache, old(cache), url);
      outcome := StartRequest(url, priority);
      assert Agrees(cache, old(cache), url);
      assert Last(accessOrder) == url;
      CleanupCache();
      assert Last(accessOrder) == url;
    }

    /** The part of `loadImage` before a request starts: look the url up
        (making it the most recently used), raise its priority, and answer
        from a loaded or loading entry; a failed entry is cleared. */
    method Revisit(url: string, priority: Priority) returns (early: Option<LoadOutcome>)
      requires Valid()
      modifies this
      ensures Valid() && nextRequest == old(nextRequest)
      ensures old(url in cache && cache[url].loaded && !cache[url].error) ==>
                early == Some(Resolved(old(cache[url].objectUrl)))
                && cache == WithRaisedPriority(old(cache), url, priority) && accessOrder == MoveToBack(old(accessOrder), url)
      ensures old(url in cache && cache[url].loading) ==>
                early == Some(Joined(old(cache[url].request.value)))
                && cache == WithRaisedPriority(old(cache), url, priority) && accessOrder == MoveToBack(old(accessOrder), url)
      ensures old(url in cache && !cache[url].loaded && !cache[url].loading && !cache[url].error) ==>
                early.None? && cache == WithRaisedPriority(old(cache), url, priority) && accessOrder == MoveToBack(old(accessOrder), url)
      ensures old(url in cache && cache[url].error) ==>
                early.None? && cache == old(cache) - {url} && accessOrder == RemoveFirst(old(accessOrder), url)
      ensures url !in old(cache) ==> early.None? && cache == old(cache) && accessOrder == old(accessOrder)
    {
      ghost var order0 := accessOrder;
      var cached := GetCachedImage(url);
      if cached.Some? {
        early := Reuse(url, priority);
        if old(cache[url].error) {
          RemoveAfterMove(order0, url);
        }
      } else {
        early := None;
      }
    }

    /** The decisions `loadImage` takes on a cached entry. */
    method Reuse(url: string, priority: Priority) returns (early: Option<LoadOutcome>)
      requires Valid() && url in cache
      modifies this
      ensures Valid() && nextRequest == old(nextRequest)
      ensures old(cache[url].loaded && !cache[url].error) ==>
                early == Some(Resolved(old(cache[url].objectUrl)))
      ensures old(cache[url].loading) ==> early == Some(Joined(old(cache[url].request.value)))
      ensures !old(cache[url].loaded || cache[url].loading) ==> early.None?
      ensures !old(cache[url].error) ==> cache == WithRaisedPriority(old(cache), url, priority) && accessOrder == old(accessOrder)
      ensures old(cache[url].error) ==> cache == old(cache) - {url} && accessOrder == RemoveFirst(old(accessOrder), url)
    {
      var entry := cache[url];
      if Level(priority) > Level(entry.priority) {
        entry := entry.(priority := priority);
        // the source assigns the priority, then has `adjustLoadingPriority` assign it again
        AdjustLoadingPriority(url, priority);
      }
      if entry.loaded && !entry.error {
        return Some(Resolved(entry.objectUrl));
      }
      if entry.loading {
        return Some(Joined(entry.request.value));
      }
      if entry.error {
        ClearCachedImage(url);
      }
      return None;
    }

    /** A new entry for a url not cached, appended to the access order; it has
        no request yet. */
    method InsertEntry(url: string, priority: Priority)
      requires Valid() && url !in cache
      modifies this
      ensures cache == old(cache)[url := CachedImage(url, "", false, true, false, 0, priority, None)]
      ensures accessOrder == old(accessOrder) + [url] && nextRequest == old(nextRequest)
      ensures NoDuplicates(accessOrder) && (forall u :: u in cache <==> u in accessOrder)
    {
      cache := cache[url := CachedImage(url, "", false, true, false, 0, priority, None)];
      UpdateAccessOrder(url);
      assert RemoveFirst(old(accessOrder), url) == old(accessOrder);
      forall i, j | 0 <= i < j < |accessOrder| ensures accessOrder[i] != accessOrder[j] {
        if j == |accessOrder| - 1 {
          assert accessOrder[i] == old(accessOrder)[i] && old(accessOrder)[i] in old(accessOrder);
        }
      }
    }

    /** `adjustLoadingPriority`: the cached entry takes the given priority. */
    method AdjustLoadingPriority(url: string, priority: Priority)
      requires Valid()
      modifies this
      ensures Valid()
      ensures url in old(cache) ==> cache == old(cache)[url := old(cache[url]).(priority := priority)]
      ensures url !in old(cache) ==> cache == old(cache)
      ensures accessOrder == old(accessOrder) && nextRequest == old(nextRequest)
    {
      if url in cache {
        cache := cache[url := cache[url].(priority := priority)];
        CardFromOrder(cache, accessOrder);
      }
    }

    /** The start of a load: the entry becomes loading under a new request.
        Before it the url is the most recently used and the cache may hold
        one entry too many. */
    method StartRequest(url: string, priority: Priority) returns (outcome: LoadOutcome)
      requires url in cache && accessOrder != [] && Last(accessOrder) == url
      requires NoDuplicates(accessOrder) && (forall u :: u in cache <==> u in accessOrder)
      requires forall u :: u in cache && u != url ==> EntryOk(u, cache[u]) && cache[u].request.value < nextRequest
      requires cache[url].url == url && !cache[url].loaded && cache[url].objectUrl == ""
      modifies this
      ensures Consistent()
      ensures outcome == Started(old(nextRequest)) && nextRequest == old(nextRequest) + 1
      ensures cache == old(cache)[url := LoadingEntry(url, priority, old(nextRequest))]
      ensures accessOrder == old(accessOrder)
    {
      var entry := cache[url];
      cache := cache[url := entry.(loading := true, error := false, progress := 0, priority := priority, request := Some(nextRequest))];
      outcome := Started(nextRequest);
      nextRequest := nextRequest + 1;
    }

    /** `cancelLoad`: a loading entry with a request stops loading. */
    method CancelLoad(url: string)
      requires Valid()
      modifies this
      ensures Valid()
      ensures url in old(cache) && old(cache[url].loading) ==> cache == old(cache[url := cache[url].(loading := false)])
      ensures !(url in old(cache) && old(cache[url].loading)) ==> cache == old(cache)
      ensures accessOrder == old(accessOrder) && nextRequest == old(nextRequest)
    {
      if url in cache && cache[url].request.Some? && cache[url].loading {
        cache := cache[url := cache[url].(loading := false)];
      }
    }

    /** The request is the one in flight for the url. */
    predicate InFlight(url: string, request: nat)
      reads this
    {
      url in cache && cache[url].request == Some(request) && cache[url].loading
    }

    /** The load callback of `request`: status 200 stores the object url and
        marks the entry loaded with full progress; any other status marks it failed. */
    method OnLoad(url: string, request: nat, status: int, objectUrl: string)
      requires Valid()
      modifies this
      ensures Valid()
      ensures old(InFlight(url, request)) && status == 200 ==>
                cache == old(cache[url := cache[url].(progress := 100, objectUrl := objectUrl, loaded := true, loading := false)])
      ensures old(InFlight(url, request)) && status != 200 ==>
                cache == old(cache[url := cache[url].(error := true, loading := false)])
      ensures !old(InFlight(url, request)) ==> cache == old(cache)
      ensures accessOrder == old(accessOrder) && nextRequest == old(nextRequest)
    {
      if InFlight(url, request) {
        if status == 200 {
          cache := cache[url := cache[url].(progress := 100, objectUrl := objectUrl, loaded := true, loading := false)];
        } else {
          cache := cache[url := cache[url].(error := true, loading := false)];
        }
      }
    }

    /** The network-error callback of `request`: the entry is marked failed. */
    method OnError(url: string, request: nat)
      requires Valid()
      modifies this
      ensures Valid()
      ensures old(InFlight(url, request)) ==> cache == old(cache[url := cache[url].(error := true, loading := false)])
      ensures !old(InFlight(url, request)) ==> cache == old(cache)
      ensures accessOrder == old(accessOrder) && nextRequest == old(nextRequest)
    {
      if InFlight(url, request) {
        cache := cache[url := cache[url].(error := true, loading := false)];
      }
    }

    /** The abort callback of `request`: the entry only stops loading. */
    method OnAbort(url: string, request: nat)
      requires Valid()
      modifies this
      ensures Valid()
      ensures old(InFlight(url, request)) ==> cache == old(cache[url := cache[url].(loading := false)])
      ensures !old(InFlight(url, request)) ==> cache == old(cache)
      ensures accessOrder == old(accessOrder) && nextRequest == old(nextRequest)
    {
      if InFlight(url, request) {
        cache := cache[url := cache[url].(loading := false)];
      }
    }

    /** `clearAllCache`: clear every cached url. */
    method ClearAllCache()
      requires Valid()
      modifies this
      ensures Valid()
      ensures cache == map[] && accessOrder == [] && nextRequest == old(nextRequest)
    {
      while cache != map[]
        invariant Valid()
        invariant nextRequest == old(nextRequest)
        decreases |accessOrder|
      {
        var url :| url in cache;
        CardFromOrder(cache, accessOrder);
        ClearCachedImage(url);
        CardFromOrder(cache, accessOrder);
      }
      CardFromOrder(cache, accessOrder);
    }
  }
}
