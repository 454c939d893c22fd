/**
 * The current revision's URLCache: an NSURLCache with an extra Mattress disk
 * cache. Requests a WebViewCacher tagged go to the disk cache only; other
 * responses go to the underlying NSURLCache and refresh a disk copy that
 * already exists. Retrieval asks the disk cache first.
 *
 * The underlying NSURLCache is not modelled: what it is handed is recorded in
 * `fallbackStores`, and what it answers on retrieval is an input.
 */
module URLCache {
  import opened Wrappers
  import opened Requests
  import opened Lists
  import opened CacheStorage
  import DiskCache
  import WebViewCacher

  /** Responses with this status code or above are failures (section 15 of RFC 9110) and are not kept. */
  const FailureStatusCode := 400

  /** An HTTP response whose status code is below 400. */
  predicate IsStorableResponse(response: Response) {
    response.statusCode.Some? && response.statusCode.value < FailureStatusCode
  }

  /** The main document URLs of a list of cachers, in order. */
  function MainsOf(cachers: seq<WebViewCacher.WebViewCacher>): (r: seq<Option<Url>>)
    reads cachers
    ensures |r| == |cachers|
    ensures forall i :: 0 <= i < |cachers| ==> r[i] == cachers[i].mainDocumentURL
  {
    if cachers == [] then [] else [cachers[0].mainDocumentURL] + MainsOf(cachers[1..])
  }

  /** The position of the first cacher whose document claims the request, or -1 when none does. */
  function OriginatingIndex(mains: seq<Option<Url>>, request: Request): (i: int)
    ensures -1 <= i < |mains|
    ensures 0 <= i ==> WebViewCacher.DidOriginate(mains[i], request)
    ensures forall j :: 0 <= j < |mains| && (i == -1 || j < i) ==> !WebViewCacher.DidOriginate(mains[j], request)
  {
    if mains == [] then -1
    else if WebViewCacher.DidOriginate(mains[0], request) then 0
    else
      var j := OriginatingIndex(mains[1..], request);
      if j == -1 then -1 else j + 1
  }

  /** The first claiming position is the one a front-to-back search stops at. */
  lemma OriginatingIndexIsFirst(mains: seq<Option<Url>>, request: Request, i: int)
    requires -1 <= i < |mains|
    requires forall j :: 0 <= j < |mains| && (i == -1 || j < i) ==> !WebViewCacher.DidOriginate(mains[j], request)
    requires 0 <= i < |mains| ==> WebViewCacher.DidOriginate(mains[i], request)
    ensures OriginatingIndex(mains, request) == i
  {
  }

  /**
   * storeCachedResponse: the disk cache after the store, and whether the
   * response was handed to the underlying NSURLCache.
   */
  function Routed(cfg: DiskCache.Config, d: Disk, cached: CachedResponse, request: Request, outs: DiskCache.StoreOutcomes): (r: (Disk, bool))
    ensures r.1 <==> !RequestShouldBeStoredInMattress(request)
    ensures !RequestShouldBeStoredInMattress(request) && !DiskCache.HasCacheFor(cfg, d, request) ==> r.0 == d
  {
    if RequestShouldBeStoredInMattress(request) then (DiskCache.Stored(cfg, d, cached, request, outs).0, false)
    else if IsStorableResponse(cached.response) && DiskCache.HasCacheFor(cfg, d, request) then
      (DiskCache.Stored(cfg, d, cached, request, outs).0, true)
    else (d, true)
  }

  /** cachedResponseForRequest: the disk cache's response when it has one, otherwise the underlying cache's answer. */
  function Retrieved(cfg: DiskCache.Config, d: Disk, request: Request, fallbackAnswer: Option<CachedResponse>): (r: Option<CachedResponse>)
    ensures DiskCache.CachedResponseFor(cfg, d, request).Some? ==> r == DiskCache.CachedResponseFor(cfg, d, request)
    ensures DiskCache.CachedResponseFor(cfg, d, request).None? ==> r == fallbackAnswer
  {
    var cachedResponse := DiskCache.CachedResponseFor(cfg, d, request);
    if cachedResponse.Some? then cachedResponse else fallbackAnswer
  }

  class URLCache {
    /** Whether an isOfflineHandler was given; what it answers is an input where it is asked. */
    var hasOfflineHandler: bool
    const diskCache: DiskCache.DiskCache
    var cachers: seq<WebViewCacher.WebViewCacher>
    /** Every response handed to the underlying NSURLCache, with its request, in order. */
    var fallbackStores: seq<(CachedResponse, Request)>
    /** For each cacher diskCacheURL made: whether the completeHandler its closure captured is still set. */
    var completeHandlers: map<WebViewCacher.WebViewCacher, bool>
    /** For each cacher diskCacheURL made: whether the failureHandler its closure captured is still set. */
    var failureHandlers: map<WebViewCacher.WebViewCacher, bool>

    /** Each listed cacher occurs once and was made by diskCacheURL, so its closures exist. */
    predicate Valid()
      reads this
    {
      NoDuplicates(cachers)
      && (forall i :: 0 <= i < |cachers| ==> cachers[i] in completeHandlers && cachers[i] in failureHandlers)
    }

    /**
     * init: a disk cache with the given capacity over the given directory
     * contents, and no cachers. Registering with the protocol is
     * URLProtocol.InitURLCache.
     */
    constructor(diskConfig: DiskCache.Config, files: map<string, FileEntry>, plist: PlistFile, hasOfflineHandler: bool)
      ensures Valid()
      ensures fresh(diskCache) && diskCache.config == diskConfig
      ensures diskCache.State() == LoadedProperties(DiskCache.MaxCacheSizeKey, Disk(0, [], files, plist), diskConfig.hasDirectory)
      ensures this.hasOfflineHandler == hasOfflineHandler
      ensures cachers == [] && fallbackStores == [] && completeHandlers == map[] && failureHandlers == map[]
    {
      diskCache := new DiskCache.DiskCache(diskConfig, files, plist);
      this.hasOfflineHandler := hasOfflineHandler;
      cachers := [];
      fallbackStores := [];
      completeHandlers := map[];
      failureHandlers := map[];
    }

    /** webViewCacherOriginatingRequest: the first cacher, in list order, that claims the request. */
    method WebViewCacherOriginatingRequest(request: Request) returns (cacher: Option<WebViewCacher.WebViewCacher>)
      ensures var i := OriginatingIndex(MainsOf(cachers), request);
        if i == -1 then cacher == None else cacher == Some(cachers[i])
    {
      ghost var mains := MainsOf(cachers);
      for i := 0 to |cachers|
        invariant forall j :: 0 <= j < i ==> !WebViewCacher.DidOriginate(mains[j], request)
      {
        if cachers[i].DidOriginateRequest(request) {
          OriginatingIndexIsFirst(mains, request, i);
          return Some(cachers[i]);
        }
      }
      OriginatingIndexIsFirst(mains, request, -1);
      return None;
    }

    /** clearDiskCache; `removeOk` is whether removing the directory succeeds. */
    method ClearDiskCache(removeOk: bool)
      modifies diskCache
      ensures diskCache.State() == DiskCache.Cleared(old(diskCache.State()), diskCache.config.hasDirectory, removeOk)
    {
      diskCache.ClearCache(removeOk);
    }

    /** storeCachedResponse; `outs` is what the disk cache's environment answers if it is asked to store. */
    method StoreCachedResponse(cached: CachedResponse, request: Request, outs: DiskCache.StoreOutcomes)
      modifies this, diskCache
      ensures var r := Routed(diskCache.config, old(diskCache.State()), cached, request, outs);
        diskCache.State() == r.0
        && fallbackStores == if r.1 then old(fallbackStores) + [(cached, request)] else old(fallbackStores)
      ensures cachers == old(cachers) && hasOfflineHandler == old(hasOfflineHandler)
      ensures completeHandlers == old(completeHandlers) && failureHandlers == old(failureHandlers)
    {
      if RequestShouldBeStoredInMattress(request) {
        var success := diskCache.StoreCachedResponse(cached, request, outs);
      } else {
        fallbackStores := fallbackStores + [(cached, request)];
        if cached.response.statusCode.Some? {
          if cached.response.statusCode.value < FailureStatusCode {
            var listed := diskCache.HasCacheForRequest(request);
            if listed {
              var success := diskCache.StoreCachedResponse(cached, request, outs);
            }
          }
        }
      }
    }

    /** cachedResponseForRequest; `fallbackAnswer` is what the underlying NSURLCache would return. */
    method CachedResponseForRequest(request: Request, fallbackAnswer: Option<CachedResponse>) returns (cachedResponse: Option<CachedResponse>)
      ensures cachedResponse == Retrieved(diskCache.config, diskCache.State(), request, fallbackAnswer)
    {
      cachedResponse := DiskCache.CachedResponseFor(diskCache.config, diskCache.State(), request);
      if cachedResponse.Some? {
        return;
      }
      return fallbackAnswer;
    }

    /** hasMattressCachedResponseForRequest: whether the disk cache holds a file for the request. */
    method HasMattressCachedResponseForRequest(request: Request) returns (b: bool)
      ensures b <==> DiskCache.HasCachedResponseFor(diskCache.config, diskCache.State(), request)
    {
      b := DiskCache.HasCachedResponseFor(diskCache.config, diskCache.State(), request);
    }

    /**
     * diskCacheURL: a new cacher is appended to the list and starts loading the
     * page; its closures capture the optional completeHandler and failureHandler.
     */
    method DiskCacheURL(url: Url, hasCompleteHandler: bool, hasFailureHandler: bool) returns (cacher: WebViewCacher.WebViewCacher)
      requires Valid()
      modifies this
      ensures Valid()
      ensures fresh(cacher)
      ensures cachers == old(cachers) + [cacher]
      ensures cacher.State() == WebViewCacher.CacheURL(WebViewCacher.Idle, url)
      ensures completeHandlers == old(completeHandlers)[cacher := hasCompleteHandler]
      ensures failureHandlers == old(failureHandlers)[cacher := hasFailureHandler]
      ensures fallbackStores == old(fallbackStores) && hasOfflineHandler == old(hasOfflineHandler)
    {
      cacher := new WebViewCacher.WebViewCacher();
      AppendKeepsNoDuplicates(cachers, cacher);
      cachers := cachers + [cacher];
      completeHandlers := completeHandlers[cacher := hasCompleteHandler];
      failureHandlers := failureHandlers[cacher := hasFailureHandler];
      cacher.MattressCacheURL(url);
    }

    /**
     * A finish delivered to a cacher diskCacheURL made. When the cacher calls
     * its completion closure, the closure removes it from the list and calls
     * the captured completeHandler, if still set, and clears it. The result
     * says whether the completeHandler ran.
     */
    method WebViewDidFinishLoad(cacher: WebViewCacher.WebViewCacher, loadedAnswer: bool) returns (completed: bool)
      requires Valid() && cacher in completeHandlers
      modifies this, cacher
      ensures Valid()
      ensures var r := WebViewCacher.Finished(old(cacher.State()), loadedAnswer);
        cacher.State() == r.0
        && (completed <==> r.1 && old(completeHandlers[cacher]))
        && cachers == (if r.1 then RemoveFirst(old(cachers), cacher) else old(cachers))
        && completeHandlers == (if r.1 then old(completeHandlers)[cacher := false] else old(completeHandlers))
      ensures completed ==> cacher !in cachers && !completeHandlers[cacher]
      ensures failureHandlers == old(failureHandlers) && fallbackStores == old(fallbackStores)
      ensures hasOfflineHandler == old(hasOfflineHandler)
    {
      var fired := cacher.WebViewDidFinishLoad(loadedAnswer);
      completed := false;
      if fired {
        completed := Completed(cacher);
      }
    }

    /** The completion closure diskCacheURL gives its cacher. */
    method Completed(cacher: WebViewCacher.WebViewCacher) returns (completed: bool)
      requires Valid() && cacher in completeHandlers
      modifies this
      ensures Valid()
      ensures cachers == RemoveFirst(old(cachers), cacher) && cacher !in cachers
      ensures completed == old(completeHandlers[cacher])
      ensures completeHandlers == old(completeHandlers)[cacher := false]
      ensures failureHandlers == old(failureHandlers) && fallbackStores == old(fallbackStores)
      ensures hasOfflineHandler == old(hasOfflineHandler)
    {
      RemoveFirstFromNoDuplicates(cachers, cacher);
      var index := FindIndex(cachers, cacher);
      if index != -1 {
        cachers := RemoveAt(cachers, index);
      }
      completed := completeHandlers[cacher];
      completeHandlers := completeHandlers[cacher := false];
    }

    /**
     * A load failure delivered to a cacher diskCacheURL made. When the cacher
     * calls its failure closure, the closure calls the captured failureHandler,
     * if still set, and clears it; the cacher stays in the list.
     */
    method DidFailLoadWithError(cacher: WebViewCacher.WebViewCacher, error: Option<int>) returns (failed: bool)
      requires cacher in failureHandlers
      modifies this, cacher
      ensures var r := WebViewCacher.Failed(old(cacher.State()), error);
        cacher.State() == r.0
        && (failed <==> r.1 && old(failureHandlers[cacher]))
        && failureHandlers == (if r.1 then old(failureHandlers)[cacher := false] else old(failureHandlers))
      ensures cachers == old(cachers) && completeHandlers == old(completeHandlers)
      ensures fallbackStores == old(fallbackStores) && hasOfflineHandler == old(hasOfflineHandler)
    {
      var fired := cacher.DidFailLoadWithError(error);
      failed := false;
      if fired {
        failed := failureHandlers[cacher];
        failureHandlers := failureHandlers[cacher := false];
      }
    }
  }

  // ---------------------------------------------------------------- properties

  /**
   * From iOS 8 on, a tagged response that is admitted and written is what the
   * cache returns for the request afterwards, whatever the underlying cache
   * holds, and it is not handed to the underlying cache.
   */
  lemma TaggedStoreThenRetrieve(cfg: DiskCache.Config, d: Disk, cached: CachedResponse, request: Request,
                                outs: DiskCache.StoreOutcomes, fallbackAnswer: Option<CachedResponse>)
    requires RequestShouldBeStoredInMattress(request)
    requires cfg.isAtLeastiOS8 && cfg.hasDirectory && request.url.Some?
    requires outs.whole.length < cfg.maxCacheSize && outs.whole.writeOk
    ensures !Routed(cfg, d, cached, request, outs).1
    ensures Retrieved(cfg, Routed(cfg, d, cached, request, outs).0, request, fallbackAnswer) == Some(cached)
  {
    DiskCache.StoreThenRetrieve(cfg, d, cached, request, outs);
  }

  /**
   * An untagged response always reaches the underlying cache, touches the disk
   * cache only when it is a storable HTTP response for a request the disk
   * cache lists, and (from iOS 8 on) never adds a key to the disk cache's list.
   */
  lemma UntaggedStoreOnlyRefreshes(cfg: DiskCache.Config, d: Disk, cached: CachedResponse, request: Request,
                                   outs: DiskCache.StoreOutcomes)
    requires !RequestShouldBeStoredInMattress(request)
    ensures Routed(cfg, d, cached, request, outs).1
    ensures !IsStorableResponse(cached.response) || !DiskCache.HasCacheFor(cfg, d, request) ==>
      Routed(cfg, d, cached, request, outs).0 == d
    ensures cfg.isAtLeastiOS8 ==>
      forall x :: x in Routed(cfg, d, cached, request, outs).0.requestCaches ==> x in d.requestCaches
  {
    var r := Routed(cfg, d, cached, request, outs).0;
    if cfg.isAtLeastiOS8 && IsStorableResponse(cached.response) && DiskCache.HasCacheFor(cfg, d, request) {
      var hash := DiskCache.HashForRequest(cfg, request).value;
      assert r == DiskCache.SavedObject(cfg, d, ArchivedCachedResponse(cached), hash, outs.whole).0;
      forall x | x in r.requestCaches
        ensures x in d.requestCaches
      {
        DiskCache.SavedListsOnly(cfg, d, ArchivedCachedResponse(cached), hash, outs.whole, x);
      }
    }
  }

  /** A failure response is never written to the disk cache unless the request was tagged. */
  lemma FailureResponseNeverReachesMattress(cfg: DiskCache.Config, d: Disk, cached: CachedResponse, request: Request,
                                            outs: DiskCache.StoreOutcomes)
    requires cached.response.statusCode.Some? && cached.response.statusCode.value >= FailureStatusCode
    requires !RequestShouldBeStoredInMattress(request)
    ensures Routed(cfg, d, cached, request, outs) == (d, true)
  {
  }
}
