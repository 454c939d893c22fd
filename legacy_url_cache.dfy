/**
 * The older revision's URLCache: an NSURLCache with an offline disk cache of
 * 100 MB in the Documents directory. Tagged responses go to the offline cache
 * only, every other response to the underlying NSURLCache only; retrieval
 * asks the offline cache first.
 *
 * As in the current revision, what the underlying NSURLCache is handed is
 * recorded and what it answers is an input.
 */
module LegacyURLCache {
  import opened Wrappers
  import opened Requests
  import opened Lists
  import opened CacheStorage
  import LegacyDiskCache
  import LegacyWebViewCacher

  const KB := 1024
  const MB := KB * 1024
  /** The offline cache's capacity. */
  const OfflineCacheSize := 100 * MB

  /** The main document URLs of a list of cachers, in order. */
  function MainsOf(cachers: seq<LegacyWebViewCacher.WebViewCacher>): (r: seq<Option<Url>>)
    reads cachers
    ensures |r| == |cachers|
    ensures forall i :: 0 <= i < |cachers| ==> r[i] == cachers[i].mainDocumentURL
  {
    if cachers == [] then [] else [cachers[0].mainDocumentURL] + MainsOf(cachers[1..])
  }

  /** The position of the first cacher whose document claims the request, or -1 when none does. */
  function OriginatingIndex(mains: seq<Option<Url>>, request: Request): (i: int)
    ensures -1 <= i < |mains|
    ensures 0 <= i ==> LegacyWebViewCacher.DidOriginate(mains[i], request)
    ensures forall j :: 0 <= j < |mains| && (i == -1 || j < i) ==> !LegacyWebViewCacher.DidOriginate(mains[j], request)
  {
    if mains == [] then -1
    else if LegacyWebViewCacher.DidOriginate(mains[0], request) then 0
    else
      var j := OriginatingIndex(mains[1..], request);
      if j == -1 then -1 else j + 1
  }

  /** The first claiming position is the one a front-to-back search stops at. */
  lemma OriginatingIndexIsFirst(mains: seq<Option<Url>>, request: Request, i: int)
    requires -1 <= i < |mains|
    requires forall j :: 0 <= j < |mains| && (i == -1 || j < i) ==> !LegacyWebViewCacher.DidOriginate(mains[j], request)
    requires 0 <= i < |mains| ==> LegacyWebViewCacher.DidOriginate(mains[i], request)
    ensures OriginatingIndex(mains, request) == i
  {
  }

  /**
   * storeCachedResponse: the offline cache after the store, and whether the
   * response was handed to the underlying NSURLCache. A tagged request must
   * carry a URL, as the offline cache unwraps it.
   */
  function Routed(cfg: LegacyDiskCache.Config, d: Disk, cached: CachedResponse, request: Request, out: SaveOutcome): (r: (Disk, bool))
    requires RequestShouldBeStoredOffline(request) ==> request.url.Some?
    ensures r.1 <==> !RequestShouldBeStoredOffline(request)
    ensures r.1 ==> r.0 == d
  {
    if RequestShouldBeStoredOffline(request) then (LegacyDiskCache.Stored(cfg, d, cached, request, out).0, false)
    else (d, true)
  }

  /** cachedResponseForRequest: the offline cache's response when it has one, otherwise the underlying cache's answer. */
  function Retrieved(cfg: LegacyDiskCache.Config, d: Disk, request: Request, fallbackAnswer: Option<CachedResponse>): (r: Option<CachedResponse>)
    requires request.url.Some?
    ensures LegacyDiskCache.CachedResponseFor(cfg, d, request).Some? ==> r == LegacyDiskCache.CachedResponseFor(cfg, d, request)
    ensures LegacyDiskCache.CachedResponseFor(cfg, d, request).None? ==> r == fallbackAnswer
  {
    var response := LegacyDiskCache.CachedResponseFor(cfg, d, request);
    if response.Some? then response else fallbackAnswer
  }

  class URLCache {
    const offlineCache: LegacyDiskCache.DiskCache
    var cachers: seq<LegacyWebViewCacher.WebViewCacher>
    /** Every response handed to the underlying NSURLCache, with its request, in order. */
    var fallbackStores: seq<(CachedResponse, Request)>

    /** Each listed cacher occurs once. */
    predicate Valid()
      reads this
    {
      NoDuplicates(cachers)
    }

    /**
     * init: the offline cache over the given Documents directory contents,
     * and no cachers. Registering with the protocol is
     * LegacyURLProtocol.InitURLCache.
     */
    constructor(hasDirectory: bool, files: map<string, FileEntry>, plist: PlistFile)
      ensures Valid()
      ensures fresh(offlineCache) && offlineCache.config == LegacyDiskCache.Config(OfflineCacheSize, hasDirectory)
      ensures offlineCache.State() == LoadedProperties(LegacyDiskCache.CacheSizeKey, Disk(0, [], files, plist), hasDirectory)
      ensures cachers == [] && fallbackStores == []
    {
      offlineCache := new LegacyDiskCache.DiskCache(LegacyDiskCache.Config(OfflineCacheSize, hasDirectory), files, plist);
      cachers := [];
      fallbackStores := [];
    }

    /** webViewCacherOriginatingRequest: the first cacher, in list order, that claims the request. */
    method WebViewCacherOriginatingRequest(request: Request) returns (cacher: Option<LegacyWebViewCacher.WebViewCacher>)
      ensures var i := OriginatingIndex(MainsOf(cachers), request);
        if i == -1 then cacher == None else cacher == Some(cachers[i])
    {
      ghost var mains := MainsOf(cachers);
      for i := 0 to |cachers|
        invariant forall j :: 0 <= j < i ==> !LegacyWebViewCacher.DidOriginate(mains[j], request)
      {
        if cachers[i].DidOriginateRequest(request) {
          OriginatingIndexIsFirst(mains, request, i);
          return Some(cachers[i]);
        }
      }
      OriginatingIndexIsFirst(mains, request, -1);
      return None;
    }

    /** storeCachedResponse; `out` is what the offline cache's environment answers if it is asked to store. */
    method StoreCachedResponse(cached: CachedResponse, request: Request, out: SaveOutcome)
      requires RequestShouldBeStoredOffline(request) ==> request.url.Some?
      modifies this, offlineCache
      ensures var r := Routed(offlineCache.config, old(offlineCache.State()), cached, request, out);
        offlineCache.State() == r.0
        && fallbackStores == if r.1 then old(fallbackStores) + [(cached, request)] else old(fallbackStores)
      ensures cachers == old(cachers)
    {
      if RequestShouldBeStoredOffline(request) {
        var success := offlineCache.StoreCachedResponse(cached, request, out);
      } else {
        fallbackStores := fallbackStores + [(cached, request)];
      }
    }

    /** cachedResponseForRequest; `fallbackAnswer` is what the underlying NSURLCache would return. */
    method CachedResponseForRequest(request: Request, fallbackAnswer: Option<CachedResponse>) returns (response: Option<CachedResponse>)
      requires request.url.Some?
      ensures response == Retrieved(offlineCache.config, offlineCache.State(), request, fallbackAnswer)
    {
      response := offlineCache.CachedResponseForRequest(request);
      if response.Some? {
        return;
      }
      return fallbackAnswer;
    }

    /** offlineCacheURL: a new cacher is appended to the list and starts loading the page. */
    method OfflineCacheURL(url: Url) returns (cacher: LegacyWebViewCacher.WebViewCacher)
      requires Valid()
      modifies this
      ensures Valid()
      ensures fresh(cacher)
      ensures cachers == old(cachers) + [cacher]
      ensures cacher.State() == LegacyWebViewCacher.CacheURL(LegacyWebViewCacher.Idle, url)
      ensures fallbackStores == old(fallbackStores)
    {
      cacher := new LegacyWebViewCacher.WebViewCacher();
      AppendKeepsNoDuplicates(cachers, cacher);
      cachers := cachers + [cacher];
      cacher.OfflineCacheURL(url);
    }

    /**
     * A finish delivered to a cacher. Each time the cacher calls its
     * completion closure, the closure removes it from the list if it is
     * still there.
     */
    method WebViewDidFinishLoad(cacher: LegacyWebViewCacher.WebViewCacher, loadedAnswer: bool) returns (fired: bool)
      requires Valid()
      modifies this, cacher
      ensures Valid()
      ensures var r := LegacyWebViewCacher.Finished(old(cacher.State()), loadedAnswer);
        cacher.State() == r.0 && fired == r.1
        && cachers == (if r.1 then RemoveFirst(old(cachers), cacher) else old(cachers))
      ensures fired ==> cacher !in cachers
      ensures fallbackStores == old(fallbackStores)
    {
      fired := cacher.WebViewDidFinishLoad(loadedAnswer);
      if fired {
        Completed(cacher);
      }
    }

    /** The completion closure offlineCacheURL gives its cacher. */
    method Completed(cacher: LegacyWebViewCacher.WebViewCacher)
      requires Valid()
      modifies this
      ensures Valid()
      ensures cachers == RemoveFirst(old(cachers), cacher) && cacher !in cachers
      ensures fallbackStores == old(fallbackStores)
    {
      RemoveFirstFromNoDuplicates(cachers, cacher);
      var index := FindIndex(cachers, cacher);
      if index != -1 {
        cachers := RemoveAt(cachers, index);
      }
    }
  }

  // ---------------------------------------------------------------- properties

  /**
   * A tagged response that is written is what the cache returns for the
   * request afterwards, whatever the underlying cache holds, and it is not
   * handed to the underlying cache.
   */
  lemma TaggedStoreThenRetrieve(cfg: LegacyDiskCache.Config, d: Disk, cached: CachedResponse, request: Request,
                                out: SaveOutcome, fallbackAnswer: Option<CachedResponse>)
    requires RequestShouldBeStoredOffline(request) && request.url.Some?
    requires cfg.hasDirectory && out.writeOk
    ensures !Routed(cfg, d, cached, request, out).1
    ensures Retrieved(cfg, Routed(cfg, d, cached, request, out).0, request, fallbackAnswer) == Some(cached)
  {
    LegacyDiskCache.StoreThenRetrieve(cfg, d, cached, request, out);
  }

  /**
   * An untagged response never reaches the offline cache, whatever its status,
   * so a page cached for offline use is never refreshed by later browsing.
   */
  lemma UntaggedStoreSkipsOfflineCache(cfg: LegacyDiskCache.Config, d: Disk, cached: CachedResponse, request: Request,
                                       out: SaveOutcome)
    requires !RequestShouldBeStoredOffline(request)
    ensures Routed(cfg, d, cached, request, out) == (d, true)
  {
  }
}
