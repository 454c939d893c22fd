/**
 * The older revision's URLProtocol: it takes the requests a WebViewCacher is
 * loading (tagging them for the offline cache) and, when the shared cache's
 * offline handler says so, serves every other request from the cache.
 *
 * The older URLCache declares no isOfflineHandler although this protocol asks
 * the shared cache for one; the handler is therefore an input here: absent,
 * or present with the answer it gives.
 */
module LegacyURLProtocol {
  import opened Wrappers
  import opened Requests
  import opened Lists
  import opened CacheStorage
  import LegacyDiskCache
  import LegacyWebViewCacher
  import LegacyURLCache

  /**
   * canInitWithRequest, given whether some cacher claims the request, whether
   * the shared cache is a URLCache, and its offline handler's answer if it has one.
   */
  function CanInit(request: Request, claimed: bool, sharedIsURLCache: bool, offlineHandler: Option<bool>): (r: bool)
    ensures r <==> !IsHandled(request) && (claimed || (sharedIsURLCache && offlineHandler == Some(true)))
  {
    if IsHandled(request) then false
    else if claimed then true
    else if sharedIsURLCache && offlineHandler.Some? then offlineHandler.value
    else false
  }

  /**
   * mutableCanonicalRequestForRequest: a copy marked as handled. A claimed
   * request is the cacher's copy of the original tagged for the offline cache;
   * any other gets the return-cache-data-else-load policy.
   */
  function MutableCanonicalRequest(request: Request, claimed: bool): (r: Request)
    ensures IsHandled(r)
    ensures r.url == request.url && r.mainDocumentURL == request.mainDocumentURL
    ensures claimed ==> RequestShouldBeStoredOffline(r) && r.cachePolicy == request.cachePolicy
    ensures !claimed ==> r.cachePolicy == ReturnCacheDataElseLoad
    ensures !claimed ==> forall k :: k != URLProtocolHandledRequestKey ==> PropertyForKey(k, r) == PropertyForKey(k, request)
  {
    var mutableRequest :=
      if claimed then LegacyWebViewCacher.MutableRequestForRequest(request)
      else request.(cachePolicy := ReturnCacheDataElseLoad);
    SetProperty(true, URLProtocolHandledRequestKey, mutableRequest)
  }

  /** The position of the first cacher of `cache` that claims the request, or -1. */
  function Claim(cache: LegacyURLCache.URLCache, request: Request): (i: int)
    reads cache, cache.cachers
    ensures -1 <= i < |cache.cachers|
  {
    LegacyURLCache.OriginatingIndex(LegacyURLCache.MainsOf(cache.cachers), request)
  }

  /** What startLoading does: serve the cached response, or start a connection for the canonical request. */
  datatype Loading = Served(response: CachedResponse) | Connected(request: Request)

  /** startLoading: any cached response is served, whatever its status; without one the request goes to the network. */
  function StartedLoading(canonical: Request, cached: Option<CachedResponse>): (r: Loading)
    ensures r.Served? <==> cached.Some?
    ensures r.Served? ==> r.response == cached.value
    ensures r.Connected? ==> r.request == canonical
  {
    if cached.Some? then Served(cached.value) else Connected(canonical)
  }

  class Registry {
    /** The caches consulted for a claiming cacher, oldest first. */
    var caches: seq<LegacyURLCache.URLCache>
    /** Whether the protocol class is registered with the URL loading system. */
    var registered: bool
    /** NSURLCache.sharedURLCache(), when it is a URLCache. */
    var shared: Option<LegacyURLCache.URLCache>

    /** The protocol is registered exactly while some cache is listed. */
    predicate Valid()
      reads this
    {
      registered <==> |caches| > 0
    }

    constructor()
      ensures Valid()
      ensures caches == [] && !registered && shared == None
    {
      caches := [];
      registered := false;
      shared := None;
    }

    /** addCache: the first cache registers the protocol; the result says whether this call registered it. */
    method AddCache(cache: LegacyURLCache.URLCache) returns (didRegister: bool)
      requires Valid()
      modifies this
      ensures Valid()
      ensures caches == old(caches) + [cache] && registered
      ensures didRegister <==> old(caches) == []
      ensures shared == old(shared)
    {
      didRegister := false;
      if |caches| == 0 {
        RegisterProtocol(true);
        didRegister := true;
      }
      caches := caches + [cache];
    }

    /**
     * removeCache: the first occurrence of the cache is removed; removing the
     * last cache unregisters the protocol. The result says whether this call
     * unregistered it.
     */
    method RemoveCache(cache: LegacyURLCache.URLCache) returns (didUnregister: bool)
      requires Valid()
      modifies this
      ensures Valid()
      ensures caches == RemoveFirst(old(caches), cache)
      ensures didUnregister <==> cache in old(caches) && caches == []
      ensures shared == old(shared)
    {
      didUnregister := false;
      var index := FindIndex(caches, cache);
      if index != -1 {
        caches := RemoveAt(caches, index);
        if |caches| == 0 {
          RegisterProtocol(false);
          didUnregister := true;
        }
      }
    }

    /** registerProtocol. */
    method RegisterProtocol(shouldRegister: bool)
      modifies this
      ensures registered == shouldRegister
      ensures caches == old(caches) && shared == old(shared)
    {
      registered := shouldRegister;
    }

    /** URLCache.addToProtocol. */
    method AddToProtocol(cache: LegacyURLCache.URLCache, shouldAdd: bool)
      requires Valid()
      modifies this
      ensures Valid()
      ensures caches == if shouldAdd then old(caches) + [cache] else RemoveFirst(old(caches), cache)
      ensures shared == old(shared)
    {
      if shouldAdd {
        var _ := AddCache(cache);
      } else {
        var _ := RemoveCache(cache);
      }
    }

    /** URLCache.init: a new URLCache, which then adds itself to the protocol's caches. */
    method InitURLCache(hasDirectory: bool, files: map<string, FileEntry>, plist: PlistFile)
      returns (cache: LegacyURLCache.URLCache)
      requires Valid()
      modifies this
      ensures Valid() && registered
      ensures fresh(cache) && fresh(cache.offlineCache) && cache.Valid()
      ensures caches == old(caches) + [cache]
      ensures cache.cachers == [] && cache.offlineCache.config == LegacyDiskCache.Config(LegacyURLCache.OfflineCacheSize, hasDirectory)
      ensures shared == old(shared)
    {
      cache := new LegacyURLCache.URLCache(hasDirectory, files, plist);
      AddToProtocol(cache, true);
    }

    /**
     * webViewCacherForRequest: the caches are asked newest first (an index
     * loop running down), and the first cacher found is the answer.
     */
    method WebViewCacherForRequest(request: Request) returns (cacher: Option<LegacyWebViewCacher.WebViewCacher>)
      ensures cacher.None? ==> forall j :: 0 <= j < |caches| ==> Claim(caches[j], request) == -1
      ensures cacher.Some? ==>
        exists i ::
          && 0 <= i < |caches|
          && Claim(caches[i], request) != -1
          && cacher.value == caches[i].cachers[Claim(caches[i], request)]
          && (forall j :: i < j < |caches| ==> Claim(caches[j], request) == -1)
    {
      var i := |caches|;
      while i > 0
        invariant 0 <= i <= |caches|
        invariant forall j :: i <= j < |caches| ==> Claim(caches[j], request) == -1
      {
        i := i - 1;
        var found := caches[i].WebViewCacherOriginatingRequest(request);
        if found.Some? {
          return found;
        }
      }
      return None;
    }

    /** Every cacher of every listed cache. */
    function Cachers(): (r: set<LegacyWebViewCacher.WebViewCacher>)
      reads this, caches
      ensures forall j :: 0 <= j < |caches| ==> (set c | c in caches[j].cachers) <= r
    {
      set j, c | 0 <= j < |caches| && c in caches[j].cachers :: c
    }

    /** Some cacher of some listed cache claims the request. */
    predicate Claimed(request: Request)
      reads this, caches, Cachers()
    {
      exists j :: 0 <= j < |caches| && Claim(caches[j], request) != -1
    }

    /** canInitWithRequest; `offlineHandler` is the shared cache's offline handler's answer, if it has one. */
    method CanInitWithRequest(request: Request, offlineHandler: Option<bool>) returns (b: bool)
      ensures b == CanInit(request, Claimed(request), shared.Some?, offlineHandler)
    {
      if IsHandled(request) {
        return false;
      }
      var cacher := WebViewCacherForRequest(request);
      if cacher.Some? {
        return true;
      }
      if shared.Some? && offlineHandler.Some? {
        return offlineHandler.value;
      }
      return false;
    }

    /** The shared cache's answer for a request, when the shared cache is a URLCache. */
    function SharedResponse(request: Request, fallbackAnswer: Option<CachedResponse>): (r: Option<CachedResponse>)
      requires request.url.Some?
      reads this, if shared.Some? then {shared.value, shared.value.offlineCache} else {}
      ensures shared.None? ==> r.None?
    {
      if shared.Some?
      then LegacyURLCache.Retrieved(shared.value.offlineCache.config, shared.value.offlineCache.State(), request, fallbackAnswer)
      else None
    }

    /** `NSURLCache.sharedURLCache() as? URLCache` followed by cachedResponseForRequest. */
    method SharedCachedResponseForRequest(request: Request, fallbackAnswer: Option<CachedResponse>)
      returns (cachedResponse: Option<CachedResponse>)
      requires shared.Some? ==> request.url.Some?
      ensures shared.None? ==> cachedResponse.None?
      ensures shared.Some? ==> cachedResponse == SharedResponse(request, fallbackAnswer)
    {
      cachedResponse := None;
      if shared.Some? {
        cachedResponse := shared.value.CachedResponseForRequest(request, fallbackAnswer);
      }
    }

    /** mutableCanonicalRequestForRequest, with the claim looked up among the caches. */
    method MutableCanonicalRequestForRequest(request: Request) returns (mutableRequest: Request)
      ensures mutableRequest == MutableCanonicalRequest(request, Claimed(request))
    {
      mutableRequest := request.(cachePolicy := ReturnCacheDataElseLoad);
      var cacher := WebViewCacherForRequest(request);
      if cacher.Some? {
        mutableRequest := LegacyWebViewCacher.MutableRequestForRequest(request);
      }
      mutableRequest := SetProperty(true, URLProtocolHandledRequestKey, mutableRequest);
    }
  }

  /** One loading of one request. */
  class URLProtocol {
    const request: Request
    /** The request the NSURLConnection was started with, while there is one. */
    var connection: Option<Request>
    /** The cached response handed to the client, if one was. */
    var served: Option<CachedResponse>

    constructor(request: Request)
      ensures this.request == request && connection == None && served == None
    {
      this.request := request;
      connection := None;
      served := None;
    }

    /**
     * startLoading; `fallbackAnswer` is what the shared cache's underlying
     * NSURLCache would return for the canonical request. The offline cache
     * unwraps the request's URL, so a request served through it must have one.
     */
    method StartLoading(registry: Registry, fallbackAnswer: Option<CachedResponse>)
      requires registry.shared.Some? ==> request.url.Some?
      modifies this
      ensures var canonical := old(MutableCanonicalRequest(request, registry.Claimed(request)));
        var cached := if registry.shared.Some? then old(registry.SharedResponse(canonical, fallbackAnswer)) else None;
        var outcome := StartedLoading(canonical, cached);
        && (outcome.Served? ==> served == Some(outcome.response) && connection == old(connection))
        && (outcome.Connected? ==> connection == Some(outcome.request) && served == old(served))
    {
      var mutableRequest := registry.MutableCanonicalRequestForRequest(request);
      var cachedResponse := registry.SharedCachedResponseForRequest(mutableRequest, fallbackAnswer);
      if cachedResponse.Some? {
        served := cachedResponse;
        return;
      }
      connection := Some(mutableRequest);
    }

    /** stopLoading: the connection is cancelled and dropped. */
    method StopLoading()
      modifies this
      ensures connection == None && served == old(served)
    {
      connection := None;
    }
  }

  // ---------------------------------------------------------------- properties

  /** The canonical request the protocol sends on is never taken by the protocol again. */
  lemma CanonicalIsNotReintercepted(request: Request, claimed: bool, claimedAgain: bool, sharedIsURLCache: bool,
                                    offlineHandler: Option<bool>)
    ensures !CanInit(MutableCanonicalRequest(request, claimed), claimedAgain, sharedIsURLCache, offlineHandler)
  {
  }

  /** Without an offline handler only claimed requests are taken, so nothing is ever served from the cache. */
  lemma OnlyClaimedWithoutHandler(request: Request, claimed: bool, sharedIsURLCache: bool)
    ensures CanInit(request, claimed, sharedIsURLCache, None) <==> !IsHandled(request) && claimed
  {
  }

  /** A cached failure response (here a 404) is served as it is: this revision checks no status code. */
  lemma FailureIsServed(canonical: Request, url: Option<Url>)
    ensures var cached := CachedResponse(Response(url, Some(404)), [], None);
      StartedLoading(canonical, Some(cached)) == Served(cached)
  {
  }

  /** A claimed request's response is routed to the offline cache only. */
  lemma ClaimedResponseGoesOffline(cfg: LegacyDiskCache.Config, d: Disk, cached: CachedResponse, request: Request, out: SaveOutcome)
    requires request.url.Some?
    ensures var canonical := MutableCanonicalRequest(request, true);
      LegacyURLCache.Routed(cfg, d, cached, canonical, out) == (LegacyDiskCache.Stored(cfg, d, cached, canonical, out).0, false)
  {
  }
}
