/**
 * The current revision's URLProtocol: an NSURLProtocol that takes the
 * requests a WebViewCacher is loading (so they are tagged for the Mattress
 * disk cache), and, when offline or asked to, serves requests from that cache.
 *
 * The module-level list of caches, the registration flag and the static
 * default-retrieval flag are the fields of a `Registry`; the shared NSURLCache
 * is the registry's `shared` field, present when it is a URLCache.
 */
module URLProtocol {
  import opened Wrappers
  import opened Requests
  import opened Lists
  import opened CacheStorage
  import DiskCache
  import WebViewCacher
  import URLCache

  /** The request's URL has the http or https scheme. */
  function IsWebScheme(request: Request): (b: bool)
    ensures b ==> request.url.Some?
    ensures request.url.Some? && request.url.value.scheme in {"http", "https"} ==> b
    ensures request.url.Some? && request.url.value.scheme !in {"http", "https"} ==> !b
  {
    request.url.Some? && (request.url.value.scheme == "http" || request.url.value.scheme == "https")
  }

  /** The online opt-out: the request carries `true` under the avoid-retrieval key. */
  function OptsOut(request: Request): (b: bool)
    ensures b <==> (MattressAvoidCacheRetreiveOnlineRequestPropertyKey in request.properties
                    && request.properties[MattressAvoidCacheRetreiveOnlineRequestPropertyKey] == BoolProperty(true))
  {
    HasTrueProperty(MattressAvoidCacheRetreiveOnlineRequestPropertyKey, request)
  }

  /**
   * canInitWithRequest, given whether some cacher claims the request, whether
   * the app says it is offline, the default-retrieval flag, and whether the
   * Mattress disk cache holds a file for the request.
   */
  function CanInit(request: Request, claimed: bool, isOffline: bool, retrieveByDefault: bool, hasMattressResponse: bool): (r: bool)
    ensures IsHandled(request) ==> !r
  {
    if IsHandled(request) then false
    else if claimed then true
    else if !isOffline && OptsOut(request) then false
    else if IsWebScheme(request) && retrieveByDefault && hasMattressResponse then true
    else isOffline
  }

  /**
   * mutableCanonicalRequestForRequest: a copy marked as handled. A claimed
   * request is the cacher's tagged copy of the original; any other gets the
   * return-cache-data-else-load policy.
   */
  function MutableCanonicalRequest(request: Request, claimed: bool): (r: Request)
    ensures IsHandled(r)
    ensures r.url == request.url && r.mainDocumentURL == request.mainDocumentURL
    ensures claimed ==> RequestShouldBeStoredInMattress(r) && r.cachePolicy == request.cachePolicy
    ensures !claimed ==> r.cachePolicy == ReturnCacheDataElseLoad
    ensures !claimed ==> forall k :: k != URLProtocolHandledRequestKey ==> PropertyForKey(k, r) == PropertyForKey(k, request)
  {
    var mutableRequest :=
      if claimed then WebViewCacher.MutableRequestForRequest(request)
      else request.(cachePolicy := ReturnCacheDataElseLoad);
    SetProperty(true, URLProtocolHandledRequestKey, mutableRequest)
  }

  /** The position of the first cacher of `cache` that claims the request, or -1. */
  function Claim(cache: URLCache.URLCache, request: Request): (i: int)
    reads cache, cache.cachers
    ensures -1 <= i < |cache.cachers|
  {
    URLCache.OriginatingIndex(URLCache.MainsOf(cache.cachers), request)
  }

  /** What startLoading does: serve the cached response, or start a connection for the canonical request. */
  datatype Loading = Served(response: CachedResponse) | Connected(request: Request)

  /** startLoading: a cached HTTP response with a status below 400 is served; anything else goes to the network. */
  function StartedLoading(canonical: Request, cached: Option<CachedResponse>): (r: Loading)
    ensures r.Served? <==> cached.Some? && URLCache.IsStorableResponse(cached.value.response)
    ensures r.Served? ==> r.response == cached.value
    ensures r.Connected? ==> r.request == canonical
  {
    if cached.Some? && cached.value.response.statusCode.Some? && cached.value.response.statusCode.value < URLCache.FailureStatusCode
    then Served(cached.value)
    else Connected(canonical)
  }

  class Registry {
    /** The caches consulted for a claiming cacher, oldest first. */
    var caches: seq<URLCache.URLCache>
    /** Whether the protocol class is registered with the URL loading system. */
    var registered: bool
    /** URLProtocol.shouldRetrieveFromMattressCacheByDefault (the static member canInit reads). */
    var shouldRetrieveFromMattressCacheByDefault: bool
    /** NSURLCache.sharedURLCache(), when it is a URLCache. */
    var shared: Option<URLCache.URLCache>

    /** The protocol is registered exactly while some cache is listed. */
    predicate Valid()
      reads this
    {
      registered <==> |caches| > 0
    }

    constructor()
      ensures Valid()
      ensures caches == [] && !registered && !shouldRetrieveFromMattressCacheByDefault && shared == None
    {
      caches := [];
      registered := false;
      shouldRetrieveFromMattressCacheByDefault := false;
      shared := None;
    }

    /** addCache: the first cache registers the protocol; the result says whether this call registered it. */
    method AddCache(cache: URLCache.URLCache) returns (didRegister: bool)
      requires Valid()
      modifies this
      ensures Valid()
      ensures caches == old(caches) + [cache] && registered
      ensures didRegister <==> old(caches) == []
      ensures shared == old(shared) && shouldRetrieveFromMattressCacheByDefault == old(shouldRetrieveFromMattressCacheByDefault)
    {
      didRegister := false;
      if |caches| == 0 {
        RegisterProtocol(true);
        didRegister := true;
      }
      caches := caches + [cache];
    }

    /**
     * removeCache: the first occurrence of the cache is removed; removing the
     * last cache unregisters the protocol. The result says whether this call
     * unregistered it.
     */
    method RemoveCache(cache: URLCache.URLCache) returns (didUnregister: bool)
      requires Valid()
      modifies this
      ensures Valid()
      ensures caches == RemoveFirst(old(caches), cache)
      ensures didUnregister <==> cache in old(caches) && caches == []
      ensures shared == old(shared) && shouldRetrieveFromMattressCacheByDefault == old(shouldRetrieveFromMattressCacheByDefault)
    {
      didUnregister := false;
      var index := FindIndex(caches, cache);
      if index != -1 {
        caches := RemoveAt(caches, index);
        if |caches| == 0 {
          RegisterProtocol(false);
          didUnregister := true;
        }
      }
    }

    /** registerProtocol. */
    method RegisterProtocol(shouldRegister: bool)
      modifies this
      ensures registered == shouldRegister
      ensures caches == old(caches) && shared == old(shared)
      ensures shouldRetrieveFromMattressCacheByDefault == old(shouldRetrieveFromMattressCacheByDefault)
    {
      registered := shouldRegister;
    }

    /** URLCache.addToProtocol. */
    method AddToProtocol(cache: URLCache.URLCache, shouldAdd: bool)
      requires Valid()
      modifies this
      ensures Valid()
      ensures caches == if shouldAdd then old(caches) + [cache] else RemoveFirst(old(caches), cache)
      ensures shared == old(shared) && shouldRetrieveFromMattressCacheByDefault == old(shouldRetrieveFromMattressCacheByDefault)
    {
      if shouldAdd {
        var _ := AddCache(cache);
      } else {
        var _ := RemoveCache(cache);
      }
    }

    /** URLCache.init: a new URLCache, which then adds itself to the protocol's caches. */
    method InitURLCache(diskConfig: DiskCache.Config, files: map<string, FileEntry>, plist: PlistFile, hasOfflineHandler: bool)
      returns (cache: URLCache.URLCache)
      requires Valid()
      modifies this
      ensures Valid() && registered
      ensures fresh(cache) && fresh(cache.diskCache) && cache.Valid()
      ensures caches == old(caches) + [cache]
      ensures cache.cachers == [] && cache.hasOfflineHandler == hasOfflineHandler && cache.diskCache.config == diskConfig
      ensures shared == old(shared) && shouldRetrieveFromMattressCacheByDefault == old(shouldRetrieveFromMattressCacheByDefault)
    {
      cache := new URLCache.URLCache(diskConfig, files, plist, hasOfflineHandler);
      AddToProtocol(cache, true);
    }

    /**
     * webViewCacherForRequest: the caches are asked newest first, and the
     * first cacher found is the answer.
     */
    method WebViewCacherForRequest(request: Request) returns (cacher: Option<WebViewCacher.WebViewCacher>)
      ensures cacher.None? ==> forall j :: 0 <= j < |caches| ==> Claim(caches[j], request) == -1
      ensures cacher.Some? ==>
        exists i ::
          && 0 <= i < |caches|
          && Claim(caches[i], request) != -1
          && cacher.value == caches[i].cachers[Claim(caches[i], request)]
          && (forall j :: i < j < |caches| ==> Claim(caches[j], request) == -1)
    {
      var i := |caches|;
      while i > 0
        invariant 0 <= i <= |caches|
        invariant forall j :: i <= j < |caches| ==> Claim(caches[j], request) == -1
      {
        i := i - 1;
        var found := caches[i].WebViewCacherOriginatingRequest(request);
        if found.Some? {
          return found;
        }
      }
      return None;
    }

    /** Every cacher of every listed cache. */
    function Cachers(): (r: set<WebViewCacher.WebViewCacher>)
      reads this, caches
      ensures forall j :: 0 <= j < |caches| ==> (set c | c in caches[j].cachers) <= r
    {
      set j, c | 0 <= j < |caches| && c in caches[j].cachers :: c
    }

    /** Some cacher of some listed cache claims the request. */
    predicate Claimed(request: Request)
      reads this, caches, Cachers()
    {
      exists j :: 0 <= j < |caches| && Claim(caches[j], request) != -1
    }

    /**
     * canInitWithRequest; `offlineAnswer` is what the shared cache's
     * isOfflineHandler returns, if it has one.
     */
    method CanInitWithRequest(request: Request, offlineAnswer: bool) returns (b: bool)
      ensures b == CanInit(request, Claimed(request),
        shared.Some? && shared.value.hasOfflineHandler && offlineAnswer,
        shouldRetrieveFromMattressCacheByDefault,
        shared.Some? && DiskCache.HasCachedResponseFor(shared.value.diskCache.config, shared.value.diskCache.State(), request))
    {
      if IsHandled(request) {
        return false;
      }
      var cacher := WebViewCacherForRequest(request);
      if cacher.Some? {
        return true;
      }
      var isOffline := false;
      if shared.Some? {
        if shared.value.hasOfflineHandler {
          isOffline := offlineAnswer;
        }
      }
      if !isOffline && OptsOut(request) {
        return false;
      }
      if IsWebScheme(request) {
        if shouldRetrieveFromMattressCacheByDefault {
          if shared.Some? {
            var has := shared.value.HasMattressCachedResponseForRequest(request);
            if has {
              return true;
            }
          }
        }
      }
      return isOffline;
    }

    /** The shared cache's answer for a request, when the shared cache is a URLCache. */
    function SharedResponse(request: Request, fallbackAnswer: Option<CachedResponse>): (r: Option<CachedResponse>)
      reads this, if shared.Some? then {shared.value, shared.value.diskCache} else {}
      ensures shared.None? ==> r.None?
    {
      if shared.Some?
      then URLCache.Retrieved(shared.value.diskCache.config, shared.value.diskCache.State(), request, fallbackAnswer)
      else None
    }

    /** `NSURLCache.sharedURLCache() as? URLCache` followed by cachedResponseForRequest. */
    method SharedCachedResponseForRequest(request: Request, fallbackAnswer: Option<CachedResponse>)
      returns (cachedResponse: Option<CachedResponse>)
      ensures cachedResponse == SharedResponse(request, fallbackAnswer)
    {
      cachedResponse := None;
      if shared.Some? {
        cachedResponse := shared.value.CachedResponseForRequest(request, fallbackAnswer);
      }
    }

    /** mutableCanonicalRequestForRequest, with the claim looked up among the caches. */
    method MutableCanonicalRequestForRequest(request: Request) returns (mutableRequest: Request)
      ensures mutableRequest == MutableCanonicalRequest(request, Claimed(request))
    {
      mutableRequest := request.(cachePolicy := ReturnCacheDataElseLoad);
      var cacher := WebViewCacherForRequest(request);
      if cacher.Some? {
        mutableRequest := WebViewCacher.MutableRequestForRequest(request);
      }
      mutableRequest := SetProperty(true, URLProtocolHandledRequestKey, mutableRequest);
    }
  }

  /** One loading of one request. */
  class URLProtocol {
    const request: Request
    /** The request the NSURLConnection was started with, while there is one. */
    var connection: Option<Request>
    /** The cached response handed to the client, if one was. */
    var served: Option<CachedResponse>

    constructor(request: Request)
      ensures this.request == request && connection == None && served == None
    {
      this.request := request;
      connection := None;
      served := None;
    }

    /**
     * startLoading; `fallbackAnswer` is what the shared cache's underlying
     * NSURLCache would return for the canonical request.
     */
    method StartLoading(registry: Registry, fallbackAnswer: Option<CachedResponse>)
      modifies this
      ensures var canonical := old(MutableCanonicalRequest(request, registry.Claimed(request)));
        var outcome := StartedLoading(canonical, old(registry.SharedResponse(canonical, fallbackAnswer)));
        && (outcome.Served? ==> served == Some(outcome.response) && connection == old(connection))
        && (outcome.Connected? ==> connection == Some(outcome.request) && served == old(served))
    {
      var mutableRequest := registry.MutableCanonicalRequestForRequest(request);
      var cachedResponse := registry.SharedCachedResponseForRequest(mutableRequest, fallbackAnswer);
      if cachedResponse.Some? && cachedResponse.value.response.statusCode.Some? {
        if cachedResponse.value.response.statusCode.value < URLCache.FailureStatusCode {
          served := cachedResponse;
          return;
        }
      }
      connection := Some(mutableRequest);
    }

    /** stopLoading: the connection is cancelled and dropped. */
    method StopLoading()
      modifies this
      ensures connection == None && served == old(served)
    {
      connection := None;
    }
  }

  // ---------------------------------------------------------------- properties

  /**
   * canInitWithRequest, stated outright: never a handled request; otherwise a
   * claimed request, any request while offline, and an online request that
   * did not opt out when default retrieval is on and the disk cache has it.
   */
  lemma CanInitCharacterized(request: Request, claimed: bool, isOffline: bool, retrieveByDefault: bool, hasMattressResponse: bool)
    ensures CanInit(request, claimed, isOffline, retrieveByDefault, hasMattressResponse) <==>
      !IsHandled(request)
      && (claimed || isOffline || (!OptsOut(request) && IsWebScheme(request) && retrieveByDefault && hasMattressResponse))
  {
  }

  /** The canonical request the protocol sends on is never taken by the protocol again. */
  lemma CanonicalIsNotReintercepted(request: Request, claimed: bool, claimedAgain: bool, isOffline: bool,
                                    retrieveByDefault: bool, hasMattressResponse: bool)
    ensures !CanInit(MutableCanonicalRequest(request, claimed), claimedAgain, isOffline, retrieveByDefault, hasMattressResponse)
  {
  }

  /**
   * A claimed request's response is routed to the Mattress disk cache only:
   * the canonical request carries the cacher's tag.
   */
  lemma ClaimedResponseGoesToMattress(cfg: DiskCache.Config, d: Disk, cached: CachedResponse, request: Request,
                                      outs: DiskCache.StoreOutcomes)
    ensures var canonical := MutableCanonicalRequest(request, true);
      URLCache.Routed(cfg, d, cached, canonical, outs) == (DiskCache.Stored(cfg, d, cached, canonical, outs).0, false)
  {
  }

  /** A cached failure response (status 400 or above) is never served; the request goes to the network. */
  lemma FailureIsNeverServed(canonical: Request, cached: CachedResponse)
    requires cached.response.statusCode.Some? ==> cached.response.statusCode.value >= URLCache.FailureStatusCode
    ensures StartedLoading(canonical, Some(cached)) == Connected(canonical)
  {
  }
}
