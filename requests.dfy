/**
 * The Foundation values the cache passes around: URLs, requests with their
 * protocol properties, responses and cached responses, together with the
 * property keys the two revisions of the library use to tag requests.
 */
module Requests {
  import opened Wrappers
  import opened Encoding

  /** An NSURL, reduced to what the library looks at: its scheme and its absolute string. */
  datatype Url = Url(scheme: string, absoluteString: string)

  /** A value stored with NSURLProtocol.setProperty: a Boolean, or any other object. */
  datatype Property = BoolProperty(b: bool) | OtherProperty

  /** The two cache policies the library distinguishes. */
  datatype CachePolicy = UseProtocolCachePolicy | ReturnCacheDataElseLoad

  /** An NSURLRequest. The URL may be absent, as NSURLRequest.URL is optional. */
  datatype Request = Request(
    url: Option<Url>,
    mainDocumentURL: Option<Url>,
    cachePolicy: CachePolicy,
    properties: map<string, Property>)

  /**
   * An NSURLResponse; `statusCode` is present exactly when the response is an
   * NSHTTPURLResponse.
   */
  datatype Response = Response(url: Option<Url>, statusCode: Option<int>)

  /** An NSCachedURLResponse: the response, its body and an optional user-info dictionary. */
  datatype CachedResponse = CachedResponse(
    response: Response,
    data: seq<byte>,
    userInfo: Option<map<string, string>>)

  /** Tag set on requests a WebViewCacher issues in the current revision. */
  const MattressCacheRequestPropertyKey := "MattressCacheRequest"
  /** Opt-out tag: an online request carrying `true` under it is not served from the cache. */
  const MattressAvoidCacheRetreiveOnlineRequestPropertyKey := "MattressAvoidCacheRetreiveOnlineRequestPropertyKey"
  /** Tag set on requests a WebViewCacher issues in the older revision. */
  const MattressOfflineCacheRequestPropertyKey := "MattressOfflineCacheRequest"
  /** Marks a request the protocol has already taken, so it is not taken twice. */
  const URLProtocolHandledRequestKey := "URLProtocolHandledRequestKey"

  /** NSURLRequest(URL:): a plain request for a URL with no properties. */
  function RequestWithURL(url: Url): (r: Request)
    ensures r.url == Some(url) && r.mainDocumentURL.None?
    ensures r.properties == map[]
  {
    Request(Some(url), None, UseProtocolCachePolicy, map[])
  }

  /** NSURLProtocol.propertyForKey. */
  function PropertyForKey(key: string, request: Request): (r: Option<Property>)
    ensures r.Some? <==> key in request.properties
  {
    if key in request.properties then Some(request.properties[key]) else None
  }

  /** `propertyForKey(key) as? Bool == true`: the request carries the Boolean `true` under `key`. */
  function HasTrueProperty(key: string, request: Request): (b: bool)
    ensures b <==> key in request.properties && request.properties[key] == BoolProperty(true)
  {
    PropertyForKey(key, request) == Some(BoolProperty(true))
  }

  /** NSURLProtocol.setProperty on a mutable copy of the request. */
  function SetProperty(value: bool, key: string, request: Request): (r: Request)
    ensures PropertyForKey(key, r) == Some(BoolProperty(value))
    ensures forall k :: k != key ==> PropertyForKey(k, r) == PropertyForKey(k, request)
    ensures r.url == request.url && r.mainDocumentURL == request.mainDocumentURL
    ensures r.cachePolicy == request.cachePolicy
  {
    request.(properties := request.properties[key := BoolProperty(value)])
  }

  /** True when the request's response should go to the Mattress disk cache (current revision). */
  function RequestShouldBeStoredInMattress(request: Request): (b: bool)
    ensures b <==> (MattressCacheRequestPropertyKey in request.properties
                    && request.properties[MattressCacheRequestPropertyKey] == BoolProperty(true))
  {
    HasTrueProperty(MattressCacheRequestPropertyKey, request)
  }

  /** True when the request's response should go to the offline disk cache (older revision). */
  function RequestShouldBeStoredOffline(request: Request): (b: bool)
    ensures b <==> (MattressOfflineCacheRequestPropertyKey in request.properties
                    && request.properties[MattressOfflineCacheRequestPropertyKey] == BoolProperty(true))
  {
    HasTrueProperty(MattressOfflineCacheRequestPropertyKey, request)
  }

  /** True when the protocol has already marked the request, whatever value it stored. */
  function IsHandled(request: Request): (b: bool)
    ensures b <==> URLProtocolHandledRequestKey in request.properties
  {
    PropertyForKey(URLProtocolHandledRequestKey, request).Some?
  }

  /** The tag predicate reads back exactly the Boolean that was set, and only under its own key. */
  lemma TagReadsBack(request: Request, value: bool)
    ensures RequestShouldBeStoredInMattress(SetProperty(value, MattressCacheRequestPropertyKey, request)) == value
    ensures RequestShouldBeStoredOffline(SetProperty(value, MattressOfflineCacheRequestPropertyKey, request)) == value
    ensures RequestShouldBeStoredInMattress(SetProperty(value, MattressOfflineCacheRequestPropertyKey, request))
        == RequestShouldBeStoredInMattress(request)
  {
  }
}
