/**
 * The older revision's WebViewCacher: the same crawl session, but tagging
 * requests for the offline cache, with no failure handler, claiming requests
 * by their main document URL only, and keeping its completion handler after
 * it has fired.
 */
module LegacyWebViewCacher {
  import opened Wrappers
  import opened Requests

  /** A cacher's fields as a value. */
  datatype Cacher = Cacher(
    hasLoadedHandler: bool,
    hasCompletionHandler: bool,
    mainDocumentURL: Option<Url>,
    hasWebView: bool,
    loads: seq<Request>)

  /** A fresh cacher: no handlers, no document, no web view. */
  const Idle := Cacher(false, false, None, false, [])

  /** didOriginateRequest: a document is set and the request belongs to it. */
  function DidOriginate(mainDocumentURL: Option<Url>, request: Request): (b: bool)
    ensures mainDocumentURL.None? ==> !b
    ensures b ==> request.mainDocumentURL == mainDocumentURL
    ensures mainDocumentURL.Some? && request.mainDocumentURL == mainDocumentURL ==> b
  {
    mainDocumentURL.Some? && request.mainDocumentURL == mainDocumentURL
  }

  /** mutableRequestForRequest: a copy tagged for the offline cache, otherwise unchanged. */
  function MutableRequestForRequest(request: Request): (r: Request)
    ensures RequestShouldBeStoredOffline(r)
    ensures r.url == request.url && r.mainDocumentURL == request.mainDocumentURL && r.cachePolicy == request.cachePolicy
    ensures forall k :: k != MattressOfflineCacheRequestPropertyKey ==> PropertyForKey(k, r) == PropertyForKey(k, request)
  {
    SetProperty(true, MattressOfflineCacheRequestPropertyKey, request)
  }

  /** offlineCacheURL: installs both handlers and loads the tagged page request in a new web view. */
  function CacheURL(s: Cacher, url: Url): (r: Cacher)
    ensures r.hasLoadedHandler && r.hasCompletionHandler && r.hasWebView
    ensures r.mainDocumentURL == s.mainDocumentURL
    ensures |r.loads| == |s.loads| + 1 && r.loads[..|s.loads|] == s.loads
    ensures var page := r.loads[|s.loads|]; page.url == Some(url) && RequestShouldBeStoredOffline(page)
  {
    s.(hasLoadedHandler := true, hasCompletionHandler := true,
       hasWebView := true, loads := s.loads + [MutableRequestForRequest(RequestWithURL(url))])
  }

  /**
   * webViewDidFinishLoad: the load is complete when there is no loaded handler
   * or it answers true, and a complete load fires the completion handler. The
   * state is left as it was: neither the handler nor the web view is dropped.
   */
  function Finished(s: Cacher, loadedAnswer: bool): (r: (Cacher, bool))
    ensures r.0 == s
    ensures r.1 <==> s.hasCompletionHandler && (!s.hasLoadedHandler || loadedAnswer)
  {
    var isComplete := if s.hasLoadedHandler then loadedAnswer else true;
    (s, isComplete && s.hasCompletionHandler)
  }

  /**
   * shouldStartLoadWithRequest: records the request's main document URL; an
   * untagged navigation is refused and loaded again with the offline tag.
   */
  function StartedLoad(s: Cacher, request: Request): (r: (Cacher, bool))
    ensures r.0.mainDocumentURL == request.mainDocumentURL
    ensures r.1 <==> RequestShouldBeStoredOffline(request)
    ensures r.1 ==> r.0.loads == s.loads
    ensures !r.1 ==> r.0.loads == s.loads + [MutableRequestForRequest(request)]
    ensures r.0.hasLoadedHandler == s.hasLoadedHandler && r.0.hasCompletionHandler == s.hasCompletionHandler
  {
    var s' := s.(mainDocumentURL := request.mainDocumentURL);
    if !RequestShouldBeStoredOffline(request) then (s'.(loads := s'.loads + [MutableRequestForRequest(request)]), false)
    else (s', true)
  }

  // ---------------------------------------------------------------- the cacher object

  class WebViewCacher {
    var hasLoadedHandler: bool
    var hasCompletionHandler: bool
    var mainDocumentURL: Option<Url>
    var hasWebView: bool
    var loads: seq<Request>

    /** The cacher's fields as a value. */
    function State(): Cacher
      reads this
    {
      Cacher(hasLoadedHandler, hasCompletionHandler, mainDocumentURL, hasWebView, loads)
    }

    /** WebViewCacher(): every optional field starts out nil. */
    constructor()
      ensures State() == Idle
    {
      hasLoadedHandler := false;
      hasCompletionHandler := false;
      mainDocumentURL := None;
      hasWebView := false;
      loads := [];
    }

    /** didOriginateRequest. */
    function DidOriginateRequest(request: Request): (b: bool)
      reads this
      ensures mainDocumentURL.None? ==> !b
      ensures b <==> DidOriginate(mainDocumentURL, request)
    {
      DidOriginate(mainDocumentURL, request)
    }

    /** offlineCacheURL. */
    method OfflineCacheURL(url: Url)
      modifies this
      ensures State() == CacheURL(old(State()), url)
    {
      hasLoadedHandler := true;
      hasCompletionHandler := true;
      LoadURLInWebView(url);
    }

    /** loadURLInWebView: a new web view loading the tagged request for the URL. */
    method LoadURLInWebView(url: Url)
      modifies this
      ensures State() == old(State()).(hasWebView := true, loads := old(loads) + [MutableRequestForRequest(RequestWithURL(url))])
    {
      var request := RequestWithURL(url);
      var mutableRequest := MutableRequestForRequest(request);
      loads := loads + [mutableRequest];
      hasWebView := true;
    }

    /** webViewDidFinishLoad; `loadedAnswer` is what the loaded handler returns, when there is one. */
    method WebViewDidFinishLoad(loadedAnswer: bool) returns (fired: bool)
      modifies this
      ensures (State(), fired) == Finished(old(State()), loadedAnswer)
    {
      var isComplete := true;
      if hasLoadedHandler {
        isComplete := loadedAnswer;
      }
      fired := false;
      if isComplete {
        if hasCompletionHandler {
          fired := true;
        }
      }
    }

    /** webView(_:shouldStartLoadWithRequest:navigationType:). */
    method ShouldStartLoadWithRequest(request: Request) returns (allow: bool)
      modifies this
      ensures (State(), allow) == StartedLoad(old(State()), request)
    {
      mainDocumentURL := request.mainDocumentURL;
      if !RequestShouldBeStoredOffline(request) {
        var mutableRequest := MutableRequestForRequest(request);
        loads := loads + [mutableRequest];
        return false;
      }
      return true;
    }
  }

  // ---------------------------------------------------------------- properties

  /** What the web view delivers to its delegate. */
  datatype Event = Finish(loadedAnswer: bool) | Navigate(request: Request)

  /** One delegate callback: the new state and whether the completion handler fired. */
  function Step(s: Cacher, e: Event): (r: (Cacher, bool))
    ensures r.0.hasLoadedHandler == s.hasLoadedHandler && r.0.hasCompletionHandler == s.hasCompletionHandler
  {
    match e
    case Finish(answer) => Finished(s, answer)
    case Navigate(request) => (StartedLoad(s, request).0, false)
  }

  /** A run of callbacks: the final state and how often the completion handler fired. */
  function Run(s: Cacher, events: seq<Event>): (r: (Cacher, nat))
    decreases |events|
  {
    if events == [] then (s, 0)
    else
      var step := Step(s, events[0]);
      var rest := Run(step.0, events[1..]);
      (rest.0, rest.1 + (if step.1 then 1 else 0))
  }

  /**
   * The completion handler is never cleared: once installed, it fires on every
   * finish the loaded handler accepts, however many there are.
   */
  lemma {:induction false} CompletionFiresOnEveryAcceptedFinish(s: Cacher, events: seq<Event>)
    requires s.hasCompletionHandler
    requires forall i :: 0 <= i < |events| ==> events[i] == Finish(true)
    ensures Run(s, events).1 == |events|
    decreases |events|
  {
    if events != [] {
      var step := Step(s, events[0]);
      assert step.1;
      CompletionFiresOnEveryAcceptedFinish(step.0, events[1..]);
    }
  }

  /** Without a completion handler nothing ever fires. */
  lemma {:induction false} NothingFiresWithoutHandler(s: Cacher, events: seq<Event>)
    requires !s.hasCompletionHandler
    ensures Run(s, events).1 == 0
    decreases |events|
  {
    if events != [] {
      NothingFiresWithoutHandler(Step(s, events[0]).0, events[1..]);
    }
  }

  /** A request for the page itself, whose main document URL is unset, is not claimed. */
  lemma PageRequestIsNotClaimed(main: Option<Url>, url: Url)
    ensures !DidOriginate(main, RequestWithURL(url))
  {
  }
}
