/**
 * The current revision's WebViewCacher: a crawl session that loads one page
 * in a web view, tags every request the page makes so that it is stored in
 * the Mattress disk cache, and reports completion or failure once.
 *
 * Handlers are modelled by their presence. The answer the loaded handler
 * gives on a finish, and the code of a failure's error, are inputs. The web
 * view itself is reduced to whether the cacher holds one and the list of
 * requests handed to it.
 */
module WebViewCacher {
  import opened Wrappers
  import opened Requests

  /** NSURLErrorCancelled: a load interrupted by a newer one. */
  const CancelledErrorCode := -999

  /** A cacher's fields as a value. */
  datatype Cacher = Cacher(
    hasLoadedHandler: bool,
    hasCompletionHandler: bool,
    hasFailureHandler: bool,
    mainDocumentURL: Option<Url>,
    hasWebView: bool,
    loads: seq<Request>)

  /** A fresh cacher: no handlers, no document, no web view. */
  const Idle := Cacher(false, false, false, None, false, [])

  /** didOriginateRequest: a document is set and the request belongs to it or is for it. */
  function DidOriginate(mainDocumentURL: Option<Url>, request: Request): (b: bool)
    ensures mainDocumentURL.None? ==> !b
    ensures b ==> request.mainDocumentURL == mainDocumentURL || request.url == mainDocumentURL
    ensures mainDocumentURL.Some? && request.url == mainDocumentURL ==> b
    ensures mainDocumentURL.Some? && request.mainDocumentURL == mainDocumentURL ==> b
  {
    mainDocumentURL.Some? && (request.mainDocumentURL == mainDocumentURL || request.url == mainDocumentURL)
  }

  /** mutableRequestForRequest: a copy tagged for the Mattress disk cache, otherwise unchanged. */
  function MutableRequestForRequest(request: Request): (r: Request)
    ensures RequestShouldBeStoredInMattress(r)
    ensures r.url == request.url && r.mainDocumentURL == request.mainDocumentURL && r.cachePolicy == request.cachePolicy
    ensures forall k :: k != MattressCacheRequestPropertyKey ==> PropertyForKey(k, r) == PropertyForKey(k, request)
  {
    SetProperty(true, MattressCacheRequestPropertyKey, request)
  }

  /** mattressCacheURL: installs the three handlers and loads the tagged page request in a new web view. */
  function CacheURL(s: Cacher, url: Url): (r: Cacher)
    ensures r.hasLoadedHandler && r.hasCompletionHandler && r.hasFailureHandler && r.hasWebView
    ensures r.mainDocumentURL == s.mainDocumentURL
    ensures |r.loads| == |s.loads| + 1 && r.loads[..|s.loads|] == s.loads
    ensures var page := r.loads[|s.loads|]; page.url == Some(url) && RequestShouldBeStoredInMattress(page)
  {
    s.(hasLoadedHandler := true, hasCompletionHandler := true, hasFailureHandler := true,
       hasWebView := true, loads := s.loads + [MutableRequestForRequest(RequestWithURL(url))])
  }

  /**
   * webViewDidFinishLoad: the load is complete when there is no loaded handler
   * or it answers true. A complete load drops the web view and fires the
   * completion handler, which is then cleared; the result says whether it fired.
   */
  function Finished(s: Cacher, loadedAnswer: bool): (r: (Cacher, bool))
    ensures r.1 <==> s.hasCompletionHandler && (!s.hasLoadedHandler || loadedAnswer)
    ensures s.hasLoadedHandler && !loadedAnswer ==> r.0 == s
    ensures !s.hasLoadedHandler || loadedAnswer ==>
      r.0 == s.(hasWebView := false, hasCompletionHandler := false)
  {
    var isComplete := if s.hasLoadedHandler then loadedAnswer else true;
    if isComplete then (s.(hasWebView := false, hasCompletionHandler := false), s.hasCompletionHandler)
    else (s, false)
  }

  /**
   * didFailLoadWithError: a cancellation or a missing error is ignored; any
   * other error fires the failure handler, which is then cleared.
   */
  function Failed(s: Cacher, error: Option<int>): (r: (Cacher, bool))
    ensures error.None? || error == Some(CancelledErrorCode) ==> r == (s, false)
    ensures error.Some? && error.value != CancelledErrorCode ==>
      r == (s.(hasFailureHandler := false), s.hasFailureHandler)
  {
    if error == Some(CancelledErrorCode) then (s, false)
    else if error.Some? then (s.(hasFailureHandler := false), s.hasFailureHandler)
    else (s, false)
  }

  /**
   * shouldStartLoadWithRequest: records the request's main document URL
   * (even an absent one); an untagged navigation is refused and loaded again
   * with the tag, a tagged one is allowed.
   */
  function StartedLoad(s: Cacher, request: Request): (r: (Cacher, bool))
    ensures r.0.mainDocumentURL == request.mainDocumentURL
    ensures r.1 <==> RequestShouldBeStoredInMattress(request)
    ensures r.1 ==> r.0.loads == s.loads
    ensures !r.1 ==> r.0.loads == s.loads + [MutableRequestForRequest(request)]
    ensures r.0.hasCompletionHandler == s.hasCompletionHandler && r.0.hasFailureHandler == s.hasFailureHandler
  {
    var s' := s.(mainDocumentURL := request.mainDocumentURL);
    if !RequestShouldBeStoredInMattress(request) then (s'.(loads := s'.loads + [MutableRequestForRequest(request)]), false)
    else (s', true)
  }

  // ---------------------------------------------------------------- the cacher object

  class WebViewCacher {
    var hasLoadedHandler: bool
    var hasCompletionHandler: bool
    var hasFailureHandler: bool
    var mainDocumentURL: Option<Url>
    var hasWebView: bool
    var loads: seq<Request>

    /** The cacher's fields as a value. */
    function State(): Cacher
      reads this
    {
      Cacher(hasLoadedHandler, hasCompletionHandler, hasFailureHandler, mainDocumentURL, hasWebView, loads)
    }

    /** WebViewCacher(): every handler and the document URL start out nil. */
    constructor()
      ensures State() == Idle
    {
      hasLoadedHandler := false;
      hasCompletionHandler := false;
      hasFailureHandler := false;
      mainDocumentURL := None;
      hasWebView := false;
      loads := [];
    }

    /** didOriginateRequest. */
    function DidOriginateRequest(request: Request): (b: bool)
      reads this
      ensures mainDocumentURL.None? ==> !b
      ensures b <==> DidOriginate(mainDocumentURL, request)
    {
      DidOriginate(mainDocumentURL, request)
    }

    /** mattressCacheURL. */
    method MattressCacheURL(url: Url)
      modifies this
      ensures State() == CacheURL(old(State()), url)
    {
      hasLoadedHandler := true;
      hasCompletionHandler := true;
      hasFailureHandler := true;
      LoadURLInWebView(url);
    }

    /** loadURLInWebView: a new web view loading the tagged request for the URL. */
    method LoadURLInWebView(url: Url)
      modifies this
      ensures State() == old(State()).(hasWebView := true, loads := old(loads) + [MutableRequestForRequest(RequestWithURL(url))])
    {
      var request := RequestWithURL(url);
      var mutableRequest := MutableRequestForRequest(request);
      hasWebView := true;
      loads := loads + [mutableRequest];
    }

    /** webViewDidFinishLoad; `loadedAnswer` is what the loaded handler returns, when there is one. */
    method WebViewDidFinishLoad(loadedAnswer: bool) returns (fired: bool)
      modifies this
      ensures (State(), fired) == Finished(old(State()), loadedAnswer)
    {
      var isComplete := true;
      if hasLoadedHandler {
        isComplete := loadedAnswer;
      }
      fired := false;
      if isComplete {
        hasWebView := false;
        if hasCompletionHandler {
          fired := true;
        }
        hasCompletionHandler := false;
      }
    }

    /** webView(_:didFailLoadWithError:); `error` is the error's code, absent for a nil error. */
    method DidFailLoadWithError(error: Option<int>) returns (fired: bool)
      modifies this
      ensures (State(), fired) == Failed(old(State()), error)
    {
      fired := false;
      if error == Some(CancelledErrorCode) {
        return;
      }
      if error.Some? {
        if hasFailureHandler {
          fired := true;
        }
        hasFailureHandler := false;
      }
    }

    /** webView(_:shouldStartLoadWithRequest:navigationType:). */
    method ShouldStartLoadWithRequest(request: Request) returns (allow: bool)
      modifies this
      ensures (State(), allow) == StartedLoad(old(State()), request)
    {
      mainDocumentURL := request.mainDocumentURL;
      if !RequestShouldBeStoredInMattress(request) {
        var mutableRequest := MutableRequestForRequest(request);
        loads := loads + [mutableRequest];
        return false;
      }
      return true;
    }
  }

  // ---------------------------------------------------------------- properties

  /** Tagging a tagged request again changes nothing. */
  lemma RetaggingChangesNothing(request: Request)
    ensures MutableRequestForRequest(MutableRequestForRequest(request)) == MutableRequestForRequest(request)
  {
    assert MutableRequestForRequest(MutableRequestForRequest(request)).properties
        == MutableRequestForRequest(request).properties;
  }

  /** A cacher claims nothing before its first navigation, and afterwards claims the page of the last navigation. */
  lemma ClaimsTheLastNavigatedDocument(s: Cacher, navigation: Request, request: Request)
    ensures !DidOriginate(Idle.mainDocumentURL, request)
    ensures navigation.mainDocumentURL.Some? ==>
      var main := StartedLoad(s, navigation).0.mainDocumentURL;
      DidOriginate(main, request) <==>
        request.mainDocumentURL == navigation.mainDocumentURL || request.url == navigation.mainDocumentURL
    ensures navigation.mainDocumentURL.None? ==> !DidOriginate(StartedLoad(s, navigation).0.mainDocumentURL, request)
  {
  }

  /** What the web view delivers to its delegate. */
  datatype Event = Finish(loadedAnswer: bool) | Fail(error: Option<int>) | Navigate(request: Request)

  /** One delegate callback: the new state, and whether the completion and the failure handlers fired. */
  function Step(s: Cacher, e: Event): (r: (Cacher, bool, bool))
    ensures r.0.hasCompletionHandler ==> s.hasCompletionHandler
    ensures r.0.hasFailureHandler ==> s.hasFailureHandler
    ensures r.1 ==> s.hasCompletionHandler && !r.0.hasCompletionHandler
    ensures r.2 ==> s.hasFailureHandler && !r.0.hasFailureHandler
  {
    match e
    case Finish(answer) => var f := Finished(s, answer); (f.0, f.1, false)
    case Fail(error) => var f := Failed(s, error); (f.0, false, f.1)
    case Navigate(request) => (StartedLoad(s, request).0, false, false)
  }

  /** A run of callbacks: the final state and how often each handler fired. */
  function Run(s: Cacher, events: seq<Event>): (r: (Cacher, nat, nat))
    decreases |events|
  {
    if events == [] then (s, 0, 0)
    else
      var step := Step(s, events[0]);
      var rest := Run(step.0, events[1..]);
      (rest.0, rest.1 + (if step.1 then 1 else 0), rest.2 + (if step.2 then 1 else 0))
  }

  /**
   * Whatever the web view delivers, and in whatever order, each handler fires
   * at most once per mattressCacheURL, and never when it was not installed.
   */
  lemma {:induction false} HandlersFireAtMostOnce(s: Cacher, events: seq<Event>)
    ensures Run(s, events).1 <= (if s.hasCompletionHandler then 1 else 0)
    ensures Run(s, events).2 <= (if s.hasFailureHandler then 1 else 0)
    decreases |events|
  {
    if events != [] {
      var step := Step(s, events[0]);
      HandlersFireAtMostOnce(step.0, events[1..]);
    }
  }

  /**
   * Completion and failure are cleared independently: a failure reported after
   * the completion still fires the failure handler.
   */
  lemma FailureCanFollowCompletion(s: Cacher, url: Url)
    ensures var r := Run(CacheURL(s, url), [Finish(true), Fail(Some(1))]);
      r.1 == 1 && r.2 == 1
  {
    var c := CacheURL(s, url);
    var s1 := Step(c, Finish(true));
    assert s1.1 && s1.0.hasFailureHandler;
    var s2 := Step(s1.0, Fail(Some(1)));
    assert s2.2;
    assert Run(s2.0, []) == (s2.0, 0, 0);
    assert [Finish(true), Fail(Some(1))][1..] == [Fail(Some(1))];
    assert [Fail(Some(1))][1..] == [];
  }

  /** A finish the loaded handler rejects changes nothing and fires nothing. */
  lemma RejectedFinishChangesNothing(s: Cacher)
    requires s.hasLoadedHandler
    ensures Finished(s, false) == (s, false)
  {
  }
}
