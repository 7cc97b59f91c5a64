/**
 * handleRequest as a whole (WorkerProxy.js:34-317): resolve the target,
 * fetch it with the translated request headers, translate the response
 * headers, and pick the body rewrite by content type.  The network is a
 * parameter: `fetch` says what the upstream answers to a request.
 */
module Proxy {
  import opened Wrappers
  import opened Strings
  import opened Urls
  import opened HttpHeaders
  import opened TargetResolution
  import opened HeaderTranslation
  import opened Css
  import opened HtmlRewriting

  /** What the upstream fetch yields: a response, or a failure to get one. */
  datatype Upstream = NetworkError | Fetched(status: int, headers: HeaderList, body: string)

  type Fetcher = (Url, HeaderList) -> Upstream

  /** The body rewrite chosen at lines 190-226. */
  datatype BodyKind = HtmlBody | CssBody | OtherBody

  /** Lines 193 and 226: HTML wins over CSS; anything else is passed on. */
  function BodyKindOf(contentType: string): BodyKind {
    if Contains(contentType, "text/html") || Contains(contentType, "application/xhtml+xml") then HtmlBody
    else if Contains(contentType, "text/css") then CssBody
    else OtherBody
  }

  /** Line 190: `get('Content-Type') || ''`. */
  function ResponseBodyKind(h: HeaderList): BodyKind {
    BodyKindOf(match GetHeader(h, "content-type") case Some(v) => v case None => "")
  }

  datatype Body =
    | HomePage                                   // the static page of lines 506-639
    | Message(text: string)                      // a rejection message
    | ParseErrorMessage                          // "URL parsing error: " and the parser's message
    | UpstreamText(text: string)                 // the upstream body, or its CSS rewrite
    | HtmlToRewrite(source: string, fallbackScripts: bool, base: Url, proxyHost: string)
                                                 // streamed through the handler table of lines 195-221
    | FailurePage(directLink: string)            // lines 239-311, linking to the target

  datatype Reply = Reply(status: int, headers: HeaderList, body: Body) | Uncaught

  /** The configuration fields handleRequest reads besides those of resolution. */
  datatype Settings = Settings(emulation: BrowserEmulation, fallbackScripts: bool)

  /** Lines 88-316: what the proxy answers once the target is known. */
  function Forward(settings: Settings, url: Url, request: HeaderList, target: Url,
                   parse: UrlParser, fetch: Fetcher, getAll: bool): Reply
  {
    Answer(settings, url, target, parse, getAll, fetch(target, OutboundHeaders(request, target, settings.emulation)))
  }

  /** Lines 142-316: the reply made from what the upstream answered. */
  function Answer(settings: Settings, url: Url, target: Url, parse: UrlParser, getAll: bool,
                  upstream: Upstream): Reply
  {
    match upstream
    case NetworkError =>
      Reply(500, [Header("content-type", "text/html;charset=UTF-8"), Header("access-control-allow-origin", "*")],
            FailurePage(target.href))
    case Fetched(status, upstreamHeaders, body) =>
      var headers := InboundHeaders(upstreamHeaders, status, target, url.host, parse, getAll);
      match ResponseBodyKind(headers)
      case HtmlBody => Reply(status, headers, HtmlToRewrite(body, settings.fallbackScripts, target, url.host))
      case CssBody => Reply(status, headers, UpstreamText(RewriteCss(body, target, url.host, parse)))
      case OtherBody => Reply(status, headers, UpstreamText(body))
  }

  /**
   * What the streamed rewrite of an HTML body does to one of its elements:
   * the handler table, built with the body's base URL and proxy host.
   */
  function ElementInReply(b: Body, parse: UrlParser, tagName: string, attrs: Attributes): Attributes
    requires b.HtmlToRewrite?
  {
    RewriteElement(b.fallbackScripts, tagName, attrs, b.base, b.proxyHost, parse)
  }

  /** handleRequest. */
  function HandleRequest(config: Config, settings: Settings, url: Url, request: HeaderList,
                         parse: UrlParser, fetch: Fetcher, getAll: bool): Reply
  {
    match ResolveRequest(config, url, parse)
    case Homepage =>
      Reply(200, [Header("content-type", "text/html;charset=UTF-8"), Header("cache-control", "no-cache")], HomePage)
    case Rejected(InvalidUrlRequest) => Reply(400, [], Message("Invalid URL request"))
    case Rejected(DomainNotInWhitelist) => Reply(403, [], Message("Domain not in whitelist"))
    case Rejected(UrlParsingError) =>
      Reply(400, [Header("content-type", "text/plain;charset=UTF-8")], ParseErrorMessage)
    case Unhandled => Uncaught
    case Target(t) => Forward(settings, url, request, t, parse, fetch, getAll)
  }

  // ---------------------------------------------------------------------
  // Properties

  /**
   * A request that does not resolve to a target is answered without any
   * fetch: the homepage with 200, a rejection with its status, and the
   * uncaught TypeError as such.
   */
  lemma NoTargetNeedsNoFetch(config: Config, settings: Settings, url: Url, request: HeaderList,
                             parse: UrlParser, fetch: Fetcher, fetch': Fetcher, getAll: bool)
    requires !ResolveRequest(config, url, parse).Target?
    ensures var res := ResolveRequest(config, url, parse);
      var r := HandleRequest(config, settings, url, request, parse, fetch, getAll);
      r == HandleRequest(config, settings, url, request, parse, fetch', getAll) &&
      (res.Rejected? ==> r.Reply? && r.status == res.reason.Status()) &&
      (res == Homepage ==> r.Reply? && r.status == 200 && r.body == HomePage) &&
      (res == Unhandled ==> r == Uncaught)
  {
  }

  /**
   * A request that resolves to a target is forwarded to that target, which
   * passed the whitelist, and the reply depends on the network only through
   * the answer to that one request.
   */
  lemma TargetIsForwarded(config: Config, settings: Settings, url: Url, request: HeaderList,
                          parse: UrlParser, fetch: Fetcher, fetch': Fetcher, getAll: bool, t: Url)
    requires ResolveRequest(config, url, parse) == Target(t)
    requires fetch'(t, OutboundHeaders(request, t, settings.emulation)) ==
      fetch(t, OutboundHeaders(request, t, settings.emulation))
    ensures HandleRequest(config, settings, url, request, parse, fetch, getAll) ==
      Forward(settings, url, request, t, parse, fetch, getAll)
    ensures IsAllowed(t.hostname, config.allowedDomains)
    ensures HandleRequest(config, settings, url, request, parse, fetch, getAll) ==
      HandleRequest(config, settings, url, request, parse, fetch', getAll)
  {
    TargetIsWhitelisted(config, url, parse);
  }

  /** A failed fetch gives a 500 page that names the target and allows any origin. */
  lemma NetworkErrorPage(settings: Settings, url: Url, request: HeaderList, target: Url,
                         parse: UrlParser, fetch: Fetcher, getAll: bool)
    requires fetch(target, OutboundHeaders(request, target, settings.emulation)) == NetworkError
    ensures var r := Forward(settings, url, request, target, parse, fetch, getAll);
      r.Reply? && r.status == 500 && r.body == FailurePage(target.href) &&
      GetHeader(r.headers, "access-control-allow-origin") == Some("*")
  {
    var r := Forward(settings, url, request, target, parse, fetch, getAll);
    assert Values(r.headers, "access-control-allow-origin") == ["*"];
  }

  /** The content type seen by the dispatch is the upstream's: header translation never touches it. */
  lemma DispatchSeesUpstreamType(upstream: HeaderList, status: int, target: Url, proxyHost: string,
                                 parse: UrlParser, getAll: bool)
    ensures ResponseBodyKind(InboundHeaders(upstream, status, target, proxyHost, parse, getAll)) ==
      ResponseBodyKind(upstream)
  {
    InboundKeepsOtherHeaders(upstream, status, target, proxyHost, parse, getAll, "content-type");
  }

  /** A fetched response keeps its status, gets the translated headers, and its body is chosen by type. */
  lemma FetchedReply(settings: Settings, url: Url, request: HeaderList, target: Url, parse: UrlParser,
                     fetch: Fetcher, getAll: bool, status: int, upstream: HeaderList, body: string)
    requires fetch(target, OutboundHeaders(request, target, settings.emulation)) == Fetched(status, upstream, body)
    ensures var r := Forward(settings, url, request, target, parse, fetch, getAll);
      r.Reply? && r.status == status &&
      r.headers == InboundHeaders(upstream, status, target, url.host, parse, getAll) &&
      r.body == match ResponseBodyKind(upstream)
        case HtmlBody => HtmlToRewrite(body, settings.fallbackScripts, target, url.host)
        case CssBody => UpstreamText(RewriteCss(body, target, url.host, parse))
        case OtherBody => UpstreamText(body)
  {
    DispatchSeesUpstreamType(upstream, status, target, url.host, parse, getAll);
  }

  /**
   * In a fetched HTML page, an anchor whose href resolves against the target
   * points through the proxy host the page was requested on.
   */
  lemma HtmlAnchorsProxied(settings: Settings, url: Url, request: HeaderList, target: Url, parse: UrlParser,
                           fetch: Fetcher, getAll: bool, status: int, upstream: HeaderList, body: string,
                           attrs: Attributes, abs: Url)
    requires fetch(target, OutboundHeaders(request, target, settings.emulation)) == Fetched(status, upstream, body)
    requires ResponseBodyKind(upstream) == HtmlBody
    requires !LinkSkipped(attrs, "href", url.host)
    requires parse(NormalizedValue(attrs["href"], target), Some(target)) == Some(abs)
    ensures var r := Forward(settings, url, request, target, parse, fetch, getAll);
      r.Reply? && r.body.HtmlToRewrite? &&
      var e := ElementInReply(r.body, parse, "a", attrs);
      "href" in e && e["href"] == ProxyUrl(url.host, abs.href)
  {
    FetchedReply(settings, url, request, target, parse, fetch, getAll, status, upstream, body);
    AnchorUsesLinkRewriter(settings.fallbackScripts, attrs, target, url.host, parse);
    var linked := LinkRewrite("a", attrs, "href", target, url.host, parse);
    LinkRewritesResolved("a", attrs, "href", target, url.host, parse, abs);
    StyleOnlyTouchesStyle(linked, target, url.host, parse);
  }

  /**
   * The dispatch for every content type: HTML or XHTML wins, CSS only
   * without either of them, and anything else passes through.
   */
  lemma BodyKindRules(contentType: string)
    ensures BodyKindOf(contentType) == HtmlBody <==>
      Contains(contentType, "text/html") || Contains(contentType, "application/xhtml+xml")
    ensures BodyKindOf(contentType) == CssBody <==>
      !Contains(contentType, "text/html") && !Contains(contentType, "application/xhtml+xml") &&
      Contains(contentType, "text/css")
    ensures BodyKindOf(contentType) == OtherBody <==>
      !Contains(contentType, "text/html") && !Contains(contentType, "application/xhtml+xml") &&
      !Contains(contentType, "text/css")
  {
  }

  /** A type that names both CSS and HTML goes to the HTML rewriter: line 193 is tested first. */
  lemma HtmlWinsOverCss()
    ensures BodyKindOf("text/css, text/html") == HtmlBody
  {
    assert "text/css, text/html"[10..19] == "text/html";
    assert OccursAt("text/css, text/html", "text/html", 10);
  }

  /** Sample content types and their dispatch. */
  lemma BodyKindSamples()
    ensures BodyKindOf("text/html; charset=utf-8") == HtmlBody
    ensures BodyKindOf("application/xhtml+xml") == HtmlBody
    ensures BodyKindOf("text/css") == CssBody
    ensures BodyKindOf("image/png") == OtherBody
    ensures BodyKindOf("") == OtherBody
  {
    StartsWithOccurs("text/html; charset=utf-8", "text/html");
    StartsWithOccurs("application/xhtml+xml", "application/xhtml+xml");
    StartsWithOccurs("text/css", "text/css");
    assert !OccursAt("text/css", "text/html", 0);
    assert "image/png"[0..9][0] != "text/html"[0];
    assert "image/png"[0..8][0] != "text/css"[0];
    assert "image/png"[1..9][0] != "text/css"[0];
  }

  /**
   * A rewritten redirect is one the proxy can follow: when the client
   * requests the new Location at the same proxy host, resolution arrives at
   * the URL the redirect pointed to.  This needs the whole Location to lie
   * in the request path, so it covers a target without a query; one with a
   * query loses it (TargetResolution.ProxiedQueryLost).
   */
  lemma RedirectIsFollowable(config: Config, upstream: HeaderList, status: int, target: Url, parse: UrlParser,
                             next: Url, l: string, dest: Url)
    requires next.host in config.proxyDomains
    requires RewrittenLocation(upstream, status, target, next.host, parse) == Some(l)
    requires l == "https://" + next.host + next.pathname
    requires GetHeader(upstream, "location").Some?
    requires var r := parse(GetHeader(upstream, "location").value, Some(target));
      r.Some? && (StartsWith(r.value.href, "http://") || StartsWith(r.value.href, "https://")) &&
      parse(r.value.href, None) == Some(dest)
    requires IsAllowed(dest.hostname, config.allowedDomains)
    ensures ResolveRequest(config, next, parse) == Target(dest)
  {
    var r := parse(GetHeader(upstream, "location").value, Some(target));
    RedirectThroughProxy(upstream, status, target, next.host, parse, l);
    assert ProxyUrl(next.host, r.value.href) == l;
    ProxiedPathResolves(config, next, parse, r.value.href, dest);
  }
}
