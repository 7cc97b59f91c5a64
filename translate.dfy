/**
 * Header translation around the upstream fetch: the outbound request
 * headers (WorkerProxy.js:90-131) and the inbound response headers with the
 * redirect rewrite (WorkerProxy.js:146-180).
 */
module HeaderTranslation {
  import opened Wrappers
  import opened Strings
  import opened Urls
  import opened HttpHeaders

  /** `config.browserEmulation` (WorkerProxy.js:13-25). */
  datatype BrowserEmulation = BrowserEmulation(
    userAgent: string, accept: string, acceptLanguage: string, acceptEncoding: string,
    connection: string, upgradeInsecureRequests: string, secFetchDest: string,
    secFetchMode: string, secFetchSite: string, secFetchUser: string)

  /** The client headers copied to the upstream request (lines 93-100). */
  const HeadersToKeep: seq<string> :=
    ["cookie", "range", "if-none-match", "if-modified-since", "content-type", "content-length"]

  /** Every name the outbound request can carry. */
  const OutboundNames: set<string> := {
    "cookie", "range", "if-none-match", "if-modified-since", "content-type", "content-length",
    "user-agent", "accept", "accept-language", "accept-encoding", "connection",
    "upgrade-insecure-requests", "sec-fetch-dest", "sec-fetch-mode", "sec-fetch-site",
    "sec-fetch-user", "host", "origin", "referer", "x-requested-with"
  }

  // ---------------------------------------------------------------------
  // Outbound (lines 90-131)

  /** The header list after the forEach of lines 102-106 has handled `names`. */
  function Kept(req: HeaderList, names: seq<string>): HeaderList {
    if names == [] then []
    else
      var h := Kept(req, names[..|names| - 1]);
      var name := names[|names| - 1];
      match GetHeader(req, name)
      case Some(v) => SetHeader(h, name, v)
      case None => h
  }

  /** Lines 109-118. */
  function WithEmulation(h: HeaderList, emu: BrowserEmulation): HeaderList {
    var h1 := SetHeader(h, "user-agent", emu.userAgent);
    var h2 := SetHeader(h1, "accept", emu.accept);
    var h3 := SetHeader(h2, "accept-language", emu.acceptLanguage);
    var h4 := SetHeader(h3, "accept-encoding", emu.acceptEncoding);
    var h5 := SetHeader(h4, "connection", emu.connection);
    var h6 := SetHeader(h5, "upgrade-insecure-requests", emu.upgradeInsecureRequests);
    var h7 := SetHeader(h6, "sec-fetch-dest", emu.secFetchDest);
    var h8 := SetHeader(h7, "sec-fetch-mode", emu.secFetchMode);
    var h9 := SetHeader(h8, "sec-fetch-site", emu.secFetchSite);
    SetHeader(h9, "sec-fetch-user", emu.secFetchUser)
  }

  /** Lines 121-123. */
  function WithTarget(h: HeaderList, target: Url): HeaderList {
    SetHeader(SetHeader(SetHeader(h, "host", target.host), "origin", target.origin), "referer", target.href)
  }

  /** The XHR test of lines 126-127. */
  predicate IsXhr(req: HeaderList) {
    GetHeader(req, "x-requested-with") == Some("XMLHttpRequest") ||
    (GetHeader(req, "accept").Some? && Contains(GetHeader(req, "accept").value, "application/json"))
  }

  /** The header list of the upstream request. */
  function OutboundHeaders(req: HeaderList, target: Url, emu: BrowserEmulation): HeaderList {
    var h := WithTarget(WithEmulation(Kept(req, HeadersToKeep), emu), target);
    if IsXhr(req) then SetHeader(h, "x-requested-with", "XMLHttpRequest") else h
  }

  /** The value an emulation header is set to, by lower-case name. */
  function EmulationValue(emu: BrowserEmulation, name: string): Option<string> {
    if name == "user-agent" then Some(emu.userAgent)
    else if name == "accept" then Some(emu.accept)
    else if name == "accept-language" then Some(emu.acceptLanguage)
    else if name == "accept-encoding" then Some(emu.acceptEncoding)
    else if name == "connection" then Some(emu.connection)
    else if name == "upgrade-insecure-requests" then Some(emu.upgradeInsecureRequests)
    else if name == "sec-fetch-dest" then Some(emu.secFetchDest)
    else if name == "sec-fetch-mode" then Some(emu.secFetchMode)
    else if name == "sec-fetch-site" then Some(emu.secFetchSite)
    else if name == "sec-fetch-user" then Some(emu.secFetchUser)
    else None
  }

  /** Lines 90-131: build the upstream request headers. */
  method BuildOutboundHeaders(request: Headers, targetURL: Url, emu: BrowserEmulation)
    returns (newHeaders: Headers)
    ensures fresh(newHeaders)
    ensures newHeaders.entries == OutboundHeaders(request.entries, targetURL, emu)
  {
    newHeaders := new Headers();
    for i := 0 to |HeadersToKeep|
      invariant newHeaders.entries == Kept(request.entries, HeadersToKeep[..i])
    {
      var header := HeadersToKeep[i];
      assert HeadersToKeep[..i + 1][..i] == HeadersToKeep[..i];
      assert HeadersToKeep[..i + 1][i] == header;
      if request.Has(header) {
        newHeaders.Set(header, request.Get(header).value);
      }
    }
    assert HeadersToKeep[..|HeadersToKeep|] == HeadersToKeep;

    newHeaders.Set("user-agent", emu.userAgent);
    newHeaders.Set("accept", emu.accept);
    newHeaders.Set("accept-language", emu.acceptLanguage);
    newHeaders.Set("accept-encoding", emu.acceptEncoding);
    newHeaders.Set("connection", emu.connection);
    newHeaders.Set("upgrade-insecure-requests", emu.upgradeInsecureRequests);
    newHeaders.Set("sec-fetch-dest", emu.secFetchDest);
    newHeaders.Set("sec-fetch-mode", emu.secFetchMode);
    newHeaders.Set("sec-fetch-site", emu.secFetchSite);
    newHeaders.Set("sec-fetch-user", emu.secFetchUser);

    newHeaders.Set("host", targetURL.host);
    newHeaders.Set("origin", targetURL.origin);
    newHeaders.Set("referer", targetURL.href);

    var isXHR := request.Get("x-requested-with") == Some("XMLHttpRequest") ||
      (request.Get("accept").Some? && Contains(request.Get("accept").value, "application/json"));
    if isXHR {
      newHeaders.Set("x-requested-with", "XMLHttpRequest");
    }
  }

  // ---------------------------------------------------------------------
  // What the upstream request carries

  /** After the copy loop, each listed name holds the client's value, and nothing else is present. */
  lemma {:induction false} KeptValues(req: HeaderList, names: seq<string>, name: string)
    ensures Values(Kept(req, names), name) ==
      if name in names then (match GetHeader(req, name) case Some(v) => [v] case None => []) else []
  {
    if names != [] {
      var init := names[..|names| - 1];
      var last := names[|names| - 1];
      KeptValues(req, init, name);
      assert names == init + [last];
      assert name in names <==> name in init || name == last;
      match GetHeader(req, last)
      case Some(v) => SetValues(Kept(req, init), last, v, name);
      case None =>
    }
  }

  lemma EmulationValues(h: HeaderList, emu: BrowserEmulation, name: string)
    ensures Values(WithEmulation(h, emu), name) ==
      match EmulationValue(emu, name) case Some(v) => [v] case None => Values(h, name)
  {
    var h1 := SetHeader(h, "user-agent", emu.userAgent);
    var h2 := SetHeader(h1, "accept", emu.accept);
    var h3 := SetHeader(h2, "accept-language", emu.acceptLanguage);
    var h4 := SetHeader(h3, "accept-encoding", emu.acceptEncoding);
    var h5 := SetHeader(h4, "connection", emu.connection);
    var h6 := SetHeader(h5, "upgrade-insecure-requests", emu.upgradeInsecureRequests);
    var h7 := SetHeader(h6, "sec-fetch-dest", emu.secFetchDest);
    var h8 := SetHeader(h7, "sec-fetch-mode", emu.secFetchMode);
    var h9 := SetHeader(h8, "sec-fetch-site", emu.secFetchSite);
    SetValues(h, "user-agent", emu.userAgent, name);
    SetValues(h1, "accept", emu.accept, name);
    SetValues(h2, "accept-language", emu.acceptLanguage, name);
    SetValues(h3, "accept-encoding", emu.acceptEncoding, name);
    SetValues(h4, "connection", emu.connection, name);
    SetValues(h5, "upgrade-insecure-requests", emu.upgradeInsecureRequests, name);
    SetValues(h6, "sec-fetch-dest", emu.secFetchDest, name);
    SetValues(h7, "sec-fetch-mode", emu.secFetchMode, name);
    SetValues(h8, "sec-fetch-site", emu.secFetchSite, name);
    SetValues(h9, "sec-fetch-user", emu.secFetchUser, name);
  }

  lemma TargetValues(h: HeaderList, target: Url, name: string)
    ensures Values(WithTarget(h, target), name) ==
      if name == "referer" then [target.href]
      else if name == "origin" then [target.origin]
      else if name == "host" then [target.host]
      else Values(h, name)
  {
    var h1 := SetHeader(h, "host", target.host);
    var h2 := SetHeader(h1, "origin", target.origin);
    SetValues(h, "host", target.host, name);
    SetValues(h1, "origin", target.origin, name);
    SetValues(h2, "referer", target.href, name);
  }

  /**
   * Reference definition of the upstream request: the values it carries
   * under each name, by the source of that value.
   */
  function OutboundValues(req: HeaderList, target: Url, emu: BrowserEmulation, name: string): seq<string> {
    if name == "x-requested-with" && IsXhr(req) then ["XMLHttpRequest"]
    else if name == "referer" then [target.href]
    else if name == "origin" then [target.origin]
    else if name == "host" then [target.host]
    else match EmulationValue(emu, name)
      case Some(v) => [v]
      case None =>
        if name in HeadersToKeep then (match GetHeader(req, name) case Some(v) => [v] case None => [])
        else []
  }

  lemma OutboundMatchesReference(req: HeaderList, target: Url, emu: BrowserEmulation, name: string)
    ensures Values(OutboundHeaders(req, target, emu), name) == OutboundValues(req, target, emu, name)
  {
    var kept := Kept(req, HeadersToKeep);
    var h := WithTarget(WithEmulation(kept, emu), target);
    KeptValues(req, HeadersToKeep, name);
    EmulationValues(kept, emu, name);
    TargetValues(WithEmulation(kept, emu), target, name);
    if IsXhr(req) {
      SetValues(h, "x-requested-with", "XMLHttpRequest", name);
    }
  }

  lemma KeptReference(req: HeaderList, target: Url, emu: BrowserEmulation, name: string)
    requires name in HeadersToKeep
    ensures OutboundValues(req, target, emu, name) ==
      match GetHeader(req, name) case Some(v) => [v] case None => []
  {
  }

  /** The six allow-listed client headers reach the upstream with the client's values. */
  lemma OutboundKeepsClientHeaders(req: HeaderList, target: Url, emu: BrowserEmulation, name: string)
    requires name in HeadersToKeep
    ensures GetHeader(OutboundHeaders(req, target, emu), name) == GetHeader(req, name)
  {
    OutboundMatchesReference(req, target, emu, name);
    KeptReference(req, target, emu, name);
  }

  lemma UnknownReference(req: HeaderList, target: Url, emu: BrowserEmulation, name: string)
    requires name !in OutboundNames
    ensures OutboundValues(req, target, emu, name) == []
  {
  }

  /** No other client header reaches the upstream: every name it carries is one of the fixed twenty. */
  lemma OutboundOnlyKnownNames(req: HeaderList, target: Url, emu: BrowserEmulation, name: string)
    requires name !in OutboundNames
    ensures Values(OutboundHeaders(req, target, emu), name) == []
  {
    OutboundMatchesReference(req, target, emu, name);
    UnknownReference(req, target, emu, name);
  }

  lemma TargetReference(req: HeaderList, target: Url, emu: BrowserEmulation)
    ensures OutboundValues(req, target, emu, "host") == [target.host]
    ensures OutboundValues(req, target, emu, "origin") == [target.origin]
    ensures OutboundValues(req, target, emu, "referer") == [target.href]
  {
  }

  /** Host, Origin and Referer come from the target URL. */
  lemma OutboundTargetHeaders(req: HeaderList, target: Url, emu: BrowserEmulation)
    ensures GetHeader(OutboundHeaders(req, target, emu), "host") == Some(target.host)
    ensures GetHeader(OutboundHeaders(req, target, emu), "origin") == Some(target.origin)
    ensures GetHeader(OutboundHeaders(req, target, emu), "referer") == Some(target.href)
  {
    OutboundMatchesReference(req, target, emu, "host");
    OutboundMatchesReference(req, target, emu, "origin");
    OutboundMatchesReference(req, target, emu, "referer");
    TargetReference(req, target, emu);
  }

  lemma EmulationReference(req: HeaderList, target: Url, emu: BrowserEmulation, name: string)
    requires EmulationValue(emu, name).Some?
    ensures OutboundValues(req, target, emu, name) == [EmulationValue(emu, name).value]
  {
  }

  /** The browser-emulation headers carry the configured values, whatever the client sent. */
  lemma OutboundEmulationHeaders(req: HeaderList, target: Url, emu: BrowserEmulation, name: string)
    requires EmulationValue(emu, name).Some?
    ensures GetHeader(OutboundHeaders(req, target, emu), name) == EmulationValue(emu, name)
  {
    OutboundMatchesReference(req, target, emu, name);
    EmulationReference(req, target, emu, name);
  }

  lemma XhrReference(req: HeaderList, target: Url, emu: BrowserEmulation)
    ensures OutboundValues(req, target, emu, "x-requested-with") ==
      if IsXhr(req) then ["XMLHttpRequest"] else []
  {
  }

  /** X-Requested-With is sent, as XMLHttpRequest, exactly for requests the XHR test accepts. */
  lemma OutboundXhrFlag(req: HeaderList, target: Url, emu: BrowserEmulation)
    ensures GetHeader(OutboundHeaders(req, target, emu), "x-requested-with") ==
      if IsXhr(req) then Some("XMLHttpRequest") else None
  {
    OutboundMatchesReference(req, target, emu, "x-requested-with");
    XhrReference(req, target, emu);
  }

  // ---------------------------------------------------------------------
  // Inbound (lines 146-180)

  /** The statuses whose Location is rewritten (line 147). */
  const RedirectStatuses: set<int> := {301, 302, 307, 308}

  /** Headers that would stop the page from being framed or sniffed (lines 173-176). */
  const StrippedHeaders: seq<string> :=
    ["content-security-policy", "content-security-policy-report-only", "x-frame-options", "x-content-type-options"]

  /** The CORS headers forced onto every proxied response (lines 177-180). */
  function CorsValue(name: string): Option<string> {
    if name == "access-control-allow-origin" then Some("*")
    else if name == "access-control-allow-methods" then Some("GET, POST, PUT, DELETE, OPTIONS, PATCH")
    else if name == "access-control-allow-headers" then Some("*")
    else if name == "access-control-allow-credentials" then Some("true")
    else None
  }

  /**
   * Lines 147-161: the new Location of a redirect, or None when the headers
   * stay as they are (not a redirect, no or empty Location, or a Location
   * that does not resolve against the target).
   */
  function RewrittenLocation(h: HeaderList, status: int, target: Url, proxyHost: string, parse: UrlParser): Option<string> {
    if status in RedirectStatuses then
      match GetHeader(h, "location")
      case Some(loc) =>
        if loc == "" then None
        else
          (match parse(loc, Some(target))
           case Some(r) => Some(ProxyUrl(proxyHost, r.href))
           case None => None)
      case None => None
    else None
  }

  function WithRedirect(h: HeaderList, status: int, target: Url, proxyHost: string, parse: UrlParser): HeaderList {
    match RewrittenLocation(h, status, target, proxyHost, parse)
    case Some(l) => SetHeader(h, "location", l)
    case None => h
  }

  /** Lines 164-170: each cookie appended once more, in order. */
  function CookiesAppended(h: HeaderList, cookies: seq<string>): HeaderList {
    if cookies == [] then h
    else AppendHeader(CookiesAppended(h, cookies[..|cookies| - 1]), "set-cookie", cookies[|cookies| - 1])
  }

  function WithoutStripped(h: HeaderList): HeaderList {
    DeleteHeader(DeleteHeader(DeleteHeader(DeleteHeader(h,
      "content-security-policy"), "content-security-policy-report-only"), "x-frame-options"), "x-content-type-options")
  }

  function WithCors(h: HeaderList): HeaderList {
    var h1 := SetHeader(h, "access-control-allow-origin", "*");
    var h2 := SetHeader(h1, "access-control-allow-methods", "GET, POST, PUT, DELETE, OPTIONS, PATCH");
    var h3 := SetHeader(h2, "access-control-allow-headers", "*");
    SetHeader(h3, "access-control-allow-credentials", "true")
  }

  /**
   * The header list of the response sent back to the client.  `getAll`
   * tells whether the runtime's Headers object offers getAll (line 164).
   */
  function InboundHeaders(upstream: HeaderList, status: int, target: Url, proxyHost: string,
                          parse: UrlParser, getAll: bool): HeaderList
  {
    var h := WithRedirect(upstream, status, target, proxyHost, parse);
    var h' := if getAll then CookiesAppended(h, Values(upstream, "set-cookie")) else h;
    WithCors(WithoutStripped(h'))
  }

  /** Lines 146-161: rewrite the Location of a redirect in place. */
  method RewriteRedirect(h: Headers, status: int, targetURL: Url, proxyHost: string, parse: UrlParser)
    modifies h
    ensures h.entries == WithRedirect(old(h.entries), status, targetURL, proxyHost, parse)
  {
    if status == 301 || status == 302 || status == 307 || status == 308 {
      var location := h.Get("location");
      if location.Some? && location.value != "" {
        var redirectURL := parse(location.value, Some(targetURL));
        if redirectURL.Some? {
          h.Set("location", ProxyUrl(proxyHost, redirectURL.value.href));
        }
      }
    }
  }

  /** Lines 166-169: append each cookie to `h`. */
  method AppendCookies(h: Headers, cookies: seq<string>)
    modifies h
    ensures h.entries == CookiesAppended(old(h.entries), cookies)
  {
    for i := 0 to |cookies|
      invariant h.entries == CookiesAppended(old(h.entries), cookies[..i])
    {
      assert cookies[..i + 1][..i] == cookies[..i];
      h.Append("set-cookie", cookies[i]);
    }
    assert cookies[..|cookies|] == cookies;
  }

  /** Lines 146-180: translate the upstream response headers. */
  method TranslateResponseHeaders(response: Headers, status: int, targetURL: Url, proxyHost: string,
                                  parse: UrlParser, getAllAvailable: bool)
    returns (newRespHeaders: Headers)
    ensures fresh(newRespHeaders)
    ensures newRespHeaders.entries ==
      InboundHeaders(response.entries, status, targetURL, proxyHost, parse, getAllAvailable)
  {
    newRespHeaders := new Headers.Copy(response);
    RewriteRedirect(newRespHeaders, status, targetURL, proxyHost, parse);
    if getAllAvailable {
      var setCookieHeaders := response.GetAll("set-cookie");
      AppendCookies(newRespHeaders, setCookieHeaders);
    }
    newRespHeaders.Delete("content-security-policy");
    newRespHeaders.Delete("content-security-policy-report-only");
    newRespHeaders.Delete("x-frame-options");
    newRespHeaders.Delete("x-content-type-options");
    newRespHeaders.Set("access-control-allow-origin", "*");
    newRespHeaders.Set("access-control-allow-methods", "GET, POST, PUT, DELETE, OPTIONS, PATCH");
    newRespHeaders.Set("access-control-allow-headers", "*");
    newRespHeaders.Set("access-control-allow-credentials", "true");
  }

  // ---------------------------------------------------------------------
  // What the client receives

  lemma RedirectValues(h: HeaderList, status: int, target: Url, proxyHost: string, parse: UrlParser, name: string)
    ensures Values(WithRedirect(h, status, target, proxyHost, parse), name) ==
      if name == "location" then
        (match RewrittenLocation(h, status, target, proxyHost, parse)
         case Some(l) => [l]
         case None => Values(h, "location"))
      else Values(h, name)
  {
    match RewrittenLocation(h, status, target, proxyHost, parse)
    case Some(l) => SetValues(h, "location", l, name);
    case None =>
  }

  lemma {:induction false} CookiesValues(h: HeaderList, cookies: seq<string>, name: string)
    ensures Values(CookiesAppended(h, cookies), name) ==
      Values(h, name) + (if name == "set-cookie" then cookies else [])
  {
    if cookies != [] {
      var init := cookies[..|cookies| - 1];
      CookiesValues(h, init, name);
      AppendValues(CookiesAppended(h, init), "set-cookie", cookies[|cookies| - 1], name);
      assert init + [cookies[|cookies| - 1]] == cookies;
    }
  }

  lemma StrippedValues(h: HeaderList, name: string)
    ensures Values(WithoutStripped(h), name) == if name in StrippedHeaders then [] else Values(h, name)
  {
    var h1 := DeleteHeader(h, "content-security-policy");
    var h2 := DeleteHeader(h1, "content-security-policy-report-only");
    var h3 := DeleteHeader(h2, "x-frame-options");
    DeleteValues(h, "content-security-policy", name);
    DeleteValues(h1, "content-security-policy-report-only", name);
    DeleteValues(h2, "x-frame-options", name);
    DeleteValues(h3, "x-content-type-options", name);
    if name in StrippedHeaders {
      assert name == "content-security-policy" || name == "content-security-policy-report-only" ||
        name == "x-frame-options" || name == "x-content-type-options";
    } else {
      assert name != "content-security-policy" && name != "content-security-policy-report-only" &&
        name != "x-frame-options" && name != "x-content-type-options";
    }
  }

  lemma CorsValues(h: HeaderList, name: string)
    ensures Values(WithCors(h), name) == match CorsValue(name) case Some(v) => [v] case None => Values(h, name)
  {
    var h1 := SetHeader(h, "access-control-allow-origin", "*");
    var h2 := SetHeader(h1, "access-control-allow-methods", "GET, POST, PUT, DELETE, OPTIONS, PATCH");
    var h3 := SetHeader(h2, "access-control-allow-headers", "*");
    SetValues(h, "access-control-allow-origin", "*", name);
    SetValues(h1, "access-control-allow-methods", "GET, POST, PUT, DELETE, OPTIONS, PATCH", name);
    SetValues(h2, "access-control-allow-headers", "*", name);
    SetValues(h3, "access-control-allow-credentials", "true", name);
  }

  /** Reference definition of the client's response headers, name by name. */
  function InboundValues(upstream: HeaderList, status: int, target: Url, proxyHost: string,
                         parse: UrlParser, getAll: bool, name: string): seq<string>
  {
    match CorsValue(name)
    case Some(v) => [v]
    case None =>
      if name in StrippedHeaders then []
      else if name == "set-cookie" then
        var cookies := Values(upstream, "set-cookie");
        if getAll then cookies + cookies else cookies
      else if name == "location" then
        (match RewrittenLocation(upstream, status, target, proxyHost, parse)
         case Some(l) => [l]
         case None => Values(upstream, "location"))
      else Values(upstream, name)
  }

  lemma InboundMatchesReference(upstream: HeaderList, status: int, target: Url, proxyHost: string,
                                parse: UrlParser, getAll: bool, name: string)
    ensures Values(InboundHeaders(upstream, status, target, proxyHost, parse, getAll), name) ==
      InboundValues(upstream, status, target, proxyHost, parse, getAll, name)
  {
    var h := WithRedirect(upstream, status, target, proxyHost, parse);
    var h' := if getAll then CookiesAppended(h, Values(upstream, "set-cookie")) else h;
    RedirectValues(upstream, status, target, proxyHost, parse, name);
    RedirectValues(upstream, status, target, proxyHost, parse, "set-cookie");
    if getAll {
      CookiesValues(h, Values(upstream, "set-cookie"), name);
    }
    StrippedValues(h', name);
    CorsValues(WithoutStripped(h'), name);
  }

  /**
   * A Location is rewritten exactly for a redirect whose non-empty Location
   * resolves against the target.  This is the guard of lines 147-152 on its
   * own; what the new value is, is RedirectThroughProxy.
   */
  lemma RewrittenLocationIff(h: HeaderList, status: int, target: Url, proxyHost: string, parse: UrlParser)
    ensures RewrittenLocation(h, status, target, proxyHost, parse).Some? <==>
      status in {301, 302, 307, 308} && GetHeader(h, "location").Some? && GetHeader(h, "location").value != ""
      && parse(GetHeader(h, "location").value, Some(target)).Some?
  {
  }

  /** The rewritten Location points through the proxy at the resolved redirect target. */
  lemma RedirectThroughProxy(h: HeaderList, status: int, target: Url, proxyHost: string, parse: UrlParser, l: string)
    requires RewrittenLocation(h, status, target, proxyHost, parse) == Some(l)
    ensures GetHeader(h, "location").Some?
    ensures var r := parse(GetHeader(h, "location").value, Some(target));
      r.Some? && IsProxied(l, proxyHost) && Unproxy(proxyHost, l) == Some(r.value.href)
  {
    var r := parse(GetHeader(h, "location").value, Some(target));
    UnproxyProxyUrl(proxyHost, r.value.href);
  }

  lemma StrippedReference(upstream: HeaderList, status: int, target: Url, proxyHost: string,
                          parse: UrlParser, getAll: bool, name: string)
    requires name in StrippedHeaders
    ensures InboundValues(upstream, status, target, proxyHost, parse, getAll, name) == []
  {
  }

  /** CSP, CSP-Report-Only, X-Frame-Options and X-Content-Type-Options never reach the client. */
  lemma InboundStripsFramingGuards(upstream: HeaderList, status: int, target: Url, proxyHost: string,
                                   parse: UrlParser, getAll: bool, name: string)
    requires name in StrippedHeaders
    ensures Values(InboundHeaders(upstream, status, target, proxyHost, parse, getAll), name) == []
  {
    InboundMatchesReference(upstream, status, target, proxyHost, parse, getAll, name);
    StrippedReference(upstream, status, target, proxyHost, parse, getAll, name);
  }

  lemma CorsReference(upstream: HeaderList, status: int, target: Url, proxyHost: string,
                      parse: UrlParser, getAll: bool)
    ensures InboundValues(upstream, status, target, proxyHost, parse, getAll, "access-control-allow-origin") == ["*"]
    ensures InboundValues(upstream, status, target, proxyHost, parse, getAll, "access-control-allow-methods") ==
      ["GET, POST, PUT, DELETE, OPTIONS, PATCH"]
    ensures InboundValues(upstream, status, target, proxyHost, parse, getAll, "access-control-allow-headers") == ["*"]
    ensures InboundValues(upstream, status, target, proxyHost, parse, getAll, "access-control-allow-credentials") == ["true"]
  {
  }

  /** Every proxied response allows any origin, the six methods, any header and credentials. */
  lemma InboundCorsHeaders(upstream: HeaderList, status: int, target: Url, proxyHost: string,
                           parse: UrlParser, getAll: bool)
    ensures var out := InboundHeaders(upstream, status, target, proxyHost, parse, getAll);
      GetHeader(out, "access-control-allow-origin") == Some("*") &&
      GetHeader(out, "access-control-allow-methods") == Some("GET, POST, PUT, DELETE, OPTIONS, PATCH") &&
      GetHeader(out, "access-control-allow-headers") == Some("*") &&
      GetHeader(out, "access-control-allow-credentials") == Some("true")
  {
    InboundMatchesReference(upstream, status, target, proxyHost, parse, getAll, "access-control-allow-origin");
    InboundMatchesReference(upstream, status, target, proxyHost, parse, getAll, "access-control-allow-methods");
    InboundMatchesReference(upstream, status, target, proxyHost, parse, getAll, "access-control-allow-headers");
    InboundMatchesReference(upstream, status, target, proxyHost, parse, getAll, "access-control-allow-credentials");
    CorsReference(upstream, status, target, proxyHost, parse, getAll);
  }

  lemma CookieReference(upstream: HeaderList, status: int, target: Url, proxyHost: string,
                        parse: UrlParser, getAll: bool)
    ensures InboundValues(upstream, status, target, proxyHost, parse, getAll, "set-cookie") ==
      Values(upstream, "set-cookie") + (if getAll then Values(upstream, "set-cookie") else [])
  {
  }

  /**
   * The copy of lines 164-170 appends every Set-Cookie the upstream sent to a
   * list that already holds them, so with getAll each cookie arrives twice.
   */
  lemma InboundCookies(upstream: HeaderList, status: int, target: Url, proxyHost: string,
                       parse: UrlParser, getAll: bool)
    ensures Values(InboundHeaders(upstream, status, target, proxyHost, parse, getAll), "set-cookie") ==
      Values(upstream, "set-cookie") + (if getAll then Values(upstream, "set-cookie") else [])
  {
    InboundMatchesReference(upstream, status, target, proxyHost, parse, getAll, "set-cookie");
    CookieReference(upstream, status, target, proxyHost, parse, getAll);
  }

  lemma LocationReference(upstream: HeaderList, status: int, target: Url, proxyHost: string,
                          parse: UrlParser, getAll: bool)
    ensures InboundValues(upstream, status, target, proxyHost, parse, getAll, "location") ==
      match RewrittenLocation(upstream, status, target, proxyHost, parse)
      case Some(l) => [l]
      case None => Values(upstream, "location")
  {
  }

  /** The client sees the rewritten Location when there is one and the upstream's otherwise. */
  lemma InboundLocation(upstream: HeaderList, status: int, target: Url, proxyHost: string,
                        parse: UrlParser, getAll: bool)
    ensures GetHeader(InboundHeaders(upstream, status, target, proxyHost, parse, getAll), "location") ==
      match RewrittenLocation(upstream, status, target, proxyHost, parse)
      case Some(l) => Some(l)
      case None => GetHeader(upstream, "location")
  {
    InboundMatchesReference(upstream, status, target, proxyHost, parse, getAll, "location");
    LocationReference(upstream, status, target, proxyHost, parse, getAll);
  }

  /** Every other upstream header, Content-Type among them, passes through unchanged. */
  lemma InboundKeepsOtherHeaders(upstream: HeaderList, status: int, target: Url, proxyHost: string,
                                 parse: UrlParser, getAll: bool, name: string)
    requires CorsValue(name).None? && name !in StrippedHeaders && name != "set-cookie" && name != "location"
    ensures Values(InboundHeaders(upstream, status, target, proxyHost, parse, getAll), name) == Values(upstream, name)
  {
    InboundMatchesReference(upstream, status, target, proxyHost, parse, getAll, name);
  }
}
