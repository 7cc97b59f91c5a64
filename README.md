# WorkerProxy: URL rewriting and request resolution

WorkerProxy is a Cloudflare Worker that acts as a web proxy. A request for
`https://{proxyHost}/{target}` is resolved to a target URL and checked against
a host whitelist. The target is fetched with browser-like request headers, and
the response is sent back with its headers translated. Every URL in the
response is rewritten so that it goes through the proxy again. That covers
redirect Locations, link attributes, meta refresh and social tags,
`<base href>`, inline styles and stylesheets.

This project models that core in Dafny and proves what it promises:

- `Urls`: the one proxy-address encoding `https://{proxyHost}/{href}`, its
  decoding, and the already-proxied test.
- `TargetResolution`: handleRequest up to the end of its first `try`. This
  covers the homepage, `/proxy?url=`, `/http(s)://…`, bare paths, the empty
  path, pass-through hosts, the suffix whitelist and parse failures.
- `HttpHeaders`: header lists with Fetch-standard `get`/`set`/`append`/`delete`,
  and a `Headers` class whose methods update the list in place.
- `HeaderTranslation`: the outbound request headers (a copy loop, then
  successive `set` calls) and the inbound response headers (redirect
  rewrite, cookie copy, stripped framing guards, fixed CORS values). Both are
  written as methods over `Headers` and proved against reference
  definitions, name by name.
- `Css`: `rewriteCSS`. The global regex replace over
  `url\((['"]?)([^'")]+)(['"]?)\)` is an explicit left-to-right scan, shown to
  find exactly the pattern's matches.
- `HtmlRewriting`: LinkRewriter, MetaContentRewriter, BaseTagRewriter and
  StyleAttributeRewriter as classes. Their `HandleElement` updates an
  element's attribute map in place. It also holds the selector table that
  registers them.
- `Proxy`: the whole of handleRequest. This is resolution, the fetch (a
  parameter), header translation, the content-type dispatch and the
  failure page.
- `Strings`, `Wrappers`: the JavaScript string operations used here, as
  defined functions (`indexOf`, `split`, `join`, `trim`, `toLowerCase`,
  `includes`, `startsWith`, `endsWith`).

`new URL(ref, base)` is the URL parser of the WHATWG URL Standard, section
4.4 "URL parsing". It is kept abstract as a function parameter: it returns
`None` where the constructor throws. Every property holds for every parser.
The network fetch is likewise a function parameter (`Proxy.Fetcher`).

Four behaviours of the code are worth knowing, and the model keeps them
as written:

- A target given as a path, such as `/https://example.com/page?x=1`, is
  taken from `url.pathname` alone. Its query string is dropped
  (`TargetResolution.QueryIgnored`). So a redirect, link, refresh or
  social target that carries a query loses it when it is followed through
  the proxy: `https://example.com/login?next=/a` is fetched as
  `https://example.com/login` (`TargetResolution.ProxiedQueryLost`).
- The homepage is served for `/` whatever the query string.
- Where the runtime offers `Headers.getAll`, every upstream `Set-Cookie` is
  appended again to a copy that already holds it. Each cookie then reaches
  the client twice (`HeaderTranslation.InboundCookies`).
- Only LinkRewriter skips values that are already proxied, so it is
  idempotent. `rewriteCSS`, BaseTagRewriter, MetaContentRewriter and the
  redirect rewrite all wrap an already-proxied URL again.

## Model

| member | source | states |
|---|---|---|
| Urls.ProxyUrl | WorkerProxy.js:354 | the proxy address of an href starts with `https://{proxyHost}/` and continues with the href itself |
| Urls.Unproxy | WorkerProxy.js:333 | decoding succeeds exactly for values that pass the already-proxied prefix test, and re-encoding its result gives the value back |
| Urls.UnproxyProxyUrl | WorkerProxy.js:354 | decoding the proxy address of an href gives that href |
| Urls.ProxyUrlInjective | WorkerProxy.js:354 | two hrefs with the same proxy address on one host are equal |
| Urls.ProxyUrlNotIdempotent | WorkerProxy.js:417 | encoding an already-encoded URL again changes it |
| Urls.GetParam | WorkerProxy.js:51-53 | `url.searchParams.get(name)`: the value of the first pair with that name, or none; its contract is GetParamSpec |
| Urls.GetParamSpec | WorkerProxy.js:51-53 | `searchParams.get` finds a value iff `has` holds, and the value is that of the first pair with the name |
| TargetResolution.Locate | WorkerProxy.js:49-71 | the if-chain that sets `targetURL`: `/proxy?url=`, `/http(s)://…`, bare paths, the empty path and pass-through hosts; stated case by case by ProxyParamCase, AbsolutePathCase, BarePathCase, EmptyPathCase and PassThroughCase |
| TargetResolution.IsAllowed | WorkerProxy.js:74-81 | the whitelist test: an empty list allows every host, a non-empty one a host equal to an entry or ending in "." plus an entry (EmptyWhitelistAllowsAll, WhitelistIff) |
| TargetResolution.ResolveRequest | WorkerProxy.js:35-87 | handleRequest up to its first catch: the homepage, a target, a 400/403 rejection or the uncaught TypeError; stated by HomepageCase, the five path cases, WhitelistMissIs403, TargetIsWhitelisted, ParseFailureIs400 and UnhandledOnlyWithoutSlash |
| TargetResolution.Rejection.Status | WorkerProxy.js:65-86 | a rejection is answered with 400 or 403, and with 403 exactly for a whitelist miss |
| TargetResolution.SomeDomainMatches | WorkerProxy.js:75-77 | `some` holds iff some entry equals the hostname or is a dot-suffix of it |
| TargetResolution.EmptyWhitelistAllowsAll | WorkerProxy.js:74 | an empty whitelist allows every host |
| TargetResolution.WhitelistIff | WorkerProxy.js:74-81 | a non-empty whitelist allows a host iff it equals an entry or ends with "." plus an entry |
| TargetResolution.SingleEntry | WorkerProxy.js:74-77 | a one-entry whitelist allows exactly the hosts equal to the entry or ending in "." plus the entry |
| TargetResolution.WhitelistScenario | WorkerProxy.js:75-77 | with whitelist example.com, the host and sub.example.com pass while evil.com and notexample.com do not |
| TargetResolution.WhitelistMissIs403 | WorkerProxy.js:78-80 | a located target outside the whitelist is rejected with 403 |
| TargetResolution.TargetIsWhitelisted | WorkerProxy.js:73-81 | every target handed on passed the whitelist |
| TargetResolution.HomepageCase | WorkerProxy.js:41-43 | the homepage is served iff it is enabled, the path is `/` and the host is a proxy host, whatever the query |
| TargetResolution.ProxyParamCase | WorkerProxy.js:51-54 | `/proxy` with a `url` parameter resolves to that parameter parsed on its own |
| TargetResolution.AbsolutePathCase | WorkerProxy.js:55-59 | a path starting `/http://` or `/https://` is parsed as it stands, without the leading slash |
| TargetResolution.BarePathCase | WorkerProxy.js:60-62 | any other non-empty path is parsed with `https://` put in front |
| TargetResolution.EmptyPathCase | WorkerProxy.js:63-66 | `/` on a proxy host with the homepage off is a 400 "Invalid URL request" |
| TargetResolution.PassThroughCase | WorkerProxy.js:68-71 | a request on another host targets its own URL, subject to the whitelist |
| TargetResolution.ParseFailureIs400 | WorkerProxy.js:82-86 | a target that does not parse gives the 400 parse-error rejection |
| TargetResolution.UnhandledOnlyWithoutSlash | WorkerProxy.js:49-67 | the uncaught-exception outcome arises only on a proxy host, for a path without a leading slash, with an empty whitelist |
| TargetResolution.QueryIgnored | WorkerProxy.js:55-62 | outside `/proxy`, requests that differ only in their query resolve alike |
| TargetResolution.ProxiedPathResolves | WorkerProxy.js:55-59 | for an absolute http(s) href without a query, whose proxy address lies wholly in the request path, that path resolves to what the href parses to |
| TargetResolution.ProxiedQueryLost | WorkerProxy.js:55-59 | a request whose path is `/` plus an absolute http(s) href resolves to what that href parses to, whatever its query, so a proxied href's query is lost |
| TargetResolution.ShippedConfigOpen | WorkerProxy.js:6-11 | with the shipped configuration no request is a whitelist miss, and `/` on either proxy host is the homepage |
| Strings.IndexOf | WorkerProxy.js:376 | the cut `split` makes: a position is returned iff the separator occurs, and it is the first occurrence |
| Strings.Split | WorkerProxy.js:376 | `split` with a non-empty separator gives at least one piece; SplitFirstPiece, JoinSplit, SplitPartsAvoidSep and SplitKeepsFirstCut state what the pieces are |
| Strings.SplitFirstPiece | WorkerProxy.js:376 | the first piece ends at the first occurrence of the separator, or is the whole string when there is none |
| Strings.SplitOverlappingSeparator | WorkerProxy.js:376 | with a separator that overlaps itself the cut is still at the first occurrence: `"aaa"` on `"aa"` gives `["", "a"]` |
| Strings.JoinSplit | WorkerProxy.js:376 | joining the pieces of `split` with the separator gives the string back |
| Strings.SplitPartsAvoidSep | WorkerProxy.js:376 | no piece of a split contains the separator |
| Strings.SplitKeepsFirstCut | WorkerProxy.js:376-381 | swapping the second piece of a two-piece split for separator-free text keeps the split at the same cut |
| Strings.Trim | WorkerProxy.js:337 | `String.prototype.trim`; TrimCutsOnlyWhitespace and TrimIdempotent state what it returns |
| Strings.TrimCutsOnlyWhitespace | WorkerProxy.js:337 | `trim` returns the slice `s[a..b]` between a whitespace prefix and a whitespace suffix, and that slice neither starts nor ends with whitespace |
| Strings.TrimIdempotent | WorkerProxy.js:337 | trimming twice is trimming once |
| Strings.ToLowerAscii | WorkerProxy.js:374 | `toLowerCase` keeps the length; LowerEqualsIff states the per-character mapping |
| Strings.LowerEqualsIff | WorkerProxy.js:374 | a string lower-cases to t iff it has the length of t and each of its characters lower-cases to the character of t there |
| HttpHeaders.GetHeader | WorkerProxy.js:147 | `Headers.get`: the values under the name joined with ", ", or none when it has no entry; stated through Values by the lemmas below |
| HttpHeaders.AppendHeader | WorkerProxy.js:168 | `append`: one entry added at the end (AppendValues) |
| HttpHeaders.DeleteHeader | WorkerProxy.js:173 | `delete`: every entry of the name dropped (DeleteValues) |
| HttpHeaders.SetHeader | WorkerProxy.js:156 | `set`: the first entry replaced and the other entries of the name dropped, or one appended (SetValues) |
| HttpHeaders.AppendValues | WorkerProxy.js:168 | `append` adds one value at the end under its name and changes no other name |
| HttpHeaders.DeleteValues | WorkerProxy.js:173 | after `delete` the name has no value and other names are untouched |
| HttpHeaders.SetValues | WorkerProxy.js:156 | after `set` the name holds exactly the new value and other names are untouched |
| HttpHeaders.Headers.constructor | WorkerProxy.js:90 | a new Headers object is empty |
| HttpHeaders.Headers.Copy | WorkerProxy.js:146 | `new Headers(h)` holds the entries of h |
| HttpHeaders.Headers.Set | WorkerProxy.js:156 | the entries become those of Fetch `set` on the old entries |
| HttpHeaders.Headers.Append | WorkerProxy.js:168 | the entries become the old ones plus one entry |
| HttpHeaders.Headers.Delete | WorkerProxy.js:173 | the entries become the old ones without the name |
| HeaderTranslation.OutboundHeaders | WorkerProxy.js:90-131 | the outbound header list as a value; its contents name by name are OutboundMatchesReference and the Outbound lemmas |
| HeaderTranslation.BuildOutboundHeaders | WorkerProxy.js:90-131 | the loop and the `set` calls build exactly the outbound header list |
| HeaderTranslation.KeptValues | WorkerProxy.js:102-106 | after the copy loop each listed name holds the client's value and no other name is present |
| HeaderTranslation.EmulationValues | WorkerProxy.js:109-118 | each emulation header holds its configured value and other names are untouched |
| HeaderTranslation.TargetValues | WorkerProxy.js:121-123 | Host, Origin and Referer hold the target's host, origin and href |
| HeaderTranslation.OutboundMatchesReference | WorkerProxy.js:90-131 | the outbound list carries, under every name, the values of the reference definition |
| HeaderTranslation.KeptReference | WorkerProxy.js:93-106 | in the reference, an allow-listed name carries the client's value |
| HeaderTranslation.OutboundKeepsClientHeaders | WorkerProxy.js:93-106 | the six allow-listed client headers reach the upstream with the client's values |
| HeaderTranslation.UnknownReference | WorkerProxy.js:90-131 | in the reference, names outside the fixed twenty carry nothing |
| HeaderTranslation.OutboundOnlyKnownNames | WorkerProxy.js:90-131 | no other client header reaches the upstream |
| HeaderTranslation.TargetReference | WorkerProxy.js:121-123 | in the reference, Host, Origin and Referer come from the target |
| HeaderTranslation.OutboundTargetHeaders | WorkerProxy.js:121-123 | the upstream request has Host, Origin and Referer of the target |
| HeaderTranslation.EmulationReference | WorkerProxy.js:109-118 | in the reference, an emulation header carries its configured value |
| HeaderTranslation.OutboundEmulationHeaders | WorkerProxy.js:109-118 | the emulation headers carry the configured values whatever the client sent |
| HeaderTranslation.XhrReference | WorkerProxy.js:126-131 | in the reference, X-Requested-With is XMLHttpRequest iff the XHR test holds |
| HeaderTranslation.OutboundXhrFlag | WorkerProxy.js:126-131 | X-Requested-With is sent, as XMLHttpRequest, exactly for requests the XHR test accepts |
| HeaderTranslation.RewrittenLocation | WorkerProxy.js:146-161 | the proxied redirect Location, if any; stated by RewrittenLocationIff and RedirectThroughProxy |
| HeaderTranslation.InboundHeaders | WorkerProxy.js:146-180 | the translated response headers as a value; stated name by name by InboundMatchesReference and the Inbound lemmas |
| HeaderTranslation.RewriteRedirect | WorkerProxy.js:147-161 | the entries become those with the redirect Location rewritten |
| HeaderTranslation.AppendCookies | WorkerProxy.js:164-170 | the loop appends every cookie, in order |
| HeaderTranslation.TranslateResponseHeaders | WorkerProxy.js:146-180 | the response headers become exactly the inbound header list of the upstream's |
| HeaderTranslation.RedirectValues | WorkerProxy.js:147-161 | only Location changes, to the rewritten value when there is one |
| HeaderTranslation.CookiesValues | WorkerProxy.js:164-170 | the cookie copy adds the cookies after the existing Set-Cookie values and changes no other name |
| HeaderTranslation.StrippedValues | WorkerProxy.js:173-176 | the four framing guards have no value afterwards and other names are untouched |
| HeaderTranslation.CorsValues | WorkerProxy.js:177-180 | the four CORS headers hold their fixed values and other names are untouched |
| HeaderTranslation.InboundMatchesReference | WorkerProxy.js:146-180 | the client's response headers carry, under every name, the values of the reference definition |
| HeaderTranslation.RewrittenLocationIff | WorkerProxy.js:147-152 | Location is rewritten iff the status is 301, 302, 307 or 308 and a non-empty Location resolves against the target |
| HeaderTranslation.RedirectThroughProxy | WorkerProxy.js:152-156 | a rewritten Location is proxied on the request host and decodes to the resolved redirect href |
| HeaderTranslation.StrippedReference | WorkerProxy.js:173-176 | in the reference, the four framing guards carry nothing |
| HeaderTranslation.InboundStripsFramingGuards | WorkerProxy.js:173-176 | CSP, CSP-Report-Only, X-Frame-Options and X-Content-Type-Options never reach the client |
| HeaderTranslation.CorsReference | WorkerProxy.js:177-180 | in the reference, the CORS headers carry their fixed values |
| HeaderTranslation.InboundCorsHeaders | WorkerProxy.js:177-180 | every response allows any origin, the six methods, any header and credentials |
| HeaderTranslation.CookieReference | WorkerProxy.js:164-170 | in the reference, Set-Cookie carries the upstream cookies, twice over when getAll exists |
| HeaderTranslation.InboundCookies | WorkerProxy.js:164-170 | the client receives the upstream cookies, each twice when getAll exists |
| HeaderTranslation.LocationReference | WorkerProxy.js:147-161 | in the reference, Location is the rewritten one or the upstream's |
| HeaderTranslation.InboundLocation | WorkerProxy.js:147-161 | the client sees the rewritten Location when there is one and the upstream's otherwise |
| HeaderTranslation.InboundKeepsOtherHeaders | WorkerProxy.js:146-180 | every other upstream header passes through unchanged |
| Css.RunLength | WorkerProxy.js:445 | the length of the maximal run of `[^'")]` characters at a position |
| Css.MatchUrl | WorkerProxy.js:445 | a match found is a well-formed capture whose spelling starts the text |
| Css.MatchUrlComplete | WorkerProxy.js:445 | wherever a well-formed capture's spelling starts the text, MatchUrl finds exactly that capture |
| Css.Tokens | WorkerProxy.js:445 | the scan's pieces spell the text back and every matched piece is well formed |
| Css.Replacement | WorkerProxy.js:446-453 | the value the replace callback returns for one match (RewritesResolvedUrl, KeepsDataAndInvalidUrls) |
| Css.RewriteCss | WorkerProxy.js:443-455 | `rewriteCSS`: the global replace; RewriteAtMatch and RewriteAtText state each scan step, with MatchUrl and MatchUrlComplete saying the scan finds exactly the regex matches |
| Css.RewriteAtMatch | WorkerProxy.js:445-453 | at a match, the callback's text replaces it and the scan resumes after it |
| Css.RewriteAtText | WorkerProxy.js:445 | where no match starts, the character is copied and the scan moves one step |
| Css.RewritesResolvedUrl | WorkerProxy.js:448-450 | a resolving URL becomes `url(` q1 proxy-address q2 `)`, keeping the quotes |
| Css.KeepsDataAndInvalidUrls | WorkerProxy.js:446-453 | a data: URL or one the parser refuses is kept exactly as written |
| Css.NoUrlUnchanged | WorkerProxy.js:443-455 | text without `url(` comes back unchanged |
| Css.UnresolvableUnchanged | WorkerProxy.js:451-453 | when no URL resolves against the base, the stylesheet is unchanged |
| Css.RewriteNotIdempotent | WorkerProxy.js:443-455 | a proxied URL is wrapped again on a second pass |
| HtmlRewriting.Element.SetAttribute | WorkerProxy.js:355 | `setAttribute` updates one entry of the attribute map |
| HtmlRewriting.LinkRewrite | WorkerProxy.js:328-360 | what LinkRewriter does to an element's attributes; stated by LinkSkipUnchanged, LinkUnresolvedUnchanged, LinkRewritesResolved and LinkIdempotent |
| HtmlRewriting.LinkRewriter.constructor | WorkerProxy.js:322-326 | the rewriter holds its base URL, attribute name and proxy domain |
| HtmlRewriting.LinkRewriter.HandleElement | WorkerProxy.js:328-360 | the element's attributes become the link rewrite of the old ones |
| HtmlRewriting.LinkSkipUnchanged | WorkerProxy.js:329-333 | a missing, empty, data:, javascript: or already proxied value leaves the element unchanged |
| HtmlRewriting.LinkUnresolvedUnchanged | WorkerProxy.js:343-358 | a value that does not resolve leaves the element unchanged |
| HtmlRewriting.LinkRewrittenFacts | WorkerProxy.js:347-355 | the rewrite branch sets the proxy URL, and for img src also data-original-src and onerror, keeping every other attribute |
| HtmlRewriting.LinkRewritesResolved | WorkerProxy.js:337-355 | a resolved value becomes the proxy address of its resolution; an img src gets the fallback; nothing else changes |
| HtmlRewriting.LinkIdempotent | WorkerProxy.js:328-360 | rewriting an element twice equals rewriting it once |
| HtmlRewriting.RefreshContent | WorkerProxy.js:374-386 | the refresh case's new content; stated by RefreshContentIff, MetaRefreshRewritten, MetaRefreshReparses, MetaRefreshNeedsTwoParts and RefreshAnyCase |
| HtmlRewriting.SocialContent | WorkerProxy.js:389-401 | the social-tag case's new content; stated by SocialContentIff, MetaSocialRewritten and MetaPropertyFallsBackOnName |
| HtmlRewriting.MetaRewrite | WorkerProxy.js:370-402 | the two cases in order on `content`; stated by MetaOnlyContentChanges and the Meta lemmas |
| HtmlRewriting.MetaContentRewriter.constructor | WorkerProxy.js:365-368 | the rewriter holds its base URL and proxy domain |
| HtmlRewriting.MetaContentRewriter.HandleElement | WorkerProxy.js:370-402 | the element's attributes become the meta rewrite of the old ones |
| HtmlRewriting.MetaOnlyContentChanges | WorkerProxy.js:370-402 | only `content` can change, and only when one of the two cases applies |
| HtmlRewriting.RefreshContentIff | WorkerProxy.js:374-386 | the refresh rewrite happens iff `http-equiv` lower-cases to "refresh", the content is non-empty, splits at ";url=" into two parts, and the second resolves; otherwise the content stays |
| HtmlRewriting.MetaRefreshRewritten | WorkerProxy.js:374-386 | a refresh whose content splits in two at ";url=" gets its first part, then ";url=", then the proxied URL |
| HtmlRewriting.MetaRefreshReparses | WorkerProxy.js:376-381 | the rewritten refresh content splits back into the same first part and the proxy URL |
| HtmlRewriting.MetaRefreshNeedsTwoParts | WorkerProxy.js:376-377 | content that does not split into two parts gets no refresh rewrite |
| HtmlRewriting.RefreshAnyCase | WorkerProxy.js:374 | a refresh is recognised whatever the ASCII case of `http-equiv`, as for "Refresh" or "REFRESH" |
| HtmlRewriting.SocialContentIff | WorkerProxy.js:389-401 | the social rewrite happens iff the property (or name) names og:image, og:url or twitter:image, the content is non-empty, and it resolves; otherwise the content stays |
| HtmlRewriting.MetaSocialRewritten | WorkerProxy.js:389-401 | a social property makes the content the proxy address of the content as first read |
| HtmlRewriting.MetaPropertyFallsBackOnName | WorkerProxy.js:389 | an empty or missing `property` falls back on `name` |
| HtmlRewriting.BaseRewrite | WorkerProxy.js:412-423 | what BaseTagRewriter does; stated by BaseRewritten, BaseUnresolvedUnchanged and BaseNotIdempotent |
| HtmlRewriting.BaseTagRewriter.constructor | WorkerProxy.js:407-410 | the rewriter holds its base URL and proxy domain |
| HtmlRewriting.BaseTagRewriter.HandleElement | WorkerProxy.js:412-423 | the element's attributes become the base rewrite of the old ones |
| HtmlRewriting.BaseRewritten | WorkerProxy.js:413-418 | a resolving base href becomes its proxy address; nothing else changes |
| HtmlRewriting.BaseUnresolvedUnchanged | WorkerProxy.js:413-421 | a missing, empty or unresolvable href leaves the element unchanged |
| HtmlRewriting.BaseNotIdempotent | WorkerProxy.js:412-423 | the base rewriter wraps an already proxied href again |
| HtmlRewriting.StyleRewrite | WorkerProxy.js:433-439 | what StyleAttributeRewriter does; stated by StyleOnlyTouchesStyle |
| HtmlRewriting.StyleAttributeRewriter.constructor | WorkerProxy.js:428-431 | the rewriter holds its base URL and proxy domain |
| HtmlRewriting.StyleAttributeRewriter.HandleElement | WorkerProxy.js:433-439 | the element's attributes become the style rewrite of the old ones |
| HtmlRewriting.StyleOnlyTouchesStyle | WorkerProxy.js:433-439 | a non-empty style becomes rewriteCSS of the old style, a missing or empty one leaves the element alone; only `style` changes, and a style without `url(` does not change |
| HtmlRewriting.Registrations | WorkerProxy.js:197-221 | the `.on(selector, handler)` calls in order; stated by LinkSelectorsAgree, HeadHandlerIffFallback and TagSpecificPrefix |
| HtmlRewriting.ApplyRegistrations | WorkerProxy.js:197-223 | the selected handlers run in registration order on what the previous one left; UnselectedUnchanged and ApplyConcat |
| HtmlRewriting.RewriteElement | WorkerProxy.js:197-223 | what the whole table does to one element; stated by TagRewriteThenStyle and OtherTagsOnlyStyle |
| HtmlRewriting.LinkSelectorsAgree | WorkerProxy.js:198-209 | each link rewriter rewrites exactly the attribute its selector requires, on a named tag |
| HtmlRewriting.HeadHandlerIffFallback | WorkerProxy.js:219-221 | the head handler is registered exactly when the fallback scripts are enabled |
| HtmlRewriting.UnselectedUnchanged | WorkerProxy.js:197-223 | registrations that do not select an element leave it alone |
| HtmlRewriting.ApplyConcat | WorkerProxy.js:197-223 | running two tables one after the other is running their concatenation |
| HtmlRewriting.TagSpecificPrefix | WorkerProxy.js:197-221 | the first fourteen registrations are the tag-specific ones, each with a required attribute; then `*[style]`, then the head handler |
| HtmlRewriting.RegisteredTagsDistinct | WorkerProxy.js:198-213 | the fourteen tags are pairwise different and none is the wildcard |
| HtmlRewriting.HandlerThenStyle | WorkerProxy.js:197-223 | on any such table, an element with the tag of entry k gets that entry's handler if it has the attribute, then the style rewriter if it has a style |
| HtmlRewriting.TagRewriteThenStyle | WorkerProxy.js:198-216 | for each of the fourteen tags, the element goes through its own handler when it has the selector's attribute, then through StyleAttributeRewriter when it has a style |
| HtmlRewriting.AnchorUsesLinkRewriter | WorkerProxy.js:198-216 | an anchor goes through the href link rewriter, then through the style rewriter if it has a style |
| HtmlRewriting.ImageUsesLinkRewriter | WorkerProxy.js:200-216 | an image goes through the src link rewriter, then through the style rewriter if it has a style |
| HtmlRewriting.ImageGetsFallback | WorkerProxy.js:200-216 | an image whose src resolves ends with the proxied src, data-original-src and the onerror fallback, with or without a style |
| HtmlRewriting.OtherTagsOnlyStyle | WorkerProxy.js:216-221 | an element whose tag has no tag-specific rewriter, `head` included, goes through the style rewriter alone |
| Proxy.BodyKindOf | WorkerProxy.js:193-226 | the content-type dispatch; stated for every type by BodyKindRules |
| Proxy.ResponseBodyKind | WorkerProxy.js:190 | the type read from the translated headers, `''` when missing (DispatchSeesUpstreamType) |
| Proxy.Forward | WorkerProxy.js:88-316 | outbound headers, the fetch, the inbound headers and the body dispatch; stated by NetworkErrorPage, FetchedReply and HtmlAnchorsProxied |
| Proxy.Answer | WorkerProxy.js:142-316 | the reply made from the upstream's answer: the 500 failure page, or the translated headers and the body dispatch; stated by NetworkErrorPage and FetchedReply |
| Proxy.ElementInReply | WorkerProxy.js:195-223 | what the HTML reply's streamed rewrite does to one element: the handler table with the reply's base URL and proxy host |
| Proxy.HandleRequest | WorkerProxy.js:34-317 | handleRequest: resolution, then the homepage, a rejection, the uncaught error or Forward; stated by NoTargetNeedsNoFetch and TargetIsForwarded |
| Proxy.NoTargetNeedsNoFetch | WorkerProxy.js:35-87 | a request that resolves to no target is answered without any fetch: the homepage with 200, a rejection with its 400/403 status, the uncaught TypeError as such |
| Proxy.TargetIsForwarded | WorkerProxy.js:73-238 | a request that resolves to a target is forwarded to that whitelisted target, and its reply depends on the network only through the answer to that one request |
| Proxy.NetworkErrorPage | WorkerProxy.js:239-316 | a failed fetch gives a 500 page naming the target and allowing any origin |
| Proxy.DispatchSeesUpstreamType | WorkerProxy.js:190 | the dispatch sees the upstream Content-Type, untouched by header translation |
| Proxy.FetchedReply | WorkerProxy.js:183-238 | a fetched response keeps its status and gets the translated headers; an HTML body is rewritten with the target as base and the request host as proxy host, a CSS body by rewriteCSS with the same two, any other body passes through |
| Proxy.HtmlAnchorsProxied | WorkerProxy.js:195-223 | in a fetched HTML page, an anchor whose href resolves against the target points through the request's proxy host |
| Proxy.BodyKindRules | WorkerProxy.js:193-226 | a type goes to the HTML rewriter iff it includes text/html or application/xhtml+xml, to rewriteCSS iff it includes text/css and neither of those, and through unchanged otherwise |
| Proxy.HtmlWinsOverCss | WorkerProxy.js:193-226 | a type naming both CSS and HTML goes to the HTML rewriter, because line 193 is tested first |
| Proxy.BodyKindSamples | WorkerProxy.js:193-226 | five sample types: two HTML, one CSS, one image type and the empty type |
| Proxy.RedirectIsFollowable | WorkerProxy.js:147-161 | for a redirect target without a query, whose rewritten Location lies wholly in the request path, following it through the same proxy host resolves to the redirect's target; a target with a query loses it (ProxiedQueryLost) |

## Left out

- `fetch`, `Request`/`Response` construction, status text and body
  streaming are left out; the fetch is a parameter. The request method and
  body are not modelled, because they are passed on untouched.
- The HTMLRewriter engine is a foreign library. The model keeps only its
  registration table. Selectors are matched against the attributes the
  element had when parsed, and handlers run in registration order.
- HeadRewriter's injected script, the homepage HTML and the failure page's
  markup are static text and browser-side code. They are left out, except
  that the failure page embeds the target href.
- `console.error`, `new Date().toISOString()` and the runtime's `getAll`
  feature test are environment-dependent. `getAll` is a boolean parameter.
- The URL parser's internals are out of scope; the parser is an abstract
  parameter. The request URL is taken already parsed, because
  `new URL(request.url)` does not fail on an incoming request.
- The text of the parse-error message (`error.message`) is not modelled.
- Header names are case-insensitive and are passed in lower-cased form. The
  `Headers` class stores the name as given and does not fold case itself.
- HtmlRewriting.RefreshContent: `toLowerCase` on `http-equiv` is modelled
  as ASCII lower-casing, not full Unicode case mapping. For the comparison
  with "refresh" the two agree, because no non-ASCII character lower-cases
  to one of its letters.
- HtmlRewriting.NormalizedValue: stated by its definition alone (trim, then
  the base's scheme before `//`), without a contract of its own.
- Element attributes are a map, so their order is not modelled. In the
  runtime, `setAttribute` puts a new attribute (`data-original-src`,
  `onerror`) at the end of the tag; only the order differs.
- Locate, ResolveRequest, RewriteCss, LinkRewrite, OutboundHeaders,
  HandleRequest and the other defining functions have no `ensures` of their
  own. Their rows name the lemmas that state what they do.
