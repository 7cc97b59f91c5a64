/**
 * The per-element handlers that HTMLRewriter calls on proxied HTML
 * (WorkerProxy.js:321-440) and the table that registers them
 * (WorkerProxy.js:197-221).  An element is its tag name and a map from
 * attribute name to value; each handler changes that map in place.
 */
module HtmlRewriting {
  import opened Wrappers
  import opened Strings
  import opened Urls
  import opened Css

  type Attributes = map<string, string>

  /** `element.getAttribute(name)`: null for a missing attribute. */
  function Attr(attrs: Attributes, name: string): Option<string> {
    if name in attrs then Some(attrs[name]) else None
  }

  /** A string attribute that JavaScript treats as true: present and non-empty. */
  predicate Truthy(attrs: Attributes, name: string) {
    name in attrs && attrs[name] != ""
  }

  /** An element as a handler sees it. */
  class Element {
    const tagName: string
    var attributes: Attributes

    constructor (tagName: string, attributes: Attributes)
      ensures this.tagName == tagName && this.attributes == attributes
    {
      this.tagName := tagName;
      this.attributes := attributes;
    }

    function GetAttribute(name: string): Option<string>
      reads this
    {
      Attr(attributes, name)
    }

    method SetAttribute(name: string, value: string)
      modifies this
      ensures attributes == old(attributes)[name := value]
    {
      attributes := attributes[name := value];
    }
  }

  // ---------------------------------------------------------------------
  // LinkRewriter (lines 321-361)

  /** The fallback handler installed on rewritten images (line 350). */
  const OnErrorScript := "this.onerror=null;if(this.src!==this.dataset.originalSrc){this.src=this.dataset.originalSrc;}"

  /** Lines 330-333: values the rewriter leaves alone. */
  predicate LinkSkipped(attrs: Attributes, attributeName: string, proxyHost: string) {
    !Truthy(attrs, attributeName) ||
    StartsWith(attrs[attributeName], "data:") || StartsWith(attrs[attributeName], "javascript:") ||
    StartsWith(attrs[attributeName], ProxyPrefix(proxyHost))
  }

  /** Lines 337-341: the trimmed value, with the base's scheme put in front of a protocol-relative one. */
  function NormalizedValue(value: string, base: Url): string
  {
    var t := Trim(value);
    if StartsWith(t, "//") then base.protocol + t else t
  }

  /** What LinkRewriter does to the attributes of one element. */
  function LinkRewrite(tagName: string, attrs: Attributes, attributeName: string, base: Url,
                       proxyHost: string, parse: UrlParser): Attributes
  {
    if LinkSkipped(attrs, attributeName, proxyHost) then attrs
    else
      match parse(NormalizedValue(attrs[attributeName], base), Some(base))
      case None => attrs
      case Some(abs) => LinkRewritten(tagName, attrs, attributeName, abs.href, proxyHost)
  }

  /** Lines 347-355: the attributes once the value has resolved to `href`. */
  function LinkRewritten(tagName: string, attrs: Attributes, attributeName: string, href: string,
                         proxyHost: string): Attributes
  {
    var withFallback :=
      if attributeName == "src" && tagName == "img" then
        attrs["data-original-src" := href]["onerror" := OnErrorScript]
      else attrs;
    withFallback[attributeName := ProxyUrl(proxyHost, href)]
  }

  /** What the rewrite branch sets, and that it keeps every other attribute. */
  lemma LinkRewrittenFacts(tagName: string, attrs: Attributes, attributeName: string, href: string,
                           proxyHost: string)
    ensures var r := LinkRewritten(tagName, attrs, attributeName, href, proxyHost);
      var img := attributeName == "src" && tagName == "img";
      attributeName in r && r[attributeName] == ProxyUrl(proxyHost, href) &&
      (img ==> r["data-original-src"] == href && r["onerror"] == OnErrorScript) &&
      r.Keys == attrs.Keys + {attributeName} + (if img then {"data-original-src", "onerror"} else {}) &&
      forall k | k in attrs && k != attributeName && (img ==> k != "data-original-src" && k != "onerror") ::
        r[k] == attrs[k]
  {
    if attributeName == "src" && tagName == "img" {
      assert attributeName != "data-original-src" && attributeName != "onerror";
    }
  }

  class LinkRewriter {
    const baseURL: Url
    const attributeName: string
    const proxyDomain: string
    const parse: UrlParser

    constructor (baseURL: Url, attributeName: string, proxyDomain: string, parse: UrlParser)
      ensures this.baseURL == baseURL && this.attributeName == attributeName
      ensures this.proxyDomain == proxyDomain && this.parse == parse
    {
      this.baseURL := baseURL;
      this.attributeName := attributeName;
      this.proxyDomain := proxyDomain;
      this.parse := parse;
    }

    /** `element(element)`, lines 328-360. */
    method HandleElement(element: Element)
      modifies element
      ensures element.attributes ==
        LinkRewrite(element.tagName, old(element.attributes), attributeName, baseURL, proxyDomain, parse)
    {
      ghost var attrs := element.attributes;
      var attributeValue := element.GetAttribute(attributeName);
      if attributeValue.None? || attributeValue.value == "" ||
         StartsWith(attributeValue.value, "data:") || StartsWith(attributeValue.value, "javascript:") {
        assert LinkSkipped(attrs, attributeName, proxyDomain);
        return;
      }
      if StartsWith(attributeValue.value, ProxyPrefix(proxyDomain)) {
        assert LinkSkipped(attrs, attributeName, proxyDomain);
        return;
      }
      assert !LinkSkipped(attrs, attributeName, proxyDomain);
      var normalizedValue := Trim(attributeValue.value);
      if StartsWith(normalizedValue, "//") {
        normalizedValue := baseURL.protocol + normalizedValue;
      }
      assert normalizedValue == NormalizedValue(attrs[attributeName], baseURL);
      var absoluteURL := parse(normalizedValue, Some(baseURL));
      if absoluteURL.None? {
        // the catch block: the attribute is kept as it is
        return;
      }
      if attributeName == "src" && element.tagName == "img" {
        element.SetAttribute("data-original-src", absoluteURL.value.href);
        element.SetAttribute("onerror", OnErrorScript);
      }
      element.SetAttribute(attributeName, ProxyUrl(proxyDomain, absoluteURL.value.href));
    }
  }

  /** A missing, empty, data:, javascript: or already proxied value leaves the element as it is. */
  lemma LinkSkipUnchanged(tagName: string, attrs: Attributes, attributeName: string, base: Url,
                          proxyHost: string, parse: UrlParser)
    requires !Truthy(attrs, attributeName) || StartsWith(attrs[attributeName], "data:") ||
      StartsWith(attrs[attributeName], "javascript:") || IsProxied(attrs[attributeName], proxyHost)
    ensures LinkRewrite(tagName, attrs, attributeName, base, proxyHost, parse) == attrs
  {
  }

  /** A value the parser refuses is kept as it is. */
  lemma LinkUnresolvedUnchanged(tagName: string, attrs: Attributes, attributeName: string, base: Url,
                                proxyHost: string, parse: UrlParser)
    requires attributeName in attrs && parse(NormalizedValue(attrs[attributeName], base), Some(base)).None?
    ensures LinkRewrite(tagName, attrs, attributeName, base, proxyHost, parse) == attrs
  {
  }

  /**
   * Any other value is replaced by the proxy URL of its resolution against
   * the base; an img src also gets data-original-src (the plain absolute
   * URL) and the onerror fallback; no other attribute changes.
   */
  lemma LinkRewritesResolved(tagName: string, attrs: Attributes, attributeName: string, base: Url,
                             proxyHost: string, parse: UrlParser, abs: Url)
    requires !LinkSkipped(attrs, attributeName, proxyHost)
    requires parse(NormalizedValue(attrs[attributeName], base), Some(base)) == Some(abs)
    ensures var r := LinkRewrite(tagName, attrs, attributeName, base, proxyHost, parse);
      var img := attributeName == "src" && tagName == "img";
      attributeName in r && r[attributeName] == ProxyUrl(proxyHost, abs.href) &&
      Unproxy(proxyHost, r[attributeName]) == Some(abs.href) &&
      (img ==> r["data-original-src"] == abs.href && r["onerror"] == OnErrorScript) &&
      r.Keys == attrs.Keys + (if img then {"data-original-src", "onerror"} else {}) &&
      forall k | k in attrs && k != attributeName && (img ==> k != "data-original-src" && k != "onerror") ::
        r[k] == attrs[k]
  {
    UnproxyProxyUrl(proxyHost, abs.href);
    assert LinkRewrite(tagName, attrs, attributeName, base, proxyHost, parse) ==
      LinkRewritten(tagName, attrs, attributeName, abs.href, proxyHost);
    LinkRewrittenFacts(tagName, attrs, attributeName, abs.href, proxyHost);
    assert attributeName in attrs;
  }

  /** Link rewriting is idempotent: a rewritten value is already proxied and is skipped. */
  lemma LinkIdempotent(tagName: string, attrs: Attributes, attributeName: string, base: Url,
                       proxyHost: string, parse: UrlParser)
    ensures var once := LinkRewrite(tagName, attrs, attributeName, base, proxyHost, parse);
      LinkRewrite(tagName, once, attributeName, base, proxyHost, parse) == once
  {
    var once := LinkRewrite(tagName, attrs, attributeName, base, proxyHost, parse);
    if !LinkSkipped(attrs, attributeName, proxyHost) {
      match parse(NormalizedValue(attrs[attributeName], base), Some(base))
      case None =>
      case Some(abs) =>
        assert once[attributeName] == ProxyUrl(proxyHost, abs.href);
        assert LinkSkipped(once, attributeName, proxyHost);
    }
  }

  // ---------------------------------------------------------------------
  // MetaContentRewriter (lines 364-403)

  /** Lines 374-386: the new content of a refresh tag, if it is rewritten. */
  function RefreshContent(attrs: Attributes, base: Url, proxyHost: string, parse: UrlParser): Option<string> {
    if Truthy(attrs, "http-equiv") && ToLowerAscii(attrs["http-equiv"]) == "refresh" && Truthy(attrs, "content") then
      var parts := Split(attrs["content"], ";url=");
      if |parts| == 2 then
        match parse(parts[1], Some(base))
        case Some(u) => Some(parts[0] + ";url=" + ProxyUrl(proxyHost, u.href))
        case None => None
      else None
    else None
  }

  /** `getAttribute('property') || getAttribute('name')`, with null read as "". */
  function MetaProperty(attrs: Attributes): string {
    if Truthy(attrs, "property") then attrs["property"]
    else if "name" in attrs then attrs["name"]
    else ""
  }

  predicate IsSocialProperty(property: string) {
    Contains(property, "og:image") || Contains(property, "og:url") || Contains(property, "twitter:image")
  }

  /** Lines 389-401: the new content of a social-media tag, if it is rewritten. */
  function SocialContent(attrs: Attributes, base: Url, proxyHost: string, parse: UrlParser): Option<string> {
    var property := MetaProperty(attrs);
    if property != "" && Truthy(attrs, "content") && IsSocialProperty(property) then
      match parse(attrs["content"], Some(base))
      case Some(u) => Some(ProxyUrl(proxyHost, u.href))
      case None => None
    else None
  }

  /**
   * What MetaContentRewriter does: the refresh rewrite first, then the
   * social-tag rewrite of the content as it was first read.
   */
  function MetaRewrite(attrs: Attributes, base: Url, proxyHost: string, parse: UrlParser): Attributes {
    var afterRefresh :=
      match RefreshContent(attrs, base, proxyHost, parse)
      case Some(c) => attrs["content" := c]
      case None => attrs;
    match SocialContent(attrs, base, proxyHost, parse)
    case Some(c) => afterRefresh["content" := c]
    case None => afterRefresh
  }

  class MetaContentRewriter {
    const baseURL: Url
    const proxyDomain: string
    const parse: UrlParser

    constructor (baseURL: Url, proxyDomain: string, parse: UrlParser)
      ensures this.baseURL == baseURL && this.proxyDomain == proxyDomain && this.parse == parse
    {
      this.baseURL := baseURL;
      this.proxyDomain := proxyDomain;
      this.parse := parse;
    }

    /** `element(element)`, lines 370-402. */
    method HandleElement(element: Element)
      modifies element
      ensures element.attributes == MetaRewrite(old(element.attributes), baseURL, proxyDomain, parse)
    {
      ghost var attrs := element.attributes;
      var httpEquiv := element.GetAttribute("http-equiv");
      var content := element.GetAttribute("content");
      if httpEquiv.Some? && httpEquiv.value != "" && ToLowerAscii(httpEquiv.value) == "refresh" &&
         content.Some? && content.value != "" {
        var parts := Split(content.value, ";url=");
        if |parts| == 2 {
          var url := parse(parts[1], Some(baseURL));
          if url.Some? {
            element.SetAttribute("content", parts[0] + ";url=" + ProxyUrl(proxyDomain, url.value.href));
          }
        }
      }
      assert element.attributes ==
        match RefreshContent(attrs, baseURL, proxyDomain, parse)
        case Some(c) => attrs["content" := c]
        case None => attrs;
      var propertyAttr := element.GetAttribute("property");
      var property := if propertyAttr.Some? && propertyAttr.value != "" then propertyAttr
        else element.GetAttribute("name");
      assert (if property.Some? then property.value else "") == MetaProperty(attrs);
      if property.Some? && property.value != "" && content.Some? && content.value != "" &&
         (Contains(property.value, "og:image") || Contains(property.value, "og:url") ||
          Contains(property.value, "twitter:image")) {
        var url := parse(content.value, Some(baseURL));
        if url.Some? {
          element.SetAttribute("content", ProxyUrl(proxyDomain, url.value.href));
        }
      }
    }
  }

  /** Only `content` can change, and only when one of the two cases applies. */
  lemma MetaOnlyContentChanges(attrs: Attributes, base: Url, proxyHost: string, parse: UrlParser)
    ensures var r := MetaRewrite(attrs, base, proxyHost, parse);
      r.Keys == attrs.Keys && (forall k | k in attrs && k != "content" :: r[k] == attrs[k]) &&
      ((RefreshContent(attrs, base, proxyHost, parse).None? && SocialContent(attrs, base, proxyHost, parse).None?)
        ==> r == attrs)
  {
  }

  /**
   * The refresh case applies exactly when `http-equiv` lower-cases to
   * "refresh", the content is non-empty, it splits at ";url=" into two
   * parts, and the second part resolves; otherwise the content stays.
   */
  lemma RefreshContentIff(attrs: Attributes, base: Url, proxyHost: string, parse: UrlParser)
    ensures RefreshContent(attrs, base, proxyHost, parse).Some? <==>
      Truthy(attrs, "http-equiv") && ToLowerAscii(attrs["http-equiv"]) == "refresh" &&
      Truthy(attrs, "content") && |Split(attrs["content"], ";url=")| == 2 &&
      parse(Split(attrs["content"], ";url=")[1], Some(base)).Some?
  {
  }

  /**
   * The social case applies exactly when the property (or else name)
   * mentions og:image, og:url or twitter:image, the content is non-empty,
   * and it resolves; otherwise the content stays.
   */
  lemma SocialContentIff(attrs: Attributes, base: Url, proxyHost: string, parse: UrlParser)
    ensures SocialContent(attrs, base, proxyHost, parse).Some? <==>
      IsSocialProperty(MetaProperty(attrs)) && Truthy(attrs, "content") &&
      parse(attrs["content"], Some(base)).Some?
  {
    if IsSocialProperty(MetaProperty(attrs)) {
      assert MetaProperty(attrs) != "";
    }
  }

  /**
   * The refresh case: `http-equiv` lower-cases to "refresh" and the content
   * splits at ";url=" into exactly two parts whose second resolves; the
   * content keeps its first part and gets the proxied URL.
   */
  lemma MetaRefreshRewritten(attrs: Attributes, base: Url, proxyHost: string, parse: UrlParser,
                             before: string, target: string, u: Url)
    requires Truthy(attrs, "http-equiv") && ToLowerAscii(attrs["http-equiv"]) == "refresh"
    requires Truthy(attrs, "content") && Split(attrs["content"], ";url=") == [before, target]
    requires parse(target, Some(base)) == Some(u)
    requires SocialContent(attrs, base, proxyHost, parse).None?
    ensures MetaRewrite(attrs, base, proxyHost, parse) ==
      attrs["content" := before + ";url=" + ProxyUrl(proxyHost, u.href)]
  {
  }

  /**
   * The rewritten refresh content still splits into the same first part and
   * the proxy URL, provided the proxy URL holds no ";url=" of its own.
   */
  lemma MetaRefreshReparses(attrs: Attributes, base: Url, proxyHost: string, parse: UrlParser, c: string)
    requires RefreshContent(attrs, base, proxyHost, parse) == Some(c)
    ensures var parts := Split(attrs["content"], ";url=");
      |parts| == 2 && parse(parts[1], Some(base)).Some? &&
      (!Contains(ProxyUrl(proxyHost, parse(parts[1], Some(base)).value.href), ";url=") ==>
        Split(c, ";url=") == [parts[0], ProxyUrl(proxyHost, parse(parts[1], Some(base)).value.href)])
  {
    var parts := Split(attrs["content"], ";url=");
    var target := ProxyUrl(proxyHost, parse(parts[1], Some(base)).value.href);
    if !Contains(target, ";url=") {
      SplitKeepsFirstCut(attrs["content"], ";url=", parts[0], parts[1], target);
    }
  }

  /** A refresh content with no ";url=", or more than one, is not a refresh rewrite. */
  lemma MetaRefreshNeedsTwoParts(attrs: Attributes, base: Url, proxyHost: string, parse: UrlParser)
    requires "content" in attrs && |Split(attrs["content"], ";url=")| != 2
    ensures RefreshContent(attrs, base, proxyHost, parse).None?
  {
  }

  /** The http-equiv test accepts "refresh" in any mix of ASCII case, such as "Refresh" or "REFRESH". */
  lemma RefreshAnyCase(attrs: Attributes, v: string, base: Url, proxyHost: string, parse: UrlParser)
    requires |v| == 7 && forall i | 0 <= i < 7 :: LowerChar(v[i]) == "refresh"[i]
    ensures RefreshContent(attrs["http-equiv" := v], base, proxyHost, parse) ==
      RefreshContent(attrs["http-equiv" := "refresh"], base, proxyHost, parse)
  {
    LowerEqualsIff(v, "refresh");
    LowerEqualsIff("refresh", "refresh");
  }

  /**
   * The social case: a property (or else name) mentioning og:image, og:url
   * or twitter:image makes the content the proxy URL of the content as
   * first read, whatever the refresh case did.
   */
  lemma MetaSocialRewritten(attrs: Attributes, base: Url, proxyHost: string, parse: UrlParser, u: Url)
    requires IsSocialProperty(MetaProperty(attrs)) && Truthy(attrs, "content")
    requires parse(attrs["content"], Some(base)) == Some(u)
    ensures MetaRewrite(attrs, base, proxyHost, parse) == attrs["content" := ProxyUrl(proxyHost, u.href)]
  {
  }

  /** An empty `property` falls back on `name`. */
  lemma MetaPropertyFallsBackOnName(attrs: Attributes)
    requires (("property" in attrs ==> attrs["property"] == "")) && "name" in attrs
    ensures MetaProperty(attrs) == attrs["name"]
  {
  }

  // ---------------------------------------------------------------------
  // BaseTagRewriter (lines 406-424)

  function BaseRewrite(attrs: Attributes, base: Url, proxyHost: string, parse: UrlParser): Attributes {
    if Truthy(attrs, "href") then
      match parse(attrs["href"], Some(base))
      case Some(u) => attrs["href" := ProxyUrl(proxyHost, u.href)]
      case None => attrs
    else attrs
  }

  class BaseTagRewriter {
    const baseURL: Url
    const proxyDomain: string
    const parse: UrlParser

    constructor (baseURL: Url, proxyDomain: string, parse: UrlParser)
      ensures this.baseURL == baseURL && this.proxyDomain == proxyDomain && this.parse == parse
    {
      this.baseURL := baseURL;
      this.proxyDomain := proxyDomain;
      this.parse := parse;
    }

    /** `element(element)`, lines 412-423. */
    method HandleElement(element: Element)
      modifies element
      ensures element.attributes == BaseRewrite(old(element.attributes), baseURL, proxyDomain, parse)
    {
      var href := element.GetAttribute("href");
      if href.Some? && href.value != "" {
        var url := parse(href.value, Some(baseURL));
        if url.Some? {
          element.SetAttribute("href", ProxyUrl(proxyDomain, url.value.href));
        }
      }
    }
  }

  /** A base href that resolves is replaced by its proxy URL; nothing else changes. */
  lemma BaseRewritten(attrs: Attributes, base: Url, proxyHost: string, parse: UrlParser, u: Url)
    requires Truthy(attrs, "href") && parse(attrs["href"], Some(base)) == Some(u)
    ensures var r := BaseRewrite(attrs, base, proxyHost, parse);
      r.Keys == attrs.Keys && Unproxy(proxyHost, r["href"]) == Some(u.href) &&
      forall k | k in attrs && k != "href" :: r[k] == attrs[k]
  {
    UnproxyProxyUrl(proxyHost, u.href);
  }

  /** A missing or empty href, or one that does not resolve against the base, is kept as it is. */
  lemma BaseUnresolvedUnchanged(attrs: Attributes, base: Url, proxyHost: string, parse: UrlParser)
    requires !Truthy(attrs, "href") || parse(attrs["href"], Some(base)).None?
    ensures BaseRewrite(attrs, base, proxyHost, parse) == attrs
  {
  }

  /**
   * Unlike LinkRewriter, the base rewriter does not skip proxied values:
   * when the parser reads a proxy URL back as itself, a second pass wraps
   * it again.
   */
  lemma BaseNotIdempotent(attrs: Attributes, base: Url, proxyHost: string, parse: UrlParser, u: Url, v: Url)
    requires Truthy(attrs, "href") && parse(attrs["href"], Some(base)) == Some(u)
    requires parse(ProxyUrl(proxyHost, u.href), Some(base)) == Some(v) && v.href == ProxyUrl(proxyHost, u.href)
    ensures var once := BaseRewrite(attrs, base, proxyHost, parse);
      BaseRewrite(once, base, proxyHost, parse) != once
  {
    var once := BaseRewrite(attrs, base, proxyHost, parse);
    assert once["href"] == ProxyUrl(proxyHost, u.href);
    ProxyUrlNotIdempotent(proxyHost, u.href);
    assert BaseRewrite(once, base, proxyHost, parse)["href"] == ProxyUrl(proxyHost, ProxyUrl(proxyHost, u.href));
  }

  // ---------------------------------------------------------------------
  // StyleAttributeRewriter (lines 427-440)

  function StyleRewrite(attrs: Attributes, base: Url, proxyHost: string, parse: UrlParser): Attributes {
    if Truthy(attrs, "style") then attrs["style" := RewriteCss(attrs["style"], base, proxyHost, parse)]
    else attrs
  }

  class StyleAttributeRewriter {
    const baseURL: Url
    const proxyDomain: string
    const parse: UrlParser

    constructor (baseURL: Url, proxyDomain: string, parse: UrlParser)
      ensures this.baseURL == baseURL && this.proxyDomain == proxyDomain && this.parse == parse
    {
      this.baseURL := baseURL;
      this.proxyDomain := proxyDomain;
      this.parse := parse;
    }

    /** `element(element)`, lines 433-439. */
    method HandleElement(element: Element)
      modifies element
      ensures element.attributes == StyleRewrite(old(element.attributes), baseURL, proxyDomain, parse)
    {
      var style := element.GetAttribute("style");
      if style.None? || style.value == "" {
        return;
      }
      var rewrittenStyle := RewriteCss(style.value, baseURL, proxyDomain, parse);
      element.SetAttribute("style", rewrittenStyle);
    }
  }

  /**
   * A non-empty style becomes rewriteCSS of the old style; a missing or
   * empty one leaves the element alone.  Only `style` changes, and a style
   * without "url(" does not change at all.
   */
  lemma StyleOnlyTouchesStyle(attrs: Attributes, base: Url, proxyHost: string, parse: UrlParser)
    ensures var r := StyleRewrite(attrs, base, proxyHost, parse);
      r.Keys == attrs.Keys && (forall k | k in attrs && k != "style" :: r[k] == attrs[k]) &&
      (Truthy(attrs, "style") ==> r["style"] == RewriteCss(attrs["style"], base, proxyHost, parse)) &&
      (!Truthy(attrs, "style") ==> r == attrs) &&
      ("style" in attrs && !Contains(attrs["style"], "url(") ==> r == attrs)
  {
    if "style" in attrs && !Contains(attrs["style"], "url(") {
      NoUrlUnchanged(attrs["style"], base, proxyHost, parse);
    }
  }

  // ---------------------------------------------------------------------
  // The handler table (lines 197-221)

  datatype Handler =
    | LinkHandler(attributeName: string)
    | MetaHandler
    | BaseHandler
    | StyleHandler
    | HeadHandler   // appends the fallback script to <head>; attributes stay as they are

  /** `.on(selector, handler)`: `tag` is "*" for any element, `attribute` is "" when none is required. */
  datatype Registration = Registration(tag: string, attribute: string, handler: Handler)

  /** The registrations in order; `fallbackScripts` is `fallback.enabled && fallback.autoReload`. */
  function Registrations(fallbackScripts: bool): seq<Registration> {
    [ Registration("a", "href", LinkHandler("href")),
      Registration("form", "action", LinkHandler("action")),
      Registration("img", "src", LinkHandler("src")),
      Registration("link", "href", LinkHandler("href")),
      Registration("script", "src", LinkHandler("src")),
      Registration("iframe", "src", LinkHandler("src")),
      Registration("source", "src", LinkHandler("src")),
      Registration("video", "src", LinkHandler("src")),
      Registration("audio", "src", LinkHandler("src")),
      Registration("embed", "src", LinkHandler("src")),
      Registration("object", "data", LinkHandler("data")),
      Registration("track", "src", LinkHandler("src")),
      Registration("meta", "content", MetaHandler),
      Registration("base", "href", BaseHandler),
      Registration("*", "style", StyleHandler) ]
    + (if fallbackScripts then [Registration("head", "", HeadHandler)] else [])
  }

  predicate Selects(r: Registration, tagName: string, attrs: Attributes) {
    (r.tag == "*" || r.tag == tagName) && (r.attribute == "" || r.attribute in attrs)
  }

  function ApplyHandler(h: Handler, tagName: string, attrs: Attributes, base: Url,
                        proxyHost: string, parse: UrlParser): Attributes
  {
    match h
    case LinkHandler(name) => LinkRewrite(tagName, attrs, name, base, proxyHost, parse)
    case MetaHandler => MetaRewrite(attrs, base, proxyHost, parse)
    case BaseHandler => BaseRewrite(attrs, base, proxyHost, parse)
    case StyleHandler => StyleRewrite(attrs, base, proxyHost, parse)
    case HeadHandler => attrs
  }

  /**
   * The handlers whose selector matches the element as parsed run in
   * registration order, each on the attributes the previous one left.
   */
  function ApplyRegistrations(regs: seq<Registration>, tagName: string, parsed: Attributes, attrs: Attributes,
                              base: Url, proxyHost: string, parse: UrlParser): Attributes
  {
    if regs == [] then attrs
    else
      var next := if Selects(regs[0], tagName, parsed)
        then ApplyHandler(regs[0].handler, tagName, attrs, base, proxyHost, parse) else attrs;
      ApplyRegistrations(regs[1..], tagName, parsed, next, base, proxyHost, parse)
  }

  function RewriteElement(fallbackScripts: bool, tagName: string, attrs: Attributes, base: Url,
                          proxyHost: string, parse: UrlParser): Attributes
  {
    ApplyRegistrations(Registrations(fallbackScripts), tagName, attrs, attrs, base, proxyHost, parse)
  }

  /** Every link rewriter rewrites exactly the attribute its selector requires. */
  lemma LinkSelectorsAgree(fallbackScripts: bool)
    ensures var regs := Registrations(fallbackScripts);
      forall k | 0 <= k < |regs| && regs[k].handler.LinkHandler? ::
        regs[k].attribute == regs[k].handler.attributeName && regs[k].tag != "*"
  {
  }

  /** The head handler is registered exactly when the fallback scripts are enabled. */
  lemma HeadHandlerIffFallback(fallbackScripts: bool)
    ensures var regs := Registrations(fallbackScripts);
      (exists k | 0 <= k < |regs| :: regs[k].handler.HeadHandler?) <==> fallbackScripts
  {
    if fallbackScripts {
      assert Registrations(fallbackScripts)[15].handler.HeadHandler?;
    }
  }

  /** Registrations that do not select the element leave it alone. */
  lemma {:induction false} UnselectedUnchanged(regs: seq<Registration>, tagName: string, parsed: Attributes,
                                               attrs: Attributes, base: Url, proxyHost: string, parse: UrlParser)
    requires forall k | 0 <= k < |regs| :: !Selects(regs[k], tagName, parsed) || regs[k].handler.HeadHandler?
    ensures ApplyRegistrations(regs, tagName, parsed, attrs, base, proxyHost, parse) == attrs
  {
    if regs != [] {
      assert forall k | 0 <= k < |regs[1..]| :: regs[1..][k] == regs[k + 1];
      UnselectedUnchanged(regs[1..], tagName, parsed, attrs, base, proxyHost, parse);
    }
  }

  /** Running two lists of registrations one after the other is running their concatenation. */
  lemma {:induction false} ApplyConcat(a: seq<Registration>, b: seq<Registration>, tagName: string, parsed: Attributes,
                                       attrs: Attributes, base: Url, proxyHost: string, parse: UrlParser)
    ensures ApplyRegistrations(a + b, tagName, parsed, attrs, base, proxyHost, parse) ==
      ApplyRegistrations(b, tagName, parsed, ApplyRegistrations(a, tagName, parsed, attrs, base, proxyHost, parse),
                         base, proxyHost, parse)
  {
    if a == [] {
      assert a + b == b;
    } else {
      var next := if Selects(a[0], tagName, parsed)
        then ApplyHandler(a[0].handler, tagName, attrs, base, proxyHost, parse) else attrs;
      assert (a + b)[0] == a[0] && (a + b)[1..] == a[1..] + b;
      ApplyConcat(a[1..], b, tagName, parsed, next, base, proxyHost, parse);
    }
  }

  /** The tags that a tag-specific rewriter is registered for. */
  const RegisteredTags: seq<string> :=
    ["a", "form", "img", "link", "script", "iframe", "source", "video", "audio", "embed", "object", "track",
     "meta", "base"]

  /**
   * The first fourteen registrations name fourteen different tags, each
   * with a required attribute; then comes `*[style]`, then the head handler.
   */
  lemma TagSpecificPrefix(fallbackScripts: bool)
    ensures var regs := Registrations(fallbackScripts);
      |regs| >= 15 && regs[14] == Registration("*", "style", StyleHandler) &&
      (forall k | 0 <= k < 14 :: regs[k].tag == RegisteredTags[k] && regs[k].attribute != "") &&
      forall k | 15 <= k < |regs| :: regs[k].handler.HeadHandler?
  {
  }

  /** No two of the registered tags are the same, and none is the wildcard. */
  lemma RegisteredTagsDistinct()
    ensures forall j, k | 0 <= j < k < |RegisteredTags| :: RegisteredTags[j] != RegisteredTags[k]
    ensures forall k | 0 <= k < |RegisteredTags| :: RegisteredTags[k] != "*"
  {
  }

  /** One registration on its own runs its handler exactly when it selects the element as parsed. */
  lemma SingleStep(r: Registration, tagName: string, parsed: Attributes, attrs: Attributes, base: Url,
                   proxyHost: string, parse: UrlParser)
    ensures ApplyRegistrations([r], tagName, parsed, attrs, base, proxyHost, parse) ==
      if Selects(r, tagName, parsed) then ApplyHandler(r.handler, tagName, attrs, base, proxyHost, parse) else attrs
  {
    assert [r][1..] == [];
  }

  /** The style registration of `*[style]` alone rewrites the style attribute. */
  lemma StyleStep(tagName: string, attrs: Attributes, base: Url, proxyHost: string, parse: UrlParser)
    ensures ApplyRegistrations([Registration("*", "style", StyleHandler)], tagName, attrs, attrs, base, proxyHost, parse)
      == StyleRewrite(attrs, base, proxyHost, parse)
  {
    var regs := [Registration("*", "style", StyleHandler)];
    assert regs[1..] == [];
    if "style" !in attrs {
      assert !Truthy(attrs, "style");
    }
  }

  /**
   * A table made of tag-specific registrations for other tags, then
   * `*[style]`, then head handlers, applies the style rewriter alone.
   */
  lemma OnlyStyleSelected(regs: seq<Registration>, tagName: string, attrs: Attributes, base: Url,
                          proxyHost: string, parse: UrlParser)
    requires |regs| >= 15 && regs[14] == Registration("*", "style", StyleHandler)
    requires forall k | 0 <= k < 14 :: regs[k].tag != tagName && regs[k].tag != "*"
    requires forall k | 15 <= k < |regs| :: regs[k].handler.HeadHandler?
    ensures ApplyRegistrations(regs, tagName, attrs, attrs, base, proxyHost, parse) ==
      StyleRewrite(attrs, base, proxyHost, parse)
  {
    var first := regs[..14];
    var style := regs[14..15];
    var rest := regs[15..];
    assert regs == first + (style + rest);
    assert style == [Registration("*", "style", StyleHandler)];
    assert forall k | 0 <= k < |first| :: first[k] == regs[k];
    UnselectedUnchanged(first, tagName, attrs, attrs, base, proxyHost, parse);
    ApplyConcat(first, style + rest, tagName, attrs, attrs, base, proxyHost, parse);
    ApplyConcat(style, rest, tagName, attrs, attrs, base, proxyHost, parse);
    StyleStep(tagName, attrs, base, proxyHost, parse);
    assert forall k | 0 <= k < |rest| :: rest[k] == regs[k + 15];
    UnselectedUnchanged(rest, tagName, attrs, StyleRewrite(attrs, base, proxyHost, parse), base, proxyHost, parse);
  }

  /** An element whose tag no registration names is handled by the style rewriter alone. */
  lemma OtherTagsOnlyStyle(fallbackScripts: bool, tagName: string, attrs: Attributes, base: Url,
                           proxyHost: string, parse: UrlParser)
    requires tagName !in RegisteredTags
    ensures RewriteElement(fallbackScripts, tagName, attrs, base, proxyHost, parse) ==
      StyleRewrite(attrs, base, proxyHost, parse)
  {
    TagSpecificPrefix(fallbackScripts);
    RegisteredTagsDistinct();
    OnlyStyleSelected(Registrations(fallbackScripts), tagName, attrs, base, proxyHost, parse);
  }
  /**
   * Unselected registrations, then `r`, then unselected ones, then
   * `*[style]`, then head handlers: `r` runs if it selects the element, and
   * the style rewriter then runs on what it left if the element has a style.
   */
  lemma {:induction false} Pipeline(before: seq<Registration>, r: Registration, mid: seq<Registration>,
                                    rest: seq<Registration>, tag: string, attrs: Attributes, base: Url,
                                    proxyHost: string, parse: UrlParser)
    requires forall j | 0 <= j < |before| :: !Selects(before[j], tag, attrs)
    requires forall j | 0 <= j < |mid| :: !Selects(mid[j], tag, attrs)
    requires forall j | 0 <= j < |rest| :: rest[j].handler.HeadHandler?
    ensures var handled := if Selects(r, tag, attrs)
        then ApplyHandler(r.handler, tag, attrs, base, proxyHost, parse) else attrs;
      ApplyRegistrations(before + ([r] + (mid + ([Registration("*", "style", StyleHandler)] + rest))),
                         tag, attrs, attrs, base, proxyHost, parse) ==
        if "style" in attrs then StyleRewrite(handled, base, proxyHost, parse) else handled
  {
    var style := [Registration("*", "style", StyleHandler)];
    var tail := mid + (style + rest);
    var handled := if Selects(r, tag, attrs)
      then ApplyHandler(r.handler, tag, attrs, base, proxyHost, parse) else attrs;
    var styled := if "style" in attrs then StyleRewrite(handled, base, proxyHost, parse) else handled;
    UnselectedUnchanged(before, tag, attrs, attrs, base, proxyHost, parse);
    ApplyConcat(before, [r] + tail, tag, attrs, attrs, base, proxyHost, parse);
    ApplyConcat([r], tail, tag, attrs, attrs, base, proxyHost, parse);
    SingleStep(r, tag, attrs, attrs, base, proxyHost, parse);
    ApplyConcat(mid, style + rest, tag, attrs, handled, base, proxyHost, parse);
    UnselectedUnchanged(mid, tag, attrs, handled, base, proxyHost, parse);
    ApplyConcat(style, rest, tag, attrs, handled, base, proxyHost, parse);
    SingleStep(style[0], tag, attrs, handled, base, proxyHost, parse);
    UnselectedUnchanged(rest, tag, attrs, styled, base, proxyHost, parse);
  }

  /** A table cut around its entry k and its entry 14. */
  lemma Around(regs: seq<Registration>, k: nat)
    requires k < 14 < |regs|
    ensures regs == regs[..k] + ([regs[k]] + (regs[k + 1..14] + ([regs[14]] + regs[15..])))
  {
    assert regs[14..] == [regs[14]] + regs[15..];
    assert regs[k + 1..] == regs[k + 1..14] + regs[14..];
    assert regs[k..] == [regs[k]] + regs[k + 1..];
    assert regs == regs[..k] + regs[k..];
  }

  /**
   * A table made of tag-specific registrations, then `*[style]`, then head
   * handlers, run on an element with the tag of entry k: that entry's
   * handler runs if the element has its attribute, and the style rewriter
   * then runs on what it left if the element has a style.
   */
  lemma HandlerThenStyle(regs: seq<Registration>, k: nat, attrs: Attributes, base: Url,
                         proxyHost: string, parse: UrlParser)
    requires |regs| >= 15 && regs[14] == Registration("*", "style", StyleHandler) && k < 14
    requires forall j | 0 <= j < 14 && j != k :: regs[j].tag != regs[k].tag && regs[j].tag != "*"
    requires forall j | 15 <= j < |regs| :: regs[j].handler.HeadHandler?
    ensures var tag := regs[k].tag;
      var handled := if Selects(regs[k], tag, attrs)
        then ApplyHandler(regs[k].handler, tag, attrs, base, proxyHost, parse) else attrs;
      ApplyRegistrations(regs, tag, attrs, attrs, base, proxyHost, parse) ==
        if "style" in attrs then StyleRewrite(handled, base, proxyHost, parse) else handled
  {
    var before := regs[..k];
    var mid := regs[k + 1..14];
    var rest := regs[15..];
    Around(regs, k);
    forall j | 0 <= j < |before| ensures !Selects(before[j], regs[k].tag, attrs) {
      assert before[j] == regs[j];
    }
    forall j | 0 <= j < |mid| ensures !Selects(mid[j], regs[k].tag, attrs) {
      assert mid[j] == regs[j + k + 1];
    }
    forall j | 0 <= j < |rest| ensures rest[j].handler.HeadHandler? {
      assert rest[j] == regs[j + 15];
    }
    Pipeline(before, regs[k], mid, rest, regs[k].tag, attrs, base, proxyHost, parse);
  }

  /**
   * Every tag with a tag-specific rewriter: its handler runs when the
   * element has the attribute the selector requires, and the `*[style]`
   * rewriter follows on its output when the element has a style.
   */
  lemma TagRewriteThenStyle(fallbackScripts: bool, k: nat, attrs: Attributes, base: Url,
                            proxyHost: string, parse: UrlParser)
    requires k < 14
    ensures var reg := Registrations(fallbackScripts)[k];
      var handled := if reg.attribute in attrs
        then ApplyHandler(reg.handler, reg.tag, attrs, base, proxyHost, parse) else attrs;
      RewriteElement(fallbackScripts, reg.tag, attrs, base, proxyHost, parse) ==
        if "style" in attrs then StyleRewrite(handled, base, proxyHost, parse) else handled
  {
    var regs := Registrations(fallbackScripts);
    TagSpecificPrefix(fallbackScripts);
    RegisteredTagsDistinct();
    assert forall j | 0 <= j < 14 && j != k :: regs[j].tag != regs[k].tag && regs[j].tag != "*";
    HandlerThenStyle(regs, k, attrs, base, proxyHost, parse);
  }

  /** An anchor goes through the href link rewriter, then through the style rewriter if it has a style. */
  lemma AnchorUsesLinkRewriter(fallbackScripts: bool, attrs: Attributes, base: Url, proxyHost: string, parse: UrlParser)
    ensures var linked := LinkRewrite("a", attrs, "href", base, proxyHost, parse);
      RewriteElement(fallbackScripts, "a", attrs, base, proxyHost, parse) ==
        if "style" in attrs then StyleRewrite(linked, base, proxyHost, parse) else linked
  {
    TagRewriteThenStyle(fallbackScripts, 0, attrs, base, proxyHost, parse);
  }

  /** An image goes through the src link rewriter, then through the style rewriter if it has a style. */
  lemma ImageUsesLinkRewriter(fallbackScripts: bool, attrs: Attributes, base: Url, proxyHost: string, parse: UrlParser)
    ensures var linked := LinkRewrite("img", attrs, "src", base, proxyHost, parse);
      RewriteElement(fallbackScripts, "img", attrs, base, proxyHost, parse) ==
        if "style" in attrs then StyleRewrite(linked, base, proxyHost, parse) else linked
  {
    TagRewriteThenStyle(fallbackScripts, 2, attrs, base, proxyHost, parse);
  }

  /**
   * An image whose src resolves ends with the proxied src, the plain URL in
   * data-original-src and the onerror fallback, with or without a style.
   */
  lemma ImageGetsFallback(fallbackScripts: bool, attrs: Attributes, base: Url, proxyHost: string,
                          parse: UrlParser, abs: Url)
    requires !LinkSkipped(attrs, "src", proxyHost)
    requires parse(NormalizedValue(attrs["src"], base), Some(base)) == Some(abs)
    ensures var r := RewriteElement(fallbackScripts, "img", attrs, base, proxyHost, parse);
      "src" in r && r["src"] == ProxyUrl(proxyHost, abs.href) &&
      "data-original-src" in r && r["data-original-src"] == abs.href &&
      "onerror" in r && r["onerror"] == OnErrorScript
  {
    ImageUsesLinkRewriter(fallbackScripts, attrs, base, proxyHost, parse);
    var linked := LinkRewrite("img", attrs, "src", base, proxyHost, parse);
    LinkRewritesResolved("img", attrs, "src", base, proxyHost, parse, abs);
    StyleOnlyTouchesStyle(linked, base, proxyHost, parse);
  }
}
