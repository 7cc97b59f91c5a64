/**
 * Target resolution (handleRequest, WorkerProxy.js:34-87): turn the URL of
 * an incoming request into the homepage, a target URL, or a rejection, and
 * enforce the host-suffix whitelist.
 */
module TargetResolution {
  import opened Wrappers
  import opened Strings
  import opened Urls

  /** The configuration fields that resolution reads (WorkerProxy.js:6-32). */
  datatype Config = Config(proxyDomains: seq<string>, homepage: bool, allowedDomains: seq<string>)

  /** The configuration as shipped. */
  const ShippedConfig := Config(
    ["webproxy.stratosphericus.workers.dev", "proxy.liyao.space"], true, [])

  /** Why a request is refused before anything is fetched. */
  datatype Rejection =
    | InvalidUrlRequest      // empty path on a proxy host (line 65)
    | UrlParsingError        // an exception inside the try block (lines 82-86)
    | DomainNotInWhitelist   // whitelist miss (line 79)
  {
    function Status(): (code: nat)
      ensures code == 400 || code == 403
      ensures code == 403 <==> this == DomainNotInWhitelist
    {
      match this
      case InvalidUrlRequest => 400
      case UrlParsingError => 400
      case DomainNotInWhitelist => 403
    }
  }

  /**
   * The outcome of resolution.  `Unhandled` is the case where `targetURL`
   * stays undefined and the whitelist is empty: the first read of
   * `targetURL.host` (line 121) throws outside any try block.
   */
  datatype Resolution = Homepage | Target(url: Url) | Rejected(reason: Rejection) | Unhandled

  /** What the if-chain of lines 49-71 leaves in `targetURL`. */
  datatype Located = Found(url: Url) | ParseFailed | EmptyPath | NoTarget

  function FromParse(p: Option<Url>): Located {
    match p
    case Some(u) => Found(u)
    case None => ParseFailed
  }

  /** Lines 49-71: where the target URL comes from. */
  function Locate(config: Config, url: Url, parse: UrlParser): Located {
    if url.host in config.proxyDomains then
      if url.pathname == "/proxy" && GetParam(url.search, "url").Some? then
        FromParse(parse(GetParam(url.search, "url").value, None))
      else if StartsWith(url.pathname, "/") then
        var path := url.pathname[1..];
        if StartsWith(path, "http://") || StartsWith(path, "https://") then
          FromParse(parse(path, None))
        else if path != "" then
          FromParse(parse("https://" + path, None))
        else
          EmptyPath
      else
        NoTarget
    else
      Found(url)
  }

  /** The whitelist entry test of line 76. */
  predicate HostMatches(hostname: string, domain: string) {
    hostname == domain || EndsWith(hostname, "." + domain)
  }

  /** `allowedDomains.some(...)` of lines 75-77. */
  function SomeDomainMatches(hostname: string, domains: seq<string>): (r: bool)
    ensures r <==> exists k | 0 <= k < |domains| :: HostMatches(hostname, domains[k])
  {
    if domains == [] then false
    else if HostMatches(hostname, domains[0]) then true
    else
      var r := SomeDomainMatches(hostname, domains[1..]);
      assert forall k | 1 <= k < |domains| :: domains[k] == domains[1..][k - 1];
      r
  }

  /** Lines 74-81: an empty whitelist allows every host. */
  predicate IsAllowed(hostname: string, allowed: seq<string>) {
    |allowed| == 0 || SomeDomainMatches(hostname, allowed)
  }

  /** handleRequest up to the end of its first try block (lines 35-87). */
  function ResolveRequest(config: Config, url: Url, parse: UrlParser): Resolution {
    var isProxyHost := url.host in config.proxyDomains;
    if config.homepage && url.pathname == "/" && isProxyHost then Homepage
    else
      match Locate(config, url, parse)
      case EmptyPath => Rejected(InvalidUrlRequest)
      case ParseFailed => Rejected(UrlParsingError)
      case NoTarget =>
        // `targetURL.hostname` throws inside the try when the whitelist is consulted
        if |config.allowedDomains| > 0 then Rejected(UrlParsingError) else Unhandled
      case Found(t) =>
        if IsAllowed(t.hostname, config.allowedDomains) then Target(t)
        else Rejected(DomainNotInWhitelist)
  }

  /** The whitelist stage applied to a parse result. */
  function Checked(config: Config, p: Option<Url>): Resolution {
    match p
    case None => Rejected(UrlParsingError)
    case Some(t) =>
      if IsAllowed(t.hostname, config.allowedDomains) then Target(t) else Rejected(DomainNotInWhitelist)
  }

  // ---------------------------------------------------------------------
  // Whitelist

  /** An empty whitelist allows every host. */
  lemma EmptyWhitelistAllowsAll(hostname: string)
    ensures IsAllowed(hostname, [])
  {
  }

  /** A non-empty whitelist allows exactly the entries and their subdomains. */
  lemma WhitelistIff(hostname: string, allowed: seq<string>)
    requires |allowed| > 0
    ensures IsAllowed(hostname, allowed) <==>
      exists d :: d in allowed && (hostname == d || EndsWith(hostname, "." + d))
  {
    if IsAllowed(hostname, allowed) {
      var k :| 0 <= k < |allowed| && HostMatches(hostname, allowed[k]);
      assert allowed[k] in allowed;
    }
    if exists d :: d in allowed && (hostname == d || EndsWith(hostname, "." + d)) {
      var d :| d in allowed && (hostname == d || EndsWith(hostname, "." + d));
      var k :| 0 <= k < |allowed| && allowed[k] == d;
      assert HostMatches(hostname, allowed[k]);
    }
  }

  /** A one-entry whitelist allows exactly the hosts that match its entry. */
  lemma SingleEntry(hostname: string, domain: string)
    ensures IsAllowed(hostname, [domain]) <==> HostMatches(hostname, domain)
  {
    assert [domain][0] == domain;
  }

  /** Whitelist {"example.com"}: a subdomain passes, other hosts do not. */
  lemma WhitelistScenario()
    ensures IsAllowed("example.com", ["example.com"])
    ensures IsAllowed("sub.example.com", ["example.com"])
    ensures !IsAllowed("evil.com", ["example.com"])
    ensures !IsAllowed("notexample.com", ["example.com"])
  {
    var d := "example.com";
    var suffix := "." + d;
    assert suffix == ".example.com";
    assert HostMatches("example.com", d);
    assert EndsWith("sub.example.com", suffix) by {
      assert "sub.example.com"[3..] == ".example.com";
    }
    assert !HostMatches("evil.com", d) by {
      assert |suffix| > |"evil.com"|;
    }
    assert !HostMatches("notexample.com", d) by {
      assert "notexample.com"[2..][0] == 't' != suffix[0];
    }
    SingleEntry("example.com", d);
    SingleEntry("sub.example.com", d);
    SingleEntry("evil.com", d);
    SingleEntry("notexample.com", d);
  }

  /** A host outside a non-empty whitelist is answered with 403. */
  lemma WhitelistMissIs403(config: Config, url: Url, parse: UrlParser, t: Url)
    requires Locate(config, url, parse) == Found(t)
    requires !(config.homepage && url.pathname == "/" && url.host in config.proxyDomains)
    requires !IsAllowed(t.hostname, config.allowedDomains)
    ensures ResolveRequest(config, url, parse) == Rejected(DomainNotInWhitelist)
    ensures ResolveRequest(config, url, parse).reason.Status() == 403
  {
  }

  /** Every target that resolution hands on passed the whitelist. */
  lemma TargetIsWhitelisted(config: Config, url: Url, parse: UrlParser)
    requires ResolveRequest(config, url, parse).Target?
    ensures IsAllowed(ResolveRequest(config, url, parse).url.hostname, config.allowedDomains)
  {
  }

  /**
   * With the configuration as shipped (lines 6-11: an empty whitelist and
   * the homepage on), no request is refused as a whitelist miss, and `/` on
   * either proxy host is the homepage.
   */
  lemma ShippedConfigOpen(url: Url, parse: UrlParser)
    ensures ResolveRequest(ShippedConfig, url, parse) != Rejected(DomainNotInWhitelist)
    ensures url.host in ShippedConfig.proxyDomains && url.pathname == "/" ==>
      ResolveRequest(ShippedConfig, url, parse) == Homepage
  {
  }

  // ---------------------------------------------------------------------
  // Resolution order

  /** The homepage is served for `/` on a proxy host, whatever the query string. */
  lemma HomepageCase(config: Config, url: Url, parse: UrlParser)
    ensures ResolveRequest(config, url, parse) == Homepage <==>
      (config.homepage && url.pathname == "/" && url.host in config.proxyDomains)
  {
  }

  /** `/proxy?url=v` parses v on its own. */
  lemma ProxyParamCase(config: Config, url: Url, parse: UrlParser, v: string)
    requires url.host in config.proxyDomains && url.pathname == "/proxy"
    requires GetParam(url.search, "url") == Some(v)
    ensures ResolveRequest(config, url, parse) == Checked(config, parse(v, None))
  {
  }

  /** `/http://…` and `/https://…` are parsed as they stand, without the leading slash. */
  lemma AbsolutePathCase(config: Config, url: Url, parse: UrlParser)
    requires url.host in config.proxyDomains
    requires StartsWith(url.pathname, "/")
    requires !(url.pathname == "/proxy" && GetParam(url.search, "url").Some?)
    requires StartsWith(url.pathname[1..], "http://") || StartsWith(url.pathname[1..], "https://")
    ensures ResolveRequest(config, url, parse) == Checked(config, parse(url.pathname[1..], None))
  {
  }

  /** Any other non-empty path gets `https://` in front. */
  lemma BarePathCase(config: Config, url: Url, parse: UrlParser)
    requires url.host in config.proxyDomains
    requires StartsWith(url.pathname, "/") && |url.pathname| > 1
    requires !(url.pathname == "/proxy" && GetParam(url.search, "url").Some?)
    requires !StartsWith(url.pathname[1..], "http://") && !StartsWith(url.pathname[1..], "https://")
    ensures ResolveRequest(config, url, parse) == Checked(config, parse("https://" + url.pathname[1..], None))
  {
  }

  /** `/` on a proxy host with the homepage switched off is a 400. */
  lemma EmptyPathCase(config: Config, url: Url, parse: UrlParser)
    requires url.host in config.proxyDomains && url.pathname == "/" && !config.homepage
    ensures ResolveRequest(config, url, parse) == Rejected(InvalidUrlRequest)
    ensures ResolveRequest(config, url, parse).reason.Status() == 400
  {
  }

  /** A request on any other host is forwarded to its own URL. */
  lemma PassThroughCase(config: Config, url: Url, parse: UrlParser)
    requires url.host !in config.proxyDomains
    ensures ResolveRequest(config, url, parse) ==
      if IsAllowed(url.hostname, config.allowedDomains) then Target(url) else Rejected(DomainNotInWhitelist)
  {
  }

  /** A target that does not parse gives 400, never a fetch. */
  lemma ParseFailureIs400(config: Config, url: Url, parse: UrlParser)
    requires Locate(config, url, parse) == ParseFailed
    requires !(config.homepage && url.pathname == "/" && url.host in config.proxyDomains)
    ensures ResolveRequest(config, url, parse) == Rejected(UrlParsingError)
  {
  }

  /** The uncaught-exception outcome happens only for a path without a leading slash. */
  lemma UnhandledOnlyWithoutSlash(config: Config, url: Url, parse: UrlParser)
    requires ResolveRequest(config, url, parse) == Unhandled
    ensures url.host in config.proxyDomains && !StartsWith(url.pathname, "/")
    ensures config.allowedDomains == []
  {
  }

  /**
   * Outside `/proxy`, the query string plays no part: two requests that
   * differ only in their query parameters resolve alike.  In particular the
   * query of `/https://example.com/page?x=1` does not reach the target.
   */
  lemma QueryIgnored(config: Config, url: Url, parse: UrlParser, search: seq<(string, string)>)
    requires url.host in config.proxyDomains && url.pathname != "/proxy"
    ensures ResolveRequest(config, url.(search := search), parse) == ResolveRequest(config, url, parse)
  {
  }

  /**
   * A proxied href carrying a query string loses it.  A browser following
   * `https://{host}/{href}?{q}` puts `/{href}` in the path and `q` in the
   * query, and the path forms read the path alone, so the target is what
   * `href` parses to, whatever `q` is.
   */
  lemma ProxiedQueryLost(config: Config, url: Url, parse: UrlParser, href: string, t: Url)
    requires url.host in config.proxyDomains
    requires url.pathname == "/" + href
    requires StartsWith(href, "http://") || StartsWith(href, "https://")
    requires parse(href, None) == Some(t)
    requires IsAllowed(t.hostname, config.allowedDomains)
    ensures ResolveRequest(config, url, parse) == Target(t)
  {
    assert url.pathname[1..] == href;
    assert url.pathname != "/proxy" by {
      assert |href| >= 7;
    }
  }

  /**
   * Decoding partner of `ProxyUrl`: on a proxy host, the path of the
   * proxy address `https://{host}/{href}` of an absolute http(s) href `href`
   * without a query (see ProxiedQueryLost for one with a query)
   * resolves to what `href` parses to.
   */
  lemma ProxiedPathResolves(config: Config, url: Url, parse: UrlParser, href: string, t: Url)
    requires url.host in config.proxyDomains
    requires ProxyUrl(url.host, href) == "https://" + url.host + url.pathname
    requires StartsWith(href, "http://") || StartsWith(href, "https://")
    requires parse(href, None) == Some(t)
    requires IsAllowed(t.hostname, config.allowedDomains)
    ensures ResolveRequest(config, url, parse) == Target(t)
  {
    var p := "https://" + url.host;
    assert url.pathname == "/" + href by {
      assert ProxyUrl(url.host, href) == p + ("/" + href);
      assert (p + ("/" + href))[|p|..] == "/" + href;
      assert (p + url.pathname)[|p|..] == url.pathname;
    }
    assert url.pathname[1..] == href;
    assert url.pathname != "/proxy" by {
      assert |href| >= 7;
    }
  }
}
