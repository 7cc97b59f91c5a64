/**
 * URLs as the proxy sees them, and the single proxy-address encoding
 * `https://{proxyHost}/{absoluteHref}` used for every rewritten URL
 * (links, redirects, meta tags, CSS).
 */
module Urls {
  import opened Wrappers
  import opened Strings

  /**
   * The fields of a WHATWG URL object that the proxy reads.  `search` holds
   * the decoded query parameters in order (URLSearchParams).
   */
  datatype Url = Url(
    href: string,
    protocol: string,
    host: string,
    hostname: string,
    origin: string,
    pathname: string,
    search: seq<(string, string)>)

  /**
   * `new URL(ref)` (base None) and `new URL(ref, base)`: the URL parser of
   * the WHATWG URL Standard, section 4.4 "URL parsing", kept abstract.  A
   * result of None stands for the TypeError the constructor throws.
   */
  type UrlParser = (string, Option<Url>) -> Option<Url>

  /** URLSearchParams.has */
  predicate HasParam(search: seq<(string, string)>, name: string) {
    exists k | 0 <= k < |search| :: search[k].0 == name
  }

  /** URLSearchParams.get */
  function GetParam(search: seq<(string, string)>, name: string): Option<string>
  {
    if search == [] then None
    else if search[0].0 == name then Some(search[0].1)
    else GetParam(search[1..], name)
  }

  /** GetParam finds a value iff the name is present, and it is the first one's. */
  lemma {:induction false} GetParamSpec(search: seq<(string, string)>, name: string)
    ensures GetParam(search, name).Some? <==> HasParam(search, name)
    ensures GetParam(search, name).Some? ==>
      exists k | 0 <= k < |search| :: search[k] == (name, GetParam(search, name).value) &&
        forall j | 0 <= j < k :: search[j].0 != name
  {
    if search != [] && search[0].0 != name {
      var tail := search[1..];
      GetParamSpec(tail, name);
      if HasParam(search, name) {
        var k :| 0 <= k < |search| && search[k].0 == name;
        assert tail[k - 1].0 == name;
      }
      if GetParam(tail, name).Some? {
        var v := GetParam(tail, name).value;
        var k :| 0 <= k < |tail| && tail[k] == (name, v) && forall j | 0 <= j < k :: tail[j].0 != name;
        assert search[k + 1] == (name, v);
        assert forall j | 0 <= j < k + 1 :: search[j].0 != name by {
          forall j | 0 <= j < k + 1 ensures search[j].0 != name {
            if j > 0 { assert search[j] == tail[j - 1]; }
          }
        }
      }
    }
    if search != [] && search[0].0 == name {
      assert search[0] == (name, search[0].1);
    }
  }

  /** The prefix every proxy-addressed URL on `proxyHost` starts with. */
  function ProxyPrefix(proxyHost: string): string {
    "https://" + proxyHost + "/"
  }

  /** Proxy-address encoding of an absolute href (WorkerProxy.js:155, :354, :380, :396, :417, :450). */
  function ProxyUrl(proxyHost: string, href: string): (r: string)
    ensures StartsWith(r, ProxyPrefix(proxyHost))
    ensures r[|ProxyPrefix(proxyHost)|..] == href
  {
    ProxyPrefix(proxyHost) + href
  }

  /** The already-proxied test of WorkerProxy.js:333. */
  predicate IsProxied(value: string, proxyHost: string) {
    StartsWith(value, ProxyPrefix(proxyHost))
  }

  /** Recover the embedded href from a proxy-addressed URL. */
  function Unproxy(proxyHost: string, value: string): (r: Option<string>)
    ensures r.Some? <==> IsProxied(value, proxyHost)
    ensures r.Some? ==> ProxyUrl(proxyHost, r.value) == value
  {
    if IsProxied(value, proxyHost) then Some(value[|ProxyPrefix(proxyHost)|..]) else None
  }

  /** Decoding an encoded href gives the href back. */
  lemma UnproxyProxyUrl(proxyHost: string, href: string)
    ensures Unproxy(proxyHost, ProxyUrl(proxyHost, href)) == Some(href)
  {
  }

  /** Different hrefs on one proxy host never collide. */
  lemma ProxyUrlInjective(proxyHost: string, a: string, b: string)
    requires ProxyUrl(proxyHost, a) == ProxyUrl(proxyHost, b)
    ensures a == b
  {
    UnproxyProxyUrl(proxyHost, a);
    UnproxyProxyUrl(proxyHost, b);
  }

  /** Encoding an already-encoded URL again gives a different, longer URL. */
  lemma ProxyUrlNotIdempotent(proxyHost: string, href: string)
    ensures ProxyUrl(proxyHost, ProxyUrl(proxyHost, href)) != ProxyUrl(proxyHost, href)
  {
    assert |ProxyUrl(proxyHost, ProxyUrl(proxyHost, href))| > |ProxyUrl(proxyHost, href)|;
  }
}
