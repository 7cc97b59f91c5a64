/**
 * rewriteCSS (WorkerProxy.js:443-455): a global replace of the pattern
 * url\((['"]?)([^'")]+)(['"]?)\) whose callback sends every URL through
 * the proxy, except data: URIs and URLs the parser refuses.
 *
 * The pattern matches in one way only wherever it matches at all, so the
 * replace is modelled as a left-to-right scan that cuts the text into
 * single characters and matched url(...) tokens.
 */
module Css {
  import opened Wrappers
  import opened Strings
  import opened Urls

  /** One match of the pattern: its three capture groups. */
  datatype CssUrl = CssUrl(quote1: string, url: string, quote2: string)

  predicate IsQuote(c: char) {
    c == '\'' || c == '"'
  }

  /** The class [^'")]. */
  predicate IsUrlChar(c: char) {
    !IsQuote(c) && c != ')'
  }

  /** The text a match covers. */
  function Spelling(m: CssUrl): string {
    "url(" + m.quote1 + m.url + m.quote2 + ")"
  }

  predicate OptionalQuote(q: string) {
    q == [] || (|q| == 1 && IsQuote(q[0]))
  }

  /** What the three groups can capture. */
  predicate WellFormed(m: CssUrl) {
    OptionalQuote(m.quote1) && OptionalQuote(m.quote2) && |m.url| > 0 &&
    forall k | 0 <= k < |m.url| :: IsUrlChar(m.url[k])
  }

  /** The length of the run of [^'")] characters starting at `i`. */
  function RunLength(s: string, i: nat): (n: nat)
    requires i <= |s|
    ensures i + n <= |s|
    ensures forall k | i <= k < i + n :: IsUrlChar(s[k])
    ensures i + n == |s| || !IsUrlChar(s[i + n])
    decreases |s| - i
  {
    if i < |s| && IsUrlChar(s[i]) then 1 + RunLength(s, i + 1) else 0
  }

  /** `s` starts with the spelling of `m`, read off piece by piece. */
  lemma SpellingPrefix(s: string, m: CssUrl)
    requires |Spelling(m)| <= |s| && s[..4] == "url("
    requires s[4..4 + |m.quote1|] == m.quote1
    requires s[4 + |m.quote1|..4 + |m.quote1| + |m.url|] == m.url
    requires s[4 + |m.quote1| + |m.url|..|Spelling(m)| - 1] == m.quote2
    requires s[|Spelling(m)| - 1] == ')'
    ensures StartsWith(s, Spelling(m))
  {
    var start := 4 + |m.quote1|;
    var e := start + |m.url|;
    var n := |Spelling(m)|;
    assert s[..start] == s[..4] + s[4..start];
    assert s[..e] == s[..start] + s[start..e];
    assert s[..n - 1] == s[..e] + s[e..n - 1];
    assert s[..n] == s[..n - 1] + [s[n - 1]];
  }

  /** The optional opening quote of a match at the start of `s`. */
  function OpeningQuote(s: string): (q: string)
    ensures OptionalQuote(q) && (q != [] ==> 4 < |s| && s[4..5] == q)
  {
    if 4 < |s| && IsQuote(s[4]) then [s[4]] else []
  }

  /**
   * A run of [^'")] characters after "url(" and the optional quote, closed by
   * `q2` and ")", is a match of the pattern.
   */
  lemma Matched(s: string, q2: string)
    requires StartsWith(s, "url(")
    requires var start := 4 + |OpeningQuote(s)|; start <= |s| && RunLength(s, start) > 0
    requires var e := 4 + |OpeningQuote(s)| + RunLength(s, 4 + |OpeningQuote(s)|);
      e + |q2| < |s| && OptionalQuote(q2) && s[e..e + |q2|] == q2 && s[e + |q2|] == ')'
    ensures var start := 4 + |OpeningQuote(s)|;
      var m := CssUrl(OpeningQuote(s), s[start..start + RunLength(s, start)], q2);
      WellFormed(m) && StartsWith(s, Spelling(m))
  {
    var q1 := OpeningQuote(s);
    var start := 4 + |q1|;
    var e := start + RunLength(s, start);
    var m := CssUrl(q1, s[start..e], q2);
    assert forall k | 0 <= k < |m.url| :: m.url[k] == s[start + k];
    assert s[..4] == "url(";
    SpellingPrefix(s, m);
  }

  /** The match of the pattern at the start of `s`, if any. */
  function MatchUrl(s: string): (r: Option<CssUrl>)
    ensures r.Some? ==> WellFormed(r.value) && StartsWith(s, Spelling(r.value))
  {
    if !StartsWith(s, "url(") then None
    else
      var q1 := OpeningQuote(s);
      var start := 4 + |q1|;
      if start > |s| then None
      else
        var n := RunLength(s, start);
        var e := start + n;
        if n == 0 then None
        else if e < |s| && s[e] == ')' then
          Matched(s, "");
          Some(CssUrl(q1, s[start..e], ""))
        else if e + 1 < |s| && IsQuote(s[e]) && s[e + 1] == ')' then
          Matched(s, [s[e]]);
          Some(CssUrl(q1, s[start..e], [s[e]]))
        else None
  }

  /** The spelling of `m`, read back piece by piece. */
  lemma SpellingParts(m: CssUrl)
    ensures var sp := Spelling(m);
      var start := 4 + |m.quote1|;
      var e := start + |m.url|;
      |sp| == e + |m.quote2| + 1 && sp[..4] == "url(" && sp[4..start] == m.quote1 &&
      sp[start..e] == m.url && sp[e..|sp| - 1] == m.quote2 && sp[|sp| - 1] == ')'
  {
  }

  lemma SubSlice(s: string, n: nat, i: nat, j: nat)
    requires i <= j <= n <= |s|
    ensures s[..n][i..j] == s[i..j]
  {
  }

  /** `s` holds the groups of `m` where its spelling puts them. */
  predicate PiecesAt(s: string, m: CssUrl) {
    var start := 4 + |m.quote1|;
    var e := start + |m.url|;
    e + |m.quote2| < |s| && s[..4] == "url(" && s[4..start] == m.quote1 &&
    s[start..e] == m.url && s[e..e + |m.quote2|] == m.quote2 && s[e + |m.quote2|] == ')'
  }

  /** A string that starts with the spelling of `m` holds its pieces in place. */
  lemma SpellingPieces(s: string, m: CssUrl)
    requires StartsWith(s, Spelling(m))
    ensures PiecesAt(s, m)
  {
    var sp := Spelling(m);
    var n := |sp|;
    var start := 4 + |m.quote1|;
    var e := start + |m.url|;
    SpellingParts(m);
    assert s[..n] == sp;
    SubSlice(s, n, 0, 4);
    SubSlice(s, n, 4, start);
    SubSlice(s, n, start, e);
    SubSlice(s, n, e, n - 1);
    assert s[n - 1] == sp[n - 1];
  }

  /** RunLength is the exact length of a maximal run. */
  lemma RunLengthExact(s: string, i: nat, n: nat)
    requires i + n <= |s| && (forall k | i <= k < i + n :: IsUrlChar(s[k]))
    requires i + n == |s| || !IsUrlChar(s[i + n])
    ensures RunLength(s, i) == n
  {
  }

  lemma OpeningQuoteFound(s: string, m: CssUrl)
    requires WellFormed(m) && PiecesAt(s, m)
    ensures OpeningQuote(s) == m.quote1
  {
    var start := 4 + |m.quote1|;
    if m.quote1 == [] {
      assert s[4] == s[start..start + |m.url|][0];
    } else {
      assert s[4] == s[4..start][0];
    }
  }

  lemma UrlRunFound(s: string, m: CssUrl)
    requires WellFormed(m) && PiecesAt(s, m)
    ensures RunLength(s, 4 + |m.quote1|) == |m.url|
  {
    var start := 4 + |m.quote1|;
    var e := start + |m.url|;
    forall k | start <= k < e
      ensures IsUrlChar(s[k])
    {
      assert s[k] == s[start..e][k - start];
    }
    if m.quote2 != [] {
      assert s[e] == s[e..e + 1][0];
    }
    RunLengthExact(s, start, |m.url|);
  }

  lemma ClosingFound(s: string, m: CssUrl)
    requires WellFormed(m) && PiecesAt(s, m)
    ensures var e := 4 + |m.quote1| + |m.url|;
      (m.quote2 == [] ==> s[e] == ')') &&
      (m.quote2 != [] ==> IsQuote(s[e]) && m.quote2 == [s[e]] && s[e + 1] == ')')
  {
    var e := 4 + |m.quote1| + |m.url|;
    if m.quote2 != [] {
      assert s[e] == s[e..e + 1][0];
    }
  }

  /** The pattern has no other way to match: any capture it could make here is the one found. */
  lemma MatchUrlComplete(s: string, m: CssUrl)
    requires WellFormed(m) && StartsWith(s, Spelling(m))
    ensures MatchUrl(s) == Some(m)
  {
    SpellingPieces(s, m);
    assert StartsWith(s, "url(");
    OpeningQuoteFound(s, m);
    UrlRunFound(s, m);
    ClosingFound(s, m);
  }

  /** A piece of the scanned text. */
  datatype Piece = Text(c: char) | Link(m: CssUrl)

  function PieceText(p: Piece): string {
    match p
    case Text(c) => [c]
    case Link(m) => Spelling(m)
  }

  function Spell(ps: seq<Piece>): string {
    if ps == [] then [] else PieceText(ps[0]) + Spell(ps[1..])
  }

  /** The scan of the global replace: matches left to right, text in between. */
  function Tokens(css: string): (ps: seq<Piece>)
    ensures Spell(ps) == css
    ensures forall k | 0 <= k < |ps| :: ps[k].Link? ==> WellFormed(ps[k].m)
    decreases |css|
  {
    if css == [] then []
    else
      match MatchUrl(css)
      case Some(m) =>
        var rest := Tokens(css[|Spelling(m)|..]);
        assert ([Link(m)] + rest)[1..] == rest;
        assert css == Spelling(m) + css[|Spelling(m)|..];
        [Link(m)] + rest
      case None =>
        var rest := Tokens(css[1..]);
        assert ([Text(css[0])] + rest)[1..] == rest;
        assert css == [css[0]] + css[1..];
        [Text(css[0])] + rest
  }

  /** The callback of lines 445-453. */
  function Replacement(m: CssUrl, base: Url, proxyHost: string, parse: UrlParser): string {
    if StartsWith(m.url, "data:") then Spelling(m)
    else
      match parse(m.url, Some(base))
      case Some(a) => "url(" + m.quote1 + ProxyUrl(proxyHost, a.href) + m.quote2 + ")"
      case None => Spelling(m)
  }

  function Render(ps: seq<Piece>, base: Url, proxyHost: string, parse: UrlParser): string {
    if ps == [] then []
    else
      (match ps[0]
       case Text(c) => [c]
       case Link(m) => Replacement(m, base, proxyHost, parse)) + Render(ps[1..], base, proxyHost, parse)
  }

  /** Lines 443-455. */
  function RewriteCss(css: string, base: Url, proxyHost: string, parse: UrlParser): string {
    Render(Tokens(css), base, proxyHost, parse)
  }

  // ---------------------------------------------------------------------
  // Properties

  /** At a match, the match is replaced by the callback's text and the scan resumes after it. */
  lemma RewriteAtMatch(m: CssUrl, rest: string, base: Url, proxyHost: string, parse: UrlParser)
    requires WellFormed(m)
    ensures RewriteCss(Spelling(m) + rest, base, proxyHost, parse) ==
      Replacement(m, base, proxyHost, parse) + RewriteCss(rest, base, proxyHost, parse)
  {
    var css := Spelling(m) + rest;
    MatchUrlComplete(css, m);
    assert css[|Spelling(m)|..] == rest;
    var ps := Tokens(css);
    assert ps[0] == Link(m) && ps[1..] == Tokens(rest);
  }

  /** Where no match starts, the character is copied and the scan moves one step. */
  lemma RewriteAtText(c: char, rest: string, base: Url, proxyHost: string, parse: UrlParser)
    requires MatchUrl([c] + rest).None?
    ensures RewriteCss([c] + rest, base, proxyHost, parse) == [c] + RewriteCss(rest, base, proxyHost, parse)
  {
    var css := [c] + rest;
    assert css[0] == c && css[1..] == rest;
    var ps := Tokens(css);
    assert ps[0] == Text(c) && ps[1..] == Tokens(rest);
  }

  /** A URL that resolves is replaced by its proxy URL, inside the same quotes. */
  lemma RewritesResolvedUrl(m: CssUrl, rest: string, base: Url, proxyHost: string, parse: UrlParser, a: Url)
    requires WellFormed(m) && !StartsWith(m.url, "data:") && parse(m.url, Some(base)) == Some(a)
    ensures RewriteCss(Spelling(m) + rest, base, proxyHost, parse) ==
      "url(" + m.quote1 + ProxyUrl(proxyHost, a.href) + m.quote2 + ")" + RewriteCss(rest, base, proxyHost, parse)
  {
    RewriteAtMatch(m, rest, base, proxyHost, parse);
  }

  /** data: URIs and URLs the parser refuses are left exactly as written. */
  lemma KeepsDataAndInvalidUrls(m: CssUrl, rest: string, base: Url, proxyHost: string, parse: UrlParser)
    requires WellFormed(m) && (StartsWith(m.url, "data:") || parse(m.url, Some(base)).None?)
    ensures RewriteCss(Spelling(m) + rest, base, proxyHost, parse) ==
      Spelling(m) + RewriteCss(rest, base, proxyHost, parse)
  {
    RewriteAtMatch(m, rest, base, proxyHost, parse);
  }

  lemma ContainsTail(s: string, p: string)
    requires s != [] && Contains(s[1..], p)
    ensures Contains(s, p)
  {
    var i :| 0 <= i <= |s[1..]| && OccursAt(s[1..], p, i);
    assert s[1..][i..i + |p|] == s[i + 1..i + 1 + |p|];
    assert OccursAt(s, p, i + 1);
  }

  /** Text without "url(" comes back unchanged. */
  lemma {:induction false} NoUrlUnchanged(css: string, base: Url, proxyHost: string, parse: UrlParser)
    requires !Contains(css, "url(")
    ensures RewriteCss(css, base, proxyHost, parse) == css
  {
    if css != [] {
      if StartsWith(css, "url(") {
        StartsWithOccurs(css, "url(");
        assert false;
      }
      if Contains(css[1..], "url(") {
        ContainsTail(css, "url(");
      }
      NoUrlUnchanged(css[1..], base, proxyHost, parse);
      assert [css[0]] + css[1..] == css;
      RewriteAtText(css[0], css[1..], base, proxyHost, parse);
    }
  }

  lemma {:induction false} RenderUnresolved(ps: seq<Piece>, base: Url, proxyHost: string, parse: UrlParser)
    requires forall u :: parse(u, Some(base)).None?
    ensures Render(ps, base, proxyHost, parse) == Spell(ps)
  {
    if ps != [] {
      RenderUnresolved(ps[1..], base, proxyHost, parse);
      match ps[0]
      case Text(c) =>
      case Link(m) => assert parse(m.url, Some(base)).None?;
    }
  }

  /** When no URL resolves against the base, the stylesheet comes back unchanged. */
  lemma UnresolvableUnchanged(css: string, base: Url, proxyHost: string, parse: UrlParser)
    requires forall u :: parse(u, Some(base)).None?
    ensures RewriteCss(css, base, proxyHost, parse) == css
  {
    RenderUnresolved(Tokens(css), base, proxyHost, parse);
  }

  /**
   * The rewrite does not skip URLs that already go through the proxy, so a
   * second pass wraps the proxy URL once more.
   */
  lemma RewriteNotIdempotent(m: CssUrl, base: Url, proxyHost: string, parse: UrlParser, a: Url, b: Url)
    requires WellFormed(m) && !StartsWith(m.url, "data:") && parse(m.url, Some(base)) == Some(a)
    requires WellFormed(CssUrl(m.quote1, ProxyUrl(proxyHost, a.href), m.quote2))
    requires parse(ProxyUrl(proxyHost, a.href), Some(base)) == Some(b) && b.href == ProxyUrl(proxyHost, a.href)
    ensures var once := RewriteCss(Spelling(m), base, proxyHost, parse);
      RewriteCss(once, base, proxyHost, parse) != once
  {
    var m' := CssUrl(m.quote1, ProxyUrl(proxyHost, a.href), m.quote2);
    RewritesResolvedUrl(m, [], base, proxyHost, parse, a);
    assert Spelling(m) + [] == Spelling(m);
    assert RewriteCss([], base, proxyHost, parse) == [];
    var once := RewriteCss(Spelling(m), base, proxyHost, parse);
    assert once == Spelling(m') + [];
    assert !StartsWith(m'.url, "data:") by {
      assert m'.url[..5] == "https";
    }
    RewritesResolvedUrl(m', [], base, proxyHost, parse, b);
    var twice := RewriteCss(once, base, proxyHost, parse);
    assert twice == Spelling(CssUrl(m.quote1, ProxyUrl(proxyHost, b.href), m.quote2));
    assert |twice| > |once|;
  }
}
