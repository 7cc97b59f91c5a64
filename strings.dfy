/**
 * String helpers with the semantics of the JavaScript String methods the
 * proxy relies on: startsWith, endsWith, includes, indexOf, split, trim and
 * (ASCII) toLowerCase.  Strings are sequences of characters.
 */
module Strings {
  import opened Wrappers

  predicate StartsWith(s: string, prefix: string) {
    |prefix| <= |s| && s[..|prefix|] == prefix
  }

  predicate EndsWith(s: string, suffix: string) {
    |suffix| <= |s| && s[|s| - |suffix|..] == suffix
  }

  /** `p` occurs in `s` starting at index `i`. */
  predicate OccursAt(s: string, p: string, i: int) {
    0 <= i && i + |p| <= |s| && s[i..i + |p|] == p
  }

  /** String.prototype.includes */
  predicate Contains(s: string, p: string) {
    exists i | 0 <= i <= |s| :: OccursAt(s, p, i)
  }

  lemma StartsWithOccurs(s: string, p: string)
    requires StartsWith(s, p)
    ensures OccursAt(s, p, 0) && Contains(s, p)
  {
    assert OccursAt(s, p, 0);
  }

  /** Index of the first occurrence of `p` in `s` at or after `from`. */
  function IndexOfFrom(s: string, p: string, from: nat): (r: Option<nat>)
    requires from <= |s|
    ensures r.Some? ==> from <= r.value && OccursAt(s, p, r.value)
    ensures r.Some? ==> forall j :: from <= j < r.value ==> !OccursAt(s, p, j)
    ensures r.None? ==> forall j :: from <= j <= |s| ==> !OccursAt(s, p, j)
    decreases |s| - from
  {
    if OccursAt(s, p, from) then Some(from)
    else if from == |s| then None
    else IndexOfFrom(s, p, from + 1)
  }

  /** String.prototype.indexOf: the first occurrence, if any. */
  function IndexOf(s: string, p: string): (r: Option<nat>)
    ensures r.Some? <==> Contains(s, p)
    ensures r.Some? ==> OccursAt(s, p, r.value) && forall j :: 0 <= j < r.value ==> !OccursAt(s, p, j)
  {
    IndexOfFrom(s, p, 0)
  }

  /**
   * String.prototype.split with a non-empty string separator: the pieces
   * between the non-overlapping occurrences of `sep`, found left to right.
   */
  function Split(s: string, sep: string): (parts: seq<string>)
    requires sep != []
    ensures |parts| >= 1
    decreases |s|
  {
    match IndexOf(s, sep)
    case None => [s]
    case Some(i) => [s[..i]] + Split(s[i + |sep|..], sep)
  }

  /** Array.prototype.join: the inverse of Split (see JoinSplit). */
  function Join(parts: seq<string>, sep: string): string
    requires |parts| >= 1
  {
    if |parts| == 1 then parts[0] else parts[0] + sep + Join(parts[1..], sep)
  }

  /** One step of Split at the first occurrence of the separator. */
  lemma SplitAt(s: string, sep: string, i: nat)
    requires sep != [] && IndexOf(s, sep) == Some(i)
    ensures i + |sep| <= |s| && s[i..i + |sep|] == sep
    ensures Split(s, sep) == [s[..i]] + Split(s[i + |sep|..], sep)
  {
    assert OccursAt(s, sep, i);
  }

  /** One step of Join. */
  lemma JoinCons(head: string, tail: seq<string>, sep: string)
    requires |tail| >= 1
    ensures Join([head] + tail, sep) == head + sep + Join(tail, sep)
  {
    var parts := [head] + tail;
    assert parts[0] == head && parts[1..] == tail;
  }

  /** Joining the pieces of a split with the same separator gives back the string. */
  lemma {:induction false} JoinSplit(s: string, sep: string)
    requires sep != []
    ensures Join(Split(s, sep), sep) == s
    decreases |s|
  {
    match IndexOf(s, sep)
    case None =>
    case Some(i) =>
      var rest := s[i + |sep|..];
      JoinSplit(rest, sep);
      SplitAt(s, sep, i);
      JoinCons(s[..i], Split(rest, sep), sep);
      SliceConcat(s, i, i + |sep|);
  }

  lemma SliceConcat(s: string, i: nat, j: nat)
    requires i <= j <= |s|
    ensures s[..i] + s[i..j] + s[j..] == s
  {
    assert s[..i] + s[i..j] == s[..j];
  }

  /**
   * The first piece ends at the first occurrence of the separator, or is the
   * whole string when there is none.  With JoinSplit this fixes the pieces
   * even for a separator that overlaps itself, such as "aa" in "aaa".
   */
  lemma SplitFirstPiece(s: string, sep: string)
    requires sep != []
    ensures IndexOf(s, sep).None? ==> Split(s, sep) == [s]
    ensures IndexOf(s, sep).Some? ==> Split(s, sep)[0] == s[..IndexOf(s, sep).value]
  {
  }

  /** "aaa" split on "aa" is ["", "a"], not ["a", ""]. */
  lemma SplitOverlappingSeparator()
    ensures Split("aaa", "aa") == ["", "a"]
  {
    assert OccursAt("aaa", "aa", 0) by { assert "aaa"[0..2] == "aa"; }
    assert IndexOf("aaa", "aa") == Some(0);
    assert "aaa"[2..] == "a";
    assert !OccursAt("a", "aa", 0) && !OccursAt("a", "aa", 1);
    assert IndexOf("a", "aa") == None;
  }

  /** A two-piece split cuts at the first occurrence of the separator. */
  lemma TwoPieceCut(s: string, sep: string, before: string, after: string)
    requires sep != [] && Split(s, sep) == [before, after]
    ensures IndexOf(s, sep) == Some(|before|) && s[..|before|] == before
  {
    var idx := IndexOf(s, sep);
    assert idx.Some?;
    var i := idx.value;
    assert Split(s, sep) == [s[..i]] + Split(s[i + |sep|..], sep);
    assert before == Split(s, sep)[0] == s[..i];
  }

  lemma SharedPrefixSlice(s: string, t: string, n: nat, a: nat, b: nat)
    requires a <= b <= n <= |s| && n <= |t| && t[..n] == s[..n]
    ensures t[a..b] == s[a..b]
  {
    forall k | 0 <= k < b - a
      ensures t[a..b][k] == s[a..b][k]
    {
      assert t[a + k] == t[..n][a + k] && s[a + k] == s[..n][a + k];
    }
  }

  /** Strings that agree up to the end of the first occurrence have that first occurrence. */
  lemma FirstOccurrenceShared(s: string, t: string, sep: string, i: nat)
    requires IndexOf(s, sep) == Some(i) && i + |sep| <= |t| && t[..i + |sep|] == s[..i + |sep|]
    ensures IndexOf(t, sep) == Some(i)
  {
    var n := i + |sep|;
    forall j | 0 <= j < i
      ensures !OccursAt(t, sep, j)
    {
      SharedPrefixSlice(s, t, n, j, j + |sep|);
      assert !OccursAt(s, sep, j);
    }
    SharedPrefixSlice(s, t, n, i, n);
    assert OccursAt(t, sep, i);
  }

  /**
   * Replacing what follows the first separator of a two-piece split by text
   * free of the separator keeps the split at the same place.
   */
  lemma SplitKeepsFirstCut(s: string, sep: string, before: string, after: string, rest: string)
    requires sep != [] && Split(s, sep) == [before, after]
    requires !Contains(rest, sep)
    ensures Split(before + sep + rest, sep) == [before, rest]
  {
    TwoPieceCut(s, sep, before, after);
    var i := |before|;
    var n := i + |sep|;
    var t := before + sep + rest;
    assert OccursAt(s, sep, i);
    assert t[..n] == s[..n] by {
      assert s[..n] == s[..i] + s[i..n];
      assert t[..n] == before + sep;
    }
    FirstOccurrenceShared(s, t, sep, i);
    assert t[..i] == before && t[n..] == rest;
    assert Split(t, sep) == [before] + Split(rest, sep);
  }

  /** No piece of a split contains the separator. */
  lemma {:induction false} SplitPartsAvoidSep(s: string, sep: string)
    requires sep != []
    ensures forall k :: 0 <= k < |Split(s, sep)| ==> !Contains(Split(s, sep)[k], sep)
    decreases |s|
  {
    match IndexOf(s, sep)
    case None =>
    case Some(i) =>
      var rest := s[i + |sep|..];
      SplitPartsAvoidSep(rest, sep);
      var head := s[..i];
      forall j | 0 <= j <= |head| && OccursAt(head, sep, j)
        ensures false
      {
        assert s[j..j + |sep|] == head[j..j + |sep|];
        assert OccursAt(s, sep, j);
      }
      assert !Contains(head, sep);
      SplitAt(s, sep, i);
  }

  function LowerChar(c: char): char {
    if 'A' <= c <= 'Z' then (c as int + 32) as char else c
  }

  /** String.prototype.toLowerCase restricted to ASCII letters. */
  function ToLowerAscii(s: string): (r: string)
    ensures |r| == |s|
  {
    if s == [] then [] else [LowerChar(s[0])] + ToLowerAscii(s[1..])
  }

  /**
   * A string lower-cases to `t` exactly when it has the length of `t` and
   * each of its characters lower-cases to the character of `t` there.
   */
  lemma {:induction false} LowerEqualsIff(s: string, t: string)
    ensures ToLowerAscii(s) == t <==> |s| == |t| && forall i | 0 <= i < |s| :: LowerChar(s[i]) == t[i]
  {
    if s != [] && |s| == |t| {
      LowerEqualsIff(s[1..], t[1..]);
      var l := ToLowerAscii(s);
      assert l == [LowerChar(s[0])] + ToLowerAscii(s[1..]);
      if l == t {
        forall i | 0 <= i < |s| ensures LowerChar(s[i]) == t[i] {
          if i > 0 {
            assert s[1..][i - 1] == s[i] && t[1..][i - 1] == t[i];
            assert ToLowerAscii(s[1..]) == t[1..];
          }
        }
      }
      if forall i | 0 <= i < |s| :: LowerChar(s[i]) == t[i] {
        assert forall i | 0 <= i < |s| - 1 :: s[1..][i] == s[i + 1] && t[1..][i] == t[i + 1];
        assert ToLowerAscii(s[1..]) == t[1..];
        assert t == [t[0]] + t[1..];
      }
    }
  }

  /**
   * The characters String.prototype.trim removes: ECMAScript WhiteSpace
   * (tab, vertical tab, form feed, space, no-break space, BOM and the
   * Unicode space separators) and LineTerminator.
   */
  const JsWhitespace: set<char> := {
    '\t', '\n', '\U{000B}', '\U{000C}', '\r', ' ', '\U{00A0}', '\U{1680}',
    '\U{2000}', '\U{2001}', '\U{2002}', '\U{2003}', '\U{2004}', '\U{2005}',
    '\U{2006}', '\U{2007}', '\U{2008}', '\U{2009}', '\U{200A}',
    '\U{2028}', '\U{2029}', '\U{202F}', '\U{205F}', '\U{3000}', '\U{FEFF}'
  }

  predicate IsJsWhitespace(c: char) {
    c in JsWhitespace
  }

  function TrimStart(s: string): (r: string)
    ensures |r| <= |s| && r == s[|s| - |r|..]
    ensures r == [] || !IsJsWhitespace(r[0])
    ensures forall i :: 0 <= i < |s| - |r| ==> IsJsWhitespace(s[i])
  {
    if s != [] && IsJsWhitespace(s[0]) then
      var r := TrimStart(s[1..]);
      assert s[1..][|s| - 1 - |r|..] == s[|s| - |r|..];
      r
    else s
  }

  function TrimEnd(s: string): (r: string)
    ensures |r| <= |s| && r == s[..|r|]
    ensures r == [] || !IsJsWhitespace(r[|r| - 1])
    ensures forall i :: |r| <= i < |s| ==> IsJsWhitespace(s[i])
  {
    if s != [] && IsJsWhitespace(s[|s| - 1]) then
      var r := TrimEnd(s[..|s| - 1]);
      assert s[..|s| - 1][..|r|] == s[..|r|];
      r
    else s
  }

  /** String.prototype.trim */
  function Trim(s: string): (r: string)
  {
    TrimEnd(TrimStart(s))
  }

  /** Trim returns the piece s[a..a + |Trim(s)|] of `s`, where a is what TrimStart cuts off. */
  lemma TrimSlice(s: string)
    ensures var a := |s| - |TrimStart(s)|; a + |Trim(s)| <= |s| && Trim(s) == s[a..a + |Trim(s)|]
  {
    var t := TrimStart(s);
    var a := |s| - |t|;
    assert t == s[a..];
    var r := TrimEnd(t);
    assert r == t[..|r|];
  }

  /** What Trim leaves at the end of `s` is whitespace. */
  lemma TrimSuffixWhitespace(s: string)
    ensures forall i :: |s| - |TrimStart(s)| + |Trim(s)| <= i < |s| ==> IsJsWhitespace(s[i])
  {
    var t := TrimStart(s);
    var a := |s| - |t|;
    assert t == s[a..];
    var r := TrimEnd(t);
    forall i | a + |r| <= i < |s| ensures IsJsWhitespace(s[i]) {
      assert s[i] == t[i - a];
    }
  }

  /** The result of Trim neither starts nor ends with whitespace. */
  lemma TrimEdges(s: string)
    ensures Trim(s) == [] || (!IsJsWhitespace(Trim(s)[0]) && !IsJsWhitespace(Trim(s)[|Trim(s)| - 1]))
  {
    var t := TrimStart(s);
    var r := TrimEnd(t);
    if r != [] {
      assert r[0] == t[0];
    }
  }

  /**
   * Trim returns the piece s[a..b] of `s` between a whitespace prefix and a
   * whitespace suffix, and that piece neither starts nor ends with
   * whitespace: it cuts off exactly the whitespace at the two ends.
   */
  lemma TrimCutsOnlyWhitespace(s: string)
    ensures var a := |s| - |TrimStart(s)|; var b := a + |Trim(s)|;
      b <= |s| && Trim(s) == s[a..b] &&
      (forall i :: 0 <= i < a ==> IsJsWhitespace(s[i])) &&
      (forall i :: b <= i < |s| ==> IsJsWhitespace(s[i])) &&
      (Trim(s) == [] || (!IsJsWhitespace(Trim(s)[0]) && !IsJsWhitespace(Trim(s)[|Trim(s)| - 1])))
  {
    TrimSlice(s);
    TrimSuffixWhitespace(s);
    TrimEdges(s);
  }

  /** Trimming a trimmed string changes nothing. */
  lemma TrimIdempotent(s: string)
    ensures Trim(Trim(s)) == Trim(s)
  {
    var r := Trim(s);
    TrimEdges(s);
    if r != [] {
      assert TrimStart(r) == r;
      assert TrimEnd(r) == r;
    }
  }
}
