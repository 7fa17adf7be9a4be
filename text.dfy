/**
 The three string operations of Go's `strings` package that the backend-config
 reader relies on: `TrimSpace`, `Trim` with a one-character cut set, and
 `SplitN(s, sep, 2)` with a one-character separator.

 Strings are sequences of Unicode scalar values; Go works on UTF-8 bytes, which
 gives the same results on well-formed UTF-8 text.
 */
module Text {
  import opened Wrappers

  /** White space as Go's `unicode.IsSpace` defines it. */
  predicate IsSpace(c: char) {
    || c == ' ' || c == '\t' || c == '\n' || c == '\U{0B}' || c == '\U{0C}' || c == '\r'
    || c == '\U{85}' || c == '\U{A0}' || c == '\U{1680}'
    || ('\U{2000}' <= c <= '\U{200A}')
    || c == '\U{2028}' || c == '\U{2029}' || c == '\U{202F}' || c == '\U{205F}' || c == '\U{3000}'
  }

  /** The cut set `"` used on every backend-config value. */
  predicate IsQuote(c: char) {
    c == '"'
  }

  /** Every character of `s` is in the cut set. */
  predicate AllCut(s: string, cut: char -> bool) {
    forall k :: 0 <= k < |s| ==> cut(s[k])
  }

  /** Removes the longest prefix made of cut characters. */
  function TrimLeft(s: string, cut: char -> bool): (r: string)
    ensures |r| <= |s| && r == s[|s| - |r|..]
    ensures AllCut(s[..|s| - |r|], cut)
    ensures r == [] || !cut(r[0])
  {
    if s != [] && cut(s[0]) then
      var r := TrimLeft(s[1..], cut);
      assert s[..|s| - |r|] == [s[0]] + s[1..][..|s| - 1 - |r|];
      r
    else
      s
  }

  /** Removes the longest suffix made of cut characters. */
  function TrimRight(s: string, cut: char -> bool): (r: string)
    ensures |r| <= |s| && r == s[..|r|]
    ensures AllCut(s[|r|..], cut)
    ensures r == [] || !cut(r[|r| - 1])
  {
    if s != [] && cut(s[|s| - 1]) then
      var r := TrimRight(s[..|s| - 1], cut);
      assert s[|r|..] == s[..|s| - 1][|r|..] + [s[|s| - 1]];
      r
    else
      s
  }

  /** Go's `strings.Trim` (and, with `IsSpace`, `strings.TrimFunc`): both ends. */
  function Trim(s: string, cut: char -> bool): (r: string)
    ensures |r| <= |s|
    ensures r == [] <==> AllCut(s, cut)
    ensures r != [] ==> !cut(r[0]) && !cut(r[|r| - 1])
  {
    var t := TrimLeft(s, cut);
    var r := TrimRight(t, cut);
    assert t == [] ==> s[..|s|] == s;
    assert r == [] ==> s == s[..|s| - |t|] + t[|r|..];
    assert r != [] ==> r[0] == t[0] && s[|s| - |t|] == t[0];
    r
  }

  /** Go's `strings.TrimSpace`. */
  function TrimSpace(s: string): (r: string)
    ensures |r| <= |s|
    ensures r == [] <==> AllCut(s, IsSpace)
    ensures r != [] ==> !IsSpace(r[0]) && !IsSpace(r[|r| - 1])
  {
    Trim(s, IsSpace)
  }

  /**
   Go's `strings.SplitN(s, sep, 2)` for a one-character separator: `None` when the
   separator does not occur (SplitN then yields one part), otherwise the text
   before the FIRST separator and everything after it.
   */
  function SplitFirst(s: string, sep: char): (r: Option<(string, string)>)
    ensures r.None? <==> sep !in s
    ensures r.Some? ==> s == r.value.0 + [sep] + r.value.1 && sep !in r.value.0
  {
    if s == [] then None
    else if s[0] == sep then Some(([], s[1..]))
    else
      match SplitFirst(s[1..], sep)
      case None => None
      case Some((before, after)) =>
        assert s == [s[0]] + s[1..];
        Some(([s[0]] + before, after))
  }

  /** Splitting at the first separator undoes a join whose left part has none. */
  lemma {:induction false} SplitFirstOfJoin(left: string, sep: char, right: string)
    requires sep !in left
    ensures SplitFirst(left + [sep] + right, sep) == Some((left, right))
  {
    var s := left + [sep] + right;
    assert s[|left|] == sep;
    var r := SplitFirst(s, sep);
    var before := r.value.0;
    assert forall i :: 0 <= i < |before| ==> s[i] == before[i];
    assert forall i :: 0 <= i < |left| ==> s[i] == left[i];
    assert s[|before|] == sep;
    assert |before| == |left|;
    assert before == s[..|left|] == left;
    assert r.value.1 == s[|left| + 1..] == right;
  }

  /** Cut characters in front of a text that does not start with one are all removed. */
  lemma {:induction false} TrimLeftPadded(pad: string, t: string, cut: char -> bool)
    requires AllCut(pad, cut)
    requires t == [] || !cut(t[0])
    ensures TrimLeft(pad + t, cut) == t
  {
    if pad != [] {
      assert (pad + t)[1..] == pad[1..] + t;
      TrimLeftPadded(pad[1..], t, cut);
    }
  }

  /** Cut characters behind a text that does not end with one are all removed. */
  lemma {:induction false} TrimRightPadded(t: string, pad: string, cut: char -> bool)
    requires AllCut(pad, cut)
    requires t == [] || !cut(t[|t| - 1])
    ensures TrimRight(t + pad, cut) == t
  {
    if pad != [] {
      assert (t + pad)[..|t + pad| - 1] == t + pad[..|pad| - 1];
      TrimRightPadded(t, pad[..|pad| - 1], cut);
    }
  }

  /**
   `Trim` is determined by what it keeps: padding a text whose ends are not cut
   characters with cut characters on both sides, and trimming, gives the text back.
   */
  lemma {:induction false} TrimPadded(left: string, t: string, right: string, cut: char -> bool)
    requires AllCut(left, cut) && AllCut(right, cut)
    requires t == [] || (!cut(t[0]) && !cut(t[|t| - 1]))
    ensures Trim(left + t + right, cut) == t
  {
    if t == [] {
      assert left + t + right == left + right;
      assert AllCut(left + right, cut);
    } else {
      assert left + t + right == left + (t + right);
      TrimLeftPadded(left, t + right, cut);
      TrimRightPadded(t, right, cut);
    }
  }
}
