/** String helpers with the semantics of the JavaScript and Python built-ins
    the download tool relies on. */
module Text {
  import opened Common

  /** `pat` occurs in `s` starting at position `k`. */
  predicate MatchAt(s: string, pat: string, k: nat) {
    k + |pat| <= |s| && s[k..k + |pat|] == pat
  }

  /** The first position at or after `from` where `pat` occurs in `s`. */
  function IndexOf(s: string, pat: string, from: nat): (r: Option<nat>)
    decreases |s| - from
    ensures r.Some? ==> from <= r.value && MatchAt(s, pat, r.value)
    ensures r.Some? ==> forall k :: from <= k < r.value ==> !MatchAt(s, pat, k)
    ensures r.None? ==> forall k :: from <= k ==> !MatchAt(s, pat, k)
  {
    if from + |pat| > |s| then None
    else if s[from..from + |pat|] == pat then Some(from)
    else IndexOf(s, pat, from + 1)
  }

  /** A match inside a slice of `s` is a match in `s`. */
  lemma MatchInSlice(s: string, pat: string, lo: nat, hi: nat, k: nat)
    requires lo <= hi <= |s| && MatchAt(s[lo..hi], pat, k)
    ensures MatchAt(s, pat, lo + k) && lo + k + |pat| <= hi
  {
    assert |s[lo..hi]| == hi - lo;
    var inner, outer := s[lo..hi][k..k + |pat|], s[lo + k..lo + k + |pat|];
    forall j | 0 <= j < |pat| ensures inner[j] == outer[j] {
      assert inner[j] == s[lo..hi][k + j] == s[lo + k + j];
    }
    assert inner == outer;
  }

  /** JavaScript's `s.split(sep)[1]`: the text after the first occurrence of
      `sep` up to the second one (or the end of `s`); absent when `sep` does
      not occur. */
  function SecondPiece(s: string, sep: string): (r: Option<string>)
    requires |sep| > 0
    ensures r.None? <==> forall k :: !MatchAt(s, sep, k)
    ensures r.Some? ==> var i := IndexOf(s, sep, 0).value;
                        i + |sep| + |r.value| <= |s| && r.value == s[i + |sep|..i + |sep| + |r.value|]
    ensures r.Some? ==> var i := IndexOf(s, sep, 0).value;
                        var e := i + |sep| + |r.value|;
                        (forall k :: i + |sep| <= k < e ==> !MatchAt(s, sep, k)) && (e == |s| || MatchAt(s, sep, e))
  {
    match IndexOf(s, sep, 0)
    case None => None
    case Some(i) =>
      var next := IndexOf(s, sep, i + |sep|);
      Some(s[i + |sep|..if next.Some? then next.value else |s|])
  }

  /** A stretch of `s` free of matches gives a slice free of matches. */
  lemma NoMatchInSlice(s: string, pat: string, lo: nat, hi: nat)
    requires |pat| > 0 && lo <= hi <= |s|
    requires forall k :: lo <= k < hi ==> !MatchAt(s, pat, k)
    ensures forall k :: !MatchAt(s[lo..hi], pat, k)
  {
    forall k | MatchAt(s[lo..hi], pat, k) ensures false {
      MatchInSlice(s, pat, lo, hi, k);
    }
  }

  /** The piece never holds the separator: it stops where the next one starts. */
  lemma PieceHoldsNoSeparator(s: string, sep: string)
    requires |sep| > 0 && SecondPiece(s, sep).Some?
    ensures forall k :: !MatchAt(SecondPiece(s, sep).value, sep, k)
  {
    var i := IndexOf(s, sep, 0).value;
    var next := IndexOf(s, sep, i + |sep|);
    var stop := if next.Some? then next.value else |s|;
    NoMatchInSlice(s, sep, i + |sep|, stop);
    assert SecondPiece(s, sep) == Some(s[i + |sep|..stop]);
  }

  /** JavaScript's `s.replace(/c/g, "")` and Python's `s.replace(c, '')`:
      every occurrence of `c` removed, the rest kept in order. */
  function RemoveChar(s: string, c: char): (r: string)
    ensures c !in r
    ensures forall x :: x in r <==> x in s && x != c
    ensures |r| <= |s|
    ensures c !in s ==> r == s
  {
    if s == [] then []
    else if s[0] == c then RemoveChar(s[1..], c)
    else [s[0]] + RemoveChar(s[1..], c)
  }

  /** Removing a character from a concatenation removes it from each part. */
  lemma {:induction false} RemoveCharAppend(a: string, b: string, c: char)
    ensures RemoveChar(a + b, c) == RemoveChar(a, c) + RemoveChar(b, c)
    decreases |a|
  {
    if a != [] {
      assert (a + b)[1..] == a[1..] + b;
      RemoveCharAppend(a[1..], b, c);
    } else {
      assert a + b == b;
    }
  }

  /** The characters Python's `str.isspace` accepts. */
  predicate IsSpace(c: char) {
    || c == ' ' || '\t' <= c <= '\r' || '\U{1C}' <= c <= '\U{1F}'
    || c == '\U{85}' || c == '\U{A0}' || c == '\U{1680}'
    || '\U{2000}' <= c <= '\U{200A}' || c == '\U{2028}' || c == '\U{2029}'
    || c == '\U{202F}' || c == '\U{205F}' || c == '\U{3000}'
  }

  /** `s` without its leading whitespace. */
  function TrimStart(s: string): (r: string)
    ensures |r| <= |s| && r == s[|s| - |r|..]
    ensures forall k :: 0 <= k < |s| - |r| ==> IsSpace(s[k])
    ensures r == [] || !IsSpace(r[0])
  {
    if s != [] && IsSpace(s[0]) then TrimStart(s[1..]) else s
  }

  /** `s` without its trailing whitespace. */
  function TrimEnd(s: string): (r: string)
    ensures |r| <= |s| && r == s[..|r|]
    ensures forall k :: |r| <= k < |s| ==> IsSpace(s[k])
    ensures r == [] || !IsSpace(r[|r| - 1])
  {
    if s != [] && IsSpace(s[|s| - 1]) then TrimEnd(s[..|s| - 1]) else s
  }

  /** Python's `s.strip()`: the middle of `s` left after cutting only
      whitespace from its start and its end, with no whitespace left at
      either end; text without whitespace comes back as it was. */
  function Strip(s: string): (r: string)
    ensures var a := |s| - |TrimStart(s)|;
            a + |r| <= |s| && r == s[a..a + |r|]
    ensures var a := |s| - |TrimStart(s)|;
            (forall k :: 0 <= k < a ==> IsSpace(s[k])) && (forall k :: a + |r| <= k < |s| ==> IsSpace(s[k]))
    ensures r == [] || (!IsSpace(r[0]) && !IsSpace(r[|r| - 1]))
    ensures forall x :: x in r ==> x in s
    ensures (forall k :: 0 <= k < |s| ==> !IsSpace(s[k])) ==> r == s
  {
    TrimEnd(TrimStart(s))
  }
}
