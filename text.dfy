/** `String.prototype.trim`, which the editor uses to decide whether an exercise name is blank. */
module Text {

  /** The characters `trim` strips: the ECMAScript WhiteSpace and LineTerminator code points
      (tab, vertical tab, form feed, space, no-break space, byte order mark, the other Zs
      space separators, line feed, carriage return, line and paragraph separators). */
  predicate IsWhiteSpace(c: char) {
    || '\t' <= c <= '\r'                // tab, line feed, vertical tab, form feed, carriage return
    || c == ' ' || c == '\U{00A0}' || c == '\U{1680}'
    || '\U{2000}' <= c <= '\U{200A}'     // en quad .. hair space
    || c == '\U{2028}' || c == '\U{2029}' // line and paragraph separators
    || c == '\U{202F}' || c == '\U{205F}' || c == '\U{3000}' || c == '\U{FEFF}'
  }

  predicate AllWhiteSpace(s: string) {
    forall i :: 0 <= i < |s| ==> IsWhiteSpace(s[i])
  }

  /** Every character of `s` from index `lo` up to `hi` is white space. */
  predicate WhiteSpaceBetween(s: string, lo: int, hi: int) {
    forall k :: lo <= k < hi && 0 <= k < |s| ==> IsWhiteSpace(s[k])
  }

  /** `s` without its leading white space. */
  function TrimStart(s: string): (r: string)
    ensures |r| <= |s| && r == s[|s| - |r|..]
    ensures WhiteSpaceBetween(s, 0, |s| - |r|)
    ensures r == [] || !IsWhiteSpace(r[0])
  {
    if s != [] && IsWhiteSpace(s[0]) then
      var r := TrimStart(s[1..]);
      assert forall k :: 1 <= k < |s| ==> s[1..][k - 1] == s[k];
      r
    else s
  }

  /** `s` without its trailing white space. */
  function TrimEnd(s: string): (r: string)
    ensures |r| <= |s| && r == s[..|r|]
    ensures WhiteSpaceBetween(s, |r|, |s|)
    ensures r == [] || !IsWhiteSpace(r[|r| - 1])
  {
    if s != [] && IsWhiteSpace(s[|s| - 1]) then
      var r := TrimEnd(s[..|s| - 1]);
      assert forall k :: 0 <= k < |s| - 1 ==> s[..|s| - 1][k] == s[k];
      r
    else s
  }

  /** `r` is `s[i..j]` and everything of `s` outside `i..j` is white space. */
  predicate TrimmedTo(s: string, r: string, i: int, j: int) {
    0 <= i <= j <= |s| && r == s[i..j] && WhiteSpaceBetween(s, 0, i) && WhiteSpaceBetween(s, j, |s|)
  }

  /** `s.trim()`: white space removed from both ends, nothing else touched. */
  function Trim(s: string): (r: string)
    ensures exists i, j :: TrimmedTo(s, r, i, j)
    ensures r == [] || (!IsWhiteSpace(r[0]) && !IsWhiteSpace(r[|r| - 1]))
  {
    var t := TrimStart(s);
    var r := TrimEnd(t);
    var i := |s| - |t|;
    var j := i + |r|;
    PrefixOfSuffix(s, t, r);
    assert TrimmedTo(s, r, i, j);
    r
  }

  /** A prefix `r` of a suffix `t` of `s` is a slice of `s`, and white space after `r` in `t`
      is white space after that slice in `s`. */
  lemma PrefixOfSuffix(s: string, t: string, r: string)
    requires |t| <= |s| && t == s[|s| - |t|..]
    requires |r| <= |t| && r == t[..|r|]
    requires WhiteSpaceBetween(t, |r|, |t|)
    ensures r == s[|s| - |t|..|s| - |t| + |r|]
    ensures WhiteSpaceBetween(s, |s| - |t| + |r|, |s|)
  {
    var i := |s| - |t|;
    forall k | i + |r| <= k < |s| ensures IsWhiteSpace(s[k]) {
      assert t[k - i] == s[k];
    }
  }

  /** A string trims to the empty string exactly when it is all white space. */
  lemma TrimEmptyIff(s: string)
    ensures Trim(s) == "" <==> AllWhiteSpace(s)
  {
    if AllWhiteSpace(s) {
      AllWhiteSpaceTrimsStart(s);
    }
    if Trim(s) == "" {
      var i, j :| TrimmedTo(s, Trim(s), i, j);
    }
  }

  lemma {:induction false} AllWhiteSpaceTrimsStart(s: string)
    requires AllWhiteSpace(s)
    ensures TrimStart(s) == ""
  {
    if s != [] {
      assert AllWhiteSpace(s[1..]) by {
        forall k | 0 <= k < |s| - 1 ensures IsWhiteSpace(s[1..][k]) { assert s[1..][k] == s[k + 1]; }
      }
      AllWhiteSpaceTrimsStart(s[1..]);
    }
  }
}
