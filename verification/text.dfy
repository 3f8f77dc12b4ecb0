/**
 * `String.prototype.trim` as the controllers and the domain use it to decide
 * whether a name is blank: it removes the ECMAScript WhiteSpace and
 * LineTerminator code points from both ends of a string.
 */
module Text {
  import opened Wrappers

  /** The code points that ECMAScript's `trim` strips: WhiteSpace (tab, vertical tab, form feed, space, no-break space, byte order mark and category Zs) and LineTerminator. */
  const WhitespaceChars: set<char> := {
    '\t', '\U{000B}', '\U{000C}', ' ', '\U{00A0}', '\U{FEFF}',
    '\U{1680}', '\U{2000}', '\U{2001}', '\U{2002}', '\U{2003}', '\U{2004}', '\U{2005}',
    '\U{2006}', '\U{2007}', '\U{2008}', '\U{2009}', '\U{200A}', '\U{202F}', '\U{205F}', '\U{3000}',
    '\n', '\r', '\U{2028}', '\U{2029}'
  }

  predicate IsWhitespace(c: char) {
    c in WhitespaceChars
  }

  /** Every character of `s` is whitespace (vacuously true of ""). */
  predicate AllWhitespace(s: string) {
    forall i :: 0 <= i < |s| ==> IsWhitespace(s[i])
  }

  /** Every character of `s` at a position in [lo, hi) is whitespace. */
  predicate WhitespaceIn(s: string, lo: nat, hi: nat)
    requires lo <= hi <= |s|
  {
    forall k :: lo <= k < hi ==> IsWhitespace(s[k])
  }

  /** Drops the leading whitespace: the result is a suffix of `s` that does not start with whitespace. */
  function TrimStart(s: string): (r: string)
    ensures |r| <= |s| && r == s[|s| - |r|..]
    ensures WhitespaceIn(s, 0, |s| - |r|)
    ensures r == [] || !IsWhitespace(r[0])
  {
    if |s| > 0 && IsWhitespace(s[0]) then
      var r := TrimStart(s[1..]);
      assert forall k :: 1 <= k < |s| - |r| ==> s[k] == s[1..][k - 1];
      r
    else
      s
  }

  /** Drops the trailing whitespace: the result is a prefix of `s` that does not end with whitespace. */
  function TrimEnd(s: string): (r: string)
    ensures |r| <= |s| && r == s[..|r|]
    ensures WhitespaceIn(s, |r|, |s|)
    ensures r == [] || !IsWhitespace(r[|r| - 1])
  {
    if |s| > 0 && IsWhitespace(s[|s| - 1]) then
      var r := TrimEnd(s[..|s| - 1]);
      assert forall k :: |r| <= k < |s| - 1 ==> s[k] == s[..|s| - 1][k];
      r
    else
      s
  }

  /** `s.trim()`: `s` with the whitespace at its two ends removed, and only that. */
  function Trim(s: string): (r: string)
    ensures |r| <= |s|
    ensures exists i, j :: 0 <= i <= j <= |s| && r == s[i..j] && WhitespaceIn(s, 0, i) && WhitespaceIn(s, j, |s|)
    ensures r == [] || (!IsWhitespace(r[0]) && !IsWhitespace(r[|r| - 1]))
  {
    var t := TrimStart(s);
    var r := TrimEnd(t);
    TrimBothEnds(s, t, r);
    r
  }

  /**
   * Cutting leading whitespace off `s` to get `t`, then trailing whitespace
   * off `t` to get `r`, cuts only whitespace and only at the two ends of `s`.
   */
  lemma TrimBothEnds(s: string, t: string, r: string)
    requires |t| <= |s| && t == s[|s| - |t|..] && WhitespaceIn(s, 0, |s| - |t|)
    requires t == [] || !IsWhitespace(t[0])
    requires |r| <= |t| && r == t[..|r|] && WhitespaceIn(t, |r|, |t|)
    requires r == [] || !IsWhitespace(r[|r| - 1])
    ensures exists i, j :: 0 <= i <= j <= |s| && r == s[i..j] && WhitespaceIn(s, 0, i) && WhitespaceIn(s, j, |s|)
    ensures r == [] || (!IsWhitespace(r[0]) && !IsWhitespace(r[|r| - 1]))
  {
    var i := |s| - |t|;
    var j := i + |r|;
    assert r == s[i..j];
    forall k | j <= k < |s|
      ensures IsWhitespace(s[k])
    {
      assert s[k] == t[k - i];
    }
    assert WhitespaceIn(s, j, |s|);
    if r != [] {
      assert r[0] == t[0];
    }
  }

  /** `!v || v.trim() === ""` for a value that is either a string or `undefined`. */
  predicate MissingOrBlank(v: Option<string>) {
    v.None? || v.value == "" || Trim(v.value) == ""
  }

  /** A string trims to "" exactly when all its characters are whitespace. */
  lemma TrimEmptyIffAllWhitespace(s: string)
    ensures Trim(s) == [] <==> AllWhitespace(s)
  {
    var t := TrimStart(s);
    if t != [] {
      assert s[|s| - |t|] == t[0];
    }
  }

  /** The JavaScript guard on a name rejects it exactly when it is absent or has no non-whitespace character. */
  lemma MissingOrBlankIff(v: Option<string>)
    ensures MissingOrBlank(v) <==> (v.None? || AllWhitespace(v.value))
  {
    if v.Some? {
      TrimEmptyIffAllWhitespace(v.value);
    }
  }
}
