/** JavaScript's String.prototype.trim, which the send guard relies on:
    it strips leading and trailing WhiteSpace and LineTerminator code points
    as the ECMAScript language specification defines them. */
module JsString {

  /** ECMAScript WhiteSpace (TAB, VT, FF, ZWNBSP and the Unicode space
      separators, category Zs) and LineTerminator (LF, CR, LS, PS). */
  predicate IsTrimmable(c: char) {
    c == '\t' || c == '\U{000B}' || c == '\U{000C}' || c == ' ' || c == '\U{FEFF}'
    || c == '\U{00A0}' || c == '\U{1680}' || ('\U{2000}' <= c <= '\U{200A}')
    || c == '\U{202F}' || c == '\U{205F}' || c == '\U{3000}'
    || c == '\n' || c == '\r' || c == '\U{2028}' || c == '\U{2029}'
  }

  /** Every code point of `s` is one that trim strips. */
  predicate AllTrimmable(s: string) {
    forall i :: 0 <= i < |s| ==> IsTrimmable(s[i])
  }

  /** Drops the longest trimmable prefix: the result is a suffix of `s`,
      everything dropped is trimmable, and the result does not start with a
      trimmable code point. */
  function TrimStart(s: string): (r: string)
    ensures |r| <= |s| && r == s[|s| - |r|..]
    ensures forall i :: 0 <= i < |s| - |r| ==> IsTrimmable(s[i])
    ensures r != [] ==> !IsTrimmable(r[0])
    decreases |s|
  {
    if s != [] && IsTrimmable(s[0]) then TrimStart(s[1..]) else s
  }

  /** Drops the longest trimmable suffix: the result is a prefix of `s`,
      everything dropped is trimmable, and the result does not end with a
      trimmable code point. */
  function TrimEnd(s: string): (r: string)
    ensures |r| <= |s| && r == s[..|r|]
    ensures forall i :: |r| <= i < |s| ==> IsTrimmable(s[i])
    ensures r != [] ==> !IsTrimmable(r[|r| - 1])
    decreases |s|
  {
    if s != [] && IsTrimmable(s[|s| - 1]) then TrimEnd(s[..|s| - 1]) else s
  }

  /** `r` is `s[i..i + |r|]` and everything around it is trimmable. */
  predicate IsTrimmedAt(s: string, r: string, i: nat) {
    i <= |s| - |r| && r == s[i..i + |r|] && AllTrimmable(s[..i]) && AllTrimmable(s[i + |r|..])
  }

  /** A suffix `t` of `s` after a trimmable prefix, and a prefix `r` of `t`
      before a trimmable suffix, is a segment of `s` trimmable around it. */
  lemma SegmentAround(s: string, t: string, r: string)
    requires |t| <= |s| && t == s[|s| - |t|..]
    requires forall k :: 0 <= k < |s| - |t| ==> IsTrimmable(s[k])
    requires |r| <= |t| && r == t[..|r|]
    requires forall j :: |r| <= j < |t| ==> IsTrimmable(t[j])
    ensures IsTrimmedAt(s, r, |s| - |t|)
  {
    var i := |s| - |t|;
    assert r == s[i..i + |r|] by {
      assert s[i..][..|r|] == s[i..i + |r|];
    }
    var head := s[..i];
    forall k | 0 <= k < |head| ensures IsTrimmable(head[k]) {
      assert head[k] == s[k];
    }
    var tail := s[i + |r|..];
    forall k | 0 <= k < |tail| ensures IsTrimmable(tail[k]) {
      assert tail[k] == t[|r| + k];
    }
  }

  /** Trimming the end of the start-trimmed string leaves a segment of `s`
      with only trimmable code points on either side. */
  lemma TrimSegment(s: string)
    ensures IsTrimmedAt(s, TrimEnd(TrimStart(s)), |s| - |TrimStart(s)|)
  {
    var t := TrimStart(s);
    SegmentAround(s, t, TrimEnd(t));
  }

  /** String.prototype.trim: the input with its trimmable ends removed.
      What is left is a segment of `s` with only trimmable code points on
      either side, and it neither starts nor ends with a trimmable one. */
  function Trim(s: string): (r: string)
    ensures exists i: nat :: IsTrimmedAt(s, r, i)
    ensures r != [] ==> !IsTrimmable(r[0]) && !IsTrimmable(r[|r| - 1])
  {
    TrimSegment(s);
    TrimEnd(TrimStart(s))
  }

  /** `s.trim()` is the empty (falsy) string exactly when `s` consists of
      trimmable code points only; in particular for the empty string. */
  lemma TrimEmptyIff(s: string)
    ensures Trim(s) == [] <==> AllTrimmable(s)
  {
  }

  /** Trailing and leading trimmable code points are all trim removes: a
      string whose first and last code points are not trimmable is its own trim. */
  lemma TrimKeepsInner(s: string)
    requires s != [] && !IsTrimmable(s[0]) && !IsTrimmable(s[|s| - 1])
    ensures Trim(s) == s
  {
  }
}
