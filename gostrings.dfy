/**
 * The parts of Go's `strings` and `unicode` packages that the monitor relies on:
 * `strings.TrimSpace`, `strings.Contains` and the white-space test `unicode.IsSpace`.
 * Go strings are byte sequences decoded as UTF-8; here a string is a sequence of
 * Unicode scalar values.
 */
module GoStrings {

  /** `unicode.IsSpace`: the Latin-1 spaces plus the other characters with the White_Space property. */
  predicate IsSpace(c: char)
  {
    || c == '\t' || c == '\n' || c == '\U{0B}' || c == '\U{0C}' || c == '\r' || c == ' '
    || c == '\U{85}' || c == '\U{A0}'
    || c == '\U{1680}'
    || ('\U{2000}' <= c <= '\U{200A}')
    || c == '\U{2028}' || c == '\U{2029}' || c == '\U{202F}' || c == '\U{205F}' || c == '\U{3000}'
  }

  predicate AllSpace(s: string)
  {
    forall i :: 0 <= i < |s| ==> IsSpace(s[i])
  }

  /** Drops the leading white space: what is left is a suffix of `s` that does not start with a space. */
  function TrimLeftSpace(s: string): (r: string)
    ensures |r| <= |s| && r == s[|s| - |r|..]
    ensures AllSpace(s[..|s| - |r|])
    ensures r == [] || !IsSpace(r[0])
  {
    if |s| > 0 && IsSpace(s[0]) then
      var r := TrimLeftSpace(s[1..]);
      assert s[1..][..|s[1..]| - |r|] == s[1..|s| - |r|];
      r
    else
      s
  }

  /** Drops the trailing white space: what is left is a prefix of `s` that does not end with a space. */
  function TrimRightSpace(s: string): (r: string)
    ensures |r| <= |s| && r == s[..|r|]
    ensures AllSpace(s[|r|..])
    ensures r == [] || !IsSpace(r[|r| - 1])
  {
    if |s| > 0 && IsSpace(s[|s| - 1]) then
      var r := TrimRightSpace(s[..|s| - 1]);
      RestoreTrailingSpace(s, |r|);
      r
    else
      s
  }

  /**
   * `strings.TrimSpace`: the input with its leading and trailing white space removed.
   * The result is the piece of `s` between two runs of white space, and it neither
   * starts nor ends with white space.
   */
  function TrimSpace(s: string): (r: string)
    ensures r == [] || (!IsSpace(r[0]) && !IsSpace(r[|r| - 1]))
    ensures var lead := |s| - |TrimLeftSpace(s)|;
      && lead + |r| <= |s|
      && r == s[lead..lead + |r|]
      && AllSpace(s[..lead]) && AllSpace(s[lead + |r|..])
  {
    var left := TrimLeftSpace(s);
    var r := TrimRightSpace(left);
    SuffixSlices(s, |s| - |left|, |r|);
    r
  }

  /** Putting a trailing space back onto an all-space tail keeps it all space. */
  lemma RestoreTrailingSpace(s: string, k: nat)
    requires 0 < |s| && k < |s| && IsSpace(s[|s| - 1]) && AllSpace(s[..|s| - 1][k..])
    ensures s[..|s| - 1][..k] == s[..k]
    ensures AllSpace(s[k..])
  {
    assert s[k..] == s[..|s| - 1][k..] + [s[|s| - 1]];
  }

  lemma SuffixSlices(s: string, k: nat, n: nat)
    requires k + n <= |s|
    ensures s[k..][..n] == s[k..k + n]
    ensures s[k..][n..] == s[k + n..]
  {
  }

  /** A string trims to nothing exactly when it consists of white space only. */
  lemma TrimSpaceEmptyIffAllSpace(s: string)
    ensures TrimSpace(s) == [] <==> AllSpace(s)
  {
    if TrimSpace(s) == [] {
      var lead := |s| - |TrimLeftSpace(s)|;
      assert s == s[..lead] + s[lead..];
    }
  }

  /** Trimming twice is trimming once: the stored DSN is a fixed point of the trim. */
  lemma TrimSpaceIdempotent(s: string)
    ensures TrimSpace(TrimSpace(s)) == TrimSpace(s)
  {
    var t := TrimSpace(s);
    if t != [] {
      assert TrimLeftSpace(t) == t;
      assert TrimRightSpace(t) == t;
    }
  }

  /** `strings.Contains`: `sub` occurs somewhere in `s` as a contiguous piece. */
  predicate Contains(s: string, sub: string)
  {
    exists i :: 0 <= i <= |s| - |sub| && OccursAt(s, sub, i)
  }

  predicate OccursAt(s: string, sub: string, i: int)
  {
    0 <= i <= |s| - |sub| && s[i..i + |sub|] == sub
  }

  /** For a one-character needle, `strings.Contains` is plain membership. */
  lemma ContainsChar(s: string, c: char)
    ensures Contains(s, [c]) <==> c in s
  {
    if c in s {
      var i :| 0 <= i < |s| && s[i] == c;
      assert OccursAt(s, [c], i);
    }
    if Contains(s, [c]) {
      var i :| 0 <= i <= |s| - 1 && OccursAt(s, [c], i);
      assert s[i] == s[i..i + 1][0];
    }
  }
}
