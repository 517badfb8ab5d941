/** The part of JavaScript's String.prototype.trim that the chat client relies on:
    the send guard treats an input as empty when nothing is left after trimming. */
module JsText {

  /** A code point that trim removes: ECMAScript WhiteSpace (TAB, VT, FF, ZWNBSP and every
      Unicode space separator) or LineTerminator (LF, CR, LS, PS). */
  predicate IsTrimmable(c: char) {
    var n := c as int;
    || n == 0x09 || n == 0x0A || n == 0x0B || n == 0x0C || n == 0x0D
    || n == 0x20 || n == 0xA0 || n == 0x1680
    || (0x2000 <= n <= 0x200A)
    || n == 0x2028 || n == 0x2029 || n == 0x202F || n == 0x205F
    || n == 0x3000 || n == 0xFEFF
  }

  /** Every character of `s` at a position in [lo, hi) is one that trim removes. */
  predicate TrimmableBetween(s: string, lo: int, hi: int)
    requires 0 <= lo && hi <= |s|
  {
    forall i :: lo <= i < hi ==> IsTrimmable(s[i])
  }

  /** Every character of `s` is one that trim removes. */
  predicate AllTrimmable(s: string) {
    TrimmableBetween(s, 0, |s|)
  }

  /** Drops the leading trimmable characters: the result is the suffix of `s` that starts
      at its first non-trimmable character. */
  function TrimStart(s: string): (r: string)
    ensures |r| <= |s| && r == s[|s| - |r|..]
    ensures TrimmableBetween(s, 0, |s| - |r|)
    ensures r != [] ==> !IsTrimmable(r[0])
  {
    if s != [] && IsTrimmable(s[0]) then
      var r := TrimStart(s[1..]);
      assert forall i :: 1 <= i < |s| - |r| ==> s[i] == s[1..][i - 1];
      r
    else s
  }

  /** Drops the trailing trimmable characters: the result is the prefix of `s` that ends
      at its last non-trimmable character. */
  function TrimEnd(s: string): (r: string)
    ensures |r| <= |s| && r == s[..|r|]
    ensures TrimmableBetween(s, |r|, |s|)
    ensures r != [] ==> !IsTrimmable(r[|r| - 1])
  {
    if s != [] && IsTrimmable(s[|s| - 1]) then
      var r := TrimEnd(s[..|s| - 1]);
      assert forall i :: |r| <= i < |s| - 1 ==> s[i] == s[..|s| - 1][i];
      r
    else s
  }

  /** `s.trim()`: no trimmable character is left at either end. */
  function Trim(s: string): (r: string)
    ensures |r| <= |s|
    ensures r != [] ==> !IsTrimmable(r[0]) && !IsTrimmable(r[|r| - 1])
  {
    TrimEnd(TrimStart(s))
  }

  /** Where the trimmed result starts in `s`. */
  function TrimOffset(s: string): nat
  {
    |s| - |TrimStart(s)|
  }

  /** What trim cuts: the result is the slice of `s` starting at TrimOffset, and only
      trimmable characters lie before and after it. */
  lemma TrimIsSlice(s: string)
    ensures TrimOffset(s) + |Trim(s)| <= |s|
    ensures Trim(s) == s[TrimOffset(s)..TrimOffset(s) + |Trim(s)|]
    ensures TrimmableBetween(s, 0, TrimOffset(s))
    ensures TrimmableBetween(s, TrimOffset(s) + |Trim(s)|, |s|)
  {
    var t := TrimStart(s);
    var r := TrimEnd(t);
    var lo := |s| - |t|;
    assert Trim(s) == r && TrimOffset(s) == lo;
    assert r == s[lo..lo + |r|] by {
      assert t == s[lo..];
      assert r == t[..|r|];
    }
    forall i | lo + |r| <= i < |s|
      ensures IsTrimmable(s[i])
    {
      assert s[i] == t[i - lo];
    }
  }

  /** `!s.trim()` holds exactly when every character of `s` is whitespace or a line
      terminator (the empty string included). */
  lemma TrimEmptyIffAllTrimmable(s: string)
    ensures Trim(s) == [] <==> AllTrimmable(s)
  {
    var r := Trim(s);
    TrimIsSlice(s);
    var lo := TrimOffset(s);
    if r != [] {
      assert r[0] == s[lo];
    }
  }
}
