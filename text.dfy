/**
 * The whitespace handling the ledger relies on: Python's `str.strip()`, which the
 * deduction view applies to every posted field and Django's CharField applies to
 * every form field before the "required" and "max_length" checks.
 */
module Text {

  /** Python's `str.isspace()` for one character (the characters with Unicode
      bidirectional class WS, B or S, or category Zs). */
  predicate IsSpace(c: char) {
    var n := c as int;
    (0x09 <= n <= 0x0D) || (0x1C <= n <= 0x20) || n == 0x85 || n == 0xA0 || n == 0x1680
    || (0x2000 <= n <= 0x200A) || n == 0x2028 || n == 0x2029 || n == 0x202F || n == 0x205F
    || n == 0x3000
  }

  /** True when every character of `s` is whitespace (the empty string included). */
  predicate IsBlank(s: string) {
    forall k :: 0 <= k < |s| ==> IsSpace(s[k])
  }

  /** `s` without its leading whitespace. */
  function TrimStart(s: string): (r: string)
    ensures |r| <= |s| && r == s[|s| - |r|..]
    ensures IsBlank(s[..|s| - |r|])
    ensures r != [] ==> !IsSpace(r[0])
  {
    if s == [] || !IsSpace(s[0]) then s
    else
      var r := TrimStart(s[1..]);
      assert s[1..][..|s| - 1 - |r|] == s[1..|s| - |r|];
      r
  }

  /** `s` without its trailing whitespace. */
  function TrimEnd(s: string): (r: string)
    ensures |r| <= |s| && r == s[..|r|]
    ensures IsBlank(s[|r|..])
    ensures r != [] ==> !IsSpace(r[|r| - 1])
  {
    if s == [] || !IsSpace(s[|s| - 1]) then s
    else
      var r := TrimEnd(s[..|s| - 1]);
      assert s[..|s| - 1][|r|..] == s[|r|..|s| - 1];
      r
  }

  /** Python's `s.strip()`. */
  function Strip(s: string): (r: string)
    ensures |r| <= |s|
  {
    TrimEnd(TrimStart(s))
  }

  /** The stripped string is the slice of `s` left after removing whitespace at both ends. */
  lemma StripSlice(s: string)
    ensures exists i, j :: 0 <= i <= j <= |s| && Strip(s) == s[i..j] && IsBlank(s[..i]) && IsBlank(s[j..])
  {
    var a := TrimStart(s);
    var r := TrimEnd(a);
    var i, j := |s| - |a|, |s| - |a| + |r|;
    assert r == s[i..j] by { assert a == s[i..]; }
    assert IsBlank(s[j..]) by { assert s[j..] == a[|r|..]; }
  }

  /** The stripped string neither starts nor ends with whitespace. */
  lemma StripEnds(s: string)
    ensures var r := Strip(s);
      r != [] ==> !IsSpace(r[0]) && !IsSpace(r[|r| - 1])
  {
    var a := TrimStart(s);
    var r := TrimEnd(a);
    assert r != [] ==> r[0] == a[0];
  }

  /** A stripped string is empty exactly when the original is blank: the check behind
      "a blank or whitespace-only reason is refused". */
  lemma StripEmptyIffBlank(s: string)
    ensures Strip(s) == [] <==> IsBlank(s)
  {
    var a := TrimStart(s);
    assert s[..|s|] == s;
    if a != [] {
      assert s[|s| - |a|] == a[0];
      assert a[0..] == a;
    }
  }

  /** Stripping twice is stripping once. */
  lemma StripIdempotent(s: string)
    ensures Strip(Strip(s)) == Strip(s)
  {
    var r := TrimEnd(TrimStart(s));
    if r != [] {
      assert r[0] == TrimStart(s)[0];
      assert TrimStart(r) == r;
      assert TrimEnd(r) == r;
    }
  }
}
