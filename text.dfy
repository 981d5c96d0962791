/** Python's `str.strip()` with no argument, applied to the text read from an entry field. */
module Text {

  /** The characters Python's `str.isspace` accepts, by code point. */
  predicate IsSpace(c: char)
  {
    var n := c as int;
    || 0x09 <= n <= 0x0D || 0x1C <= n <= 0x20 || n == 0x85 || n == 0xA0 || n == 0x1680
    || 0x2000 <= n <= 0x200A || n == 0x2028 || n == 0x2029 || n == 0x202F || n == 0x205F
    || n == 0x3000
  }

  /** `s[i..j]` is a slice of `s` with only whitespace before and after it. */
  predicate SpacedAround(s: string, i: int, j: int)
  {
    && 0 <= i <= j <= |s|
    && (forall k :: 0 <= k < i ==> IsSpace(s[k]))
    && (forall k :: j <= k < |s| ==> IsSpace(s[k]))
  }

  /** `s` without its leading whitespace. */
  function TrimStart(s: string): (r: string)
    ensures |r| <= |s| && r == s[|s| - |r|..]
    ensures forall k :: 0 <= k < |s| - |r| ==> IsSpace(s[k])
    ensures r == [] || !IsSpace(r[0])
  {
    if s != [] && IsSpace(s[0]) then TrimStart(s[1..]) else s
  }

  /** `s` without its trailing whitespace. */
  function TrimEnd(s: string): (r: string)
    ensures |r| <= |s| && r == s[..|r|]
    ensures forall k :: |r| <= k < |s| ==> IsSpace(s[k])
    ensures r == [] || !IsSpace(r[|r| - 1])
  {
    if s != [] && IsSpace(s[|s| - 1]) then TrimEnd(s[..|s| - 1]) else s
  }

  /** `s.strip()`: the part of `s` between its leading and its trailing whitespace. */
  function Strip(s: string): (r: string)
    ensures r == [] || (!IsSpace(r[0]) && !IsSpace(r[|r| - 1]))
    ensures r == [] <==> forall k :: 0 <= k < |s| ==> IsSpace(s[k])
    ensures exists i, j :: SpacedAround(s, i, j) && r == s[i..j]
  {
    TrimBoth(s);
    TrimSlice(s);
    TrimEnd(TrimStart(s))
  }

  /**
   * A prefix `u` of a suffix `t` of `s`, where `s` has only spaces before `t` and `t` only
   * spaces after `u`, is a slice of `s` with only spaces before and after it.
   */
  lemma SliceBetween(s: string, t: string, u: string)
    requires |t| <= |s| && t == s[|s| - |t|..]
    requires forall k :: 0 <= k < |s| - |t| ==> IsSpace(s[k])
    requires |u| <= |t| && u == t[..|u|]
    requires forall k :: |u| <= k < |t| ==> IsSpace(t[k])
    ensures exists i, j :: SpacedAround(s, i, j) && u == s[i..j]
  {
    var i, j := |s| - |t|, |s| - |t| + |u|;
    assert u == s[i..j];
    forall k | j <= k < |s|
      ensures IsSpace(s[k])
    {
      assert s[k] == t[k - i];
    }
  }

  /** Trimming both ends leaves a slice of `s` with only spaces before and after it. */
  lemma TrimSlice(s: string)
    ensures exists i, j :: SpacedAround(s, i, j) && TrimEnd(TrimStart(s)) == s[i..j]
  {
    SliceBetween(s, TrimStart(s), TrimEnd(TrimStart(s)));
  }

  lemma TrimBoth(s: string)
    ensures TrimEnd(TrimStart(s)) == [] <==> forall k :: 0 <= k < |s| ==> IsSpace(s[k])
  {
    var t := TrimStart(s);
    assert t != [] ==> t[0] == s[|s| - |t|];
    assert t != [] ==> IsSpace(t[0]) || TrimEnd(t) != [];
  }

  /** Stripping an already stripped text changes nothing. */
  lemma StripIdempotent(s: string)
    ensures Strip(Strip(s)) == Strip(s)
  {
    var r := Strip(s);
    assert TrimStart(r) == r;
    assert TrimEnd(r) == r;
  }
}
