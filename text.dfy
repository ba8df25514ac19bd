/** The pieces of Go's `strings` package that the routing core relies on,
    each with an independent characterisation proved against it. Strings are
    sequences of Unicode code points; for valid UTF-8 text the byte-level
    operations of the source give the same answers. */
module Text {

  // ---------------------------------------------------------------------------
  // strings.Contains

  predicate HasPrefix(s: string, prefix: string)
  {
    |prefix| <= |s| && s[..|prefix|] == prefix
  }

  /** `strings.Contains(s, substr)`: scan the start positions left to right.
      The empty pattern is found everywhere, and no pattern longer than `s`. */
  predicate Contains(s: string, substr: string)
    ensures substr == [] ==> Contains(s, substr)
    ensures Contains(s, substr) ==> |substr| <= |s|
    decreases |s|
  {
    HasPrefix(s, substr) || (s != [] && Contains(s[1..], substr))
  }

  /** `pattern` occurs in `s` as a contiguous block starting at index `i`. */
  predicate OccursAt(s: string, pattern: string, i: int)
  {
    0 <= i && i + |pattern| <= |s| && s[i..i + |pattern|] == pattern
  }

  /** The scan agrees with the textbook definition of a substring. */
  lemma {:induction false} ContainsIffOccurs(s: string, substr: string)
    ensures Contains(s, substr) <==> exists i :: OccursAt(s, substr, i)
  {
    if HasPrefix(s, substr) {
      assert OccursAt(s, substr, 0);
    } else if s == [] {
      assert |substr| > 0;
    } else {
      ContainsIffOccurs(s[1..], substr);
      if exists i :: OccursAt(s[1..], substr, i) {
        var i :| OccursAt(s[1..], substr, i);
        assert s[1..][i..i + |substr|] == s[i + 1..i + 1 + |substr|];
        assert OccursAt(s, substr, i + 1);
      }
      if exists i :: OccursAt(s, substr, i) {
        var i :| OccursAt(s, substr, i);
        assert i != 0;
        assert s[1..][i - 1..i - 1 + |substr|] == s[i..i + |substr|];
        assert OccursAt(s[1..], substr, i - 1);
      }
    }
  }

  // ---------------------------------------------------------------------------
  // strings.TrimSpace

  /** `unicode.IsSpace`: the Latin-1 spaces plus the other code points with the
      Unicode White_Space property. */
  predicate IsSpace(c: char)
  {
    || c == '\t' || c == '\n' || c == '\U{000B}' || c == '\U{000C}' || c == '\r'
    || c == ' ' || c == '\U{0085}' || c == '\U{00A0}'
    || c == '\U{1680}' || ('\U{2000}' <= c <= '\U{200A}')
    || c == '\U{2028}' || c == '\U{2029}' || c == '\U{202F}'
    || c == '\U{205F}' || c == '\U{3000}'
  }

  predicate AllSpace(s: string)
  {
    forall i :: 0 <= i < |s| ==> IsSpace(s[i])
  }

  /** Neither end of `s` is a space. */
  predicate IsTrimmed(s: string)
  {
    s == [] || (!IsSpace(s[0]) && !IsSpace(s[|s| - 1]))
  }

  /** Drops the leading spaces: what is dropped is all space and what is kept
      is a suffix of `s` that does not start with one. */
  function TrimLeft(s: string): (r: string)
    ensures |r| <= |s| && r == s[|s| - |r|..]
    ensures AllSpace(s[..|s| - |r|])
    ensures r == [] || !IsSpace(r[0])
  {
    if s != [] && IsSpace(s[0]) then TrimLeft(s[1..]) else s
  }

  /** Drops the trailing spaces: what is dropped is all space and what is kept
      is a prefix of `s` that does not end with one. */
  function TrimRight(s: string): (r: string)
    ensures |r| <= |s| && r == s[..|r|]
    ensures AllSpace(s[|r|..])
    ensures r == [] || !IsSpace(r[|r| - 1])
  {
    if s != [] && IsSpace(s[|s| - 1]) then TrimRight(s[..|s| - 1]) else s
  }

  /** `strings.TrimSpace`: `s` is the result wrapped in two runs of spaces, and
      the result is trimmed at both ends. */
  function TrimSpace(s: string): (r: string)
    ensures IsTrimmed(r)
    ensures exists i, j :: 0 <= i <= j <= |s| && r == s[i..j] && AllSpace(s[..i]) && AllSpace(s[j..])
  {
    var left := TrimLeft(s);
    var r := TrimRight(left);
    assert r != [] ==> r[0] == left[0];
    var i, j := |s| - |left|, |s| - |left| + |r|;
    assert r == s[i..j];
    assert s[j..] == left[|r|..];
    r
  }

  /** Trimming twice is trimming once. */
  lemma TrimSpaceIdempotent(s: string)
    ensures TrimSpace(TrimSpace(s)) == TrimSpace(s)
  {
  }

  // ---------------------------------------------------------------------------
  // Searching for a character or a block

  /** Index of the last occurrence of `c` in `s`, or -1. */
  function LastIndexOf(s: string, c: char): (k: int)
    ensures -1 <= k < |s|
    ensures k >= 0 ==> s[k] == c
    ensures forall i :: k < i < |s| ==> s[i] != c
  {
    if s == [] then -1
    else if s[|s| - 1] == c then |s| - 1
    else LastIndexOf(s[..|s| - 1], c)
  }

  /** `strings.Index(s[from..], pattern) + from` for a search starting at `from`:
      the first start position at or after `from`, or -1. */
  function IndexFrom(s: string, pattern: string, from: nat): (k: int)
    requires from <= |s|
    ensures k == -1 || (from <= k && OccursAt(s, pattern, k))
    ensures forall j :: from <= j && (k == -1 || j < k) ==> !OccursAt(s, pattern, j)
    decreases |s| - from
  {
    if OccursAt(s, pattern, from) then from
    else if from == |s| then -1
    else IndexFrom(s, pattern, from + 1)
  }
}
