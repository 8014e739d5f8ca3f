/** Python's text predicates and trimming on `str`, modelled on `seq<char>`. */
module Text {

  /** The characters Python's `str.isspace()` accepts, which is also the set
      `str.strip()` removes when called with no argument. */
  predicate IsWhitespace(c: char) {
    || ('\t' <= c <= '\r')
    || ('\U{1C}' <= c <= '\U{1F}')
    || c == ' '
    || c == '\U{85}'
    || c == '\U{A0}'
    || c == '\U{1680}'
    || ('\U{2000}' <= c <= '\U{200A}')
    || c == '\U{2028}'
    || c == '\U{2029}'
    || c == '\U{202F}'
    || c == '\U{205F}'
    || c == '\U{3000}'
  }

  predicate AllWhitespace(s: string) {
    forall k :: 0 <= k < |s| ==> IsWhitespace(s[k])
  }

  /** `s.lstrip()`: drops the longest all-whitespace prefix. */
  function TrimStart(s: string): string {
    if s != [] && IsWhitespace(s[0]) then TrimStart(s[1..]) else s
  }

  /** `s.rstrip()`: drops the longest all-whitespace suffix. */
  function TrimEnd(s: string): string {
    if s != [] && IsWhitespace(s[|s| - 1]) then TrimEnd(s[..|s| - 1]) else s
  }

  /** `s.strip()`. */
  function Strip(s: string): string {
    TrimEnd(TrimStart(s))
  }

  /** `lstrip` keeps a suffix, removes only whitespace, and stops at the first
      non-whitespace character. */
  lemma {:induction false} TrimStartSpec(s: string)
    ensures |TrimStart(s)| <= |s| && TrimStart(s) == s[|s| - |TrimStart(s)|..]
    ensures AllWhitespace(s[..|s| - |TrimStart(s)|])
    ensures TrimStart(s) == [] || !IsWhitespace(TrimStart(s)[0])
  {
    if s != [] && IsWhitespace(s[0]) {
      TrimStartSpec(s[1..]);
      var r := TrimStart(s[1..]);
      assert s[..|s| - |r|] == [s[0]] + s[1..][..|s| - 1 - |r|];
    }
  }

  /** `rstrip` keeps a prefix, removes only whitespace, and stops at the last
      non-whitespace character. */
  lemma {:induction false} TrimEndSpec(s: string)
    ensures |TrimEnd(s)| <= |s| && TrimEnd(s) == s[..|TrimEnd(s)|]
    ensures AllWhitespace(s[|TrimEnd(s)|..])
    ensures TrimEnd(s) == [] || !IsWhitespace(TrimEnd(s)[|TrimEnd(s)| - 1])
  {
    if s != [] && IsWhitespace(s[|s| - 1]) {
      TrimEndSpec(s[..|s| - 1]);
      var r := TrimEnd(s[..|s| - 1]);
      assert s[|r|..] == s[..|s| - 1][|r|..] + [s[|s| - 1]];
    }
  }

  /** The result of `strip` is no longer than its argument and neither begins
      nor ends with whitespace. */
  lemma StripEnds(s: string)
    ensures |Strip(s)| <= |s|
    ensures Strip(s) == [] || (!IsWhitespace(Strip(s)[0]) && !IsWhitespace(Strip(s)[|Strip(s)| - 1]))
  {
    TrimStartSpec(s);
    TrimEndSpec(TrimStart(s));
  }

  /** A string that neither begins nor ends with whitespace is its own strip. */
  lemma StripKeeps(s: string)
    requires s == [] || (!IsWhitespace(s[0]) && !IsWhitespace(s[|s| - 1]))
    ensures Strip(s) == s
  {
  }

  /** A leading whitespace character is removed by `strip`. */
  lemma StripDropsLeading(c: char, s: string)
    requires IsWhitespace(c)
    ensures Strip([c] + s) == Strip(s)
  {
    assert ([c] + s)[1..] == s;
  }

  /** `r` is `s[i..j]`, everything outside `i..j` is whitespace, and `r` neither
      begins nor ends with whitespace. */
  ghost predicate StrippedAt(r: string, s: string, i: int, j: int) {
    && 0 <= i <= j <= |s|
    && r == s[i..j]
    && AllWhitespace(s[..i])
    && AllWhitespace(s[j..])
    && (r == [] || (!IsWhitespace(r[0]) && !IsWhitespace(r[|r| - 1])))
  }

  /** Reference definition of stripping: a maximal whitespace prefix and a
      maximal whitespace suffix are removed. */
  ghost predicate IsStripOf(r: string, s: string) {
    exists i, j :: StrippedAt(r, s, i, j)
  }

  lemma StripIsStripped(s: string)
    ensures StrippedAt(Strip(s), s, |s| - |TrimStart(s)|, |s| - |TrimStart(s)| + |Strip(s)|)
  {
    TrimStartSpec(s);
    TrimEndSpec(TrimStart(s));
    StripEnds(s);
    var t := TrimStart(s);
    var i := |s| - |t|;
    var r := Strip(s);
    assert t == s[i..];
    assert r == s[i..i + |r|];
    assert s[i + |r|..] == t[|r|..];
  }

  /** Everything before `i` and from `j` on is whitespace; a non-empty `r`
      starts at `s[i]` and ends at `s[j - 1]`. */
  lemma StrippedAtBounds(r: string, s: string, i: int, j: int)
    requires StrippedAt(r, s, i, j)
    ensures forall k :: 0 <= k < i ==> IsWhitespace(s[k])
    ensures forall k :: j <= k < |s| ==> IsWhitespace(s[k])
    ensures r != [] ==> !IsWhitespace(s[i]) && !IsWhitespace(s[j - 1])
  {
    forall k | 0 <= k < i ensures IsWhitespace(s[k]) { assert s[..i][k] == s[k]; }
    forall k | j <= k < |s| ensures IsWhitespace(s[k]) { assert s[j..][k - j] == s[k]; }
  }

  lemma StrippedAtUnique(r: string, s: string, i: int, j: int, r': string, i': int, j': int)
    requires StrippedAt(r, s, i, j) && StrippedAt(r', s, i', j')
    ensures r == r'
  {
    StrippedAtBounds(r, s, i, j);
    StrippedAtBounds(r', s, i', j');
  }

  /** `Strip` agrees with the reference definition, in both directions. */
  lemma StripCharacterised(r: string, s: string)
    ensures IsStripOf(r, s) <==> r == Strip(s)
  {
    var i := |s| - |TrimStart(s)|;
    StripIsStripped(s);
    if IsStripOf(r, s) {
      var i', j' :| StrippedAt(r, s, i', j');
      StrippedAtUnique(r, s, i', j', Strip(s), i, i + |Strip(s)|);
    }
    if r == Strip(s) {
      assert StrippedAt(r, s, i, i + |r|);
    }
  }

  /** Stripping twice is the same as stripping once. */
  lemma StripIdempotent(s: string)
    ensures Strip(Strip(s)) == Strip(s)
  {
    var r := Strip(s);
    StripEnds(s);
    assert StrippedAt(r, r, 0, |r|);
    StripCharacterised(r, r);
  }

  /** `s.startswith(prefix)`. */
  predicate StartsWith(s: string, prefix: string) {
    |prefix| <= |s| && s[..|prefix|] == prefix
  }

  /** `s.endswith(suffix)`. */
  predicate EndsWith(s: string, suffix: string) {
    |suffix| <= |s| && s[|s| - |suffix|..] == suffix
  }

  predicate OccursAt(t: string, s: string, i: int) {
    0 <= i && i + |t| <= |s| && s[i..i + |t|] == t
  }

  /** `t in s` for two Python strings. */
  predicate IsSubstring(t: string, s: string) {
    exists i | 0 <= i <= |s| - |t| :: OccursAt(t, s, i)
  }
}
