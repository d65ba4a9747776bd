/**
 * The .NET string operations the parsers are built from, over `seq<char>`:
 * Char.IsWhiteSpace, String.IsNullOrWhiteSpace, ordinal case-insensitive
 * comparison, EndsWith and Trim/TrimStart/TrimEnd with one character.
 */
module Text {

  /** Char.IsWhiteSpace: the Unicode space separators, line and paragraph separators and the spacing controls. */
  predicate IsWhiteSpace(c: char) {
    || ('\t' <= c <= '\r')
    || c == ' '
    || c == '\U{0085}'
    || c == '\U{00A0}'
    || c == '\U{1680}'
    || ('\U{2000}' <= c <= '\U{200A}')
    || c == '\U{2028}'
    || c == '\U{2029}'
    || c == '\U{202F}'
    || c == '\U{205F}'
    || c == '\U{3000}'
  }

  /** String.IsNullOrWhiteSpace (a null string is modelled by the empty one, which it behaves like). */
  function IsNullOrWhiteSpace(s: string): (r: bool)
    ensures |s| == 0 ==> r
    ensures r ==> '/' !in s
  {
    forall i | 0 <= i < |s| :: IsWhiteSpace(s[i])
  }

  /** The ordinal case mapping, restricted to ASCII letters. */
  function ToLowerAscii(c: char): (r: char)
    ensures IsWhiteSpace(r) <==> IsWhiteSpace(c)
    ensures r == c <==> !('A' <= c <= 'Z')
  {
    if 'A' <= c <= 'Z' then (c as int + 32) as char else c
  }

  /** The key both OrdinalIgnoreCase comparison and ToLower work on. */
  function FoldCase(s: string): (r: string)
    ensures |r| == |s|
    ensures forall i | 0 <= i < |s| :: r[i] == ToLowerAscii(s[i])
  {
    seq(|s|, i requires 0 <= i < |s| => ToLowerAscii(s[i]))
  }

  /** StringComparer.OrdinalIgnoreCase.Equals. */
  function EqualsIgnoreCase(a: string, b: string): (r: bool)
    ensures a == b ==> r
    ensures r ==> |a| == |b|
  {
    FoldCase(a) == FoldCase(b)
  }

  predicate HasNoUpperCase(s: string) {
    forall i | 0 <= i < |s| :: !('A' <= s[i] <= 'Z')
  }

  lemma FoldCaseOfLowerCase(s: string)
    requires HasNoUpperCase(s)
    ensures FoldCase(s) == s
  {
  }

  lemma FoldCaseAppend(a: string, b: string)
    ensures FoldCase(a + b) == FoldCase(a) + FoldCase(b)
  {
  }

  lemma FoldCaseIdempotent(s: string)
    ensures FoldCase(FoldCase(s)) == FoldCase(s)
  {
  }

  /** Folding the case of a string never changes whether it is blank. */
  lemma FoldCasePreservesBlank(s: string)
    ensures IsNullOrWhiteSpace(FoldCase(s)) <==> IsNullOrWhiteSpace(s)
  {
  }

  /** String.EndsWith with ordinal comparison. */
  predicate EndsWith(s: string, suffix: string) {
    |suffix| <= |s| && s[|s| - |suffix|..] == suffix
  }

  /** String.EndsWith(suffix, StringComparison.OrdinalIgnoreCase). */
  function EndsWithIgnoreCase(s: string, suffix: string): (r: bool)
    ensures EndsWith(s, suffix) ==> r
    ensures r ==> |suffix| <= |s|
  {
    |suffix| <= |s| && EqualsIgnoreCase(s[|s| - |suffix|..], suffix)
  }

  predicate AllAre(s: string, c: char) {
    forall i | 0 <= i < |s| :: s[i] == c
  }

  /** String.TrimStart(c): drops every leading c. */
  function TrimStart(s: string, c: char): (r: string)
    ensures |r| <= |s| && r == s[|s| - |r|..]
    ensures AllAre(s[..|s| - |r|], c)
    ensures r == [] || r[0] != c
    decreases |s|
  {
    if |s| > 0 && s[0] == c then
      var r := TrimStart(s[1..], c);
      assert s[1..][..|s| - 1 - |r|] == s[1..|s| - |r|];
      r
    else
      s
  }

  /** String.TrimEnd(c): drops every trailing c. */
  function TrimEnd(s: string, c: char): (r: string)
    ensures |r| <= |s| && r == s[..|r|]
    ensures AllAre(s[|r|..], c)
    ensures r == [] || r[|r| - 1] != c
    decreases |s|
  {
    if |s| > 0 && s[|s| - 1] == c then
      var r := TrimEnd(s[..|s| - 1], c);
      assert s[..|s| - 1][|r|..] == s[|r|..|s| - 1];
      r
    else
      s
  }

  /** r is s with only copies of c removed from its two ends, starting at index k of s. */
  predicate PaddedBy(s: string, r: string, c: char, k: int) {
    && 0 <= k <= |s| - |r|
    && r == s[k..k + |r|]
    && AllAre(s[..k], c)
    && AllAre(s[k + |r|..], c)
  }

  predicate HasNoEdge(s: string, c: char) {
    s == [] || (s[0] != c && s[|s| - 1] != c)
  }

  /** String.Trim(c): drops every leading and every trailing c, and nothing else. */
  function Trim(s: string, c: char): (r: string)
    ensures HasNoEdge(r, c)
    ensures exists k :: PaddedBy(s, r, c, k)
  {
    var t := TrimStart(s, c);
    var r := TrimEnd(t, c);
    PaddedByBothEnds(s, t, r, c);
    r
  }

  /** Dropping copies of c from the front of s and then from the back of what is left pads the rest inside s. */
  lemma PaddedByBothEnds(s: string, t: string, r: string, c: char)
    requires |t| <= |s| && t == s[|s| - |t|..] && AllAre(s[..|s| - |t|], c)
    requires |r| <= |t| && r == t[..|r|] && AllAre(t[|r|..], c)
    ensures PaddedBy(s, r, c, |s| - |t|)
  {
    assert s[|s| - |t|..][..|r|] == s[|s| - |t|..|s| - |t| + |r|];
    assert s[|s| - |t| + |r|..] == t[|r|..];
  }

  /** One more c at the end keeps r padded inside s. */
  lemma PaddedByAppend(s: string, r: string, c: char, k: int)
    requires PaddedBy(s, r, c, k)
    ensures PaddedBy(s + [c], r, c, k)
  {
    var t := s + [c];
    assert t[..k] == s[..k];
    assert t[k..k + |r|] == s[k..k + |r|];
    assert t[k + |r|..] == s[k + |r|..] + [c];
  }

  /** Trimming a string that has no c at either end leaves it unchanged. */
  lemma TrimOfUntrimmed(s: string, c: char)
    requires HasNoEdge(s, c)
    ensures Trim(s, c) == s
  {
  }

  /** A trimmed string, padded with copies of c, trims back to itself. */
  lemma {:induction false} TrimOfPadded(s: string, r: string, c: char, k: int)
    requires PaddedBy(s, r, c, k) && HasNoEdge(r, c)
    ensures Trim(s, c) == r
  {
    if r == [] {
      TrimStartOfPaddedEmpty(s, c, k);
    } else {
      TrimStartOfPadded(s, s[k..], c, k);
      TrimEndOfPaddedTail(s, r, c, k);
    }
  }

  lemma {:induction false} TrimStartOfPaddedEmpty(s: string, c: char, k: int)
    requires PaddedBy(s, [], c, k)
    ensures TrimStart(s, c) == []
  {
    AllAreAppend(s[..k], s[k..], c);
    assert s[..k] + s[k..] == s;
    TrimStartOfAll(s, c);
  }

  lemma {:induction false} TrimEndOfPaddedTail(s: string, r: string, c: char, k: int)
    requires PaddedBy(s, r, c, k) && r != [] && r[|r| - 1] != c
    ensures TrimEnd(s[k..], c) == r
  {
    var t := s[k..];
    assert t[..|r|] == r;
    assert t[|r|..] == s[k + |r|..];
    TrimEndOfPadded(t, r, c);
  }

  lemma AllAreAppend(a: string, b: string, c: char)
    requires AllAre(a, c) && AllAre(b, c)
    ensures AllAre(a + b, c)
  {
  }

  lemma {:induction false} TrimStartOfAll(s: string, c: char)
    requires AllAre(s, c)
    ensures TrimStart(s, c) == []
    decreases |s|
  {
    if |s| > 0 {
      TrimStartOfAll(s[1..], c);
    }
  }

  lemma {:induction false} TrimStartOfPadded(s: string, t: string, c: char, k: int)
    requires 0 <= k <= |s| && t == s[k..] && AllAre(s[..k], c) && t != [] && t[0] != c
    ensures TrimStart(s, c) == t
    decreases k
  {
    if k > 0 {
      assert s[0] == s[..k][0];
      assert s[1..][k - 1..] == t;
      assert s[1..][..k - 1] == s[1..k];
      TrimStartOfPadded(s[1..], t, c, k - 1);
    }
  }

  lemma {:induction false} TrimEndOfPadded(t: string, r: string, c: char)
    requires |r| <= |t| && r == t[..|r|] && AllAre(t[|r|..], c) && r != [] && r[|r| - 1] != c
    ensures TrimEnd(t, c) == r
    decreases |t|
  {
    if |t| > |r| {
      assert t[|t| - 1] == t[|r|..][|t| - 1 - |r|];
      assert t[..|t| - 1][|r|..] == t[|r|..|t| - 1];
      TrimEndOfPadded(t[..|t| - 1], r, c);
    }
  }
}
