/**
 * Splitting a string at one separator character and joining the pieces back:
 * String.Split(c), String.Split(c, StringSplitOptions.RemoveEmptyEntries),
 * String.Join, Array.IndexOf over the pieces and String.LastIndexOf(c).
 */
module Segments {

  /**
   * String.Split(c): the pieces between the occurrences of c, empty ones
   * included, so there is always one piece more than there are separators.
   */
  function Split(s: string, c: char): (r: seq<string>)
    ensures |r| >= 1
    ensures forall i | 0 <= i < |r| :: c !in r[i]
    decreases |s|
  {
    if |s| == 0 then
      [[]]
    else
      var rest := Split(s[1..], c);
      if s[0] == c then [[]] + rest else [[s[0]] + rest[0]] + rest[1..]
  }

  /**
   * String.Join with a one-character separator: the pieces with exactly one
   * separator between each two (SplitJoin and JoinSplit below relate it to Split).
   */
  function Join(parts: seq<string>, sep: char): string
    decreases |parts|
  {
    if |parts| == 0 then []
    else if |parts| == 1 then parts[0]
    else parts[0] + [sep] + Join(parts[1..], sep)
  }

  predicate NoneContains(parts: seq<string>, c: char) {
    forall i | 0 <= i < |parts| :: c !in parts[i]
  }

  /** A string without the separator is one piece. */
  lemma {:induction false} SplitWithoutSeparator(s: string, c: char)
    requires c !in s
    ensures Split(s, c) == [s]
    decreases |s|
  {
    if |s| > 0 {
      assert s[1..] == s[|s| - (|s| - 1)..];
      SplitWithoutSeparator(s[1..], c);
      assert [s[0]] + s[1..] == s;
    }
  }

  /** Splitting at one separator splits the two sides independently. */
  lemma {:induction false} SplitAtSeparator(x: string, y: string, c: char)
    ensures Split(x + [c] + y, c) == Split(x, c) + Split(y, c)
    decreases |x|
  {
    var s := x + [c] + y;
    if |x| == 0 {
      assert s[1..] == y;
    } else {
      assert s[1..] == x[1..] + [c] + y;
      SplitAtSeparator(x[1..], y, c);
    }
  }

  /** Joining the pieces of a split gives back the string. */
  lemma {:induction false} JoinSplit(s: string, c: char)
    ensures Join(Split(s, c), c) == s
    decreases |s|
  {
    if |s| > 0 {
      var rest := Split(s[1..], c);
      JoinSplit(s[1..], c);
      if s[0] == c {
        assert Join([[]] + rest, c) == [] + [c] + Join(rest, c);
      } else if |rest| == 1 {
        assert [s[0]] + rest[0] == s;
      } else {
        var parts := [[s[0]] + rest[0]] + rest[1..];
        assert parts[1..] == rest[1..];
        assert Join(parts, c) == [s[0]] + rest[0] + [c] + Join(rest[1..], c);
        assert Join(rest, c) == rest[0] + [c] + Join(rest[1..], c);
      }
    }
  }

  /** Splitting a join of separator-free pieces gives back the pieces. */
  lemma {:induction false} SplitJoin(parts: seq<string>, c: char)
    requires |parts| >= 1 && NoneContains(parts, c)
    ensures Split(Join(parts, c), c) == parts
    decreases |parts|
  {
    if |parts| == 1 {
      SplitWithoutSeparator(parts[0], c);
    } else {
      SplitJoin(parts[1..], c);
      SplitAtSeparator(parts[0], Join(parts[1..], c), c);
      SplitWithoutSeparator(parts[0], c);
      assert [parts[0]] + parts[1..] == parts;
    }
  }

  /** Joining two non-empty lists of pieces puts one separator between the two joins. */
  lemma {:induction false} JoinAppend(a: seq<string>, b: seq<string>, c: char)
    requires |a| >= 1 && |b| >= 1
    ensures Join(a + b, c) == Join(a, c) + [c] + Join(b, c)
    decreases |a|
  {
    if |a| == 1 {
      assert (a + b)[1..] == b;
    } else {
      assert (a + b)[1..] == a[1..] + b;
      JoinAppend(a[1..], b, c);
    }
  }

  /** Four pieces are joined with a separator between each two. */
  lemma JoinOfFour(a: string, b: string, x: string, d: string, c: char)
    ensures Join([a, b, x, d], c) == a + [c] + b + [c] + x + [c] + d
  {
    var parts := [a, b, x, d];
    assert parts[1..] == [b, x, d];
    assert parts[1..][1..] == [x, d];
    assert parts[1..][1..][1..] == [d];
    assert Join([x, d], c) == x + [c] + d;
    assert Join([b, x, d], c) == b + [c] + (x + [c] + d);
  }

  /** A string made of two separator-free pieces splits into exactly those pieces. */
  lemma SplitOfTwo(a: string, b: string, c: char)
    requires c !in a && c !in b
    ensures Split(a + [c] + b, c) == [a, b]
  {
    SplitAtSeparator(a, b, c);
    SplitWithoutSeparator(a, c);
    SplitWithoutSeparator(b, c);
  }

  /** A string made of three separator-free pieces splits into exactly those pieces. */
  lemma SplitOfThree(a: string, b: string, x: string, c: char)
    requires c !in a && c !in b && c !in x
    ensures Split(a + [c] + b + [c] + x, c) == [a, b, x]
  {
    var u := b + [c] + x;
    SplitOfTwo(b, x, c);
    SplitAtSeparator(a, u, c);
    SplitWithoutSeparator(a, c);
    assert Split(a + [c] + u, c) == [a, b, x];
    Regroup(a, b, x, c);
  }

  /** Regrouping a concatenation around a separator. */
  lemma Regroup(a: string, b: string, x: string, c: char)
    ensures a + [c] + b + [c] + x == a + [c] + (b + [c] + x)
  {
  }

  /** A string made of four separator-free pieces splits into exactly those pieces. */
  lemma SplitOfFour(a: string, b: string, x: string, d: string, c: char)
    requires c !in a && c !in b && c !in x && c !in d
    ensures Split(a + [c] + b + [c] + x + [c] + d, c) == [a, b, x, d]
  {
    var u := b + [c] + x + [c] + d;
    SplitOfThree(b, x, d, c);
    SplitAtSeparator(a, u, c);
    SplitWithoutSeparator(a, c);
    assert Split(a + [c] + u, c) == [a, b, x, d];
    Regroup4(a, b, x, d, c);
  }

  /** Regrouping a concatenation of four pieces around its first separator. */
  lemma Regroup4(a: string, b: string, x: string, d: string, c: char)
    ensures a + [c] + b + [c] + x + [c] + d == a + [c] + (b + [c] + x + [c] + d)
  {
  }

  /** The pieces of a split, less the empty ones: String.Split(..., RemoveEmptyEntries). */
  function RemoveEmpty(parts: seq<string>): (r: seq<string>)
    ensures forall i | 0 <= i < |r| :: r[i] != []
    ensures forall i | 0 <= i < |r| :: r[i] in parts
    decreases |parts|
  {
    if |parts| == 0 then []
    else if parts[0] == [] then RemoveEmpty(parts[1..])
    else [parts[0]] + RemoveEmpty(parts[1..])
  }

  /** RemoveEmpty keeps every non-empty piece, and keeps all of them when none is empty. */
  lemma {:induction false} RemoveEmptyKeepsNonEmpty(parts: seq<string>)
    ensures forall x :: x in RemoveEmpty(parts) <==> x in parts && x != []
    ensures (forall i | 0 <= i < |parts| :: parts[i] != []) ==> RemoveEmpty(parts) == parts
    decreases |parts|
  {
    if |parts| > 0 {
      RemoveEmptyKeepsNonEmpty(parts[1..]);
      assert parts == [parts[0]] + parts[1..];
      assert forall x :: x in parts <==> x == parts[0] || x in parts[1..];
    }
  }

  lemma {:induction false} RemoveEmptyAppend(a: seq<string>, b: seq<string>)
    ensures RemoveEmpty(a + b) == RemoveEmpty(a) + RemoveEmpty(b)
    decreases |a|
  {
    if |a| > 0 {
      assert (a + b)[1..] == a[1..] + b;
      RemoveEmptyAppend(a[1..], b);
    } else {
      assert a + b == b;
    }
  }

  function SplitRemoveEmpty(s: string, c: char): (r: seq<string>)
    ensures forall i | 0 <= i < |r| :: r[i] != [] && c !in r[i]
  {
    RemoveEmpty(Split(s, c))
  }

  /** Two separators in a row give the same non-empty pieces as one. */
  lemma DoubledSeparatorDropped(x: string, y: string, c: char)
    ensures SplitRemoveEmpty(x + [c] + ([c] + y), c) == SplitRemoveEmpty(x + [c] + y, c)
  {
    var sx, sy := Split(x, c), Split(y, c);
    assert Split([c] + y, c) == [[]] + sy by {
      assert [c] + y == [] + [c] + y;
      SplitAtSeparator([], y, c);
    }
    SplitAtSeparator(x, [c] + y, c);
    SplitAtSeparator(x, y, c);
    RemoveEmptyDropsEmpty(sx, sy);
  }

  /** An empty piece in the middle is dropped like any other. */
  lemma {:induction false} RemoveEmptyDropsEmpty(a: seq<string>, b: seq<string>)
    ensures RemoveEmpty(a + ([[]] + b)) == RemoveEmpty(a + b)
    decreases |a|
  {
    if |a| == 0 {
      assert a + ([[]] + b) == [[]] + b && a + b == b;
      assert ([[]] + b)[1..] == b;
    } else {
      assert (a + ([[]] + b))[1..] == a[1..] + ([[]] + b);
      assert (a + b)[1..] == a[1..] + b;
      RemoveEmptyDropsEmpty(a[1..], b);
    }
  }

  /** Array.IndexOf: the first position of x among the pieces, or -1. */
  function IndexOf(parts: seq<string>, x: string): (r: int)
    ensures -1 <= r < |parts|
    ensures r >= 0 ==> parts[r] == x
    ensures forall j | 0 <= j < |parts| && (r < 0 || j < r) :: parts[j] != x
    decreases |parts|
  {
    if |parts| == 0 then -1
    else if parts[0] == x then 0
    else
      var k := IndexOf(parts[1..], x);
      if k < 0 then -1 else k + 1
  }

  /** String.LastIndexOf(c): the last position of c in s, or -1. */
  function LastIndexOf(s: string, c: char): (r: int)
    ensures -1 <= r < |s|
    ensures r >= 0 ==> s[r] == c
    ensures c !in s[r + 1..]
    decreases |s|
  {
    if |s| == 0 then -1
    else if s[|s| - 1] == c then |s| - 1
    else LastIndexOf(s[..|s| - 1], c)
  }

  /** Pieces that do not equal x shift the first position of x by their number. */
  lemma {:induction false} IndexOfAppend(a: seq<string>, b: seq<string>, x: string)
    requires forall j | 0 <= j < |a| :: a[j] != x
    requires |b| >= 1 && b[0] == x
    ensures IndexOf(a + b, x) == |a|
    decreases |a|
  {
    if |a| > 0 {
      assert (a + b)[1..] == a[1..] + b;
      IndexOfAppend(a[1..], b, x);
    }
  }

  /** The last c in s + [c] + t, where t has no c, is the one between them. */
  lemma {:induction false} LastIndexOfAppend(s: string, t: string, c: char)
    requires c !in t
    ensures LastIndexOf(s + [c] + t, c) == |s|
    decreases |t|
  {
    var u := s + [c] + t;
    if |t| > 0 {
      assert u[..|u| - 1] == s + [c] + t[..|t| - 1];
      assert u[|u| - 1] == t[|t| - 1];
      LastIndexOfAppend(s, t[..|t| - 1], c);
    }
  }
}
