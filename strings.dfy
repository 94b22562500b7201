/**
 * Python's `str.split(sep)` and `needle in s` for the one-character separators the
 * handlers use, with the facts about them that the handlers' contracts rest on.
 */
module Strings {

  /** The index of the first occurrence of `c` in `s`. */
  function IndexOf(s: string, c: char): (k: nat)
    requires c in s
    ensures k < |s| && s[k] == c && c !in s[..k]
  {
    if s[0] == c then 0
    else
      var k := IndexOf(s[1..], c);
      assert s[..k + 1] == [s[0]] + s[1..][..k];
      1 + k
  }

  /**
   * `s.split(sep)`: the maximal runs of `s` between occurrences of `sep`, in order.
   * There is always at least one piece and no piece contains the separator.
   */
  function Split(s: string, sep: char): (pieces: seq<string>)
    ensures |pieces| >= 1
    ensures forall i :: 0 <= i < |pieces| ==> sep !in pieces[i]
    ensures |pieces| >= 2 <==> sep in s
    decreases |s|
  {
    if sep !in s then [s]
    else
      var k := IndexOf(s, sep);
      [s[..k]] + Split(s[k + 1..], sep)
  }

  /** `sep.join(pieces)`. */
  function Join(pieces: seq<string>, sep: char): string
  {
    if |pieces| == 0 then ""
    else if |pieces| == 1 then pieces[0]
    else pieces[0] + [sep] + Join(pieces[1..], sep)
  }

  /** Joining the pieces of a split gives back the original string. */
  lemma {:induction false} JoinSplit(s: string, sep: char)
    ensures Join(Split(s, sep), sep) == s
    decreases |s|
  {
    if sep in s {
      var k := IndexOf(s, sep);
      JoinSplit(s[k + 1..], sep);
      assert s == s[..k] + [sep] + s[k + 1..];
    }
  }

  /** Splitting a join of separator-free pieces gives back the pieces. */
  lemma {:induction false} SplitJoin(pieces: seq<string>, sep: char)
    requires |pieces| >= 1
    requires forall i :: 0 <= i < |pieces| ==> sep !in pieces[i]
    ensures Split(Join(pieces, sep), sep) == pieces
    decreases |pieces|
  {
    if |pieces| > 1 {
      var rest := Join(pieces[1..], sep);
      var s := pieces[0] + [sep] + rest;
      assert Join(pieces, sep) == s;
      IndexOfAfterFreePrefix(pieces[0], sep, rest);
      assert s[..|pieces[0]|] == pieces[0];
      assert s[|pieces[0]| + 1..] == rest;
      SplitJoin(pieces[1..], sep);
      assert Split(s, sep) == [pieces[0]] + pieces[1..];
    }
  }

  /** The first separator after a separator-free prefix is the one that ends it. */
  lemma {:induction false} IndexOfAfterFreePrefix(p: string, sep: char, rest: string)
    requires sep !in p
    ensures sep in p + [sep] + rest
    ensures IndexOf(p + [sep] + rest, sep) == |p|
    decreases |p|
  {
    var s := p + [sep] + rest;
    assert s[|p|] == sep;
    if p != [] {
      assert s[0] == p[0];
      assert s[1..] == p[1..] + [sep] + rest;
      IndexOfAfterFreePrefix(p[1..], sep, rest);
    }
  }

  /**
   * `s` ends with `r`, `r` holds no `sep`, and `r` is as long as it can be: it is all of
   * `s` or is preceded by `sep`. This is "the text after the last `sep`".
   */
  ghost predicate IsLastPiece(s: string, sep: char, r: string)
  {
    && |r| <= |s|
    && s[|s| - |r|..] == r
    && sep !in r
    && (|r| < |s| ==> s[|s| - |r| - 1] == sep)
  }

  /** `s.split(sep)[-1]`. */
  function AfterLast(s: string, sep: char): (r: string)
    ensures IsLastPiece(s, sep, r)
    ensures r == s <==> sep !in s
  {
    LastPieceOfSplit(s, sep);
    var pieces := Split(s, sep);
    pieces[|pieces| - 1]
  }

  lemma {:induction false} LastPieceOfSplit(s: string, sep: char)
    ensures IsLastPiece(s, sep, Split(s, sep)[|Split(s, sep)| - 1])
    decreases |s|
  {
    if sep in s {
      var k := IndexOf(s, sep);
      var rest := s[k + 1..];
      var tail := Split(rest, sep);
      assert Split(s, sep) == [s[..k]] + tail;
      LastPieceOfSplit(rest, sep);
      LastPieceExtends(s, k, sep, tail[|tail| - 1]);
    }
  }

  /** A last piece of the text after a separator is a last piece of the whole text. */
  lemma LastPieceExtends(s: string, k: nat, sep: char, r: string)
    requires k < |s| && s[k] == sep
    requires IsLastPiece(s[k + 1..], sep, r)
    ensures IsLastPiece(s, sep, r)
  {
    var rest := s[k + 1..];
    var start := |s| - |r|;
    forall j | 0 <= j < |r|
      ensures s[start..][j] == r[j]
    {
      assert rest[|rest| - |r| + j] == r[j];
    }
    assert s[start..] == r;
    if |r| < |rest| {
      assert s[start - 1] == rest[|rest| - |r| - 1];
    }
  }

  /** The text of `s` before the first `sep`, or all of `s` when it holds none. */
  function Before(s: string, sep: char): (r: string)
    ensures r <= s && sep !in r
    ensures |r| < |s| <==> sep in s
    ensures |r| < |s| ==> s[|r|] == sep
  {
    if sep in s then s[..IndexOf(s, sep)] else s
  }

  /** The first piece of a split is the text before the first separator. */
  lemma FirstPieceOfSplit(s: string, sep: char)
    ensures Split(s, sep)[0] == Before(s, sep)
  {
  }

  /** The second piece of a split is the text between the first and the next separator. */
  lemma SecondPieceOfSplit(s: string, sep: char)
    requires sep in s
    ensures Split(s, sep)[1] == Before(s[IndexOf(s, sep) + 1..], sep)
  {
  }

  /** Python's `needle in s` on strings. */
  predicate Contains(s: string, needle: string)
    decreases |s|
  {
    needle <= s || (|s| > 0 && Contains(s[1..], needle))
  }

  /**
   * A prefix that cannot start an occurrence of `needle` does not change whether the
   * text holds it: no occurrence can begin inside `p`, and none can straddle it.
   */
  lemma {:induction false} ContainsAfterPrefix(p: string, m: string, needle: string)
    requires needle != [] && needle[0] !in p
    ensures Contains(p + m, needle) <==> Contains(m, needle)
    decreases |p|
  {
    if p == [] {
      assert p + m == m;
    } else {
      assert (p + m)[0] == p[0] != needle[0];
      assert (p + m)[1..] == p[1..] + m;
      ContainsAfterPrefix(p[1..], m, needle);
    }
  }
}
