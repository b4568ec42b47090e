/** JavaScript's `String.prototype.split` on a one-character separator and
    `Array.prototype.join`, with the round trips that relate them. */
module Strings {

  /** `s.split(c)`: the pieces between occurrences of `c`, in order. There is
      always at least one piece (`"".split(c)` is `[""]`). */
  function Split(s: string, c: char): (parts: seq<string>)
    ensures |parts| >= 1
    ensures forall k :: 0 <= k < |parts| ==> c !in parts[k]
    decreases |s|
  {
    if |s| == 0 then [""]
    else
      var rest := Split(s[1..], c);
      if s[0] == c then [""] + rest
      else [[s[0]] + rest[0]] + rest[1..]
  }

  /** `parts.join(sep)`. */
  function Join(parts: seq<string>, sep: string): string
  {
    if |parts| == 0 then ""
    else if |parts| == 1 then parts[0]
    else parts[0] + sep + Join(parts[1..], sep)
  }

  function Last<T>(xs: seq<T>): T
    requires |xs| > 0
  {
    xs[|xs| - 1]
  }

  /** Joining the pieces with the separator rebuilds the string. */
  lemma {:induction false} JoinSplit(s: string, c: char)
    ensures Join(Split(s, c), [c]) == s
    decreases |s|
  {
    if |s| > 0 {
      var rest := Split(s[1..], c);
      JoinSplit(s[1..], c);
      if s[0] == c {
        assert Split(s, c) == [""] + rest;
        assert ([""] + rest)[1..] == rest;
      } else {
        var parts := Split(s, c);
        assert parts == [[s[0]] + rest[0]] + rest[1..];
        if |rest| > 1 {
          assert parts[1..] == rest[1..];
          assert Join(rest, [c]) == rest[0] + [c] + Join(rest[1..], [c]);
        }
        assert s == [s[0]] + s[1..];
      }
    }
  }

  /** A string without the separator is one piece. */
  lemma {:induction false} SplitWithoutSeparator(s: string, c: char)
    requires c !in s
    ensures Split(s, c) == [s]
    decreases |s|
  {
    if |s| > 0 {
      SplitWithoutSeparator(s[1..], c);
      assert [s[0]] + s[1..] == s;
    }
  }

  /** A separator-free prefix `a` followed by a separator starts a new piece. */
  lemma {:induction false} SplitAfterPiece(a: string, c: char, t: string)
    requires c !in a
    ensures Split(a + [c] + t, c) == [a] + Split(t, c)
    decreases |a|
  {
    if |a| == 0 {
      assert a + [c] + t == [c] + t;
      assert ([c] + t)[1..] == t;
    } else {
      var s := a + [c] + t;
      assert s[0] == a[0];
      assert s[1..] == a[1..] + [c] + t;
      SplitAfterPiece(a[1..], c, t);
      assert [a[0]] + a[1..] == a;
    }
  }

  /** Splitting a join of separator-free pieces gives the pieces back. */
  lemma {:induction false} SplitJoin(parts: seq<string>, c: char)
    requires |parts| >= 1
    requires forall k :: 0 <= k < |parts| ==> c !in parts[k]
    ensures Split(Join(parts, [c]), c) == parts
    decreases |parts|
  {
    if |parts| == 1 {
      SplitWithoutSeparator(parts[0], c);
    } else {
      SplitJoin(parts[1..], c);
      SplitAfterPiece(parts[0], c, Join(parts[1..], [c]));
      assert [parts[0]] + parts[1..] == parts;
    }
  }

  /** Prepending one character to a string keeps its last piece, unless the
      string is a single piece and the character is not the separator, in
      which case the character joins that piece. */
  lemma SplitConsLast(s: string, c: char)
    requires |s| > 0
    ensures var rest := Split(s[1..], c);
      && (s[0] == c || |rest| > 1 ==> Last(Split(s, c)) == Last(rest))
      && (s[0] != c && |rest| == 1 ==> Last(Split(s, c)) == [s[0]] + rest[0])
  {
  }

  /** `p` ends `s`, and unless it is the whole of `s` a separator `c` stands
      right before it. */
  predicate EndsAfterSeparator(s: string, p: string, c: char)
  {
    && |p| <= |s|
    && s[|s| - |p|..] == p
    && (|p| < |s| ==> s[|s| - |p| - 1] == c)
  }

  /** What ends the tail of `s` after a separator ends `s` after one, provided
      it is shorter than the tail or `s` starts with the separator. */
  lemma EndsAfterSeparatorCons(s: string, p: string, c: char)
    requires |s| > 0
    requires EndsAfterSeparator(s[1..], p, c)
    requires |p| < |s| - 1 || s[0] == c
    ensures EndsAfterSeparator(s, p, c)
  {
    assert s[|s| - |p|..] == s[1..][|s| - 1 - |p|..];
  }

  /** A string split into several pieces contains the separator. */
  lemma SeveralPiecesHaveSeparator(s: string, c: char)
    requires |Split(s, c)| > 1
    ensures c in s
  {
    if c !in s {
      SplitWithoutSeparator(s, c);
    }
  }

  /** A string split into one piece is that piece. */
  lemma OnePieceIsWhole(s: string, c: char)
    requires |Split(s, c)| == 1
    ensures Split(s, c)[0] == s
  {
    JoinSplit(s, c);
  }

  /** The last piece is the longest separator-free suffix: it ends the string,
      and unless it is the whole string a separator stands right before it. */
  lemma {:induction false} LastPieceIsSuffix(s: string, c: char)
    ensures var p := Last(Split(s, c));
      && |p| <= |s|
      && s[|s| - |p|..] == p
      && (|p| < |s| ==> s[|s| - |p| - 1] == c)
    decreases |s|
  {
    if |s| > 0 {
      var t := s[1..];
      var rest := Split(t, c);
      LastPieceIsSuffix(t, c);
      SplitConsLast(s, c);
      var p := Last(rest);
      assert EndsAfterSeparator(t, p, c);
      if s[0] == c || |rest| > 1 {
        if s[0] != c {
          SeveralPiecesHaveSeparator(t, c);
          assert c !in p;
          assert p != t;
        }
        EndsAfterSeparatorCons(s, p, c);
      } else {
        OnePieceIsWhole(t, c);
        assert [s[0]] + t == s;
      }
    }
  }
}
