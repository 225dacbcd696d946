/**
 * The two string operations of JavaScript the client relies on:
 * `String.prototype.split` and `Array.prototype.join`, both with a
 * one-character separator.
 */
module Strings {

  /** `s.split(sep)`: the pieces of `s` between occurrences of `sep`, in order.
      Like JavaScript, the empty string splits into one empty piece. */
  function Split(s: string, sep: char): (parts: seq<string>)
    ensures |parts| >= 1
    decreases |s|
  {
    if |s| == 0 then [""]
    else
      var rest := Split(s[1..], sep);
      if s[0] == sep then [""] + rest
      else
        [[s[0]] + rest[0]] + rest[1..]
  }

  /** `parts.join(sep)`: the pieces with one `sep` between neighbours. */
  function Join(parts: seq<string>, sep: char): string
  {
    if |parts| == 0 then ""
    else if |parts| == 1 then parts[0]
    else parts[0] + [sep] + Join(parts[1..], sep)
  }

  /** One unfolding of `Join` on a suffix of `parts`. */
  lemma JoinStep(parts: seq<string>, k: nat, sep: char)
    requires k + 2 <= |parts|
    ensures Join(parts[k..], sep) == parts[k] + [sep] + Join(parts[k + 1..], sep)
  {
    assert parts[k..][1..] == parts[k + 1..];
  }

  /** Six pieces joined, written out. */
  lemma JoinSix(a: string, b: string, c: string, d: string, e: string, f: string, sep: char)
    ensures Join([a, b, c, d, e, f], sep) == a + [sep] + b + [sep] + c + [sep] + d + [sep] + e + [sep] + f
  {
    var p := [a, b, c, d, e, f];
    assert p[5..] == [f];
    JoinStep(p, 4, sep);
    JoinStep(p, 3, sep);
    JoinStep(p, 2, sep);
    JoinStep(p, 1, sep);
    JoinStep(p, 0, sep);
    assert p[0..] == p;
  }

  /** Seven pieces joined, written out. */
  lemma JoinSeven(a: string, b: string, c: string, d: string, e: string, f: string, g: string, sep: char)
    ensures Join([a, b, c, d, e, f, g], sep) ==
            a + [sep] + b + [sep] + c + [sep] + d + [sep] + e + [sep] + f + [sep] + g
  {
    var p := [a, b, c, d, e, f, g];
    assert p[6..] == [g];
    JoinStep(p, 5, sep);
    JoinStep(p, 4, sep);
    JoinStep(p, 3, sep);
    JoinStep(p, 2, sep);
    JoinStep(p, 1, sep);
    JoinStep(p, 0, sep);
    assert p[0..] == p;
  }

  /** Joining two non-empty lists is joining each and putting one
      separator between the results. */
  lemma {:induction false} JoinAppend(parts: seq<string>, more: seq<string>, sep: char)
    requires |parts| >= 1 && |more| >= 1
    ensures Join(parts + more, sep) == Join(parts, sep) + [sep] + Join(more, sep)
    decreases |parts|
  {
    if |parts| > 1 {
      assert (parts + more)[1..] == parts[1..] + more;
      JoinAppend(parts[1..], more, sep);
    }
  }

  /** No piece of a split holds the separator. */
  lemma {:induction false} SplitPiecesLackSeparator(s: string, sep: char)
    ensures forall i :: 0 <= i < |Split(s, sep)| ==> sep !in Split(s, sep)[i]
    decreases |s|
  {
    if |s| > 0 {
      SplitPiecesLackSeparator(s[1..], sep);
      var rest := Split(s[1..], sep);
      if s[0] != sep {
        assert sep !in [s[0]] + rest[0];
        assert forall i :: 1 <= i < |Split(s, sep)| ==> Split(s, sep)[i] == rest[i];
      } else {
        assert forall i :: 1 <= i < |Split(s, sep)| ==> Split(s, sep)[i] == rest[i - 1];
      }
    }
  }

  /** A string without the separator is a single piece. */
  lemma {:induction false} SplitWithoutSeparator(s: string, sep: char)
    requires sep !in s
    ensures Split(s, sep) == [s]
    decreases |s|
  {
    if |s| > 0 {
      SplitWithoutSeparator(s[1..], sep);
      assert [s[0]] + s[1..] == s;
    }
  }

  /** A separator between two strings separates their pieces. */
  lemma {:induction false} SplitAround(a: string, b: string, sep: char)
    ensures Split(a + [sep] + b, sep) == Split(a, sep) + Split(b, sep)
    decreases |a|
  {
    var s := a + [sep] + b;
    if |a| == 0 {
      assert s == [sep] + b && s[1..] == b;
    } else {
      assert s[0] == a[0] && s[1..] == a[1..] + [sep] + b;
      SplitAround(a[1..], b, sep);
    }
  }

  /** Splitting undoes joining pieces that hold no separator. */
  lemma {:induction false} SplitJoin(parts: seq<string>, sep: char)
    requires |parts| >= 1
    requires forall i :: 0 <= i < |parts| ==> sep !in parts[i]
    ensures Split(Join(parts, sep), sep) == parts
    decreases |parts|
  {
    SplitWithoutSeparator(parts[0], sep);
    if |parts| > 1 {
      SplitJoin(parts[1..], sep);
      SplitAround(parts[0], Join(parts[1..], sep), sep);
      assert [parts[0]] + parts[1..] == parts;
    }
  }

  /** Joining undoes splitting. */
  lemma {:induction false} JoinSplit(s: string, sep: char)
    ensures Join(Split(s, sep), sep) == s
    decreases |s|
  {
    if |s| > 0 {
      var rest := Split(s[1..], sep);
      JoinSplit(s[1..], sep);
      if s[0] == sep {
        assert Split(s, sep)[1..] == rest;
        assert s == [sep] + s[1..];
      } else if |rest| == 1 {
        assert s == [s[0]] + s[1..];
      } else {
        var parts := Split(s, sep);
        assert parts[1..] == rest[1..];
        assert Join(rest, sep) == rest[0] + [sep] + Join(rest[1..], sep);
        assert s == [s[0]] + s[1..];
      }
    }
  }

  /** The last piece of a split is the longest separator-free suffix:
      the string ends with it, and unless it is the whole string, a
      separator stands right before it. */
  lemma {:induction false} SplitLastPiece(s: string, sep: char)
    ensures var parts := Split(s, sep);
            var last := parts[|parts| - 1];
            sep !in last && |last| <= |s| && s[|s| - |last|..] == last &&
            (|last| < |s| ==> s[|s| - |last| - 1] == sep) &&
            (sep !in s ==> last == s)
    decreases |s|
  {
    SplitPiecesLackSeparator(s, sep);
    if sep !in s {
      SplitWithoutSeparator(s, sep);
    } else {
      var rest := Split(s[1..], sep);
      SplitLastPiece(s[1..], sep);
      var lastRest := rest[|rest| - 1];
      assert s[1..][|s| - 1 - |lastRest|..] == s[|s| - |lastRest|..];
      if s[0] != sep {
        assert sep in s[1..];
        JoinSplit(s[1..], sep);
        SplitPiecesLackSeparator(s[1..], sep);
        assert |rest| > 1;
        assert lastRest != s[1..];
        assert s[1..][|s| - 1 - |lastRest| - 1] == s[|s| - |lastRest| - 1];
      } else if |lastRest| < |s| - 1 {
        assert s[1..][|s| - 1 - |lastRest| - 1] == s[|s| - |lastRest| - 1];
      }
    }
  }
}
