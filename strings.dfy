/** Go's strings.Split and strings.Join for a one-character separator. */
module Strings {

  /**
   * strings.Split(s, sep): the pieces of s between occurrences of sep. There is
   * always at least one piece; splitting the empty string gives [""].
   */
  function Split(s: string, sep: char): (parts: seq<string>)
    ensures |parts| >= 1
    decreases |s|
  {
    if s == [] then [""]
    else if s[0] == sep then [""] + Split(s[1..], sep)
    else
      var rest := Split(s[1..], sep);
      [[s[0]] + rest[0]] + rest[1..]
  }

  /** strings.Join(elems, sep). */
  function Join(elems: seq<string>, sep: char): (s: string)
  {
    if elems == [] then ""
    else if |elems| == 1 then elems[0]
    else elems[0] + [sep] + Join(elems[1..], sep)
  }

  predicate Free(s: string, c: char) {
    forall i :: 0 <= i < |s| ==> s[i] != c
  }

  lemma FreeAppend(a: string, b: string, c: char)
    requires Free(a, c) && Free(b, c)
    ensures Free(a + b, c)
  {
  }

  /** A string without the separator is a single piece. */
  lemma {:induction false} SplitFree(s: string, sep: char)
    requires Free(s, sep)
    ensures Split(s, sep) == [s]
  {
    if s != [] {
      SplitFree(s[1..], sep);
      assert [s[0]] + s[1..] == s;
    }
  }

  lemma SplitCons(c: char, r: string, sep: char)
    ensures c == sep ==> Split([c] + r, sep) == [""] + Split(r, sep)
    ensures c != sep ==> Split([c] + r, sep) == [[c] + Split(r, sep)[0]] + Split(r, sep)[1..]
  {
    assert ([c] + r)[0] == c && ([c] + r)[1..] == r;
  }

  lemma ConsFirst(c: char, rest: seq<string>, tail: seq<string>)
    requires |rest| >= 1
    ensures [[c] + rest[0]] + rest[1..] + tail == [[c] + (rest + tail)[0]] + (rest + tail)[1..]
  {
    assert (rest + tail)[0] == rest[0];
    assert (rest + tail)[1..] == rest[1..] + tail;
  }

  /** Splitting is a homomorphism across one separator. */
  lemma {:induction false} SplitAt(x: string, y: string, sep: char)
    ensures Split(x + [sep] + y, sep) == Split(x, sep) + Split(y, sep)
  {
    if x == [] {
      assert x + [sep] + y == [sep] + y;
      SplitCons(sep, y, sep);
    } else {
      var c, r := x[0], x[1..];
      assert x == [c] + r;
      assert x + [sep] + y == [c] + (r + [sep] + y);
      SplitAt(r, y, sep);
      SplitCons(c, r + [sep] + y, sep);
      SplitCons(c, r, sep);
      if c != sep {
        ConsFirst(c, Split(r, sep), Split(y, sep));
      }
    }
  }

  /** Join and Split are inverse when no element contains the separator. */
  lemma {:induction false} SplitJoin(elems: seq<string>, sep: char)
    requires |elems| >= 1
    requires forall i :: 0 <= i < |elems| ==> Free(elems[i], sep)
    ensures Split(Join(elems, sep), sep) == elems
  {
    if |elems| == 1 {
      SplitFree(elems[0], sep);
    } else {
      SplitJoin(elems[1..], sep);
      SplitFree(elems[0], sep);
      SplitAt(elems[0], Join(elems[1..], sep), sep);
      assert [elems[0]] + elems[1..] == elems;
    }
  }

  /** The first piece is the text before the first separator (all of s when there is none). */
  lemma {:induction false} SplitHead(s: string, sep: char)
    ensures var head := Split(s, sep)[0];
      && Free(head, sep) && head <= s
      && (|head| < |s| ==> s[|head|] == sep)
    decreases |s|
  {
    if s != [] && s[0] != sep {
      SplitHead(s[1..], sep);
    }
  }
}
