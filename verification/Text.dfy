/** Splitting a text at a separator, and joining it again. */
module Text {

  /** The pieces between separators; there is always one more than there are separators. */
  function Split(s: string, c: char): (r: seq<string>)
    ensures |r| >= 1
  {
    if s == "" then [""]
    else if s[0] == c then [""] + Split(s[1..], c)
    else var r := Split(s[1..], c); [[s[0]] + r[0]] + r[1..]
  }

  function Join(pieces: seq<string>, c: char): string {
    if pieces == [] then ""
    else if |pieces| == 1 then pieces[0]
    else pieces[0] + [c] + Join(pieces[1..], c)
  }

  /** No piece contains the separator. */
  predicate Plain(pieces: seq<string>, c: char) {
    forall i | 0 <= i < |pieces| :: c !in pieces[i]
  }

  lemma {:induction false} SplitIsPlain(s: string, c: char)
    ensures Plain(Split(s, c), c)
  {
    if s != "" {
      SplitIsPlain(s[1..], c);
    }
  }

  lemma {:induction false} SplitPiece(p: string, rest: string, c: char)
    requires c !in p
    ensures Split(p + [c] + rest, c) == [p] + Split(rest, c)
  {
    if p == "" {
      assert p + [c] + rest == [c] + rest;
    } else {
      SplitPiece(p[1..], rest, c);
      assert (p + [c] + rest)[1..] == p[1..] + [c] + rest;
      assert [p[0]] + p[1..] == p;
    }
  }

  lemma {:induction false} SplitLast(p: string, c: char)
    requires c !in p
    ensures Split(p, c) == [p]
  {
    if p != "" {
      SplitLast(p[1..], c);
      assert [p[0]] + p[1..] == p;
    }
  }

  /** Splitting undoes joining. */
  lemma {:induction false} SplitJoin(pieces: seq<string>, c: char)
    requires pieces != [] && Plain(pieces, c)
    ensures Split(Join(pieces, c), c) == pieces
  {
    if |pieces| == 1 {
      SplitLast(pieces[0], c);
    } else {
      SplitJoin(pieces[1..], c);
      SplitPiece(pieces[0], Join(pieces[1..], c), c);
      assert pieces == [pieces[0]] + pieces[1..];
    }
  }

  lemma {:induction false} JoinAppend(a: seq<string>, b: seq<string>, c: char)
    requires a != [] && b != []
    ensures Join(a + b, c) == Join(a, c) + [c] + Join(b, c)
  {
    assert (a + b)[1..] == a[1..] + b;
    if |a| > 1 {
      JoinAppend(a[1..], b, c);
    } else {
      assert a + b == [a[0]] + b;
    }
  }

  /** The pieces of a text with one character more in front. */
  function Prepended(x: char, pieces: seq<string>, c: char): seq<string>
    requires pieces != []
  {
    if x == c then [""] + pieces else [[x] + pieces[0]] + pieces[1..]
  }

  lemma SplitCons(x: char, s: string, c: char)
    ensures Split([x] + s, c) == Prepended(x, Split(s, c), c)
  {
    assert ([x] + s)[1..] == s;
  }

  lemma PrependedAppend(x: char, a: seq<string>, b: seq<string>, c: char)
    requires a != []
    ensures Prepended(x, a + b, c) == Prepended(x, a, c) + b
  {
    assert (a + b)[1..] == a[1..] + b && (a + b)[0] == a[0];
  }

  /** Splitting a text at a separator in it splits both parts. */
  lemma {:induction false} SplitAppend(a: string, b: string, c: char)
    ensures Split(a + [c] + b, c) == Split(a, c) + Split(b, c)
  {
    if a == "" {
      SplitCons(c, b, c);
      assert a + [c] + b == [c] + b;
    } else {
      hide Split, Prepended;
      var x, rest := a[0], a[1..];
      SplitAppend(rest, b, c);
      SplitCons(x, rest + [c] + b, c);
      SplitCons(x, rest, c);
      PrependedAppend(x, Split(rest, c), Split(b, c), c);
      assert a == [x] + rest;
      assert a + [c] + b == [x] + (rest + [c] + b);
    }
  }

  /** Joining undoes splitting. */
  lemma {:induction false} JoinSplit(s: string, c: char)
    ensures Join(Split(s, c), c) == s
  {
    if s != "" {
      JoinSplit(s[1..], c);
      var r := Split(s[1..], c);
      if s[0] == c {
        assert ([""] + r)[1..] == r;
      } else {
        assert ([[s[0]] + r[0]] + r[1..])[1..] == r[1..];
      }
    }
  }
}
