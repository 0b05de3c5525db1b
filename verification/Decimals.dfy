/** Fixed-width decimal numbers, and how they sort. */
module Decimals {
  import opened Lexical

  function Power(w: nat): nat {
    if w == 0 then 1 else 10 * Power(w - 1)
  }

  /** n in w digits. */
  function Digits(n: nat, w: nat): (r: string)
    ensures |r| == w
  {
    if w == 0 then "" else Digits(n / 10, w - 1) + [(n % 10) as char + '0']
  }

  predicate IsDigits(s: string) {
    forall i | 0 <= i < |s| :: '0' <= s[i] <= '9'
  }

  function Value(s: string): nat
    requires IsDigits(s)
  {
    if s == "" then 0 else 10 * Value(s[..|s| - 1]) + (s[|s| - 1] - '0') as nat
  }

  lemma {:induction false} DigitsRoundTrip(n: nat, w: nat)
    requires n < Power(w)
    ensures IsDigits(Digits(n, w)) && Value(Digits(n, w)) == n
  {
    if w > 0 {
      DigitsRoundTrip(n / 10, w - 1);
    }
  }

  // Comparing texts of equal shape.

  lemma {:induction false} LessAppend(a: string, b: string, x: string, y: string)
    requires |a| == |b|
    ensures Less(a + x, b + y) <==> Less(a, b) || (a == b && Less(x, y))
  {
    if a == "" {
      assert a + x == x && b + y == y;
    } else {
      LessAppend(a[1..], b[1..], x, y);
      assert (a + x)[1..] == a[1..] + x && (b + y)[1..] == b[1..] + y;
      assert a == [a[0]] + a[1..] && b == [b[0]] + b[1..];
      assert a + x == [a[0]] + (a[1..] + x) && b + y == [b[0]] + (b[1..] + y);
    }
  }

  lemma {:induction false} OrderOfDigits(n: nat, m: nat, w: nat)
    requires n < Power(w) && m < Power(w)
    ensures Less(Digits(n, w), Digits(m, w)) <==> n < m
    ensures Digits(n, w) == Digits(m, w) <==> n == m
  {
    DigitsRoundTrip(n, w);
    DigitsRoundTrip(m, w);
    if w > 0 {
      OrderOfDigits(n / 10, m / 10, w - 1);
      LessAppend(Digits(n / 10, w - 1), Digits(m / 10, w - 1), [(n % 10) as char + '0'], [(m % 10) as char + '0']);
      OneDigit(n % 10, m % 10);
    }
  }

  lemma OneDigit(i: nat, j: nat)
    requires i < 10 && j < 10
    ensures Less([i as char + '0'], [j as char + '0']) <==> i < j
  {
    assert [i as char + '0'][1..] == "" && [j as char + '0'][1..] == "";
  }

  /** A text with one more field. */
  lemma OneMoreField(a: string, b: string, sep: string, n: nat, m: nat, w: nat)
    requires |a| == |b| && n < Power(w) && m < Power(w)
    ensures Less(a + sep + Digits(n, w), b + sep + Digits(m, w)) <==> Less(a, b) || (a == b && n < m)
    ensures a + sep + Digits(n, w) == b + sep + Digits(m, w) <==> a == b && n == m
  {
    OrderOfDigits(n, m, w);
    var x, y := Digits(n, w), Digits(m, w);
    LessAppend(a + sep, b + sep, x, y);
    LessAppend(a, b, sep, sep);
    assert (a + sep)[..|a|] == a && (b + sep)[..|b|] == b;
    assert (a + sep + x)[..|a + sep|] == a + sep && (b + sep + y)[..|b + sep|] == b + sep;
    assert (a + sep + x)[|a + sep|..] == x && (b + sep + y)[|b + sep|..] == y;
  }

  lemma {:induction false} ValueRoundTrip(s: string)
    requires IsDigits(s)
    ensures Digits(Value(s), |s|) == s && Value(s) < Power(|s|)
  {
    if s != "" {
      ValueRoundTrip(s[..|s| - 1]);
    }
  }

  lemma Powers()
    ensures Power(1) == 10 && Power(2) == 100 && Power(4) == 10000 && Power(6) == 1000000
  {
    assert Power(3) == 1000 && Power(5) == 100000;
  }
}
