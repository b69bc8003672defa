/** Decimal integers as JSON writes them. */
module Numerals {

  predicate IsDigit(c: char) {
    '0' <= c <= '9'
  }

  function Digit(n: nat): (c: char)
    requires n < 10
    ensures IsDigit(c)
  {
    '0' + n as char
  }

  function Natural(n: nat): (s: string)
    ensures |s| > 0 && forall i :: 0 <= i < |s| ==> IsDigit(s[i])
  {
    if n < 10 then [Digit(n)] else Natural(n / 10) + [Digit(n % 10)]
  }

  function Decimal(n: int): (s: string)
    ensures |s| > 0 && (s[0] == '-' || IsDigit(s[0]))
  {
    if n < 0 then "-" + Natural(-n) else Natural(n)
  }

  // ---------------------------------------------------------------- reading back

  function ValueOf(s: string): int {
    if s == "" then 0 else ValueOf(s[..|s| - 1]) * 10 + (s[|s| - 1] as int - '0' as int)
  }

  lemma {:induction false} NaturalReadsBack(n: nat)
    ensures ValueOf(Natural(n)) == n
  {
    var s := Natural(n);
    if n >= 10 {
      assert s[..|s| - 1] == Natural(n / 10);
      NaturalReadsBack(n / 10);
    } else {
      assert s[..0] == "";
    }
  }

  /** What may follow a number: nothing, or something that is no digit. */
  predicate EndsNumber(x: string) {
    x == "" || !IsDigit(x[0])
  }

  predicate Digits(s: string) {
    forall i :: 0 <= i < |s| ==> IsDigit(s[i])
  }

  lemma DigitsNoLonger(a: string, b: string, x: string, y: string)
    requires Digits(a) && EndsNumber(y) && a + x == b + y
    ensures |a| <= |b|
  {
    assert forall i :: 0 <= i < |a| ==> IsDigit((a + x)[i]);
    assert |b| < |b + y| ==> (b + y)[|b|] == y[0];
  }

  lemma SplitAt(a: string, b: string, x: string, y: string)
    requires |a| == |b| && a + x == b + y
    ensures a == b && x == y
  {
    assert a == (a + x)[..|a|] && b == (b + y)[..|b|];
    assert x == (a + x)[|a|..] && y == (b + y)[|b|..];
  }

  lemma NaturalUnique(n: nat, m: nat, x: string, y: string)
    requires EndsNumber(x) && EndsNumber(y) && Natural(n) + x == Natural(m) + y
    ensures n == m && x == y
  {
    DigitsNoLonger(Natural(n), Natural(m), x, y);
    DigitsNoLonger(Natural(m), Natural(n), y, x);
    SplitAt(Natural(n), Natural(m), x, y);
    NaturalReadsBack(n);
    NaturalReadsBack(m);
  }

  /** A decimal integer can be told from what follows it. */
  lemma DecimalUnique(n: int, m: int, x: string, y: string)
    requires EndsNumber(x) && EndsNumber(y) && Decimal(n) + x == Decimal(m) + y
    ensures n == m && x == y
  {
    SignTells(n, x);
    SignTells(m, y);
    if n < 0 {
      NegativeUnique(n, m, x, y);
    } else {
      NaturalUnique(n, m, x, y);
    }
  }

  lemma SignTells(n: int, x: string)
    ensures (Decimal(n) + x)[0] == '-' <==> n < 0
  {
    assert (Decimal(n) + x)[0] == Decimal(n)[0];
  }

  lemma NegativeUnique(n: int, m: int, x: string, y: string)
    requires n < 0 && m < 0 && EndsNumber(x) && EndsNumber(y) && Decimal(n) + x == Decimal(m) + y
    ensures n == m && x == y
  {
    SignOff(Natural(-n), Natural(-m), x, y);
    NaturalUnique(-n, -m, x, y);
  }

  lemma SignOff(s: string, t: string, x: string, y: string)
    requires "-" + s + x == "-" + t + y
    ensures s + x == t + y
  {
    assert "-" + s + x == ['-'] + (s + x) && "-" + t + y == ['-'] + (t + y);
    Behind('-', s + x, t + y);
  }

  lemma Behind(c: char, p: string, q: string)
    requires [c] + p == [c] + q
    ensures p == q
  {
    assert p == ([c] + p)[1..] && q == ([c] + q)[1..];
  }
}
