/** Decimal text: zero-padded numbers as Go's time package writes them. */
module Digits {

  predicate IsDigit(c: char) {
    '0' <= c <= '9'
  }

  predicate AllDigits(s: string) {
    forall i | 0 <= i < |s| :: IsDigit(s[i])
  }

  function Digit(d: nat): (c: char)
    requires d < 10
    ensures IsDigit(c) && DigitValue(c) == d
  {
    '0' + d as char
  }

  function DigitValue(c: char): nat
    requires IsDigit(c)
  {
    (c - '0') as int
  }

  function Value(s: string): nat
    requires AllDigits(s)
  {
    if s == [] then 0 else 10 * Value(s[..|s| - 1]) + DigitValue(s[|s| - 1])
  }

  function Pow10(n: nat): (p: nat)
    ensures p >= 1
  {
    if n == 0 then 1 else 10 * Pow10(n - 1)
  }

  /** At least `width` digits, padded with zeros on the left. */
  function Padded(n: nat, width: nat): (s: string)
    ensures AllDigits(s) && |s| >= 1 && |s| >= width
    decreases n + width
  {
    if n < 10 && width <= 1 then [Digit(n)]
    else Padded(n / 10, if width == 0 then 0 else width - 1) + [Digit(n % 10)]
  }

  lemma ValueOfAppend(s: string, c: char)
    requires AllDigits(s) && IsDigit(c)
    ensures AllDigits(s + [c]) && Value(s + [c]) == 10 * Value(s) + DigitValue(c)
  {
    var t := s + [c];
    assert t[..|t| - 1] == s;
  }

  /** Reading undoes writing, so different numbers have different texts. */
  lemma {:induction false} PaddedReadsBack(n: nat, width: nat)
    ensures Value(Padded(n, width)) == n
    decreases n + width
  {
    if n < 10 && width <= 1 {
      assert [Digit(n)][..0] == [];
    } else {
      var less := if width == 0 then 0 else width - 1;
      PaddedReadsBack(n / 10, less);
      ValueOfAppend(Padded(n / 10, less), Digit(n % 10));
    }
  }

  /** The width is exact as long as the number fits, and exceeded otherwise. */
  lemma {:induction false} PaddedWidth(n: nat, width: nat)
    requires width >= 1
    ensures |Padded(n, width)| == width <==> n < Pow10(width)
    decreases width
  {
    if width == 1 {
      assert Pow10(1) == 10 * Pow10(0);
    } else {
      PaddedWidth(n / 10, width - 1);
      assert n / 10 < Pow10(width - 1) <==> n < 10 * Pow10(width - 1);
    }
  }

  lemma TwoDigits(n: nat)
    requires n < 100
    ensures |Padded(n, 2)| == 2
  {
    PaddedWidth(n, 2);
    assert Pow10(2) == 10 * Pow10(1) && Pow10(1) == 10 * Pow10(0);
  }

  /** A year takes four digits, more if it needs them, and a sign if it is negative. */
  function YearText(year: int): string {
    if year < 0 then "-" + Padded(-year, 4) else Padded(year, 4)
  }

  lemma YearTextIsInjective(a: int, b: int)
    requires YearText(a) == YearText(b)
    ensures a == b
  {
    var x := Padded(if a < 0 then -a else a, 4);
    var y := Padded(if b < 0 then -b else b, 4);
    assert IsDigit(x[0]) && IsDigit(y[0]);
    assert a < 0 ==> YearText(a)[0] == '-' && YearText(a)[1..] == x;
    assert b < 0 ==> YearText(b)[0] == '-' && YearText(b)[1..] == y;
    assert (a < 0) == (b < 0) && x == y;
    PaddedReadsBack(if a < 0 then -a else a, 4);
    PaddedReadsBack(if b < 0 then -b else b, 4);
  }

  // ---------------------------------------------------------------------
  // Fractions: trailing zeros are trimmed when written and supplied when read
  // ---------------------------------------------------------------------

  function Trimmed(s: string): (t: string)
    ensures t <= s
  {
    if s == [] || s[|s| - 1] != '0' then s else Trimmed(s[..|s| - 1])
  }

  /** The digits after a point, as a count of units of 10^-places. */
  function Scaled(s: string, places: nat): nat
    requires AllDigits(s)
  {
    if |s| <= places then Value(s) * Pow10(places - |s|) else Value(s[..places])
  }

  lemma {:induction false} TrimmingKeepsScale(s: string, places: nat)
    requires AllDigits(s) && |s| <= places
    ensures Scaled(Trimmed(s), places) == Scaled(s, places)
  {
    if s != [] && s[|s| - 1] == '0' {
      var shorter := s[..|s| - 1];
      TrimmingKeepsScale(shorter, places);
      var p := Pow10(places - |s|);
      assert Pow10(places - |shorter|) == 10 * p;
      assert Value(s) == 10 * Value(shorter);
      assert Value(shorter) * (10 * p) == 10 * Value(shorter) * p;
    }
  }

  lemma {:induction false} TrimmedIsEmptyOnlyForZero(s: string)
    requires AllDigits(s) && Value(s) != 0
    ensures Trimmed(s) != []
  {
    if s[|s| - 1] == '0' {
      TrimmedIsEmptyOnlyForZero(s[..|s| - 1]);
    }
  }
}
