/**
  Decimal numerals: the value of a run of ASCII digits (what `int()` and the
  numeric directives of `strptime` compute) and the zero-padded rendering of a
  natural number, with the round trip between them.
*/
module Numerals {
  import opened Chars

  predicate AllDigits(s: string) { forall i :: 0 <= i < |s| ==> IsDigit(s[i]) }

  function DigitValue(c: char): (d: nat)
    requires IsDigit(c)
    ensures d < 10
  {
    c as int - '0' as int
  }

  function DigitChar(d: nat): (c: char)
    requires d < 10
    ensures IsDigit(c) && DigitValue(c) == d
  {
    ('0' as int + d) as char
  }

  function Pow10(n: nat): (p: nat)
    ensures p >= 1
  {
    if n == 0 then 1 else 10 * Pow10(n - 1)
  }

  /** Value of a digit string, most significant digit first. */
  function Value(s: string): (v: nat)
    requires AllDigits(s)
    ensures v < Pow10(|s|)
  {
    if s == [] then 0 else Value(s[..|s| - 1]) * 10 + DigitValue(s[|s| - 1])
  }

  /** The decimal digits of `n`, padded on the left with zeros to at least `width` characters. */
  function Digits(n: nat, width: nat): (s: string)
    ensures AllDigits(s) && |s| >= 1
    decreases n + width
  {
    if n < 10 && width <= 1 then [DigitChar(n)]
    else Digits(n / 10, if width == 0 then 0 else width - 1) + [DigitChar(n % 10)]
  }

  /** Reading back a rendered number gives the number. */
  lemma {:induction false} ValueOfDigits(n: nat, width: nat)
    ensures Value(Digits(n, width)) == n
    decreases n + width
  {
    var s := Digits(n, width);
    if n < 10 && width <= 1 {
    } else {
      var w := if width == 0 then 0 else width - 1;
      ValueOfDigits(n / 10, w);
      assert s[..|s| - 1] == Digits(n / 10, w);
    }
  }

  /** The value of two digit strings written one after the other. */
  lemma {:induction false} ValueAppend(a: string, b: string)
    requires AllDigits(a) && AllDigits(b)
    ensures AllDigits(a + b)
    ensures Value(a + b) == Value(a) * Pow10(|b|) + Value(b)
    decreases |b|
  {
    if b == [] {
      assert a + b == a;
    } else {
      var n := |b| - 1;
      var init := b[..n];
      assert (a + b)[..|a + b| - 1] == a + init;
      assert (a + b)[|a + b| - 1] == b[n];
      ValueAppend(a, init);
      ShiftDigit(Value(a), Pow10(n), Value(init), DigitValue(b[n]));
    }
  }

  lemma ShiftDigit(x: int, p: int, y: int, d: int)
    ensures (x * p + y) * 10 + d == x * (10 * p) + (y * 10 + d)
  {
  }

  /** A number below 10^width renders in exactly `width` characters. */
  lemma {:induction false} DigitsWidth(n: nat, width: nat)
    requires width >= 1 && n < Pow10(width)
    ensures |Digits(n, width)| == width
    decreases width
  {
    if n < 10 && width <= 1 {
    } else {
      DigitsWidth(n / 10, width - 1);
    }
  }

  /** A two-digit numeral is ten times its first digit plus its second. */
  lemma TwoDigitValue(s: string)
    requires |s| == 2 && AllDigits(s)
    ensures Value(s) == 10 * DigitValue(s[0]) + DigitValue(s[1])
  {
    assert s[..1][..0] == [];
  }

  /** A four-digit numeral, digit by digit. */
  lemma FourDigitValue(s: string)
    requires |s| == 4 && AllDigits(s)
    ensures Value(s) == 1000 * DigitValue(s[0]) + 100 * DigitValue(s[1]) + 10 * DigitValue(s[2]) + DigitValue(s[3])
  {
    assert s == s[..2] + s[2..];
    ValueAppend(s[..2], s[2..]);
    TwoDigitValue(s[..2]);
    TwoDigitValue(s[2..]);
    assert Pow10(2) == 100;
  }

  /** A number below 100 renders, unpadded, in one or two characters. */
  lemma ShortDigits(n: nat)
    requires n < 100
    ensures 1 <= |Digits(n, 1)| <= 2
  {
  }

  /** Length of the maximal run of digits that starts at position `i` of `s`. */
  function DigitRun(s: string, i: nat): (n: nat)
    requires i <= |s|
    ensures i + n <= |s|
    ensures AllDigits(s[i..i + n])
    ensures i + n == |s| || !IsDigit(s[i + n])
    decreases |s| - i
  {
    if i < |s| && IsDigit(s[i]) then
      var m := DigitRun(s, i + 1);
      assert s[i..i + 1 + m] == [s[i]] + s[i + 1..i + 1 + m];
      1 + m
    else 0
  }
}
