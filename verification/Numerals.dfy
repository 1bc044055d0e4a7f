/** Decimal numerals: digit strings and decimals, their values, and the canonical numeral of a number. */
module Numerals {
  import opened Prelude
  import opened Text

  const U128_MAX: nat := 0xFFFF_FFFF_FFFF_FFFF_FFFF_FFFF_FFFF_FFFF

  function DigitValue(c: char): (d: nat)
    requires IsDigit(c)
    ensures d < 10
  {
    c as int - '0' as int
  }

  function Digit(d: nat): (c: char)
    requires d < 10
    ensures IsDigit(c) && DigitValue(c) == d
  {
    ('0' as int + d) as char
  }

  predicate AllDigits(s: string) { forall i :: 0 <= i < |s| ==> IsDigit(s[i]) }

  /** The number a digit string denotes; the empty string denotes zero. */
  function Value(s: string): nat
    requires AllDigits(s)
  {
    if s == [] then 0 else 10 * Value(s[..|s| - 1]) + DigitValue(s[|s| - 1])
  }

  function Pow10(n: nat): (p: nat)
    ensures p >= 1
  {
    if n == 0 then 1 else 10 * Pow10(n - 1)
  }

  /** The canonical numeral: no leading zero unless the number is zero. */
  function ToDecimal(n: nat): (s: string)
    ensures s != [] && AllDigits(s)
    ensures Value(s) == n
    ensures s[0] == '0' ==> s == "0"
  {
    if n < 10 then [Digit(n)]
    else
      var front := ToDecimal(n / 10);
      assert (front + [Digit(n % 10)])[..|front|] == front;
      front + [Digit(n % 10)]
  }

  lemma {:induction false} Pow10Sum(a: nat, b: nat)
    ensures Pow10(a + b) == Pow10(a) * Pow10(b)
  {
    if b > 0 {
      Pow10Sum(a, b - 1);
      calc {
        Pow10(a + b);
        10 * Pow10(a + (b - 1));
        10 * (Pow10(a) * Pow10(b - 1));
        Pow10(a) * Pow10(b);
      }
    }
  }

  lemma {:induction false} Pow10Monotone(a: nat, b: nat)
    requires a <= b
    ensures Pow10(a) <= Pow10(b)
    decreases b
  {
    if a < b {
      Pow10Monotone(a, b - 1);
    }
  }

  /** A string of n digits denotes a number below 10^n. */
  lemma {:induction false} ValueBound(s: string)
    requires AllDigits(s)
    ensures Value(s) < Pow10(|s|)
  {
    if s != [] {
      ValueBound(s[..|s| - 1]);
    }
  }

  lemma ShiftDigit(x: nat, p: nat, v: nat, d: nat)
    ensures 10 * (x * p + v) + d == x * (10 * p) + (10 * v + d)
  {
    assert x * (10 * p) == 10 * (x * p);
  }

  lemma {:induction false} ValueConcat(a: string, b: string)
    requires AllDigits(a) && AllDigits(b)
    ensures AllDigits(a + b)
    ensures Value(a + b) == Value(a) * Pow10(|b|) + Value(b)
  {
    if b == [] {
      assert a + b == a;
    } else {
      var b' := b[..|b| - 1];
      ValueConcat(a, b');
      assert (a + b)[..|a + b| - 1] == a + b';
      assert |b'| == |b| - 1;
      ShiftDigit(Value(a), Pow10(|b'|), Value(b'), DigitValue(b[|b| - 1]));
    }
  }

  // ---------------------------------------------------------------- decimals

  /** Text before and after the first dot. */
  function SplitDot(s: string): (string, string) {
    match Find(s, '.')
    case Some(dot) => (s[..dot], s[dot + 1..])
    case None => (s, "")
  }

  /** Digits, at most one dot, at least one digit. */
  predicate IsDecimal(s: string) {
    var (whole, frac) := SplitDot(s);
    AllDigits(whole) && AllDigits(frac) && whole + frac != ""
  }

  /** The decimal without its dot, and how many of its digits were behind the dot. */
  function Digits(s: string): (d: string)
    requires IsDecimal(s)
    ensures AllDigits(d)
  {
    SplitDot(s).0 + SplitDot(s).1
  }

  function Places(s: string): nat { |SplitDot(s).1| }

  /** The value of `s` in units of 10^-decimals. */
  function Scaled(s: string, decimals: nat): nat
    requires IsDecimal(s) && Places(s) <= decimals
  {
    Value(Digits(s)) * Pow10(decimals - Places(s))
  }

  /** Two decimals denote the same number: cross-multiplied, so no scale is involved. */
  predicate SameValue(a: string, b: string)
    requires IsDecimal(a) && IsDecimal(b)
  {
    Value(Digits(a)) * Pow10(Places(b)) == Value(Digits(b)) * Pow10(Places(a))
  }

  lemma MulRegroup(a: nat, b: nat, c: nat, d: nat)
    ensures (a * b + c) * d == a * (b * d) + c * d
  {
    assert (a * b) * d == a * (b * d);
  }

  /** The two-part sum the code computes is the value of the digits taken as one numeral. */
  lemma ScaledSum(s: string, decimals: nat)
    requires IsDecimal(s) && Places(s) <= decimals
    ensures var (whole, frac) := SplitDot(s);
      Scaled(s, decimals) == Value(whole) * Pow10(decimals) + Value(frac) * Pow10(decimals - |frac|)
  {
    var (whole, frac) := SplitDot(s);
    ValueConcat(whole, frac);
    Pow10Sum(|frac|, decimals - |frac|);
    MulRegroup(Value(whole), Pow10(|frac|), Value(frac), Pow10(decimals - |frac|));
  }
}
