/** Dollar text to base units, in exact integer arithmetic with the bounds of u128. */
module Amount {
  import opened Prelude
  import opened Text
  import opened Numerals

  datatype AmountError =
    | Empty
    | InvalidFormat(text: string)
    | TooManyDecimals(given: nat, max: nat)
    | ZeroOrNegative
    | Overflow

  function CheckedMul(a: nat, b: nat): Option<nat> { if a * b <= U128_MAX then Some(a * b) else None }

  function CheckedAdd(a: nat, b: nat): Option<nat> { if a + b <= U128_MAX then Some(a + b) else None }

  /** `str::parse::<u128>` on digits; the empty string reads as 0 as both callers want. */
  function ParseU128(digits: string): Option<nat>
    requires AllDigits(digits)
  {
    if Value(digits) <= U128_MAX then Some(Value(digits)) else None
  }

  function ParseDollarAmount(text: string, decimals: nat): Result<string, AmountError> {
    var amount := Trim(text);
    if amount == "" then Err(Empty)
    else if amount[0] == '-' then Err(ZeroOrNegative)
    else
      var (whole, frac) := SplitDot(amount);
      if whole == "" && frac == "" then Err(InvalidFormat(amount))
      else if !AllDigits(whole) || !AllDigits(frac) then Err(InvalidFormat(amount))
      else if |frac| > decimals then Err(TooManyDecimals(|frac|, decimals))
      else if ParseU128(whole).None? || ParseU128(frac).None? then Err(InvalidFormat(amount))
      else if decimals > 38 then Err(Overflow)
      else ScaleUp(Value(whole), Value(frac), Pow10(decimals), Pow10(decimals - |frac|))
  }

  /** `whole * scale + frac * fracScale`, every step checked. */
  function ScaleUp(whole: nat, frac: nat, scale: nat, fracScale: nat): Result<string, AmountError> {
    match CheckedMul(whole, scale)
    case None => Err(Overflow)
    case Some(v) =>
      match CheckedMul(frac, fracScale)
      case None => Err(Overflow)
      case Some(f) =>
        match CheckedAdd(v, f)
        case None => Err(Overflow)
        case Some(units) => Ok(ToDecimal(units))
  }

  // ---------------------------------------------------------------- meaning

  lemma Pow38Bound()
    ensures Pow10(38) == 100_000_000_000_000_000_000_000_000_000_000_000_000
    ensures Pow10(38) <= U128_MAX
  {
    assert Pow10(3) == 1_000 && Pow10(8) == 100_000 * Pow10(3);
    Pow10Sum(8, 8);
    Pow10Sum(16, 16);
    Pow10Sum(32, 3);
    Pow10Sum(35, 3);
  }

  /** For up to 38 decimals neither the fraction nor its scaled value can exceed u128. */
  lemma FractionFits(frac: string, decimals: nat)
    requires AllDigits(frac) && |frac| <= decimals <= 38
    ensures Value(frac) <= U128_MAX
    ensures Value(frac) * Pow10(decimals - |frac|) < Pow10(decimals) <= U128_MAX
  {
    ValueBound(frac);
    Pow10Sum(|frac|, decimals - |frac|);
    Pow10Monotone(decimals, 38);
    Pow38Bound();
    MulBelow(Value(frac), Pow10(|frac|), Pow10(decimals - |frac|));
    MulAtLeast(Value(frac), Pow10(decimals - |frac|));
  }

  lemma MulBelow(a: nat, b: nat, c: nat)
    requires a < b && c >= 1
    ensures a * c < b * c
  {
  }

  lemma MulAtLeast(a: nat, c: nat)
    requires c >= 1
    ensures a <= a * c
  {
  }

  /** The texts and scales `ParseDollarAmount` accepts. */
  predicate Accepted(text: string, decimals: nat) {
    var s := Trim(text);
    IsDecimal(s) && Places(s) <= decimals <= 38 && Scaled(s, decimals) <= U128_MAX
  }

  /** Success exactly on the accepted texts, and then the canonical numeral of the scaled value. */
  lemma ParseMeaning(text: string, decimals: nat)
    ensures ParseDollarAmount(text, decimals).Ok? <==> Accepted(text, decimals)
    ensures Accepted(text, decimals) ==>
      ParseDollarAmount(text, decimals) == Ok(ToDecimal(Scaled(Trim(text), decimals)))
  {
    hide Trim, ToDecimal, Value, Pow10, Scaled;
    var s := Trim(text);
    var (whole, frac) := SplitDot(s);
    if s != "" && s[0] == '-' {
      DashIsNoDecimal(s);
    }
    if IsDecimal(s) && Places(s) <= decimals <= 38 {
      FractionFits(frac, decimals);
      ScaledSum(s, decimals);
      MulAtLeast(Value(whole), Pow10(decimals));
    }
  }

  /**
    Every refusal names its reason: too many places come before a number too large to read, and
    that before one whose scaled value is too large.
   */
  lemma RefusedExactly(text: string, decimals: nat, given: nat, max: nat, shown: string)
    ensures var r, s := ParseDollarAmount(text, decimals), Trim(text);
      var (whole, frac) := SplitDot(s);
      var readable := IsDecimal(s) && Value(whole) <= U128_MAX && Value(frac) <= U128_MAX;
      && (r == Err(Empty) <==> s == "")
      && (r == Err(ZeroOrNegative) <==> s != "" && s[0] == '-')
      && (r == Err(TooManyDecimals(given, max)) <==> IsDecimal(s) && given == Places(s) > decimals == max)
      && (r == Err(Overflow)
          <==> readable && Places(s) <= decimals && (decimals > 38 || Scaled(s, decimals) > U128_MAX))
      && (r == Err(InvalidFormat(shown))
          <==> shown == s != "" && s[0] != '-' && !readable && (IsDecimal(s) ==> Places(s) <= decimals))
  {
    hide Trim, ToDecimal, Value, Pow10, Scaled;
    var s := Trim(text);
    if s != "" && s[0] == '-' {
      DashIsNoDecimal(s);
    }
    if IsDecimal(s) && Places(s) <= decimals {
      ScaledSum(s, decimals);
    }
  }

  lemma DashIsNoDecimal(s: string)
    requires s != "" && s[0] == '-'
    ensures !IsDecimal(s)
  {
    var (whole, frac) := SplitDot(s);
    assert whole[0] == '-';
  }

  /** Texts of equal value give equal strings, texts of different value different ones. */
  lemma EqualValueEqualText(a: string, b: string, decimals: nat)
    requires Accepted(a, decimals) && Accepted(b, decimals)
    ensures SameValue(Trim(a), Trim(b)) <==> ParseDollarAmount(a, decimals) == ParseDollarAmount(b, decimals)
  {
    hide Trim, ToDecimal, Value, Pow10, IsDecimal, SplitDot;
    ParseMeaning(a, decimals);
    ParseMeaning(b, decimals);
    var s, t := Trim(a), Trim(b);
    CrossScale(Value(Digits(s)), Value(Digits(t)), Places(s), Places(t), decimals);
    assert Value(ToDecimal(Scaled(s, decimals))) == Scaled(s, decimals);
    assert Value(ToDecimal(Scaled(t, decimals))) == Scaled(t, decimals);
  }

  /** x / 10^m == y / 10^n read at a common scale d >= m, n. */
  lemma CrossScale(x: nat, y: nat, m: nat, n: nat, d: nat)
    requires m <= d && n <= d
    ensures x * Pow10(n) == y * Pow10(m) <==> x * Pow10(d - m) == y * Pow10(d - n)
  {
    Pow10Sum(m, d - m);
    Pow10Sum(n, d - n);
    var pm, pn, am, an := Pow10(m), Pow10(n), Pow10(d - m), Pow10(d - n);
    assert pm * am == pn * an;
    CrossMultiply(x, y, pm, pn, am, an);
  }

  lemma CrossMultiply(x: nat, y: nat, pm: nat, pn: nat, am: nat, an: nat)
    requires pm >= 1 && pn >= 1 && am >= 1 && an >= 1
    requires pm * am == pn * an
    ensures x * pn == y * pm <==> x * am == y * an
  {
    // x*pn*an = x*pm*am and y*pm*an: cancel a positive factor in each direction
    assert (x * pn) * an == x * (pm * am) == (x * am) * pm;
    assert (y * pm) * an == (y * an) * pm;
    if x * pn == y * pm {
      CancelRight(x * am, y * an, pm);
    }
    if x * am == y * an {
      CancelRight(x * pn, y * pm, an);
    }
  }

  lemma CancelRight(a: nat, b: nat, c: nat)
    requires c >= 1 && a * c == b * c
    ensures a == b
  {
    if a < b {
      MulBelow(a, b, c);
    } else if b < a {
      MulBelow(b, a, c);
    }
  }
}
