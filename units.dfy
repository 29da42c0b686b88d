/** The optional-value wrapper used across the model. */
module Wrappers {
  datatype Option<+T> = None | Some(value: T)
}

/** Exact decimal amounts and the conversion between human-readable token
    amounts and integer base units (`ethers.parseUnits` / `formatUnits`).
    The library's own code is not part of this model; the functions here are
    exact integer stand-ins with the behaviour the scripts rely on. */
module Units {
  import opened Wrappers

  /** 10^n. */
  function Pow10(n: nat): (r: nat)
    ensures r >= 1
  {
    if n == 0 then 1 else 10 * Pow10(n - 1)
  }

  lemma {:induction false} Pow10Add(a: nat, b: nat)
    ensures Pow10(a + b) == Pow10(a) * Pow10(b)
    decreases a
  {
    if a > 0 {
      Pow10Add(a - 1, b);
      assert Pow10(a + b) == 10 * Pow10(a - 1 + b);
    }
  }

  /** A token's `decimals()` value: a Solidity `uint8`. */
  type Uint8 = x: nat | x < 256

  /** Decimal places of the gwei unit (`parseUnits(x, 'gwei')`). */
  const GWEI_DECIMALS: nat := 9

  /** An exact non-negative decimal number, `mantissa / 10^fractionDigits`. */
  datatype Decimal = Decimal(mantissa: nat, fractionDigits: nat)

  /** Two decimals denote the same rational number. */
  predicate SameValue(x: Decimal, y: Decimal)
  {
    x.mantissa * Pow10(y.fractionDigits) == y.mantissa * Pow10(x.fractionDigits)
  }

  /** Result of converting an amount to base units: exact, or refused because
      the amount has non-zero digits below the token's smallest unit. */
  datatype Conversion = Exact(units: nat) | TooManyDecimals

  /** A common power-of-ten factor cancels. */
  lemma {:induction false} Pow10Cancel(x: nat, y: nat, n: nat)
    requires x * Pow10(n) == y * Pow10(n)
    ensures x == y
    decreases n
  {
    if n > 0 {
      ShiftTen(x, n);
      ShiftTen(y, n);
      Pow10Cancel(10 * x, 10 * y, n - 1);
    }
  }

  lemma ShiftTen(x: nat, n: nat)
    requires n > 0
    ensures x * Pow10(n) == (10 * x) * Pow10(n - 1) == 10 * (x * Pow10(n - 1))
  {
    assert Pow10(n) == 10 * Pow10(n - 1);
  }

  lemma Rescale(x: nat, a: nat, b: nat)
    ensures (x * Pow10(a)) * Pow10(b) == x * Pow10(a + b)
  {
    Pow10Add(a, b);
  }

  /** `parseUnits(amount, decimals)`: the base-unit integer whose value is the
      amount scaled by 10^decimals. Digits beyond the token's precision are
      accepted only when they are zeros; otherwise the amount is refused. */
  function ParseUnits(amount: Decimal, decimals: nat): (r: Conversion)
    ensures r.Exact? ==> r.units * Pow10(amount.fractionDigits) == amount.mantissa * Pow10(decimals)
    ensures amount.fractionDigits <= decimals ==> r.Exact?
    decreases amount.fractionDigits
  {
    var m, f := amount.mantissa, amount.fractionDigits;
    if f <= decimals then
      Rescale(m, decimals - f, f);
      Exact(m * Pow10(decimals - f))
    else if m % 10 == 0 then
      var r := ParseUnits(Decimal(m / 10, f - 1), decimals);
      if r.Exact? then
        ShiftTen(r.units, f);
        ShiftTen(m / 10, decimals + 1);
        ShiftTen(m / 10 * Pow10(decimals), 1);
        r
      else
        r
    else
      TooManyDecimals
  }

  /** The conversion is exact in both directions: it yields `units` exactly
      when `units` base units carry the amount's value, so it refuses only
      amounts that no whole number of base units represents. */
  lemma {:induction false} ParseUnitsIff(amount: Decimal, decimals: nat, units: nat)
    ensures ParseUnits(amount, decimals) == Exact(units)
        <==> units * Pow10(amount.fractionDigits) == amount.mantissa * Pow10(decimals)
    decreases amount.fractionDigits
  {
    var m, f := amount.mantissa, amount.fractionDigits;
    if units * Pow10(f) == m * Pow10(decimals) {
      if f <= decimals {
        Rescale(m, decimals - f, f);
        Pow10Cancel(units, m * Pow10(decimals - f), f);
      } else {
        var k := f - 1 - decimals;
        ShiftTen(units, f);
        Rescale(10 * units, k, decimals);
        Pow10Cancel((10 * units) * Pow10(k), m, decimals);
        ShiftTen(units, k + 1);
        assert m == 10 * (units * Pow10(k));
        Rescale(units, k, decimals);
        ParseUnitsIff(Decimal(m / 10, f - 1), decimals, units);
      }
    }
  }

  /** `formatUnits(units, decimals)`: the human-readable value of a base-unit
      integer. Formatting and parsing back gives the same integer. */
  function FormatUnits(units: nat, decimals: nat): (r: Decimal)
    ensures ParseUnits(r, decimals) == Exact(units)
  {
    Decimal(units, decimals)
  }

  /** Converting to base units and formatting back preserves the value. */
  lemma ParseFormatRoundTrip(amount: Decimal, decimals: nat)
    requires ParseUnits(amount, decimals).Exact?
    ensures SameValue(FormatUnits(ParseUnits(amount, decimals).units, decimals), amount)
  {
  }

  predicate IsDigit(c: char)
  {
    '0' <= c <= '9'
  }

  predicate AllDigits(s: string)
  {
    forall i :: 0 <= i < |s| ==> IsDigit(s[i])
  }

  /** The value of a string of decimal digits. */
  function DigitsValue(s: string): nat
    requires AllDigits(s)
    decreases |s|
  {
    if s == [] then 0 else DigitsValue(s[..|s| - 1]) * 10 + (s[|s| - 1] as int - '0' as int)
  }

  /** Position of the first '.', or |s| when there is none. */
  function DotIndex(s: string): (k: nat)
    ensures k <= |s|
    ensures k < |s| ==> s[k] == '.'
    ensures forall i :: 0 <= i < k ==> s[i] != '.'
  {
    if s == [] || s[0] == '.' then 0 else 1 + DotIndex(s[1..])
  }

  /** Reads a decimal text such as "20" or "1.5" (digits, optionally a '.'
      and more digits, at least one digit in all) as an exact decimal. */
  function ParseDecimalText(s: string): (r: Option<Decimal>)
    ensures r.Some? ==> r.value.fractionDigits < |s|
    ensures r.Some? && DotIndex(s) == |s| ==> r.value.fractionDigits == 0 && AllDigits(s)
    ensures r.Some? ==> forall i :: 0 <= i < |s| && i != DotIndex(s) ==> IsDigit(s[i])
  {
    var k := DotIndex(s);
    var whole := s[..k];
    var fraction := if k < |s| then s[k + 1..] else "";
    if AllDigits(whole) && AllDigits(fraction) && |whole| + |fraction| > 0 then
      assert |fraction| < |s|;
      Some(Decimal(DigitsValue(whole + fraction), |fraction|))
    else
      None
  }

  function DigitChar(d: nat): (c: char)
    requires d < 10
    ensures IsDigit(c) && c as int - '0' as int == d
  {
    ('0' as int + d) as char
  }

  /** The decimal rendering of a natural number. */
  function NatText(n: nat): (s: string)
    ensures |s| > 0 && AllDigits(s)
    decreases n
  {
    if n < 10 then [DigitChar(n)] else NatText(n / 10) + [DigitChar(n % 10)]
  }

  lemma {:induction false} DigitsValueNatText(n: nat)
    ensures DigitsValue(NatText(n)) == n
    decreases n
  {
    var s := NatText(n);
    if n >= 10 {
      DigitsValueNatText(n / 10);
      assert s[..|s| - 1] == NatText(n / 10);
    } else {
      assert s[..|s| - 1] == [];
    }
  }

  /** The value of digits followed by more digits. */
  lemma {:induction false} DigitsValueAppend(a: string, b: string)
    requires AllDigits(a) && AllDigits(b)
    ensures AllDigits(a + b)
    ensures DigitsValue(a + b) == DigitsValue(a) * Pow10(|b|) + DigitsValue(b)
    decreases |b|
  {
    if b != [] {
      var b' := b[..|b| - 1];
      assert (a + b)[..|a + b| - 1] == a + b';
      DigitsValueAppend(a, b');
      ShiftTen(DigitsValue(a), |b|);
    } else {
      assert a + b == a;
    }
  }

  /** In a text of digits, a '.' and anything after, the first '.' is the one
      after the digits. */
  lemma {:induction false} DotIndexAfterDigits(a: string, b: string)
    requires AllDigits(a)
    ensures DotIndex(a + "." + b) == |a|
    decreases |a|
  {
    if a != [] {
      assert (a + "." + b)[1..] == a[1..] + "." + b;
      DotIndexAfterDigits(a[1..], b);
    }
  }

  /** Digits, a '.' and more digits (at least one digit in all) read as the
      exact decimal they denote: "020.50" is 2050 hundredths, ".5" is 5 tenths.
      The mantissa is the value of all the digits, the whole part shifted past
      the fraction. */
  lemma ParseFractionText(a: string, f: string)
    requires AllDigits(a) && AllDigits(f) && |a| + |f| > 0
    ensures AllDigits(a + f)
    ensures ParseDecimalText(a + "." + f) == Some(Decimal(DigitsValue(a + f), |f|))
    ensures DigitsValue(a + f) == DigitsValue(a) * Pow10(|f|) + DigitsValue(f)
  {
    SplitAtDot(a, f);
    DigitsValueAppend(a, f);
  }

  /** A nonempty digit string reads as the whole number it denotes. */
  lemma ParseDigitsText(a: string)
    requires AllDigits(a) && |a| > 0
    ensures ParseDecimalText(a) == Some(Decimal(DigitsValue(a), 0))
  {
    DotIndexOfDigits(a);
    assert a[..|a|] + "" == a;
  }

  lemma {:induction false} DotIndexOfDigits(a: string)
    requires AllDigits(a)
    ensures DotIndex(a) == |a|
    decreases |a|
  {
    if a != [] {
      DotIndexOfDigits(a[1..]);
    }
  }

  lemma SplitAtDot(a: string, b: string)
    requires AllDigits(a)
    ensures var s := a + "." + b;
            DotIndex(s) == |a| && s[..|a|] == a && s[|a| + 1..] == b
  {
    DotIndexAfterDigits(a, b);
    var s := a + "." + b;
    assert s[..|a|] == a;
    assert s[|a| + 1..] == b;
  }

  /** A whole number written in decimal reads back as itself. */
  lemma ParseNatText(n: nat)
    ensures ParseDecimalText(NatText(n)) == Some(Decimal(n, 0))
  {
    var s := NatText(n);
    assert DotIndex(s) == |s|;
    assert s[..|s|] + "" == s;
    DigitsValueNatText(n);
  }
}
