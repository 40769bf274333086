/**
 * Decimal text and numbers: `String(n)` for whole numbers and the part of
 * JavaScript's `parseFloat` the grading relies on, on exact rationals. A
 * parsed finite number is `num / den` with `den >= 1`.
 */
module Numbers {
  import opened Text

  predicate IsDigit(c: char) {
    '0' <= c <= '9'
  }

  predicate AllDigits(s: string) {
    forall i :: 0 <= i < |s| ==> IsDigit(s[i])
  }

  function DigitValue(c: char): nat
    requires IsDigit(c)
  {
    c as int - '0' as int
  }

  function DigitChar(d: nat): (c: char)
    requires d < 10
    ensures IsDigit(c) && DigitValue(c) == d
  {
    ('0' as int + d) as char
  }

  /** The number a string of decimal digits denotes. */
  function DigitsValue(ds: string): nat
    requires AllDigits(ds)
  {
    if ds == [] then 0 else DigitsValue(ds[..|ds| - 1]) * 10 + DigitValue(ds[|ds| - 1])
  }

  /** Appending two digits multiplies by a hundred and adds them. */
  lemma DigitsValueTwoMore(ds: string, d1: nat, d2: nat)
    requires AllDigits(ds) && d1 < 10 && d2 < 10
    ensures AllDigits(ds + [DigitChar(d1), DigitChar(d2)])
    ensures DigitsValue(ds + [DigitChar(d1), DigitChar(d2)]) == DigitsValue(ds) * 100 + d1 * 10 + d2
  {
    var one := ds + [DigitChar(d1)];
    var two := one + [DigitChar(d2)];
    assert two == ds + [DigitChar(d1), DigitChar(d2)];
    assert two[..|two| - 1] == one;
    assert one[..|one| - 1] == ds;
  }

  /** `String(n)` for a whole number: its decimal digits, which denote `n`,
      with no leading zero except in "0" itself. */
  function NatText(n: nat): (r: string)
    ensures |r| >= 1 && AllDigits(r)
    ensures DigitsValue(r) == n
    ensures r[0] == '0' <==> n == 0
  {
    if n < 10 then [DigitChar(n)]
    else
      var r := NatText(n / 10) + [DigitChar(n % 10)];
      assert r[..|r| - 1] == NatText(n / 10);
      r
  }

  /** The run of digits at the front of `s`. */
  function DigitPrefix(s: string): (r: string)
    ensures |r| <= |s| && r == s[..|r|] && AllDigits(r)
    ensures |r| == |s| || !IsDigit(s[|r|])
  {
    if s != [] && IsDigit(s[0]) then [s[0]] + DigitPrefix(s[1..]) else []
  }

  /** Digits followed by a non-digit: the digit prefix is exactly those digits. */
  lemma {:induction false} DigitPrefixOf(ds: string, rest: string)
    requires AllDigits(ds) && (rest == [] || !IsDigit(rest[0]))
    ensures DigitPrefix(ds + rest) == ds
  {
    if ds != [] {
      assert (ds + rest)[1..] == ds[1..] + rest;
      DigitPrefixOf(ds[1..], rest);
    } else {
      assert ds + rest == rest;
    }
  }

  function Pow10(k: nat): (r: nat)
    ensures r >= 1
  {
    if k == 0 then 1 else 10 * Pow10(k - 1)
  }

  /** What `parseFloat` yields: not a number, an infinity, or a finite value
      `num / den`. */
  datatype Number = NaN | Infinite(negative: bool) | Finite(num: int, den: nat)

  /** The value of an exponent part `e[+|-]digits` at the front of `s`; zero
      when there is none, the `e` then not being part of the number. */
  function Exponent(s: string): int {
    if |s| >= 2 && (s[0] == 'e' || s[0] == 'E') then
      var signed := s[1] == '+' || s[1] == '-';
      var digits := DigitPrefix(if signed then s[2..] else s[1..]);
      if digits == [] then 0
      else if s[1] == '-' then 0 - DigitsValue(digits) as int
      else DigitsValue(digits)
    else 0
  }

  /** `parseFloat`: skips leading whitespace, reads an optional sign and then
      `Infinity` or the longest decimal literal (digits, an optional point
      and digits, an optional exponent) at the front; anything after it is
      ignored, and text with no such literal is not a number. */
  function ParseFloat(s: string): (r: Number)
    ensures r.Finite? ==> r.den >= 1
  {
    var t := TrimStart(s);
    var u := Unsigned(t);
    if StartsWithInfinity(u) then Infinite(IsNegative(t))
    else ParseUnsigned(u, IsNegative(t))
  }

  /** A minus sign in front. */
  predicate IsNegative(t: string) {
    t != [] && t[0] == '-'
  }

  /** The text after a sign in front, if any. */
  function Unsigned(t: string): (u: string)
    ensures |u| <= |t|
  {
    if t != [] && (t[0] == '-' || t[0] == '+') then t[1..] else t
  }

  predicate StartsWithInfinity(u: string) {
    |u| >= 8 && u[..8] == "Infinity"
  }

  /** The decimal literal at the front of `u`, after the sign. */
  function ParseUnsigned(u: string, negative: bool): (r: Number)
    ensures r.Finite? ==> r.den >= 1
  {
    var intDigits := DigitPrefix(u);
    var rest := u[|intDigits|..];
    var fracDigits := FractionDigits(rest);
    if intDigits == [] && fracDigits == [] then NaN
    else
      var mantissa := DigitsValue(intDigits + fracDigits);
      var signed: int := if negative then 0 - mantissa as int else mantissa;
      var scale := Exponent(AfterFraction(rest)) - |fracDigits|;
      if scale >= 0 then Finite(signed * Pow10(scale), 1)
      else Finite(signed, Pow10(-scale))
  }

  /** The digits after a decimal point at the front of `rest`, if any. */
  function FractionDigits(rest: string): (r: string)
    ensures AllDigits(r)
  {
    if rest != [] && rest[0] == '.' then DigitPrefix(rest[1..]) else []
  }

  /** What follows the point and its digits. */
  function AfterFraction(rest: string): string {
    if rest != [] && rest[0] == '.' then rest[1 + |DigitPrefix(rest[1..])|..] else rest
  }

  /** An amount in cents written with a point and two decimals, as in
      "1200.00" or "-0.05". */
  function ToFixed2(cents: int): string {
    var m: nat := if cents < 0 then -cents else cents;
    (if cents < 0 then "-" else "") + FixedDigits(m)
  }

  /** The digits of a non-negative amount of cents with the point before the
      last two. */
  function FixedDigits(m: nat): string {
    NatText(m / 100) + "." + [DigitChar(m % 100 / 10), DigitChar(m % 10)]
  }

  /** An amount written with two decimals has a point and no comma. */
  lemma NoCommaInFixed2(cents: int)
    ensures ',' !in ToFixed2(cents)
  {
    var m: nat := if cents < 0 then -cents else cents;
    var whole := NatText(m / 100);
    assert ',' !in whole;
    assert ToFixed2(cents) == (if cents < 0 then "-" else "") + whole + "." + [DigitChar(m % 100 / 10), DigitChar(m % 10)];
  }

  /** Reading back an amount written with two decimals gives that amount:
      `parseFloat` of "1200.50" is 120050 hundredths. */
  lemma ParseFixed2(cents: int)
    ensures ParseFloat(ToFixed2(cents)) == Finite(cents, 100)
  {
    var m: nat := if cents < 0 then -cents else cents;
    var sign := if cents < 0 then "-" else "";
    ParseFixedDigits(m);
    SignedLiteral(sign, FixedDigits(m));
  }

  /** The unsigned text of `ToFixed2` reads back as the amount. */
  lemma ParseFixedDigits(m: nat)
    ensures FixedDigits(m) != [] && IsDigit(FixedDigits(m)[0])
    ensures forall negative: bool ::
      ParseUnsigned(FixedDigits(m), negative) == Finite(if negative then -(m as int) else m as int, 100)
  {
    var whole := NatText(m / 100);
    var d1, d2 := m % 100 / 10, m % 10;
    ParseFixedUnsigned(whole, d1, d2);
    assert DigitsValue(whole) * 100 + d1 * 10 + d2 == m by {
      Digits100(m);
    }
  }

  /** A whole number is its hundreds, tens and units put back together. */
  lemma Digits100(m: nat)
    ensures m / 100 * 100 + m % 100 / 10 * 10 + m % 10 == m
  {
    var h, t := m / 100, m % 100;
    var q, u := t / 10, t % 10;
    assert m == 100 * h + t;
    assert t == 10 * q + u;
    LastDigit(10 * h + q, u);
    assert m == 10 * (10 * h + q) + u;
  }

  /** The last digit of `10 * a + b` is `b`. */
  lemma LastDigit(a: int, b: int)
    requires 0 <= b < 10
    ensures (10 * a + b) % 10 == b
  {
  }

  /** A literal that starts with a digit, with no sign or a minus in front,
      is read by `ParseUnsigned`. */
  lemma SignedLiteral(sign: string, u: string)
    requires sign == "" || sign == "-"
    requires u != [] && IsDigit(u[0])
    ensures ParseFloat(sign + u) == ParseUnsigned(u, sign == "-")
  {
    var s := sign + u;
    assert !IsJsWhitespace(s[0]);
    assert TrimStart(s) == s;
    if sign == "-" {
      assert s[1..] == u;
    } else {
      assert s == u;
    }
    assert Unsigned(s) == u;
    assert IsNegative(s) == (sign == "-");
    assert !StartsWithInfinity(u) by {
      assert u[0] != 'I';
    }
  }

  /** The unsigned part of `ParseFixed2`. */
  lemma ParseFixedUnsigned(whole: string, d1: nat, d2: nat)
    requires AllDigits(whole) && |whole| >= 1 && d1 < 10 && d2 < 10
    ensures forall negative: bool ::
      var v := DigitsValue(whole) * 100 + d1 * 10 + d2;
      ParseUnsigned(whole + "." + [DigitChar(d1), DigitChar(d2)], negative)
        == Finite(if negative then -v else v, 100)
  {
    var frac := [DigitChar(d1), DigitChar(d2)];
    var u := whole + "." + frac;
    assert u == whole + ("." + frac);
    DigitPrefixOf(whole, "." + frac);
    var rest := u[|whole|..];
    assert rest == "." + frac;
    assert rest[1..] == frac + [];
    DigitPrefixOf(frac, []);
    assert FractionDigits(rest) == frac;
    assert AfterFraction(rest) == [];
    DigitsValueTwoMore(whole, d1, d2);
    assert Pow10(2) == 100;
  }

  /** A run of digits reads back as the whole number it denotes. */
  lemma ParseWhole(ds: string)
    requires AllDigits(ds) && |ds| >= 1
    ensures ParseFloat(ds) == Finite(DigitsValue(ds), 1)
  {
    ParseWholeUnsigned(ds);
    SignedLiteral("", ds);
    assert "" + ds == ds;
  }

  /** The unsigned part of `ParseWhole`. */
  lemma ParseWholeUnsigned(ds: string)
    requires AllDigits(ds) && |ds| >= 1
    ensures ParseUnsigned(ds, false) == Finite(DigitsValue(ds), 1)
  {
    DigitPrefixOf(ds, []);
    assert ds + [] == ds;
    assert ds[|ds|..] == [];
  }

  /** A number of tenths written with one decimal, as in "5.5". */
  function TenthsText(tenths: nat): string {
    NatText(tenths / 10) + "." + [DigitChar(tenths % 10)]
  }

  /** `TenthsText` has a point, and starts as its whole part does. */
  lemma TenthsTextShape(tenths: nat)
    ensures '.' in TenthsText(tenths)
    ensures TenthsText(tenths)[0] == NatText(tenths / 10)[0]
  {
    var ds := NatText(tenths / 10);
    assert TenthsText(tenths)[|ds|] == '.';
  }

  /** A number written with one decimal reads back as its tenths. */
  lemma ParseTenths(tenths: nat)
    ensures ParseFloat(TenthsText(tenths)) == Finite(tenths, 10)
  {
    ParseTenthsDigits(tenths);
    SignedLiteral("", TenthsText(tenths));
    assert "" + TenthsText(tenths) == TenthsText(tenths);
  }

  /** `TenthsText` starts with a digit and reads back as its tenths. */
  lemma ParseTenthsDigits(tenths: nat)
    ensures TenthsText(tenths) != [] && IsDigit(TenthsText(tenths)[0])
    ensures ParseUnsigned(TenthsText(tenths), false) == Finite(tenths, 10)
  {
    var ds := NatText(tenths / 10);
    ParseTenthsUnsigned(ds, tenths % 10);
  }

  /** The unsigned part of `ParseTenths`. */
  lemma ParseTenthsUnsigned(ds: string, d: nat)
    requires AllDigits(ds) && |ds| >= 1 && d < 10
    ensures forall negative: bool ::
      var v := DigitsValue(ds) * 10 + d;
      ParseUnsigned(ds + "." + [DigitChar(d)], negative) == Finite(if negative then -v else v, 10)
  {
    TenthsParts(ds, d);
    DigitsValueOneMore(ds, d);
    assert Pow10(1) == 10;
  }

  /** How `ParseUnsigned` splits digits, a point and one more digit. */
  lemma TenthsParts(ds: string, d: nat)
    requires AllDigits(ds) && d < 10
    ensures var u := ds + "." + [DigitChar(d)];
      && DigitPrefix(u) == ds
      && FractionDigits(u[|ds|..]) == [DigitChar(d)]
      && AfterFraction(u[|ds|..]) == []
  {
    var frac := [DigitChar(d)];
    var u := ds + "." + frac;
    assert u == ds + ("." + frac);
    DigitPrefixOf(ds, "." + frac);
    var rest := u[|ds|..];
    assert rest == "." + frac;
    assert rest[1..] == frac + [];
    DigitPrefixOf(frac, []);
  }

  /** Appending a digit multiplies by ten and adds it. */
  lemma DigitsValueOneMore(ds: string, d: nat)
    requires AllDigits(ds) && d < 10
    ensures AllDigits(ds + [DigitChar(d)])
    ensures DigitsValue(ds + [DigitChar(d)]) == DigitsValue(ds) * 10 + d
  {
    var all := ds + [DigitChar(d)];
    assert all[..|all| - 1] == ds;
  }

  /** A comma does not act as a decimal separator: "200,50" reads as 200. */
  lemma CommaEndsTheNumber()
    ensures ParseFloat("200,50") == Finite(200, 1)
  {
    SignedLiteral("", "200,50");
    assert "" + "200,50" == "200,50";
    CommaEndsTheDigits();
  }

  /** The literal of "200,50" stops at the comma. */
  lemma CommaEndsTheDigits()
    ensures ParseUnsigned("200,50", false) == Finite(200, 1)
  {
    var u := "200,50";
    DigitPrefixOf("200", ",50");
    assert u == "200" + ",50";
    assert u[3..] == ",50";
    assert FractionDigits(",50") == [];
    assert AfterFraction(",50") == ",50";
    assert Exponent(",50") == 0;
    TwoHundred();
    assert "200" + [] == "200";
  }

  lemma TwoHundred()
    ensures AllDigits("200") && DigitsValue("200") == 200
  {
    assert "200"[..2] == "20";
    assert "20"[..1] == "2";
    assert "2"[..0] == "";
  }

  /** Text with no digit in it is not a finite number. */
  lemma NoDigitsNoNumber(s: string)
    requires forall i :: 0 <= i < |s| ==> !IsDigit(s[i])
    ensures !ParseFloat(s).Finite?
  {
    var t := TrimStart(s);
    var u := Unsigned(t);
    var k := |s| - |u|;
    assert u == s[k..];
    if u != [] {
      assert u[0] == s[k];
      assert !IsDigit(u[0]);
    }
    assert DigitPrefix(u) == [];
    if |u| >= 2 && u[0] == '.' {
      assert u[1] == s[k + 1];
      assert DigitPrefix(u[1..]) == [];
    }
    assert FractionDigits(u[0..]) == [];
  }
}
