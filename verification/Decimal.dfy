/** Canonical decimal text: a printer for finite decimals and a parser that accepts exactly what the
    printer can print. Numbers are written in the ten digits, most significant first. */
module Digits {

  predicate IsDigit(c: char) {
    '0' <= c <= '9'
  }

  predicate AllDigits(s: string) {
    forall i :: 0 <= i < |s| ==> IsDigit(s[i])
  }

  function DigitChar(n: nat): (c: char)
    requires n < 10
    ensures IsDigit(c) && DigitValue(c) == n && (c == '0' <==> n == 0)
  {
    '0' + n as char
  }

  function DigitValue(c: char): (n: nat)
    requires IsDigit(c)
    ensures n < 10 && (n == 0 <==> c == '0')
  {
    (c - '0') as nat
  }

  lemma CharOfValue(c: char)
    requires IsDigit(c)
    ensures DigitChar(DigitValue(c)) == c
  {
  }

  /** The decimal representation of a natural number. */
  function NatText(n: nat): string {
    if n < 10 then [DigitChar(n)] else NatText(n / 10) + [DigitChar(n % 10)]
  }

  /** The number a string of digits stands for; leading zeros are allowed. */
  function Number(s: string): nat
    requires AllDigits(s)
  {
    if s == [] then 0 else Number(s[..|s| - 1]) * 10 + DigitValue(s[|s| - 1])
  }

  /** Digits without a superfluous leading zero. */
  predicate CanonicalNat(s: string) {
    s != [] && AllDigits(s) && (s[0] == '0' ==> |s| == 1)
  }

  lemma {:induction false} NatTextCanonical(n: nat)
    ensures CanonicalNat(NatText(n)) && Number(NatText(n)) == n && (n > 0 ==> NatText(n)[0] != '0')
  {
    if n >= 10 {
      NatTextCanonical(n / 10);
      assert NatText(n)[..|NatText(n)| - 1] == NatText(n / 10);
    } else {
      assert [DigitChar(n)][..0] == [];
    }
  }

  lemma {:induction false} NumberText(s: string)
    requires CanonicalNat(s)
    ensures NatText(Number(s)) == s && (s[0] != '0' ==> Number(s) > 0)
  {
    var init, last := s[..|s| - 1], s[|s| - 1];
    CharOfValue(last);
    if |s| > 1 {
      assert CanonicalNat(init) && init[0] == s[0];
      NumberText(init);
      assert Number(s) / 10 == Number(init) && Number(s) % 10 == DigitValue(last);
      assert s == init + [last];
    } else {
      assert s[..0] == [];
    }
  }

  function Zeros(n: nat): (s: string)
    ensures |s| == n && AllDigits(s) && forall i :: 0 <= i < n ==> s[i] == '0'
  {
    seq(n, _ => '0')
  }

  lemma {:induction false} LeadingZeros(n: nat, s: string)
    requires AllDigits(s)
    ensures AllDigits(Zeros(n) + s) && Number(Zeros(n) + s) == Number(s)
    decreases |s|, n
  {
    var z := Zeros(n) + s;
    if s == [] {
      if n > 0 {
        assert z[..n - 1] == Zeros(n - 1) + [];
        LeadingZeros(n - 1, []);
      }
    } else {
      assert z[..|z| - 1] == Zeros(n) + s[..|s| - 1];
      LeadingZeros(n, s[..|s| - 1]);
    }
  }

  function Pow10(n: nat): (p: nat)
    ensures p > 0
  {
    if n == 0 then 1 else 10 * Pow10(n - 1)
  }

  lemma {:induction false} TrailingZeros(s: string, n: nat)
    requires AllDigits(s)
    ensures AllDigits(s + Zeros(n)) && Number(s + Zeros(n)) == Number(s) * Pow10(n)
  {
    if n == 0 {
      assert s + Zeros(0) == s;
    } else {
      var z, a, p := s + Zeros(n), Number(s), Pow10(n - 1);
      assert z[..|z| - 1] == s + Zeros(n - 1) && z[|z| - 1] == '0';
      TrailingZeros(s, n - 1);
      assert Number(z) == (a * p) * 10;
      assert Pow10(n) == 10 * p;
      hide Number, Pow10;
      TimesTen(a, p);
    }
  }

  lemma TimesTen(a: nat, p: nat)
    ensures (a * p) * 10 == a * (10 * p)
  {
  }

  /** Canonical text of an integer, as in `str` and its inverse `int`. */
  function IntText(i: int): string {
    if i < 0 then "-" + NatText(-i) else NatText(i)
  }

  predicate CanonicalInt(s: string) {
    CanonicalNat(s) || (|s| > 1 && s[0] == '-' && CanonicalNat(s[1..]) && s[1] != '0')
  }

  function ParseInt(s: string): int
    requires CanonicalInt(s)
  {
    if s[0] == '-' then 0 - Number(s[1..]) else Number(s)
  }

  lemma IntRoundTrip(i: int)
    ensures CanonicalInt(IntText(i)) && ParseInt(IntText(i)) == i
  {
    if i < 0 {
      NatTextCanonical(-i);
      assert IntText(i)[1..] == NatText(-i);
    } else {
      NatTextCanonical(i);
    }
  }

  lemma ParseIntText(s: string)
    requires CanonicalInt(s)
    ensures IntText(ParseInt(s)) == s
  {
    if s[0] == '-' {
      NumberText(s[1..]);
      assert s == "-" + s[1..];
    } else {
      NumberText(s);
    }
  }
}

module Decimals {
  import opened Events
  import opened Digits

  const MAX_TEXT: nat := 1024 * 1024

  /** A decimal as sign, coefficient and exponent; the last two values are not finite. */
  datatype Decimal = Finite(negative: bool, coefficient: nat, exponent: int) | Infinite(below: bool) | NotANumber

  // ----- The printer -----

  /** Fixed-point notation of a nonzero coefficient, all of its digits written out. */
  function FixedPoint(c: nat, e: int): string
    requires c > 0
  {
    var d := NatText(c);
    if e >= 0 then d + Zeros(e)
    else if |d| > -e then d[..|d| + e] + "." + d[|d| + e..]
    else "0." + Zeros(-e - |d|) + d
  }

  function StripRight(s: string, c: char): string {
    if s != [] && s[|s| - 1] == c then StripRight(s[..|s| - 1], c) else s
  }

  function Unsigned(c: nat, e: int): string
    requires c > 0
  {
    var text := FixedPoint(c, e);
    if '.' in text then StripRight(StripRight(text, '0'), '.') else text
  }

  function Printed(d: Decimal): string
    requires d.Finite?
  {
    if d.coefficient == 0 then "0"
    else if d.negative then "-" + Unsigned(d.coefficient, d.exponent)
    else Unsigned(d.coefficient, d.exponent)
  }

  /** The canonical text, unless the value is not finite or the text too long. */
  function DecimalText(d: Decimal): Option<string> {
    if !d.Finite? || |Printed(d)| > MAX_TEXT || !CanonicalDecimal(Printed(d)) then None else Some(Printed(d))
  }

  // ----- The grammar and the parser -----

  function Point(s: string): nat {
    if s == [] || s[0] == '.' then 0 else 1 + Point(s[1..])
  }

  lemma PointIs(a: string, b: string)
    requires '.' !in a && (b == [] || b[0] == '.')
    ensures Point(a + b) == |a|
    decreases |a|
  {
    if a == [] {
      assert a + b == b;
    } else {
      assert (a + b)[1..] == a[1..] + b;
      PointIs(a[1..], b);
    }
  }

  lemma PointBound(s: string)
    ensures Point(s) <= |s| && '.' !in s[..Point(s)] && (Point(s) < |s| ==> s[Point(s)] == '.')
  {
    if s != [] && s[0] != '.' {
      PointBound(s[1..]);
      assert s[..Point(s)] == [s[0]] + s[1..][..Point(s[1..])];
    }
  }

  /** Digits before the point, and after it at least one digit, the last of them not zero. */
  predicate CanonicalUnsigned(s: string) {
    var p := Point(s);
    && p <= |s| && CanonicalNat(s[..p])
    && (p < |s| ==> p + 1 < |s| && AllDigits(s[p + 1..]) && s[|s| - 1] != '0')
  }

  function Body(s: string): string {
    if s != [] && s[0] == '-' then s[1..] else s
  }

  predicate CanonicalDecimal(s: string) {
    CanonicalUnsigned(Body(s))
  }

  /** The decimal a canonical text denotes. */
  function Parsed(s: string): (d: Decimal)
    requires CanonicalDecimal(s)
    ensures d.Finite?
  {
    var b := Body(s);
    var p := Point(b);
    if p == |b| then Finite(s[0] == '-', Number(b), 0)
    else Finite(s[0] == '-', NumberOf(b[..p] + b[p + 1..]), -(|b| - p - 1))
  }

  function NumberOf(s: string): nat
    requires AllDigits(s)
  {
    Number(s)
  }

  function FromWire(s: string): Option<Decimal> {
    if s == "-0" || !CanonicalDecimal(s) then None
    else if DecimalText(Parsed(s)) != Some(s) then None
    else Some(Parsed(s))
  }

  function Normalized(d: Decimal): Option<Decimal> {
    var text := DecimalText(d);
    if text.None? then None else Some(Parsed(text.value))
  }

  // ----- Text depends on the value only -----

  lemma NatTextShift(c: nat)
    requires c > 0
    ensures NatText(10 * c) == NatText(c) + "0" && |NatText(c)| > 0
  {
  }

  lemma LastDigit(c: nat)
    ensures NatText(c) != [] && NatText(c)[|NatText(c)| - 1] == DigitChar(c % 10)
  {
  }

  lemma NoPoint(s: string)
    requires AllDigits(s)
    ensures '.' !in s
  {
  }

  lemma StripSnoc(s: string, c: char)
    ensures StripRight(s + [c], c) == StripRight(s, c)
  {
    assert (s + [c])[..|s|] == s;
  }

  /** Moving a factor ten from the coefficient to the exponent does not show. */
  lemma ScaleText(c: nat, e: int)
    requires c > 0
    ensures Unsigned(10 * c, e) == Unsigned(c, e + 1)
  {
    var d := NatText(c);
    NatTextCanonical(c);
    NatTextShift(c);
    NoPoint(d);
    var x, y := FixedPoint(10 * c, e), FixedPoint(c, e + 1);
    if e >= 0 {
      assert d + "0" + Zeros(e) == d + Zeros(e + 1);
    } else if e == -1 {
      assert x == (d + ".") + "0" by { assert (d + "0")[..|d|] == d && (d + "0")[|d|..] == "0"; }
      assert y == d + Zeros(0) == d;
      StripSnoc(d + ".", '0');
      assert (d + ".")[|d|] == '.';
      StripSnoc(d, '.');
    } else {
      assert x == y + "0" by { FixedPointShift(c, e); }
      StripSnoc(y, '0');
      FixedPointHasPoint(c, e + 1);
      assert '.' in x;
    }
  }

  lemma FixedPointHasPoint(c: nat, e: int)
    requires c > 0 && e < 0
    ensures '.' in FixedPoint(c, e)
  {
    var d, t := NatText(c), FixedPoint(c, e);
    if |d| > -e { assert t[|d| + e] == '.'; } else { assert t[1] == '.'; }
  }

  lemma FixedPointShift(c: nat, e: int)
    requires c > 0 && e < -1
    ensures FixedPoint(10 * c, e) == FixedPoint(c, e + 1) + "0"
  {
    var d := NatText(c);
    NatTextShift(c);
    var k := |d| + e + 1;
    if k > 0 {
      assert (d + "0")[..k] == d[..k] && (d + "0")[k..] == d[k..] + "0";
    } else {
      assert -e - |d + "0"| == -(e + 1) - |d|;
    }
  }

  /** The coefficient without trailing zeros, and the exponent that goes with it. */
  function Normal(c: nat, e: int): (n: (nat, int))
    requires c > 0
    ensures n.0 > 0 && n.0 % 10 != 0
  {
    if c % 10 == 0 then Normal(c / 10, e + 1) else (c, e)
  }

  lemma {:induction false} NormalText(c: nat, e: int)
    requires c > 0
    ensures Unsigned(c, e) == Unsigned(Normal(c, e).0, Normal(c, e).1)
    decreases c
  {
    hide Unsigned;
    if c % 10 == 0 {
      assert 10 * (c / 10) == c;
      ScaleText(c / 10, e);
      NormalText(c / 10, e + 1);
    }
  }

  // ----- Parsing what was printed -----

  /** A normal coefficient with a nonnegative exponent prints as a plain natural number. */
  lemma PrintWhole(c: nat, e: nat)
    requires c > 0
    ensures Unsigned(c, e) == NatText(c) + Zeros(e) && CanonicalNat(Unsigned(c, e))
    ensures Number(Unsigned(c, e)) == c * Pow10(e) && Unsigned(c, e)[0] != '0'
  {
    NatTextCanonical(c);
    TrailingZeros(NatText(c), e);
    NoPoint(NatText(c) + Zeros(e));
  }

  /** What a text with a point looks like: digits, a point, digits that end in no zero. */
  predicate Fraction(t: string, p: nat, c: nat, e: int) {
    && p + 1 < |t| && |t| - p - 1 == -e && Point(t) == p
    && CanonicalNat(t[..p]) && AllDigits(t[p + 1..]) && t[|t| - 1] != '0'
    && AllDigits(t[..p] + t[p + 1..]) && Number(t[..p] + t[p + 1..]) == c
  }

  lemma PrintSplit(c: nat, e: int)
    requires c > 0 && c % 10 != 0 && e < 0 && |NatText(c)| > -e
    ensures var t := FixedPoint(c, e); Fraction(t, |NatText(c)| + e, c, e)
  {
    var d := NatText(c);
    NatTextCanonical(c);
    LastDigit(c);
    hide NatText, Number;
    var t, k := FixedPoint(c, e), |d| + e;
    NoPoint(d[..k]);
    PointIs(d[..k], "." + d[k..]);
    assert t == d[..k] + ("." + d[k..]);
    hide Point;
    assert t[..k] == d[..k] && t[k + 1..] == d[k..] && d[..k] + d[k..] == d;
    assert t[|t| - 1] == d[|d| - 1];
  }

  lemma PaddedParts(z: string, d: string)
    requires d != []
    ensures var t := "0." + z + d;
            t == "0" + ("." + (z + d)) && t[..1] == "0" && t[2..] == z + d && t[|t| - 1] == d[|d| - 1]
  {
  }

  /** The text "0." followed by zeros and the digits of a number. */
  lemma PaddedIsFraction(z: string, d: string, c: nat)
    requires z == Zeros(|z|) && CanonicalNat(d) && d[0] != '0' && d[|d| - 1] != '0' && Number(d) == c
    ensures Fraction("0." + z + d, 1, c, -(|z| + |d|))
  {
    PaddedParts(z, d);
    PointIs("0", "." + (z + d));
    LeadingZeros(1 + |z|, d);
    ZeroCons(|z|);
    Joined("0", z, d);
    assert AllDigits(z + d) by { LeadingZeros(|z|, d); }
    hide Number, Point, AllDigits, Zeros;
  }

  lemma PrintPadded(c: nat, e: int)
    requires c > 0 && c % 10 != 0 && e < 0 && |NatText(c)| <= -e
    ensures var t := FixedPoint(c, e); Fraction(t, 1, c, e)
  {
    NatTextCanonical(c);
    LastDigit(c);
    hide NatText, Number, Fraction;
    PaddedIsFraction(Zeros(-e - |NatText(c)|), NatText(c), c);
  }

  lemma NoStrip(s: string, c: char)
    requires s != [] && s[|s| - 1] != c
    ensures StripRight(s, c) == s
  {
  }

  /** With a negative exponent a normal coefficient prints as a fraction. */
  lemma PrintFraction(c: nat, e: int)
    requires c > 0 && c % 10 != 0 && e < 0
    ensures var t := Unsigned(c, e); Fraction(t, Point(t), c, e)
  {
    if |NatText(c)| > -e { PrintSplit(c, e); } else { PrintPadded(c, e); }
    hide FixedPoint, Point, Number, StripRight;
    var t := FixedPoint(c, e);
    FixedPointHasPoint(c, e);
    NoStrip(t, '0');
    assert t[|t| - 1] != '.' by { assert t[|t| - 1] == t[Point(t) + 1..][|t| - Point(t) - 2]; }
    NoStrip(t, '.');
  }

  lemma ParseWhole(t: string, n: nat)
    requires CanonicalNat(t) && Number(t) == n
    ensures CanonicalUnsigned(t) && t[0] != '-' && Parsed(t) == Finite(false, n, 0)
  {
    hide Number;
    NoPoint(t);
    PointIs(t, []);
    assert t + [] == t && t[..|t|] == t;
  }

  lemma ParseFraction(t: string, n: nat, e: int)
    requires Fraction(t, Point(t), n, e)
    ensures CanonicalUnsigned(t) && t[0] != '-' && t != "0" && Parsed(t) == Finite(false, n, e)
  {
    hide Number, Point;
    var p := Point(t);
    assert t[0] != '-' by { assert t[0] == t[..p][0] && IsDigit(t[..p][0]); }
    hide AllDigits, CanonicalNat;
    assert Body(t) == t;
    assert CanonicalUnsigned(t);
    assert |t| > 1;
  }

  /** Every printed magnitude is in the grammar, and parsing it gives the value back. */
  lemma PrintParses(c: nat, e: int)
    requires c > 0
    ensures var t := Unsigned(c, e);
            && CanonicalUnsigned(t) && t[0] != '-' && t != "0"
            && var d := Parsed(t);
               !d.negative && d.coefficient > 0 && Normal(d.coefficient, d.exponent) == Normal(c, e)
  {
    var n, f := Normal(c, e).0, Normal(c, e).1;
    NormalText(c, e);
    NormalShift(n, 0, f);
    if f >= 0 {
      PrintWhole(n, f);
      NormalShift(n, f, 0);
      hide Unsigned, Number, Normal, CanonicalUnsigned, Parsed, Pow10;
      ParseWhole(Unsigned(n, f), n * Pow10(f));
    } else {
      PrintFraction(n, f);
      hide Unsigned, Number, Normal, CanonicalUnsigned, Parsed, Fraction, Pow10;
      ParseFraction(Unsigned(n, f), n, f);
    }
  }

  lemma {:induction false} NormalShift(n: nat, f: nat, e: int)
    requires n > 0 && n % 10 != 0
    ensures n * Pow10(f) > 0 && Normal(n * Pow10(f), e) == (n, e + f)
    decreases f
  {
    if f > 0 {
      var p := Pow10(f - 1);
      assert n * (10 * p) == 10 * (n * p);
      NormalShift(n, f - 1, e + 1);
      assert (10 * (n * p)) / 10 == n * p && (10 * (n * p)) % 10 == 0;
    } else {
      assert n * 1 == n;
    }
  }

  // ----- Values -----

  /** The same number: both zero, or equal in sign and, brought to one exponent, in coefficient. */
  predicate SameValue(a: Decimal, b: Decimal)
    requires a.Finite? && b.Finite?
  {
    if a.coefficient == 0 || b.coefficient == 0 then a.coefficient == b.coefficient
    else a.negative == b.negative &&
         if a.exponent <= b.exponent then a.coefficient == b.coefficient * Pow10(b.exponent - a.exponent)
         else b.coefficient == a.coefficient * Pow10(a.exponent - b.exponent)
  }

  lemma {:induction false} ScaledNormal(c: nat, e: int, k: nat)
    requires c > 0
    ensures c * Pow10(k) > 0 && Normal(c * Pow10(k), e) == Normal(c, e + k)
    decreases k
  {
    if k > 0 {
      var p := Pow10(k - 1);
      assert c * (10 * p) == 10 * (c * p);
      ScaledNormal(c, e + 1, k - 1);
      assert (10 * (c * p)) / 10 == c * p && (10 * (c * p)) % 10 == 0;
    } else {
      assert c * 1 == c;
    }
  }

  lemma {:induction false} NormalValue(c: nat, e: int)
    requires c > 0
    ensures var n := Normal(c, e); n.1 >= e && c == n.0 * Pow10(n.1 - e)
    decreases c
  {
    if c % 10 == 0 {
      NormalValue(c / 10, e + 1);
      var n := Normal(c, e);
      var p := Pow10(n.1 - e - 1);
      assert 10 * (n.0 * p) == n.0 * (10 * p);
    }
  }

  lemma Pow10Sum(m: nat, n: nat)
    ensures Pow10(m + n) == Pow10(m) * Pow10(n)
  {
    if m > 0 {
      Pow10Sum(m - 1, n);
      assert 10 * (Pow10(m - 1) * Pow10(n)) == (10 * Pow10(m - 1)) * Pow10(n);
    }
  }

  lemma Associative(x: nat, y: nat, z: nat)
    ensures (x * y) * z == x * (y * z)
  {
  }

  lemma EqualNormalScales(c: nat, e: int, b: nat, k: nat)
    requires c > 0 && b > 0 && Normal(c, e) == Normal(b, e + k)
    ensures c == b * Pow10(k)
  {
    NormalValue(c, e);
    NormalValue(b, e + k);
    var n := Normal(c, e);
    Pow10Sum(n.1 - e - k, k);
    hide Pow10, Normal;
    Associative(n.0, Pow10(n.1 - e - k), Pow10(k));
  }

  /** Two nonzero magnitudes are the same number exactly when their normal forms agree. */
  lemma SameNormal(a: Decimal, b: Decimal)
    requires a.Finite? && b.Finite? && a.coefficient > 0 && b.coefficient > 0 && a.exponent <= b.exponent
    ensures a.coefficient == b.coefficient * Pow10(b.exponent - a.exponent) <==>
            Normal(a.coefficient, a.exponent) == Normal(b.coefficient, b.exponent)
  {
    hide Pow10, Normal;
    var k := b.exponent - a.exponent;
    ScaledNormal(b.coefficient, a.exponent, k);
    if Normal(a.coefficient, a.exponent) == Normal(b.coefficient, b.exponent) {
      EqualNormalScales(a.coefficient, a.exponent, b.coefficient, k);
    }
  }

  lemma ValueIsNormal(a: Decimal, b: Decimal)
    requires a.Finite? && b.Finite? && a.coefficient > 0 && b.coefficient > 0
    ensures SameValue(a, b) <==>
            a.negative == b.negative && Normal(a.coefficient, a.exponent) == Normal(b.coefficient, b.exponent)
  {
    hide Normal, Pow10;
    if a.exponent <= b.exponent { SameNormal(a, b); } else { SameNormal(b, a); }
  }

  lemma SignedParse(t: string)
    requires CanonicalUnsigned(t) && t[0] != '-' && t != "0"
    ensures CanonicalDecimal("-" + t) && "-" + t != "-0"
    ensures Parsed(t).Finite? && Parsed("-" + t) == Parsed(t).(negative := true)
  {
    assert ("-" + t)[1..] == t && "-0"[1..] == "0";
    hide Number, CanonicalUnsigned, Point;
  }

  /** Every printed text is in the grammar, is not "-0", and denotes the value it was printed from. */
  lemma PrintedDenotes(d: Decimal)
    requires d.Finite?
    ensures CanonicalDecimal(Printed(d)) && Printed(d) != "-0" && SameValue(Parsed(Printed(d)), d)
    ensures d.coefficient > 0 ==> Parsed(Printed(d)).coefficient > 0
  {
    if d.coefficient == 0 {
      assert Number("0") == 0 by { assert "0"[..0] == []; }
      ParseWhole("0", 0);
    } else {
      var t := Unsigned(d.coefficient, d.exponent);
      PrintParses(d.coefficient, d.exponent);
      hide Unsigned, CanonicalUnsigned, Parsed, Normal, SameValue;
      SignedParse(t);
      ValueIsNormal(Parsed(Printed(d)), d);
      assert t != "-0" by { assert t[0] != '-'; }
    }
  }

  /** Equal values print equal texts and distinct values distinct texts. */
  lemma TextIsValue(a: Decimal, b: Decimal)
    requires a.Finite? && b.Finite?
    ensures Printed(a) == Printed(b) <==> SameValue(a, b)
  {
    PrintedDenotes(a);
    PrintedDenotes(b);
    if a.coefficient > 0 && b.coefficient > 0 {
      NormalText(a.coefficient, a.exponent);
      NormalText(b.coefficient, b.exponent);
      hide CanonicalDecimal, Parsed, Unsigned, SameValue, Normal;
      ValueIsNormal(a, b);
      ValueIsNormal(Parsed(Printed(a)), a);
      ValueIsNormal(Parsed(Printed(b)), b);
    } else {
      hide CanonicalDecimal, Parsed, Unsigned, Normal;
    }
  }

  // ----- The parser accepts exactly what the printer prints -----

  lemma PrintWholeParsed(b: string)
    requires CanonicalNat(b) && b[0] != '0'
    ensures Number(b) > 0 && Unsigned(Number(b), 0) == b
  {
    NumberText(b);
    PrintWhole(Number(b), 0);
    assert b + Zeros(0) == b;
  }

  lemma SplitZeros(s: string)
    requires AllDigits(s) && s != [] && s[|s| - 1] != '0'
    ensures exists k :: 0 <= k < |s| && s[..k] == Zeros(k) && s[k] != '0'
  {
    if s[0] == '0' {
      SplitZeros(s[1..]);
      var k :| 0 <= k < |s[1..]| && s[1..][..k] == Zeros(k) && s[1..][k] != '0';
      assert s[..k + 1] == ['0'] + s[1..][..k] == Zeros(k + 1);
    } else {
      assert s[..0] == Zeros(0);
    }
  }

  lemma FractionOfWhole(i: string, f: string)
    requires CanonicalNat(i) && i[0] != '0' && AllDigits(f) && f != []
    ensures AllDigits(i + f) && Number(i + f) > 0
    ensures FixedPoint(Number(i + f), -|f|) == i + "." + f
  {
    var s := i + f;
    assert CanonicalNat(s);
    NumberText(s);
    hide Number, NatText;
    assert s[..|s| - |f|] == i && s[|s| - |f|..] == f;
  }

  lemma PaddedText(g: string, k: nat)
    requires CanonicalNat(g) && g[0] != '0'
    ensures Number(g) > 0 && FixedPoint(Number(g), -(k + |g|)) == "0." + Zeros(k) + g
  {
    NumberText(g);
    hide Number, NatText;
  }

  lemma ZeroCons(k: nat)
    ensures Zeros(1 + k) == "0" + Zeros(k)
  {
  }

  lemma FractionOfPadded(k: nat, g: string)
    requires CanonicalNat(g) && g[0] != '0'
    ensures AllDigits("0" + (Zeros(k) + g)) && Number("0" + (Zeros(k) + g)) > 0
    ensures FixedPoint(Number("0" + (Zeros(k) + g)), -(k + |g|)) == "0." + (Zeros(k) + g)
  {
    PaddedText(g, k);
    LeadingZeros(1 + k, g);
    ZeroCons(k);
    hide Number, FixedPoint, Zeros, AllDigits, CanonicalNat;
    Joined("0", Zeros(k), g);
    Joined("0.", Zeros(k), g);
  }

  lemma Joined(a: string, b: string, c: string)
    ensures a + (b + c) == (a + b) + c
  {
  }

  lemma FractionOfZero(f: string)
    requires AllDigits(f) && f != [] && f[|f| - 1] != '0'
    ensures AllDigits("0" + f) && Number("0" + f) > 0
    ensures FixedPoint(Number("0" + f), -|f|) == "0." + f
  {
    hide Number, FixedPoint;
    SplitZeros(f);
    var k :| 0 <= k < |f| && f[..k] == Zeros(k) && f[k] != '0';
    var g := f[k..];
    assert f == Zeros(k) + g;
    FractionOfPadded(k, g);
  }

  lemma FractionNumber(i: string, f: string)
    requires CanonicalNat(i) && AllDigits(f) && f != [] && f[|f| - 1] != '0'
    ensures AllDigits(i + f) && Number(i + f) > 0
    ensures FixedPoint(Number(i + f), -|f|) == i + "." + f
  {
    if i[0] != '0' {
      FractionOfWhole(i, f);
    } else {
      assert i == "0" && "0" + "." + f == "0." + f;
      hide Number, FixedPoint;
      FractionOfZero(f);
    }
  }

  lemma UnsignedIsFixed(c: nat, e: int, b: string)
    requires c > 0 && e < 0 && FixedPoint(c, e) == b && b != []
    requires b[|b| - 1] != '0' && b[|b| - 1] != '.'
    ensures Unsigned(c, e) == b
  {
    FixedPointHasPoint(c, e);
    hide FixedPoint;
    NoStrip(b, '0');
    NoStrip(b, '.');
  }

  lemma Rejoin(b: string, p: nat)
    requires p < |b| && b[p] == '.'
    ensures b[..p] + "." + b[p + 1..] == b
  {
  }

  lemma LastOfDigits(b: string, p: nat)
    requires p + 1 < |b| && AllDigits(b[p + 1..])
    ensures b[p + 1..][|b| - p - 2] == b[|b| - 1] != '.'
  {
    assert IsDigit(b[p + 1..][|b| - p - 2]);
  }

  lemma PrintFractionParsed(b: string, p: nat)
    requires CanonicalUnsigned(b) && p == Point(b) < |b|
    ensures AllDigits(b[..p] + b[p + 1..])
    ensures var c := Number(b[..p] + b[p + 1..]); c > 0 && Unsigned(c, -(|b| - p - 1)) == b
  {
    PointBound(b);
    hide Number, Point, FixedPoint, Unsigned, CanonicalNat, AllDigits;
    Rejoin(b, p);
    LastOfDigits(b, p);
    FractionNumber(b[..p], b[p + 1..]);
    UnsignedIsFixed(Number(b[..p] + b[p + 1..]), -(|b| - p - 1), b);
  }

  lemma PrintUnsignedParsed(b: string)
    requires CanonicalUnsigned(b)
    ensures b[0] != '-' && CanonicalDecimal(b)
    ensures var d := Parsed(b); if d.coefficient == 0 then b == "0" else Unsigned(d.coefficient, d.exponent) == b
  {
    PointBound(b);
    var p := Point(b);
    assert b[0] == b[..p][0] && IsDigit(b[..p][0]);
    if p < |b| {
      PrintFractionParsed(b, p);
    } else {
      assert b[..|b|] == b;
      if b[0] == '0' {
        assert b == "0" && Number("0") == 0 by { assert "0"[..0] == []; }
      } else {
        PrintWholeParsed(b);
      }
    }
    hide Number, Unsigned, Point;
  }

  /** A canonical text other than "-0" prints back as itself. */
  lemma ParsedPrints(s: string)
    requires CanonicalDecimal(s) && s != "-0"
    ensures Printed(Parsed(s)) == s
  {
    var b := Body(s);
    PrintUnsignedParsed(b);
    if s[0] == '-' {
      assert s == "-" + b;
      assert b != "0";
      hide Unsigned, CanonicalUnsigned, Parsed;
      SignedParse(b);
    } else {
      hide Unsigned, CanonicalUnsigned, Parsed;
      assert !Parsed(s).negative by { UnsignedParse(s); }
    }
  }

  lemma UnsignedParse(s: string)
    requires CanonicalDecimal(s) && s[0] != '-'
    ensures !Parsed(s).negative
  {
  }

  /** The wire parser accepts exactly the canonical texts within the size bound, which are exactly
      the texts the printer can produce. */
  lemma WireAcceptsPrinted(s: string)
    ensures FromWire(s).Some? <==> CanonicalDecimal(s) && s != "-0" && |s| <= MAX_TEXT
    ensures FromWire(s).Some? <==> exists d :: DecimalText(d) == Some(s)
    ensures FromWire(s).Some? ==> DecimalText(FromWire(s).value) == Some(s)
  {
    hide Printed, Parsed, CanonicalDecimal;
    if CanonicalDecimal(s) && s != "-0" { ParsedPrints(s); }
    forall d | DecimalText(d) == Some(s) ensures CanonicalDecimal(s) && s != "-0" && |s| <= MAX_TEXT {
      PrintedDenotes(d);
    }
  }

  /** The printer never fails its own grammar check: it fails only for size or for want of a value. */
  lemma TextFailsOnlyForSize(d: Decimal)
    ensures DecimalText(d).None? <==> !d.Finite? || |Printed(d)| > MAX_TEXT
  {
    if d.Finite? { PrintedDenotes(d); }
    hide Printed, CanonicalDecimal;
  }

  /** Normalisation keeps the value, fixes the text, and is idempotent. */
  lemma NormalizedIsFixed(d: Decimal)
    requires Normalized(d).Some?
    ensures var n := Normalized(d).value;
            n.Finite? && SameValue(n, d) && DecimalText(n) == DecimalText(d) && Normalized(n) == Some(n)
  {
    PrintedDenotes(d);
    hide Printed, CanonicalDecimal, SameValue, Parsed;
    ParsedPrints(Printed(d));
  }
}
