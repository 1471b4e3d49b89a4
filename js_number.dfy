/**
 * The parts of JavaScript's number semantics the application leans on, over
 * exact reals: `Math.round`, the `round2` idiom, `toFixed(2)`, `Number(text)`
 * on decimal literals and `String(x)` for amounts.
 */
module JsNumber {
  import opened Wrappers
  import opened Text

  /** `Math.round(x)`: the nearest integer, halves rounded up (towards +infinity). */
  function JsRound(x: real): (n: int)
    ensures x - 0.5 < n as real <= x + 0.5
  {
    (x + 0.5).Floor
  }

  lemma JsRoundOfInt(k: int)
    ensures JsRound(k as real) == k
  {
  }

  /** `Math.round(x * 100)`: `x` in whole paise. */
  function Paise(x: real): int {
    JsRound(x * 100.0)
  }

  /** `n` paise as an amount in rupees. */
  function Rupees(n: int): real {
    n as real / 100.0
  }

  /** `Math.round(x * 100) / 100`: `x` rounded to whole paise. */
  function Round2(x: real): real {
    Rupees(Paise(x))
  }

  /** `round2` gives a whole number of paise, within half a paisa of its argument. */
  lemma Round2Spec(x: real)
    ensures IsCents(Round2(x))
    ensures x - 0.005 < Round2(x) <= x + 0.005
  {
    var n := Paise(x);
    assert n as real / 100.0 * 100.0 == n as real;
  }

  /** `x` is a whole number of paise. */
  predicate IsCents(x: real) {
    (x * 100.0).Floor as real == x * 100.0
  }

  /** Rounding leaves a whole number of paise as it is, so `Round2` is idempotent. */
  lemma Round2OfCents(x: real)
    requires IsCents(x)
    ensures Round2(x) == x
  {
    JsRoundOfInt((x * 100.0).Floor);
  }

  lemma Round2Idempotent(x: real)
    ensures Round2(Round2(x)) == Round2(x)
  {
    Round2Spec(x);
    Round2OfCents(Round2(x));
  }

  lemma CentsAdd(x: real, y: real)
    requires IsCents(x) && IsCents(y)
    ensures IsCents(x + y) && IsCents(x - y) && IsCents(-x)
  {
    var a, b := (x * 100.0).Floor, (y * 100.0).Floor;
    CentsOfWhole(x + y, a + b);
    CentsOfWhole(x - y, a - b);
    CentsOfWhole(-x, -a);
  }

  /** An amount whose paise are a whole number `k` is a whole number of paise. */
  lemma CentsOfWhole(x: real, k: int)
    requires x * 100.0 == k as real
    ensures IsCents(x)
  {
  }

  lemma CentsOfInt(k: int)
    ensures IsCents(k as real)
  {
    assert k as real * 100.0 == (k * 100) as real;
  }

  /** `Math.abs(x)`. */
  function Abs(x: real): (r: real)
    ensures r >= 0.0 && (r == x || r == -x)
  {
    if x < 0.0 then -x else x
  }

  /** `Math.max(a, b)`. */
  function Max(a: real, b: real): (r: real)
    ensures r >= a && r >= b && (r == a || r == b)
  {
    if a >= b then a else b
  }

  /** Rounding a non-negative amount to paise never makes it negative. */
  lemma Round2NonNegative(x: real)
    requires x >= 0.0
    ensures Round2(x) >= 0.0
  {
    assert Paise(x) >= 0;
  }

  /** `Number(v) || 0`: NaN (and 0) become 0. */
  function OrZero(v: Option<real>): real {
    match v
    case Some(x) => x
    case None => 0.0
  }

  /** `n` paise written as `toFixed(2)` writes them: whole rupees, '.', two digits. */
  function FixedDigits(n: nat): (r: string)
    ensures |r| >= 4 && r[|r| - 3] == '.'
    ensures IsDigit(r[0]) && IsDigit(r[|r| - 1])
  {
    NatDigits(n / 100) + "." + [DigitChar((n % 100) / 10), DigitChar(n % 10)]
  }

  /**
   * `x.toFixed(2)`: the sign when `x < 0`, then `|x|` rounded to the nearest
   * paisa with ties going up. Values of 10^21 and more, written by JavaScript
   * in exponent form, are not distinguished.
   */
  function ToFixed2(x: real): (r: string)
    ensures |r| >= 4 && r[|r| - 3] == '.'
    ensures (x < 0.0) == (r[0] == '-')
  {
    if x < 0.0 then "-" + FixedDigits(Paise(-x)) else FixedDigits(Paise(x))
  }

  /** `s.split(c)`. */
  function Split(s: string, c: char): (parts: seq<string>)
    ensures |parts| >= 1
    decreases |s|
  {
    var i := IndexOf(s, c);
    if i == |s| then [s] else [s[..i]] + Split(s[i + 1..], c)
  }

  /** An unsigned decimal literal: digits, optionally a '.' and more digits, at least one digit in all. */
  function ParseUnsigned(u: string): Option<real> {
    var d := IndexOf(u, '.');
    var whole := u[..d];
    var frac := if d == |u| then "" else u[d + 1..];
    if AllDigits(whole) && AllDigits(frac) && |whole| + |frac| > 0 then
      Some(DigitsValue(whole) as real + FractionValue(frac))
    else None
  }

  /** The value of the digits after a decimal point. */
  function FractionValue(frac: string): real
    requires AllDigits(frac)
  {
    DigitsValue(frac) as real / Pow10(|frac|) as real
  }

  /**
   * `Number(s)` for a string: white space trimmed, the empty string is 0, an
   * optional sign and an unsigned decimal literal; anything else is NaN (`None`).
   */
  function ParseNumber(s: string): Option<real> {
    ParseTrimmed(Trim(s))
  }

  /** `Number` of an already trimmed string. */
  function ParseTrimmed(t: string): Option<real> {
    if t == "" then Some(0.0)
    else if t[0] == '-' then Negate(ParseUnsigned(t[1..]))
    else if t[0] == '+' then ParseUnsigned(t[1..])
    else ParseUnsigned(t)
  }

  function Negate(v: Option<real>): Option<real> {
    match v
    case Some(x) => Some(-x)
    case None => None
  }

  /** `Number("")` and `Number("   ")` are 0. */
  lemma ParseBlank(s: string)
    requires IsBlank(s)
    ensures ParseNumber(s) == Some(0.0)
  {
  }

  lemma DigitsNotWhite(s: string)
    requires AllDigits(s)
    ensures forall i :: 0 <= i < |s| ==> !IsWhite(s[i]) && s[i] != '.' && s[i] != '-' && s[i] != '+'
  {
  }

  lemma {:induction false} IndexOfAfterDigits(a: string, b: string)
    requires AllDigits(a) && b != [] && b[0] == '.'
    ensures IndexOf(a + b, '.') == |a|
  {
    if a != [] {
      assert (a + b)[1..] == a[1..] + b;
      IndexOfAfterDigits(a[1..], b);
    }
  }

  lemma {:induction false} IndexOfDigits(a: string)
    requires AllDigits(a)
    ensures IndexOf(a, '.') == |a|
  {
    if a != [] {
      IndexOfDigits(a[1..]);
    }
  }

  lemma {:induction false} TwoDigitsValue(n: nat)
    ensures AllDigits([DigitChar((n % 100) / 10), DigitChar(n % 10)])
    ensures DigitsValue([DigitChar((n % 100) / 10), DigitChar(n % 10)]) == n % 100
  {
    var a, b := (n % 100) / 10, n % 10;
    var s := [DigitChar(a), DigitChar(b)];
    DigitRoundTrip(a);
    DigitRoundTrip(b);
    assert s[..1] == [DigitChar(a)];
    assert s[..1][..0] == [];
    assert DigitsValue(s[..1]) == a;
    assert DigitsValue(s) == a * 10 + b;
  }

  /** Reading back what `FixedDigits` wrote gives the paise back. */
  lemma {:induction false} FixedDigitsRoundTrip(n: nat)
    ensures ParseUnsigned(FixedDigits(n)) == Some(Rupees(n))
  {
    var w := NatDigits(n / 100);
    var f := [DigitChar((n % 100) / 10), DigitChar(n % 10)];
    var s := FixedDigits(n);
    assert s == w + ("." + f);
    IndexOfAfterDigits(w, "." + f);
    assert s[..|w|] == w;
    assert s[|w| + 1..] == f;
    TwoDigitsValue(n);
    DigitsRoundTrip(n / 100);
    assert Pow10(2) == 100;
    assert n == (n / 100) * 100 + n % 100;
    assert (n / 100) as real + (n % 100) as real / 100.0 == n as real / 100.0;
  }

  /** `Number` of a literal that starts and ends with a digit. */
  lemma ParseDigitLed(t: string, v: real)
    requires t != [] && IsDigit(t[0]) && IsDigit(t[|t| - 1])
    requires ParseUnsigned(t) == Some(v)
    ensures ParseNumber(t) == Some(v)
    ensures ParseNumber("-" + t) == Some(-v)
  {
    TrimNoop(t);
    TrimNoop("-" + t);
    ParseMinus(t, v);
  }

  /** A minus sign in front negates the unsigned value. */
  lemma ParseMinus(t: string, v: real)
    requires ParseUnsigned(t) == Some(v)
    ensures ParseTrimmed("-" + t) == Some(-v)
  {
    var neg := "-" + t;
    assert neg[0] == '-' && neg[1..] == t;
  }

  lemma {:induction false} FixedDigitsParse(n: nat)
    ensures ParseNumber(FixedDigits(n)) == Some(Rupees(n))
    ensures ParseNumber("-" + FixedDigits(n)) == Some(-Rupees(n))
  {
    FixedDigitsRoundTrip(n);
    ParseDigitLed(FixedDigits(n), Rupees(n));
  }

  /** `Number(x.toFixed(2))` is `x` rounded to paise (magnitude rounded, sign kept). */
  lemma ToFixed2RoundTrip(x: real)
    ensures var p := ParseNumber(ToFixed2(x));
      p.Some? && p.value == if x < 0.0 then -Round2(-x) else Round2(x)
  {
    var a := if x < 0.0 then -x else x;
    var n: nat := Paise(a);
    FixedDigitsParse(n);
    if x < 0.0 {
      assert ToFixed2(x) == "-" + FixedDigits(n);
    } else {
      assert ToFixed2(x) == FixedDigits(n);
    }
  }

  /** The decimal digits of a fraction in [0, 1), at most `fuel` of them, stopping when nothing remains. */
  function FracDigits(f: real, fuel: nat): (r: string)
    requires 0.0 <= f < 1.0
    ensures AllDigits(r) && |r| <= fuel
    decreases fuel
  {
    if f == 0.0 || fuel == 0 then ""
    else
      var d := (f * 10.0).Floor;
      [DigitChar(d)] + FracDigits(f * 10.0 - d as real, fuel - 1)
  }

  /** The digits `String(x)` writes for a non-negative `x` (at most 20 fraction digits). */
  function UnsignedText(x: real): (r: string)
    requires x >= 0.0
    ensures r != [] && IsDigit(r[0]) && IsDigit(r[|r| - 1])
  {
    var w := x.Floor;
    var frac := FracDigits(x - w as real, 20);
    if frac == "" then NatDigits(w) else NatDigits(w) + "." + frac
  }

  /** `String(x)` for an amount: a '-' for negatives, the integer part, then the fraction digits, if any. */
  function NumberText(x: real): (r: string)
    ensures r != [] && !IsWhite(r[0]) && !IsWhite(r[|r| - 1])
  {
    if x < 0.0 then "-" + UnsignedText(-x) else UnsignedText(x)
  }

  /** The fraction part of a non-negative whole number of paise is `c` paise, `c < 100`. */
  lemma CentsFraction(x: real)
    requires x >= 0.0 && IsCents(x)
    ensures var f := x - x.Floor as real;
      var c := (f * 100.0).Floor;
      0 <= c < 100 && f == Rupees(c)
  {
    var n := (x * 100.0).Floor;
    assert x == n as real / 100.0;
    var w := x.Floor;
    assert w == n / 100 by {
      assert (n / 100) as real <= x < (n / 100 + 1) as real;
    }
    var f := x - w as real;
    assert f * 100.0 == (n % 100) as real;
  }

  /** `String` writes `c` paise of fraction as at most two digits that read back as `c` paise. */
  lemma FracDigitsOfCents(c: nat)
    requires c < 100
    ensures var fr := FracDigits(Rupees(c), 20);
      && (fr == "" <==> c == 0)
      && FractionValue(fr) == Rupees(c)
  {
    var f := Rupees(c);
    var fr := FracDigits(f, 20);
    if c != 0 {
      var d1, d2 := c / 10, c % 10;
      assert (f * 10.0).Floor == d1 by {
        assert f * 10.0 == c as real / 10.0;
        assert d1 as real <= c as real / 10.0 < (d1 + 1) as real;
      }
      var g := f * 10.0 - d1 as real;
      assert g == d2 as real / 10.0;
      assert fr == [DigitChar(d1)] + FracDigits(g, 19);
      DigitRoundTrip(d1);
      DigitRoundTrip(d2);
      if d2 == 0 {
        assert fr == [DigitChar(d1)];
        assert fr[..0] == [];
        assert DigitsValue(fr) == d1;
        assert Pow10(1) == 10;
      } else {
        assert (g * 10.0).Floor == d2;
        assert FracDigits(g, 19) == [DigitChar(d2)];
        assert fr == [DigitChar(d1), DigitChar(d2)];
        assert fr[..1] == [DigitChar(d1)];
        assert fr[..1][..0] == [];
        assert DigitsValue(fr[..1]) == d1;
        assert DigitsValue(fr) == c;
        assert Pow10(2) == 100;
      }
    }
  }

  /** An unsigned literal with no '.' reads as its digits. */
  lemma ParseWhole(digits: string)
    requires digits != [] && AllDigits(digits)
    ensures var p := ParseUnsigned(digits); p.Some? && p.value == DigitsValue(digits) as real
  {
    IndexOfDigits(digits);
    assert digits[..|digits|] == digits;
  }

  /** An unsigned literal with a '.' reads as its whole digits plus its fraction digits. */
  lemma ParseWholeDotFrac(digits: string, frac: string)
    requires AllDigits(digits) && AllDigits(frac) && frac != []
    ensures var p := ParseUnsigned(digits + "." + frac);
      p.Some? && p.value == DigitsValue(digits) as real + FractionValue(frac)
  {
    var s := digits + "." + frac;
    assert s == digits + ("." + frac);
    IndexOfAfterDigits(digits, "." + frac);
    assert s[..|digits|] == digits;
    assert s[|digits| + 1..] == frac;
  }

  lemma UnsignedTextRoundTrip(a: real)
    requires a >= 0.0 && IsCents(a)
    ensures var p := ParseUnsigned(UnsignedText(a)); p.Some? && p.value == a
  {
    var w := a.Floor;
    var f := a - w as real;
    CentsFraction(a);
    var c := (f * 100.0).Floor;
    assert f == Rupees(c);
    var digits := NatDigits(w);
    var frac := FracDigits(f, 20);
    assert UnsignedText(a) == if frac == "" then digits else digits + "." + frac;
    FracDigitsOfCents(c);
    DigitsRoundTrip(w);
    if frac == "" {
      ParseWhole(digits);
    } else {
      ParseWholeDotFrac(digits, frac);
    }
  }

  /** `Number(String(x)) == x` for every whole number of paise. */
  lemma NumberTextRoundTrip(x: real)
    requires IsCents(x)
    ensures var p := ParseNumber(NumberText(x)); p.Some? && p.value == x
  {
    var a := if x < 0.0 then -x else x;
    assert IsCents(a) by {
      if x < 0.0 {
        CentsAdd(x, x);
      }
    }
    UnsignedTextRoundTrip(a);
    var u := UnsignedText(a);
    var s := NumberText(x);
    TrimNoop(s);
    if x < 0.0 {
      assert s[1..] == u;
    }
  }
}
