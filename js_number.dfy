/**
 * `Number.parseFloat` over decimal strings, with NaN as `None`, and the `|| 0` fallback
 * the console applies to it.
 */
module JsNumber {
  import opened Wrappers
  import opened JsText

  predicate IsDigit(c: char) {
    '0' <= c <= '9'
  }

  /** Length of the longest prefix of `s` made of decimal digits. */
  function DigitRun(s: string): (n: nat)
    ensures n <= |s|
    ensures forall i :: 0 <= i < n ==> IsDigit(s[i])
    ensures n < |s| ==> !IsDigit(s[n])
  {
    if |s| > 0 && IsDigit(s[0]) then 1 + DigitRun(s[1..]) else 0
  }

  /** The value of one decimal digit. */
  function DigitValue(c: char): (v: nat)
    requires IsDigit(c)
    ensures v < 10
  {
    c as int - '0' as int
  }

  /** The value of a string of decimal digits, most significant first. */
  function DigitsValue(d: string): nat
    requires forall i :: 0 <= i < |d| ==> IsDigit(d[i])
  {
    if d == [] then 0 else 10 * DigitsValue(d[..|d| - 1]) + DigitValue(d[|d| - 1])
  }

  /** What follows an optional leading sign. */
  function Unsigned(t: string): (u: string)
    ensures u == t || (t != [] && u == t[1..])
  {
    if t != [] && (t[0] == '-' || t[0] == '+') then t[1..] else t
  }

  /** The digits after a leading `.` of `rest`, if any. */
  function Fraction(rest: string): (f: string)
    ensures forall i :: 0 <= i < |f| ==> IsDigit(f[i])
    ensures f != [] ==> |rest| >= 2 && rest[0] == '.' && IsDigit(rest[1])
    ensures rest != [] && rest[0] == '.' ==> 1 + |f| <= |rest|
  {
    if rest != [] && rest[0] == '.' then rest[1..][..DigitRun(rest[1..])] else []
  }

  /** What follows the integer part, the point and the fraction digits. */
  function AfterMantissa(rest: string): string {
    if rest != [] && rest[0] == '.' then rest[1 + |Fraction(rest)|..] else rest
  }

  /** The exponent that `rest` starts with: `e` or `E`, an optional sign and digits; 0 when absent. */
  function Exponent(rest: string): int {
    if |rest| >= 2 && (rest[0] == 'e' || rest[0] == 'E') then
      var digits := Unsigned(rest[1..]);
      var n := DigitRun(digits);
      if n == 0 then 0
      else if rest[1] == '-' then 0 - DigitsValue(digits[..n])
      else DigitsValue(digits[..n])
    else 0
  }

  /** The value of an integer part and a fraction part. */
  function Mantissa(whole: string, fraction: string): real
    requires forall i :: 0 <= i < |whole| ==> IsDigit(whole[i])
    requires forall i :: 0 <= i < |fraction| ==> IsDigit(fraction[i])
  {
    if fraction == [] then DigitsValue(whole) as real
    else DigitsValue(whole) as real + Scale(DigitsValue(fraction) as real, 0 - |fraction|)
  }

  /** `m` times ten to the power `e`, one factor of ten at a time. */
  function Scale(m: real, e: int): real
    decreases if e >= 0 then e else -e
  {
    if e == 0 then m
    else if e > 0 then 10.0 * Scale(m, e - 1)
    else Scale(m, e + 1) / 10.0
  }

  /**
   * The value of text after the sign: an integer part, an optional point and fraction and an
   * optional exponent, ignoring whatever follows; `None` when no digit starts the mantissa.
   */
  function UnsignedValue(u: string): Option<real> {
    var whole := u[..DigitRun(u)];
    var rest := u[DigitRun(u)..];
    var fraction := Fraction(rest);
    if whole == [] && fraction == [] then None
    else Some(Scale(Mantissa(whole, fraction), Exponent(AfterMantissa(rest))))
  }

  /**
   * `Number.parseFloat(s)`: skips leading whitespace, reads an optional sign and the unsigned
   * number after it; NaN (here `None`) when no digit starts the mantissa.
   */
  function ParseFloat(s: string): Option<real> {
    if s != [] && IsJsWhitespace(s[0]) then ParseFloat(s[1..]) else SignedValue(s)
  }

  /** The value of text that starts at its optional sign. */
  function SignedValue(t: string): Option<real> {
    match UnsignedValue(Unsigned(t))
    case None => None
    case Some(magnitude) => Some(if t != [] && t[0] == '-' then -magnitude else magnitude)
  }

  /** Skipping whitespace one character at a time is reading what `TrimStart` leaves. */
  lemma {:induction false} ParseFloatTrims(s: string)
    ensures ParseFloat(s) == SignedValue(TrimStart(s))
  {
    if s != [] && IsJsWhitespace(s[0]) {
      ParseFloatTrims(s[1..]);
    }
  }

  /** Starts like a number: a digit, or a point followed by a digit. */
  predicate StartsNumber(u: string) {
    (u != [] && IsDigit(u[0])) || (|u| >= 2 && u[0] == '.' && IsDigit(u[1]))
  }

  /** parseFloat gives NaN exactly when, after whitespace and sign, no number starts. */
  lemma ParseFloatNaN(s: string)
    ensures ParseFloat(s).None? <==> !StartsNumber(Unsigned(TrimStart(s)))
  {
    ParseFloatTrims(s);
    SignedValueNaN(TrimStart(s));
  }

  lemma SignedValueNaN(t: string)
    ensures SignedValue(t).None? <==> !StartsNumber(Unsigned(t))
  {
    var u := Unsigned(t);
    if u != [] && u[0] == '.' && |u| >= 2 && IsDigit(u[1]) {
      assert DigitRun(u) == 0;
      assert u[DigitRun(u)..] == u;
      assert Fraction(u) != [];
    }
  }

  /** `Number.parseFloat(s) || 0`: NaN becomes 0. */
  function ParseFloatOrZero(s: string): real {
    ParseFloat(s).GetOr(0.0)
  }

  lemma {:induction false} DigitsValueOfNat(n: nat)
    ensures DigitsValue(NatToString(n)) == n
    decreases n
  {
    var d := NatToString(n);
    if n >= 10 {
      DigitsValueOfNat(n / 10);
      assert d[..|d| - 1] == NatToString(n / 10);
    }
  }

  lemma {:induction false} DigitRunAll(d: string)
    requires forall i :: 0 <= i < |d| ==> IsDigit(d[i])
    ensures DigitRun(d) == |d|
    decreases |d|
  {
    if d != [] {
      DigitRunAll(d[1..]);
    }
  }

  /** Printing a natural number and parsing it back gives the number. */
  lemma ParseFloatOfNat(n: nat)
    ensures ParseFloat(NatToString(n)) == Some(n as real)
  {
    var d := NatToString(n);
    assert !IsJsWhitespace(d[0]);
    assert Unsigned(d) == d;
    DigitRunAll(d);
    assert d[..DigitRun(d)] == d;
    assert d[DigitRun(d)..] == [];
    assert Fraction([]) == [];
    assert Exponent(AfterMantissa([])) == 0;
    DigitsValueOfNat(n);
  }

  /** The digit run of digits followed by a non-digit stops at the non-digit. */
  lemma {:induction false} DigitRunStops(d: string, rest: string)
    requires forall i :: 0 <= i < |d| ==> IsDigit(d[i])
    requires rest != [] && !IsDigit(rest[0])
    ensures DigitRun(d + rest) == |d|
    decreases |d|
  {
    if d == [] {
      assert d + rest == rest;
    } else {
      assert (d + rest)[1..] == d[1..] + rest;
      DigitRunStops(d[1..], rest);
    }
  }

  /** Printing a natural number and parsing it back, as the digits of an exponent. */
  lemma ExponentOfNat(sign: string, k: nat)
    requires sign == "" || sign == "+" || sign == "-"
    ensures Exponent("e" + (sign + NatToString(k))) == Signed(sign, k)
  {
    ExponentOfDigits(sign, NatToString(k));
    DigitsValueOfNat(k);
  }

  /** An exponent marker, an optional sign and a digit string read as the signed digits. */
  lemma ExponentOfDigits(sign: string, d: string)
    requires sign == "" || sign == "+" || sign == "-"
    requires d != [] && forall i :: 0 <= i < |d| ==> IsDigit(d[i])
    ensures Exponent("e" + (sign + d)) == Signed(sign, DigitsValue(d))
  {
    var u := sign + d;
    var e := "e" + u;
    assert e[1..] == u && e[1] == u[0];
    assert u[0] == '-' <==> sign == "-";
    UnsignedAfterSign(sign, d);
    ExponentOfSignedDigits(e, d);
  }

  /** An optional sign in front of a digit string is dropped, and only it. */
  lemma UnsignedAfterSign(sign: string, d: string)
    requires sign == "" || sign == "+" || sign == "-"
    requires d != [] && IsDigit(d[0])
    ensures Unsigned(sign + d) == d
  {
    if sign == "" {
      assert sign + d == d;
    } else {
      assert (sign + d)[1..] == d;
    }
  }

  /** An exponent marker followed by text whose unsigned part is all digits. */
  lemma ExponentOfSignedDigits(e: string, d: string)
    requires |e| >= 2 && e[0] == 'e' && Unsigned(e[1..]) == d
    requires d != [] && forall i :: 0 <= i < |d| ==> IsDigit(d[i])
    ensures Exponent(e) == if e[1] == '-' then 0 - DigitsValue(d) else DigitsValue(d)
  {
    DigitRunAll(d);
    assert d[..|d|] == d;
  }



  /** `k` with the sign `sign` in front. */
  function Signed(sign: string, k: nat): int {
    if sign == "-" then 0 - k else k
  }

  /** Digits followed by a tail that starts neither a fraction nor more digits. */
  lemma UnsignedDigitsThen(d: string, e: string)
    requires d != [] && forall i :: 0 <= i < |d| ==> IsDigit(d[i])
    requires e != [] && !IsDigit(e[0]) && e[0] != '.'
    ensures UnsignedValue(d + e) == Some(Scale(Mantissa(d, []), Exponent(AfterMantissa(e))))
  {
    var s := d + e;
    DigitRunStops(d, e);
    assert s[..|d|] == d && s[|d|..] == e;
    assert Fraction(e) == [];
  }

  /** The same with no sign and no leading whitespace in front. */
  lemma ParseFloatDigitsThen(d: string, e: string)
    requires d != [] && forall i :: 0 <= i < |d| ==> IsDigit(d[i])
    requires e != [] && !IsDigit(e[0]) && e[0] != '.'
    ensures ParseFloat(d + e) == Some(Scale(DigitsValue(d) as real, Exponent(e)))
  {
    var s := d + e;
    assert s[0] == d[0];
    assert !IsJsWhitespace(s[0]);
    assert Unsigned(s) == s;
    UnsignedDigitsThen(d, e);
    assert AfterMantissa(e) == e;
  }

  /**
   * An exponent scales the mantissa: `m` printed, an `e`, an optional sign and `k` printed
   * reads as `m` times ten to the power plus or minus `k` (so "1e3" is 1000, not 1).
   */
  lemma ParseFloatExponent(m: nat, sign: string, k: nat)
    requires sign == "" || sign == "+" || sign == "-"
    ensures ParseFloat(NatToString(m) + ("e" + (sign + NatToString(k)))) == Some(Scale(m as real, Signed(sign, k)))
  {
    ParseFloatDigitsThen(NatToString(m), "e" + (sign + NatToString(k)));
    ExponentOfNat(sign, k);
    DigitsValueOfNat(m);
  }
}
