/**
 * JavaScript `Number(text)` for the inputs the repository feeds it: surrounding white space
 * is ignored, the empty (or blank) text is 0, and a plain decimal literal (optional sign,
 * digits with at most one dot, at least one digit) is its value. Everything else is NaN,
 * written `None`. The values are exact `real`s.
 */
module JsNumber {
  import opened Wrappers
  import opened Text

  predicate AllDigits(s: string) {
    forall i :: 0 <= i < |s| ==> IsDigit(s[i])
  }

  /** The value of a string of decimal digits, read left to right. */
  function DigitsValue(s: string): nat
    requires AllDigits(s)
  {
    if s == [] then 0 else DigitsValue(s[..|s| - 1]) * 10 + (s[|s| - 1] as int - '0' as int)
  }

  function Pow10(k: nat): (r: nat)
    ensures r >= 1
  {
    if k == 0 then 1 else 10 * Pow10(k - 1)
  }

  lemma FractionNonNegative(a: nat, b: nat)
    requires b >= 1
    ensures a as real / b as real >= 0.0
  {
  }

  /** An unsigned decimal literal: `digits`, `digits.`, `digits.digits` or `.digits`. */
  function UnsignedDecimal(s: string): (r: Option<real>)
    ensures r.Some? ==> r.value >= 0.0
  {
    match IndexOf(s, '.')
    case None =>
      if s != [] && AllDigits(s) then Some(DigitsValue(s) as real) else None
    case Some(i) =>
      var whole, frac := s[..i], s[i + 1..];
      if AllDigits(whole) && AllDigits(frac) && (whole != [] || frac != []) then
        var f := DigitsValue(frac) as real / Pow10(|frac|) as real;
        assert f >= 0.0 by { FractionNonNegative(DigitsValue(frac), Pow10(|frac|)); }
        Some(DigitsValue(whole) as real + f)
      else None
  }

  /** `Number(s)`, with `None` for NaN. */
  function ToNumber(s: string): Option<real> {
    var t := Trim(s);
    if t == [] then Some(0.0)
    else if t[0] == '+' then UnsignedDecimal(t[1..])
    else if t[0] == '-' then
      match UnsignedDecimal(t[1..])
      case None => None
      case Some(v) => Some(-v)
    else UnsignedDecimal(t)
  }

  /** `Number("")` and `Number("  ")` are 0, not NaN. */
  lemma BlankIsZero(s: string)
    requires forall k :: 0 <= k < |s| ==> IsSpace(s[k])
    ensures ToNumber(s) == Some(0.0)
  {
    TrimEmptyIff(s);
  }

  predicate NumericChar(c: char) {
    IsDigit(c) || c == '.' || c == '+' || c == '-'
  }

  /** Text with any character other than digits, a dot or a sign (after trimming) is NaN. */
  lemma {:induction false} OnlyNumericCharsParse(s: string)
    requires ToNumber(s).Some?
    ensures forall k :: 0 <= k < |Trim(s)| ==> NumericChar(Trim(s)[k])
  {
    var t := Trim(s);
    if t != [] {
      var u := if t[0] == '+' || t[0] == '-' then t[1..] else t;
      assert UnsignedDecimal(u).Some?;
      UnsignedOnlyDigitsAndDot(u);
      forall k | 0 <= k < |t| ensures NumericChar(t[k]) {
        if t[0] == '+' || t[0] == '-' {
          if k > 0 { assert t[k] == u[k - 1]; }
        } else {
          assert t[k] == u[k];
        }
      }
    }
  }

  lemma UnsignedOnlyDigitsAndDot(u: string)
    requires UnsignedDecimal(u).Some?
    ensures forall k :: 0 <= k < |u| ==> IsDigit(u[k]) || u[k] == '.'
  {
    match IndexOf(u, '.')
    case None =>
    case Some(i) =>
      forall k | 0 <= k < |u| ensures IsDigit(u[k]) || u[k] == '.' {
        if k < i { assert u[k] == u[..i][k]; }
        else if k > i { assert u[k] == u[i + 1..][k - i - 1]; }
      }
  }

  /** The digits of a natural number read back give the number. */
  lemma {:induction false} DigitsOfNat(n: nat)
    ensures AllDigits(NatToString(n)) && DigitsValue(NatToString(n)) == n
  {
    if n >= 10 {
      DigitsOfNat(n / 10);
      var s := NatToString(n);
      assert s[..|s| - 1] == NatToString(n / 10);
    }
  }

  /** `Number(String(n))` is `n`: decimal text round-trips. */
  lemma NatRoundTrip(n: nat)
    ensures ToNumber(NatToString(n)) == Some(n as real)
  {
    var s := NatToString(n);
    DigitsOfNat(n);
    TrimClean(s);
    assert IndexOf(s, '.') == None;
  }

  /** `Number("07")` is 7: a zero-padded two-digit field round-trips too. */
  lemma Pad2RoundTrip(n: nat)
    requires n < 100
    ensures ToNumber(Pad2(n)) == Some(n as real)
  {
    if n < 10 {
      var s := Pad2(n);
      assert s == ['0', DigitChar(n)];
      assert s[..1] == "0";
      assert AllDigits(s) && DigitsValue(s[..1]) == 0;
      assert DigitsValue(s) == n;
      TrimClean(s);
      assert IndexOf(s, '.') == None;
      assert UnsignedDecimal(s) == Some(n as real);
    } else {
      NatRoundTrip(n);
    }
  }
}
