/** Decimal numerals over `string`: the digit strings JavaScript prints for
    integers and the zero-padded fraction big.js prints in `toFixed`. */
module Decimal {

  predicate IsDigit(c: char) {
    '0' <= c <= '9'
  }

  predicate AllDigits(s: string) {
    forall i :: 0 <= i < |s| ==> IsDigit(s[i])
  }

  function DigitChar(d: nat): (c: char)
    requires d < 10
    ensures IsDigit(c)
  {
    (('0' as int) + d) as char
  }

  function DigitValue(c: char): (d: nat)
    requires IsDigit(c)
    ensures d < 10
  {
    (c as int) - ('0' as int)
  }

  function Pow10(k: nat): (p: nat)
    ensures p >= 1
  {
    if k == 0 then 1 else 10 * Pow10(k - 1)
  }

  /** The number a digit string denotes, most significant digit first; the
      empty string denotes 0. This is the reference reading of a numeral. */
  function ValueOf(s: string): nat
    requires AllDigits(s)
  {
    if s == [] then 0 else ValueOf(s[..|s| - 1]) * 10 + DigitValue(s[|s| - 1])
  }

  /** A numeral as String(n) prints one: digits only, no leading zero. */
  predicate Canonical(s: string) {
    |s| > 0 && AllDigits(s) && (|s| > 1 ==> s[0] != '0')
  }

  /** The canonical numeral of `n`: no sign, no leading zero, as String(n)
      prints a non-negative integer. */
  function NatToDecimal(n: nat): (s: string)
    ensures Canonical(s)
    ensures n < 10 <==> |s| == 1
  {
    if n < 10 then [DigitChar(n)] else NatToDecimal(n / 10) + [DigitChar(n % 10)]
  }

  /** `n` written with exactly `width` digits, zero-padded on the left. */
  function PadDigits(n: nat, width: nat): (s: string)
    requires n < Pow10(width)
    ensures |s| == width && AllDigits(s)
  {
    if width == 0 then "" else PadDigits(n / 10, width - 1) + [DigitChar(n % 10)]
  }

  lemma DigitRoundTrip(d: nat)
    requires d < 10
    ensures DigitValue(DigitChar(d)) == d
  {
  }

  /** Reading back the canonical numeral gives the number. */
  lemma {:induction false} ValueOfNatToDecimal(n: nat)
    ensures ValueOf(NatToDecimal(n)) == n
  {
    var s := NatToDecimal(n);
    if n < 10 {
      DigitRoundTrip(n);
    } else {
      ValueOfNatToDecimal(n / 10);
      DigitRoundTrip(n % 10);
      assert s[..|s| - 1] == NatToDecimal(n / 10);
    }
  }

  /** Reading back the padded numeral gives the number. */
  lemma {:induction false} ValueOfPadDigits(n: nat, width: nat)
    requires n < Pow10(width)
    ensures ValueOf(PadDigits(n, width)) == n
  {
    if width > 0 {
      var s := PadDigits(n, width);
      ValueOfPadDigits(n / 10, width - 1);
      DigitRoundTrip(n % 10);
      assert s[..|s| - 1] == PadDigits(n / 10, width - 1);
    }
  }

  /** A numeral of k digits denotes a number below 10^k. */
  lemma {:induction false} ValueOfBound(s: string)
    requires AllDigits(s)
    ensures ValueOf(s) < Pow10(|s|)
  {
    if s != [] {
      ValueOfBound(s[..|s| - 1]);
    }
  }

  /** Conversely, a zero-padded numeral is the padding of its value. */
  lemma {:induction false} PadDigitsOfValue(s: string)
    requires AllDigits(s)
    ensures ValueOf(s) < Pow10(|s|)
    ensures PadDigits(ValueOf(s), |s|) == s
  {
    ValueOfBound(s);
    if s != [] {
      var init := s[..|s| - 1];
      var last := s[|s| - 1];
      PadDigitsOfValue(init);
      var v := ValueOf(s);
      assert v / 10 == ValueOf(init) && v % 10 == DigitValue(last);
      assert DigitChar(DigitValue(last)) == last;
      assert s == init + [last];
    }
  }

  /** Conversely, a numeral without a leading zero is the canonical numeral of
      its value: the two readings are inverse on canonical numerals. */
  lemma {:induction false} NatToDecimalOfValue(s: string)
    requires Canonical(s)
    ensures NatToDecimal(ValueOf(s)) == s
  {
    var init := s[..|s| - 1];
    var last := s[|s| - 1];
    if |s| == 1 {
      assert ValueOf(s) == DigitValue(last);
      assert [DigitChar(DigitValue(last))] == s;
    } else {
      assert init[0] == s[0];
      NatToDecimalOfValue(init);
      ValueOfNonzeroLead(init);
      var v := ValueOf(s);
      assert v / 10 == ValueOf(init) && v % 10 == DigitValue(last);
      assert DigitChar(DigitValue(last)) == last;
      assert s == init + [last];
    }
  }

  /** A multi-digit numeral with a non-zero leading digit denotes at least 10^(k-1). */
  lemma {:induction false} ValueOfNonzeroLead(s: string)
    requires |s| > 0 && AllDigits(s) && s[0] != '0'
    ensures ValueOf(s) >= Pow10(|s| - 1)
    ensures ValueOf(s) >= 1
  {
    if |s| > 1 {
      var init := s[..|s| - 1];
      assert init[0] == s[0];
      ValueOfNonzeroLead(init);
    } else {
      assert ValueOf(s) == DigitValue(s[0]);
    }
  }
}
