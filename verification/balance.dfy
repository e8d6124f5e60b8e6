/** `getWalletBalance`: the wallet's integer balance in minor units, scaled by
    10^-8 and printed with exactly eight fractional digits, as
    `new Big(balance).times(new Big('1e-8')).toFixed(8)` prints it. The
    decimal arithmetic is exact, so the model works on the integer. */
module Balance {
  import opened Wrappers
  import opened Strings
  import opened Decimal
  import opened Js
  import opened Promise

  /** Fractional digits printed, and the power of ten between minor and major units. */
  const Places: nat := 8
  const Unit: nat := 100_000_000

  lemma UnitIsPow10()
    ensures Pow10(Places) == Unit
  {
    assert Pow10(4) == 10_000;
  }

  function Magnitude(units: int): nat {
    if units < 0 then -units else units
  }

  /** The texts `toFixed(8)` prints: an optional '-', then the unsigned
      form; zero never carries a '-'. */
  predicate IsFixedText(s: string) {
    if |s| > 0 && s[0] == '-' then IsUnsignedFixed(s[1..]) && ParseUnsignedScaled(s[1..]) != Some(0)
    else IsUnsignedFixed(s)
  }

  /** The integer part as a canonical numeral, '.', and exactly eight digits. */
  predicate IsUnsignedFixed(u: string) {
    var k := |u| - Places - 1;
    && k >= 1 && u[k] == '.'
    && Canonical(u[..k]) && AllDigits(u[k + 1..])
  }

  /** The fixed-point text of `units` × 10^-8: a '-' for negatives, the integer
      part without leading zeros, '.', and the 8-digit zero-padded remainder. */
  function FormatScaled(units: int): (s: string)
    ensures |s| >= Places + 2
    ensures s[|s| - Places - 1] == '.'
    ensures AllDigits(s[|s| - Places..])
    ensures s[0] == '-' <==> units < 0
  {
    var u := FormatUnsigned(Magnitude(units));
    if units < 0 then "-" + u else u
  }

  /** The unsigned part: integer part, '.', eight-digit remainder. */
  function FormatUnsigned(m: nat): (s: string)
    ensures |s| >= Places + 2 && s[0] != '-'
    ensures s[|s| - Places - 1] == '.'
    ensures AllDigits(s[|s| - Places..])
  {
    UnitIsPow10();
    var whole := NatToDecimal(m / Unit);
    var frac := PadDigits(m % Unit, Places);
    var s := whole + "." + frac;
    assert s[0] == whole[0];
    assert s[|s| - Places..] == frac;
    s
  }

  /** Reads a fixed-point text with exactly 8 fractional digits back as an
      integer count of minor units. */
  function ParseScaled(s: string): (r: Option<int>) {
    if |s| > 0 && s[0] == '-' then
      match ParseUnsignedScaled(s[1..])
      case Some(m) => Some(0 - m as int)
      case None => None
    else
      match ParseUnsignedScaled(s)
      case Some(m) => Some(m)
      case None => None
  }

  /** digit+ '.' digit{8}, read as minor units. */
  function ParseUnsignedScaled(s: string): Option<nat> {
    var k := |s| - Places - 1;
    if k < 1 || s[k] != '.' then None else ScaledValue(s[..k], s[k + 1..])
  }

  /** The integer part and the eight fractional digits, read as minor units. */
  function ScaledValue(whole: string, frac: string): Option<nat> {
    if AllDigits(whole) && AllDigits(frac) then Some(ValueOf(whole) * Unit + ValueOf(frac)) else None
  }

  /** Reads an optionally signed decimal integer: '-'? digit+. */
  function ParseIntegerText(t: string): (r: Option<int>)
    ensures r.Some? ==> |t| > 0
  {
    var negative := |t| > 0 && t[0] == '-';
    var digits := if negative then t[1..] else t;
    if |digits| == 0 || !AllDigits(digits) then None
    else
      var m: int := ValueOf(digits);
      Some(if negative then -m else m)
  }

  /** The text big.js accepts: -?(\d+(\.\d*)?|\.\d+)(e[+-]?\d+)?, case-insensitive e. */
  predicate IsBigNumber(t: string) {
    var u := if |t| > 0 && t[0] == '-' then t[1..] else t;
    var e := Find(u, {'e', 'E'});
    IsBigMantissa(u[..e]) && (e == |u| || IsBigExponent(u[e + 1..]))
  }

  predicate IsBigMantissa(m: string) {
    var d := Find(m, {'.'});
    if d == |m| then |m| > 0 && AllDigits(m)
    else AllDigits(m[..d]) && AllDigits(m[d + 1..]) && (d > 0 || d + 1 < |m|)
  }

  predicate IsBigExponent(x: string) {
    var digits := if |x| > 0 && (x[0] == '+' || x[0] == '-') then x[1..] else x;
    |digits| > 0 && AllDigits(digits)
  }

  /** `body.data.balance` when the guard `body.data && body.data.balance`
      lets the conversion run; None when it does not or when `body.data` throws. */
  function BalanceField(body: JsValue): (r: Option<JsValue>)
    ensures r.Some? ==> Truthy(r.value)
  {
    match Get(body, "data")
    case None => None
    case Some(data) =>
      if !Truthy(data) then None
      else
        var balance := Get(data, "balance").value;
        if Truthy(balance) then Some(balance) else None
  }

  /** The balances this model covers: whatever reaches big.js is an integer
      text or a text big.js refuses; decimal fractions and exponent forms,
      which big.js accepts, are outside it. */
  predicate InScope(body: JsValue) {
    BalanceField(body).Some? ==>
      var t := ToJsString(BalanceField(body).value);
      ParseIntegerText(t).Some? || !IsBigNumber(t)
  }

  /** The callback on a delivered body. There is no `body &&` guard, so an
      undefined or null body throws on `body.data`. */
  function WalletBalance(body: JsValue): (o: Outcome)
    requires InScope(body)
    ensures !o.Rejected?
    ensures o.Crashed? && o.fault == TypeError <==> Nullish(body)
    ensures o == Resolved(Str("0")) <==> !Nullish(body) && BalanceField(body).None?
    ensures o.Resolved? ==> o.value.Str?
    ensures BalanceField(body).Some? && o.Resolved? ==>
      ParseScaled(o.value.s) == ParseIntegerText(ToJsString(BalanceField(body).value))
    ensures BalanceField(body).Some? ==>
      (o.Resolved? <==> ParseIntegerText(ToJsString(BalanceField(body).value)).Some?)
    ensures o == Crashed(InvalidNumber) <==>
      !Nullish(body) && BalanceField(body).Some? && ParseIntegerText(ToJsString(BalanceField(body).value)).None?
  {
    if Nullish(body) then Crashed(TypeError)
    else
      match BalanceField(body)
      case None => Resolved(Str("0"))
      case Some(balance) =>
        match ParseIntegerText(ToJsString(balance))
        case Some(units) =>
          FormatParseRoundTrip(units);
          Resolved(Str(FormatScaled(units)))
        case None => Crashed(InvalidNumber)
  }

  /** The whole callback: a transport error rejects with that error. */
  function GetWalletBalance(t: Transport): (o: Outcome)
    requires t.Ok? ==> InScope(t.body)
    ensures t.TransportErr? <==> o.Rejected?
    ensures o.Rejected? ==> o.reason == TransportFailure(t.cause)
  {
    match t
    case TransportErr(cause) => Rejected(TransportFailure(cause))
    case Ok(body) => WalletBalance(body)
  }

  /** Parsing a digit string, '.', and eight digits. */
  lemma ParseUnsignedParts(whole: string, frac: string)
    requires |whole| > 0 && |frac| == Places
    ensures ParseUnsignedScaled(whole + "." + frac) == ScaledValue(whole, frac)
  {
    var body := whole + "." + frac;
    var k := |whole|;
    assert |body| - Places - 1 == k;
    assert body[k] == '.';
    assert body[..k] == whole;
    assert body[k + 1..] == frac;
  }

  /** The round trip: parsing the printed balance and multiplying by 10^8
      gives back the integer number of minor units. */
  lemma FormatParseRoundTrip(units: int)
    ensures ParseScaled(FormatScaled(units)) == Some(units)
  {
    var m := Magnitude(units);
    var u := FormatUnsigned(m);
    UnsignedRoundTrip(m);
    if units < 0 {
      assert FormatScaled(units) == "-" + u;
      assert ("-" + u)[1..] == u;
    } else {
      assert FormatScaled(units) == u;
    }
  }

  lemma UnsignedRoundTrip(m: nat)
    ensures ParseUnsignedScaled(FormatUnsigned(m)) == Some(m)
  {
    UnitIsPow10();
    var whole := NatToDecimal(m / Unit);
    var frac := PadDigits(m % Unit, Places);
    assert FormatUnsigned(m) == whole + "." + frac;
    ParseUnsignedParts(whole, frac);
    ValueOfNatToDecimal(m / Unit);
    ValueOfPadDigits(m % Unit, Places);
  }

  /** Every printed balance is in the printed form. */
  lemma FormatIsFixedText(units: int)
    ensures IsFixedText(FormatScaled(units))
  {
    var m := Magnitude(units);
    var u := FormatUnsigned(m);
    UnitIsPow10();
    assert u[..|u| - Places - 1] == NatToDecimal(m / Unit);
    if units < 0 {
      UnsignedRoundTrip(Magnitude(units));
      assert ("-" + u)[1..] == u;
    }
  }

  /** The converse round trip: a fixed-point text in the printed form is
      exactly what `FormatScaled` prints for the value it denotes, so
      `FormatScaled(u)` is the one such text for `u`. */
  lemma FixedTextRoundTrip(s: string)
    requires IsFixedText(s)
    ensures ParseScaled(s).Some?
    ensures FormatScaled(ParseScaled(s).value) == s
  {
    if |s| > 0 && s[0] == '-' {
      assert s == "-" + s[1..];
      NegativeFixedRoundTrip(s[1..]);
    } else {
      UnsignedFixedRoundTrip(s);
    }
  }

  /** So the printed text of a balance is the only text in the printed form
      that reads back as that balance. */
  lemma FormatScaledUnique(s: string, units: int)
    requires IsFixedText(s) && ParseScaled(s) == Some(units)
    ensures s == FormatScaled(units)
  {
    FixedTextRoundTrip(s);
  }

  /** A superfluous leading zero is not in the printed form, although the
      parser reads it as the same balance. */
  lemma LeadingZeroNotPrinted()
    ensures !IsFixedText("01.23456789")
    ensures FormatScaled(123456789) != "01.23456789"
  {
    ExampleBalance();
    var u := "01.23456789";
    assert u[..|u| - Places - 1] == "01";
  }

  lemma NegativeFixedRoundTrip(u: string)
    requires IsUnsignedFixed(u) && ParseUnsignedScaled(u) != Some(0)
    ensures ParseScaled("-" + u).Some?
    ensures FormatScaled(ParseScaled("-" + u).value) == "-" + u
  {
    UnsignedFixedRoundTrip(u);
    var m := ParseUnsignedScaled(u).value;
    var neg: int := -(m as int);
    assert ("-" + u)[1..] == u;
    assert ParseScaled("-" + u) == Some(neg);
    assert Magnitude(neg) == m;
  }

  lemma UnsignedFixedRoundTrip(u: string)
    requires IsUnsignedFixed(u)
    ensures ParseUnsignedScaled(u).Some?
    ensures FormatUnsigned(ParseUnsignedScaled(u).value) == u
  {
    var k := |u| - Places - 1;
    var whole := u[..k];
    var frac := u[k + 1..];
    assert u == whole + "." + frac;
    ParseUnsignedParts(whole, frac);
    FormatOfParts(whole, frac, ScaledValue(whole, frac).value);
  }

  /** Printing the value of a canonical integer part and eight digits gives
      those texts back. */
  lemma FormatOfParts(whole: string, frac: string, m: nat)
    requires Canonical(whole) && |frac| == Places && AllDigits(frac)
    requires m == ValueOf(whole) * Unit + ValueOf(frac)
    ensures FormatUnsigned(m) == whole + "." + frac
  {
    var w := ValueOf(whole);
    var f := ValueOf(frac);
    PadDigitsOfValue(frac);
    NatToDecimalOfValue(whole);
    FormatOfValues(m, w, f, whole, frac);
  }

  lemma FormatOfValues(m: nat, w: nat, f: nat, whole: string, frac: string)
    requires m == w * Unit + f && f < Pow10(Places)
    requires NatToDecimal(w) == whole && PadDigits(f, Places) == frac
    ensures FormatUnsigned(m) == whole + "." + frac
  {
    UnitIsPow10();
    SplitScaled(w, f);
  }

  /** Division by the unit recovers the integer part and the remainder. */
  lemma SplitScaled(w: nat, f: nat)
    requires f < Unit
    ensures (w * Unit + f) / Unit == w && (w * Unit + f) % Unit == f
  {
  }

  /** Reading String(n) as an integer text gives n back, so a numeric balance
      and its decimal text convert alike. */
  lemma IntegerTextRoundTrip(n: int)
    ensures ParseIntegerText(IntToDecimal(n)) == Some(n)
  {
    var t := IntToDecimal(n);
    if n < 0 {
      var d := NatToDecimal(-n);
      assert t == "-" + d;
      assert t[1..] == d;
      ValueOfNatToDecimal(-n);
    } else {
      assert t == NatToDecimal(n);
      assert IsDigit(t[0]);
      ValueOfNatToDecimal(n);
    }
  }

  /** Every integer text is one big.js accepts. */
  lemma IntegerTextIsBigNumber(t: string)
    requires ParseIntegerText(t).Some?
    ensures IsBigNumber(t)
  {
    var u := if |t| > 0 && t[0] == '-' then t[1..] else t;
    assert Find(u, {'e', 'E'}) == |u|;
    assert u[..|u|] == u;
    assert Find(u, {'.'}) == |u|;
  }

  /** A numeric balance is always in scope: big.js reads `String(n)`, so
      the wallet resolves with n printed at scale 10^-8. */
  lemma NumericBalance(body: JsValue, n: SafeInt)
    requires BalanceField(body) == Some(Num(n))
    ensures InScope(body)
    ensures WalletBalance(body) == Resolved(Str(FormatScaled(n)))
  {
    IntegerTextRoundTrip(n);
    IntegerBalance(body, n);
  }

  /** A text big.js refuses makes `new Big(...)` throw inside the callback. */
  lemma NonNumericTextCrashes(body: JsValue)
    requires BalanceField(body) == Some(Str("abc"))
    ensures InScope(body)
    ensures WalletBalance(body) == Crashed(InvalidNumber)
  {
    assert Find("abc", {'e', 'E'}) == 3;
    assert "abc"[..3] == "abc";
    assert Find("abc", {'.'}) == 3;
  }

  /** "123456789" minor units print as "1.23456789". */
  lemma ExampleBalance()
    ensures FormatScaled(123456789) == "1.23456789"
  {
    UnitIsPow10();
    assert NatToDecimal(1) == "1";
    PadExample();
  }

  lemma PadExample()
    ensures PadDigits(23456789, 8) == "23456789"
  {
    assert PadDigits(2, 1) == "2";
    assert PadDigits(23, 2) == PadDigits(2, 1) + "3";
    assert PadDigits(234, 3) == PadDigits(23, 2) + "4";
    assert PadDigits(2345, 4) == PadDigits(234, 3) + "5";
    assert PadDigits(23456, 5) == PadDigits(2345, 4) + "6";
    assert PadDigits(234567, 6) == PadDigits(23456, 5) + "7";
    assert PadDigits(2345678, 7) == PadDigits(234567, 6) + "8";
    assert PadDigits(23456789, 8) == PadDigits(2345678, 7) + "9";
  }

  /** The conversion path: a truthy balance whose text is an integer
      resolves with that integer printed at scale 10^-8. */
  lemma IntegerBalance(body: JsValue, units: int)
    requires BalanceField(body).Some?
    requires ParseIntegerText(ToJsString(BalanceField(body).value)) == Some(units)
    ensures InScope(body)
    ensures WalletBalance(body) == Resolved(Str(FormatScaled(units)))
  {
  }

  /** The text "0" is truthy, so it is converted: "0.00000000", not "0". */
  lemma ZeroTextIsConverted(body: JsValue)
    requires BalanceField(body) == Some(Str("0"))
    ensures InScope(body)
    ensures WalletBalance(body) == Resolved(Str("0.00000000"))
  {
    IntegerTextRoundTrip(0);
    assert IntToDecimal(0) == "0";
    IntegerBalance(body, 0);
    FormatZero();
  }

  /** The number 0 is falsy, so it yields the literal "0". */
  lemma ZeroNumberIsNotConverted()
    ensures WalletBalance(Obj(map["data" := Obj(map["balance" := Num(0)])])) == Resolved(Str("0"))
  {
  }

  lemma FormatZero()
    ensures FormatScaled(0) == "0.00000000"
  {
    UnitIsPow10();
    assert NatToDecimal(0) == "0";
    assert PadDigits(0, 8) == "00000000" by {
      assert PadDigits(0, 1) == "0";
      assert PadDigits(0, 2) == "00";
      assert PadDigits(0, 3) == "000";
      assert PadDigits(0, 4) == "0000";
      assert PadDigits(0, 5) == "00000";
      assert PadDigits(0, 6) == "000000";
      assert PadDigits(0, 7) == "0000000";
    }
    assert FormatUnsigned(0) == "0.00000000";
  }

  /** The balance text "123456789" resolves to "1.23456789". */
  lemma ExampleWallet(body: JsValue)
    requires BalanceField(body) == Some(Str("123456789"))
    ensures InScope(body)
    ensures WalletBalance(body) == Resolved(Str("1.23456789"))
  {
    IntegerTextRoundTrip(123456789);
    ExampleText();
    IntegerBalance(body, 123456789);
    ExampleBalance();
  }

  lemma ExampleText()
    ensures IntToDecimal(123456789) == "123456789"
  {
    assert NatToDecimal(1) == "1";
    assert NatToDecimal(12) == "12";
    assert NatToDecimal(123) == "123";
    assert NatToDecimal(1234) == "1234";
    assert NatToDecimal(12345) == "12345";
    assert NatToDecimal(123456) == "123456";
    assert NatToDecimal(1234567) == "1234567";
    assert NatToDecimal(12345678) == "12345678";
    assert NatToDecimal(123456789) == "123456789";
  }

  /** A wallet without a balance field resolves to the literal "0". */
  lemma MissingBalanceIsZero()
    ensures WalletBalance(Obj(map["data" := Obj(map[])])) == Resolved(Str("0"))
  {
  }
}
