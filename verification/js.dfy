/** The slice of JavaScript's value semantics the client relies on: parsed JSON
    values, truthiness in conditions, property and index reads (which throw on
    `undefined` and `null`), and the string conversion `+` applies when a value
    is concatenated into a URL. */
module Js {
  import opened Wrappers
  import opened Decimal

  /** Number.MAX_SAFE_INTEGER, 2^53 - 1. */
  const MaxSafeInteger: int := 9_007_199_254_740_991

  /** The safe integers: each is a double, and String() prints it digit for
      digit. Above 2^53 it prints the shortest round-tripping digits padded
      with zeros instead (String(2**60) is "1152921504606847000"). */
  type SafeInt = n: int | -MaxSafeInteger <= n <= MaxSafeInteger

  /** A JavaScript value as produced by JSON parsing or passed by a caller.
      Numbers are safe integers (see README, "Left out"). */
  datatype JsValue =
    | Undefined
    | Null
    | Bool(b: bool)
    | Num(n: SafeInt)
    | Str(s: string)
    | Arr(items: seq<JsValue>)
    | Obj(props: map<string, JsValue>)

  /** ECMAScript ToBoolean: the falsy values are undefined, null, false, 0 and "". */
  predicate Truthy(v: JsValue) {
    match v
    case Undefined => false
    case Null => false
    case Bool(b) => b
    case Num(n) => n != 0
    case Str(s) => s != ""
    case Arr(_) => true
    case Obj(_) => true
  }

  /** Reading a property or index of undefined or null throws a TypeError. */
  predicate Nullish(v: JsValue) {
    v == Undefined || v == Null
  }

  /** `v.key`: None when the read throws; an absent property reads as undefined. */
  function Get(v: JsValue, key: string): (r: Option<JsValue>)
    ensures r.None? <==> Nullish(v)
    ensures v.Obj? && key in v.props ==> r == Some(v.props[key])
    ensures v.Obj? && key !in v.props ==> r == Some(Undefined)
  {
    match v
    case Undefined => None
    case Null => None
    case Obj(props) => Some(if key in props then props[key] else Undefined)
    case _ => Some(Undefined)
  }

  /** `v[i]`: arrays and strings index their elements, objects look up the
      key `String(i)`; anything out of range reads as undefined. */
  function At(v: JsValue, i: nat): (r: Option<JsValue>)
    ensures r.None? <==> Nullish(v)
    ensures v.Arr? && i < |v.items| ==> r == Some(v.items[i])
    ensures v.Arr? && i >= |v.items| ==> r == Some(Undefined)
  {
    match v
    case Undefined => None
    case Null => None
    case Arr(items) => Some(if i < |items| then items[i] else Undefined)
    case Str(s) => Some(if i < |s| then Str([s[i]]) else Undefined)
    case Obj(props) =>
      var k := NatToDecimal(i);
      Some(if k in props then props[k] else Undefined)
    case _ => Some(Undefined)
  }

  /** String(n) for an integer: an optional minus sign, then the canonical numeral. */
  function IntToDecimal(n: int): (s: string)
    ensures |s| > 0
    ensures s[0] == '-' <==> n < 0
  {
    if n < 0 then "-" + NatToDecimal(-n) else NatToDecimal(n)
  }

  /** Joins strings with commas, as Array.prototype.join does by default. */
  function JoinCommas(parts: seq<string>): string {
    if |parts| == 0 then ""
    else if |parts| == 1 then parts[0]
    else parts[0] + "," + JoinCommas(parts[1..])
  }

  /** ECMAScript ToString, as applied by `'text' + v`. An array joins its
      elements with commas, writing undefined and null elements as "". */
  function ToJsString(v: JsValue): string {
    match v
    case Undefined => "undefined"
    case Null => "null"
    case Bool(b) => if b then "true" else "false"
    case Num(n) => IntToDecimal(n)
    case Str(s) => s
    case Arr(items) =>
      JoinCommas(seq(|items|, i requires 0 <= i < |items| =>
        if Nullish(items[i]) then "" else ToJsString(items[i])))
    case Obj(_) => "[object Object]"
  }

  /** The falsy values are exactly the five the ECMAScript table lists. */
  lemma FalsyValues(v: JsValue)
    ensures !Truthy(v) <==> v in {Undefined, Null, Bool(false), Num(0), Str("")}
  {
  }
}
