/**
 * The parts of JavaScript's runtime semantics the handlers depend on:
 * truthiness of optional strings, `Number(s)` and `parseInt(s, 10)` on
 * strings, and parsed JSON values.
 */
module Js {
  import opened Options

  /** Truthiness of an optional string: `undefined` and `""` are falsy. */
  predicate Truthy(s: Option<string>) {
    s.Some? && s.value != ""
  }

  predicate IsDigit(c: char) {
    '0' <= c <= '9'
  }

  predicate AllDigits(s: string) {
    forall i :: 0 <= i < |s| ==> IsDigit(s[i])
  }

  function DigitValue(c: char): (d: nat)
    requires IsDigit(c)
    ensures d < 10
  {
    (c as int) - ('0' as int)
  }

  function DigitChar(d: nat): (c: char)
    requires d < 10
    ensures IsDigit(c) && DigitValue(c) == d
  {
    ((d + '0' as int) as char)
  }

  /** The value of a string of decimal digits, read most significant digit first. */
  function DecimalValue(s: string): nat
    requires AllDigits(s)
    decreases |s|
  {
    if s == [] then 0 else 10 * DecimalValue(s[..|s| - 1]) + DigitValue(s[|s| - 1])
  }

  /** The shortest decimal rendering of n, as `String(n)` writes a non-negative integer. */
  function Decimal(n: nat): (s: string)
    ensures s != [] && AllDigits(s)
    decreases n
  {
    if n < 10 then [DigitChar(n)] else Decimal(n / 10) + [DigitChar(n % 10)]
  }

  lemma {:induction false} DecimalValueOfDecimal(n: nat)
    ensures DecimalValue(Decimal(n)) == n
    decreases n
  {
    var s := Decimal(n);
    if n >= 10 {
      DecimalValueOfDecimal(n / 10);
      assert s[..|s| - 1] == Decimal(n / 10);
    }
  }

  /** A JavaScript number as the handlers obtain it from a path or query parameter. */
  datatype JsNumber = NaN | Finite(n: nat)

  /** Truthiness of a number: `NaN` and `0` are falsy. */
  predicate NumberTruthy(x: JsNumber) {
    x.Finite? && x.n != 0
  }

  /**
   * `Number(s)`: `""` converts to 0, a string of decimal digits to its
   * value, and every other string to `NaN`.
   */
  function NumberOf(s: string): (x: JsNumber)
    ensures x.Finite? <==> AllDigits(s)
    ensures s == "" ==> x == Finite(0)
  {
    if AllDigits(s) then Finite(DecimalValue(s)) else NaN
  }

  /** The longest prefix of s made of decimal digits. */
  function DigitPrefix(s: string): (p: string)
    ensures AllDigits(p) && p <= s
    ensures |p| < |s| ==> !IsDigit(s[|p|])
  {
    if s == [] || !IsDigit(s[0]) then [] else [s[0]] + DigitPrefix(s[1..])
  }

  /**
   * `parseInt(s, 10)`: the value of the decimal digits that s starts
   * with, and `NaN` when it does not start with a digit.
   */
  function ParseInt(s: string): (x: JsNumber)
    ensures x.Finite? <==> s != [] && IsDigit(s[0])
  {
    var p := DigitPrefix(s);
    if p == [] then NaN else Finite(DecimalValue(p))
  }

  /** The leading digits of d + t are exactly d when t does not start with a digit. */
  lemma {:induction false} DigitPrefixOfDigits(d: string, t: string)
    requires AllDigits(d)
    requires t == [] || !IsDigit(t[0])
    ensures DigitPrefix(d + t) == d
    decreases |d|
  {
    if d == [] {
      assert d + t == t;
    } else {
      assert (d + t)[1..] == d[1..] + t;
      DigitPrefixOfDigits(d[1..], t);
    }
  }

  /** On a non-empty digit string `parseInt` and `Number` agree. */
  lemma ParseIntAgreesWithNumber(s: string)
    requires s != [] && AllDigits(s)
    ensures ParseInt(s) == NumberOf(s)
  {
    DigitPrefixOfDigits(s, []);
    assert s + [] == s;
  }

  /**
   * `parseInt` stops at the first character that is not a digit, where
   * `Number` gives `NaN`: `parseInt("12abc", 10)` is 12 but `Number("12abc")` is `NaN`.
   */
  lemma ParseIntStopsAtNonDigit(d: string, t: string)
    requires d != [] && AllDigits(d)
    requires t != [] && !IsDigit(t[0])
    ensures ParseInt(d + t) == Finite(DecimalValue(d))
    ensures NumberOf(d + t) == NaN
  {
    DigitPrefixOfDigits(d, t);
    assert (d + t)[|d|] == t[0];
  }

  /** A number written in decimal reads back as itself under both conversions. */
  lemma DecimalRoundTrip(n: nat)
    ensures NumberOf(Decimal(n)) == Finite(n)
    ensures ParseInt(Decimal(n)) == Finite(n)
  {
    DecimalValueOfDecimal(n);
    ParseIntAgreesWithNumber(Decimal(n));
  }

  /** A value produced by `JSON.parse`. Numbers are limited to integers. */
  datatype Json =
    | Null
    | Bool(b: bool)
    | Num(n: int)
    | Str(s: string)
    | Arr(elems: seq<Json>)
    | Obj(fields: map<string, Json>)

  /** Truthiness of a JSON value: `null`, `false`, `0` and `""` are falsy. */
  predicate JsonTruthy(j: Json) {
    match j
    case Null => false
    case Bool(b) => b
    case Num(n) => n != 0
    case Str(s) => s != ""
    case Arr(_) => true
    case Obj(_) => true
  }

  /** Property access `j.name`: `undefined` unless j is an object holding name. */
  function Field(j: Json, name: string): (f: Option<Json>)
    ensures f.Some? <==> j.Obj? && name in j.fields
  {
    if j.Obj? && name in j.fields then Some(j.fields[name]) else None
  }

  /** `j.name` holds a string; that string. */
  function StringField(j: Json, name: string): (s: Option<string>)
    ensures s.Some? <==> Field(j, name).Some? && Field(j, name).value.Str?
    ensures s.Some? ==> Field(j, name) == Some(Str(s.value))
  {
    match Field(j, name)
    case Some(Str(s)) => Some(s)
    case _ => None
  }
}
