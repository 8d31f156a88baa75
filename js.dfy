/**
 * The JavaScript values the SDK handles: values produced by JSON parsing, the
 * property access, nullish-coalescing and truthiness rules applied to them,
 * and the `String(v)` conversion used for query parameters and error messages.
 */
module Js {
  import opened Wrappers

  /** A value `JSON.parse` can produce. Numbers are modelled as integers. */
  datatype Json =
    | Null
    | Bool(b: bool)
    | Num(n: int)
    | Str(s: string)
    | Arr(items: seq<Json>)
    | Obj(fields: map<string, Json>)

  /** Property access `v.key` on a non-null value: `undefined` unless `v` is an object holding `key`. */
  function Prop(v: Json, key: string): (r: Option<Json>)
    ensures r.Some? <==> v.Obj? && key in v.fields
    ensures r.Some? ==> r.value == v.fields[key]
  {
    match v
    case Obj(m) => if key in m then Some(m[key]) else None
    case _ => None
  }

  /** A JavaScript value (`None` is `undefined`) is nullish when it is `undefined` or `null`. */
  predicate Nullish(v: Option<Json>) {
    v.None? || v.value == Null
  }

  /** The `a ?? b` operator. */
  function Coalesce(a: Option<Json>, b: Option<Json>): (r: Option<Json>)
    ensures !Nullish(a) ==> r == a
    ensures Nullish(a) ==> r == b
  {
    if Nullish(a) then b else a
  }

  /** JavaScript truthiness: `null`, `false`, `0` and `""` are falsy; every array and object is truthy. */
  predicate Truthy(v: Json)
    ensures Truthy(v) <==> v !in {Null, Bool(false), Num(0), Str("")}
  {
    match v
    case Null => false
    case Bool(b) => b
    case Num(n) => n != 0
    case Str(s) => s != ""
    case Arr(_) => true
    case Obj(_) => true
  }

  predicate IsDigit(c: char) {
    '0' <= c <= '9'
  }

  function DigitChar(d: nat): (c: char)
    requires d < 10
    ensures IsDigit(c) && c as int - '0' as int == d
  {
    ('0' as int + d) as char
  }

  /** The decimal digits of a natural number, most significant first, without leading zeros. */
  function Digits(n: nat): (s: string)
    ensures |s| >= 1
    ensures forall i :: 0 <= i < |s| ==> IsDigit(s[i])
    ensures |s| > 1 ==> s[0] != '0'
  {
    if n < 10 then [DigitChar(n)] else Digits(n / 10) + [DigitChar(n % 10)]
  }

  function DigitValue(c: char): nat
    requires IsDigit(c)
  {
    c as int - '0' as int
  }

  /** The number a string of decimal digits denotes. */
  function DigitsValue(s: string): nat
    requires forall i :: 0 <= i < |s| ==> IsDigit(s[i])
  {
    if s == [] then 0
    else 10 * DigitsValue(s[..|s| - 1]) + DigitValue(s[|s| - 1])
  }

  lemma {:induction false} DigitsRoundTrip(n: nat)
    ensures DigitsValue(Digits(n)) == n
  {
    if n >= 10 {
      var s := Digits(n);
      assert s[..|s| - 1] == Digits(n / 10);
      DigitsRoundTrip(n / 10);
    }
  }

  /** `String(n)` for an integer `n`: an optional minus sign followed by the digits of `|n|`. */
  function Decimal(n: int): (s: string)
    ensures |s| >= 1
    ensures n < 0 ==> s[0] == '-' && s[1..] == Digits(-n)
    ensures n >= 0 ==> s == Digits(n)
    ensures IsDigit(s[0]) <==> n >= 0
  {
    if n < 0 then "-" + Digits(-n) else Digits(n)
  }

  /** The digits of a natural number determine it. */
  lemma DigitsInjective(a: nat, b: nat)
    requires Digits(a) == Digits(b)
    ensures a == b
  {
    DigitsRoundTrip(a);
    DigitsRoundTrip(b);
  }

  /** `Decimal` loses nothing: distinct integers print differently. */
  lemma DecimalInjective(m: int, n: int)
    requires Decimal(m) == Decimal(n)
    ensures m == n
  {
    var s := Decimal(m);
    if m < 0 {
      assert n < 0 && Digits(-m) == s[1..] == Digits(-n);
      DigitsInjective(-m, -n);
    } else {
      assert n >= 0 && Digits(m) == s == Digits(n);
      DigitsInjective(m, n);
    }
  }

  /** `parts.join(sep)`. */
  function Join(parts: seq<string>, sep: string): (s: string)
    ensures |parts| == 0 ==> s == ""
    ensures |parts| == 1 ==> s == parts[0]
    ensures |parts| >= 1 ==> |s| >= |parts[|parts| - 1]|
  {
    if |parts| == 0 then ""
    else if |parts| == 1 then parts[0]
    else Join(parts[..|parts| - 1], sep) + sep + parts[|parts| - 1]
  }

  /**
   * `String(v)`. An array prints as its elements joined with ",", `null` elements
   * printing as the empty string; a plain object prints as "[object Object]".
   */
  function JsString(v: Json): (s: string)
    ensures v.Str? ==> s == v.s
    ensures v.Num? ==> s == Decimal(v.n)
    ensures v == Null ==> s == "null"
    ensures v.Obj? ==> s == "[object Object]"
  {
    match v
    case Null => "null"
    case Bool(b) => if b then "true" else "false"
    case Num(n) => Decimal(n)
    case Str(s) => s
    case Arr(items) =>
      Join(seq(|items|, i requires 0 <= i < |items| => if items[i] == Null then "" else JsString(items[i])), ",")
    case Obj(_) => "[object Object]"
  }
}
