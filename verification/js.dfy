/** The slice of JavaScript's value semantics that the card's pure rules rely
    on: UTF-16 strings, truthiness (`||`, `!!`), nullishness (`??`, `?.`),
    property reads and the string conversion performed by template literals. */
module Js {
  import opened Wrappers
  import opened Decimal

  /** A JavaScript string: a sequence of UTF-16 code units, the values that
      `charCodeAt` returns. */
  type JsString = seq<CodeUnit>

  predicate IsAscii(s: string) {
    forall i :: 0 <= i < |s| ==> s[i] < 128 as char
  }

  /** The code units of an ASCII literal; every literal the card's source
      uses is ASCII, so each character is one code unit. */
  function Ascii(s: string): (r: JsString)
    requires IsAscii(s)
    ensures |r| == |s|
    ensures forall i :: 0 <= i < |s| ==> r[i] == s[i] as int
  {
    seq(|s|, i requires 0 <= i < |s| => s[i] as int)
  }

  /** JSON-shaped JavaScript values plus `undefined`. Numbers are integers. */
  datatype JsValue =
    | Undefined
    | Null
    | Bool(b: bool)
    | Num(n: int)
    | Str(s: JsString)
    | Arr(items: seq<JsValue>)
    | Obj(props: map<JsString, JsValue>)

  /** The values `??` and `?.` treat as absent. */
  predicate Nullish(v: JsValue) {
    v.Undefined? || v.Null?
  }

  /** JavaScript truthiness: `undefined`, `null`, `false`, `0` and `""` are
      falsy; every other value, including `[]` and `{}`, is truthy. */
  predicate Truthy(v: JsValue) {
    match v
    case Undefined => false
    case Null => false
    case Bool(b) => b
    case Num(n) => n != 0
    case Str(s) => |s| > 0
    case Arr(_) => true
    case Obj(_) => true
  }

  /** `a || b`. */
  function Or(a: JsValue, b: JsValue): (r: JsValue)
    ensures Truthy(r) <==> Truthy(a) || Truthy(b)
  {
    if Truthy(a) then a else b
  }

  /** `a ?? b`. */
  function Coalesce(a: JsValue, b: JsValue): (r: JsValue)
    ensures Nullish(r) <==> Nullish(a) && Nullish(b)
  {
    if Nullish(a) then b else a
  }

  /** `??` and `||` differ exactly on the falsy values that are not nullish
      (`""`, `0`, `false`): `??` keeps them, `||` replaces them. */
  lemma OrAgreesWithCoalesceUnlessFalsyPresent(a: JsValue, b: JsValue)
    ensures Truthy(a) || Nullish(a) ==> Or(a, b) == Coalesce(a, b)
    ensures !Truthy(a) && !Nullish(a) ==> Coalesce(a, b) == a && Or(a, b) == b
  {
  }

  /** `v?.[key]`: an own property of an object, `undefined` otherwise. */
  function OptGet(v: JsValue, key: JsString): (r: JsValue)
    ensures !v.Obj? ==> r == Undefined
  {
    match v
    case Obj(m) => if key in m then m[key] else Undefined
    case _ => Undefined
  }

  /** `v.key`: like `v?.[key]`, except that reading a property of `null` or
      `undefined` throws a TypeError, modelled as None. */
  function Get(v: JsValue, key: JsString): (r: Option<JsValue>)
    ensures r.None? <==> Nullish(v)
    ensures r.Some? ==> r.value == OptGet(v, key)
  {
    if Nullish(v) then None else Some(OptGet(v, key))
  }

  /** Number-to-string conversion for integers: an optional minus sign and
      the decimal digits without leading zeros. */
  function IntToString(n: int): (r: JsString)
    ensures n >= 0 ==> ReadNat(r) == Some((n, []))
    ensures n < 0 ==> |r| > 1 && r[0] == Minus && ReadNat(r[1..]) == Some((-n, []))
  {
    var m: nat := if n >= 0 then n else -n;
    DigitsRoundTrip(m, []);
    assert Digits(m) + [] == Digits(m);
    if n >= 0 then Digits(m)
    else
      assert ([Minus] + Digits(m))[1..] == Digits(m);
      [Minus] + Digits(m)
  }

  /** `Array.prototype.join(",")`: null and undefined elements become empty. */
  function JoinComma(parts: seq<JsString>): (r: JsString)
    ensures |parts| == 0 ==> r == []
    ensures |parts| == 1 ==> r == parts[0]
  {
    if |parts| == 0 then []
    else if |parts| == 1 then parts[0]
    else JoinComma(parts[..|parts| - 1]) + [Comma] + parts[|parts| - 1]
  }

  /** The string conversion of a template-literal substitution `${v}`:
      only strings and arrays can print as empty text, and a number prints
      as decimal text that reads back as that number. */
  function ToString(v: JsValue): (r: JsString)
    ensures v.Str? ==> r == v.s
    ensures !v.Str? && !v.Arr? ==> |r| > 0
    ensures v.Num? && v.n >= 0 ==> ReadNat(r) == Some((v.n, []))
    ensures v.Num? && v.n < 0 ==> r[0] == Minus && ReadNat(r[1..]) == Some((-v.n, []))
    decreases v
  {
    match v
    case Undefined => Ascii("undefined")
    case Null => Ascii("null")
    case Bool(b) => if b then Ascii("true") else Ascii("false")
    case Num(n) => IntToString(n)
    case Str(s) => s
    case Arr(items) =>
      JoinComma(seq(|items|, i requires 0 <= i < |items| =>
        if Nullish(items[i]) then [] else ToString(items[i])))
    case Obj(_) => Ascii("[object Object]")
  }
}
