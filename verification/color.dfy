/** Colour assignment for calendar entities: the string hash behind
    `_hashColor`, the `hsl(...)` string it produces, and the override
    precedence of `_colorForEntity`. */
module Color {
  import opened Wrappers
  import opened Decimal
  import opened Int32
  import opened Js

  /** One step of the rolling hash: `Math.imul(31, h) + c | 0`. */
  function HashStep(h: int, c: CodeUnit): int {
    ToInt32(Imul(31, h) + c)
  }

  /** The rolling hash of `_hashColor`, folded over the code units left to
      right starting from 0. */
  function Hash(s: JsString): (h: int)
    ensures InRange(h)
  {
    if |s| == 0 then 0 else HashStep(Hash(s[..|s| - 1]), s[|s| - 1])
  }

  /** The exact polynomial sum of c[i] * 31^(n-1-i), without wrap-around:
      the value Java's `String.hashCode` reduces modulo 2^32. */
  function Poly(s: JsString): int {
    if |s| == 0 then 0 else 31 * Poly(s[..|s| - 1]) + s[|s| - 1]
  }

  /** Appending one code unit multiplies by 31, adds the unit and wraps to
      32 bits; the empty string hashes to 0. */
  lemma HashAppend(s: JsString, c: CodeUnit)
    ensures Hash([]) == 0
    ensures Hash(s + [c]) == ToInt32(31 * Hash(s) + c)
  {
    assert (s + [c])[..|s|] == s;
    WrapInside(31, Hash(s), c);
  }

  /** The wrapped rolling hash equals the exact polynomial reduced once to
      32 bits, so the hash is Java's `String.hashCode` on code units. */
  lemma {:induction false} HashIsPolynomial(s: JsString)
    ensures Hash(s) == ToInt32(Poly(s))
  {
    if |s| > 0 {
      var p, c := s[..|s| - 1], s[|s| - 1];
      HashIsPolynomial(p);
      WrapInside(31, Hash(p), c);
      var q := (Poly(p) + 0x8000_0000) / 0x1_0000_0000;
      assert Hash(p) == Poly(p) - q * 0x1_0000_0000;
      assert 31 * Hash(p) + c == Poly(s) + (-31 * q) * 0x1_0000_0000;
      ToInt32OfShift(Poly(s), -31 * q);
    }
  }

  /** The loop of `_hashColor` as written, one code unit per iteration. */
  method HashLoop(str: JsString) returns (h: int)
    ensures h == Hash(str)
    ensures h == ToInt32(Poly(str))
  {
    h := 0;
    var i := 0;
    while i < |str|
      invariant 0 <= i <= |str|
      invariant h == Hash(str[..i])
    {
      assert str[..i + 1] == str[..i] + [str[i]];
      h := ToInt32(Imul(31, h) + str[i]);
      i := i + 1;
    }
    assert str[..i] == str;
    HashIsPolynomial(str);
  }

  /** `Math.abs(h) % 360`. */
  function Hue(h: int): (hue: nat)
    ensures hue < 360
  {
    (if h < 0 then -h else h) % 360
  }

  const Saturation: nat := 65
  const Lightness: nat := 48

  /** The three numbers of a CSS `hsl(H S% L%)` colour. */
  datatype Hsl = Hsl(hue: nat, sat: nat, light: nat)

  const HslOpen: JsString := Ascii("hsl(")
  const Space: JsString := Ascii(" ")
  const PercentSpace: JsString := Ascii("% ")
  const PercentClose: JsString := Ascii("%)")

  /** Consumes the literal `lit` from the front of `s`. */
  function Expect(lit: JsString, s: JsString): (r: Option<JsString>)
    ensures r.Some? <==> |lit| <= |s| && s[..|lit|] == lit
    ensures r.Some? ==> lit + r.value == s
  {
    if |lit| <= |s| && s[..|lit|] == lit then Some(s[|lit|..]) else None
  }

  /** Reads a colour in exactly the form FormatHsl writes; None for any other
      text. */
  function ParseHsl(s: JsString): Option<Hsl> {
    var s1 :- Expect(HslOpen, s);
    var hue :- ReadNat(s1);
    var s2 :- Expect(Space, hue.1);
    var sat :- ReadNat(s2);
    var s3 :- Expect(PercentSpace, sat.1);
    var light :- ReadNat(s3);
    var s4 :- Expect(PercentClose, light.1);
    if s4 == [] then Some(Hsl(hue.0, sat.0, light.0)) else None
  }

  lemma ExpectPrefix(lit: JsString, t: JsString)
    ensures Expect(lit, lit + t) == Some(t)
  {
    assert (lit + t)[..|lit|] == lit;
    assert (lit + t)[|lit|..] == t;
  }

  /** Reading back the text `hsl(H S% L%)` yields its three numbers. */
  lemma FormatThenParse(c: Hsl)
    ensures ParseHsl(HslOpen + Digits(c.hue) + Space + Digits(c.sat)
                     + PercentSpace + Digits(c.light) + PercentClose) == Some(c)
  {
    assert Space == [32] && PercentSpace == [37, 32] && PercentClose == [37, 41];
    var t3 := PercentSpace + Digits(c.light) + PercentClose;
    var t2 := Space + Digits(c.sat) + t3;
    var t1 := Digits(c.hue) + t2;
    assert t3 == PercentSpace + (Digits(c.light) + PercentClose);
    assert t2 == Space + (Digits(c.sat) + t3);
    assert HslOpen + Digits(c.hue) + Space + Digits(c.sat)
           + PercentSpace + Digits(c.light) + PercentClose == HslOpen + t1;
    ExpectPrefix(HslOpen, t1);
    DigitsRoundTrip(c.hue, t2);
    ExpectPrefix(Space, Digits(c.sat) + t3);
    DigitsRoundTrip(c.sat, t3);
    ExpectPrefix(PercentSpace, Digits(c.light) + PercentClose);
    DigitsRoundTrip(c.light, PercentClose);
    ExpectPrefix(PercentClose, []);
    assert PercentClose + [] == PercentClose;
  }

  /** The template `hsl(${hue} ${sat}% ${light}%)`: a CSS colour that reads
      back as exactly the three numbers it was given. */
  function FormatHsl(c: Hsl): (r: JsString)
    ensures HslOpen <= r
    ensures ParseHsl(r) == Some(c)
  {
    FormatThenParse(c);
    HslOpen + Digits(c.hue) + Space + Digits(c.sat)
    + PercentSpace + Digits(c.light) + PercentClose
  }

  /** `_hashColor(str)`: a non-empty CSS colour whose hue is the hash
      reduced to [0, 360) and whose saturation and lightness are fixed. */
  function HashColor(str: JsString): (r: JsString)
    ensures |r| > 0
    ensures ParseHsl(r) == Some(Hsl(Hue(Hash(str)), Saturation, Lightness))
    ensures ParseHsl(r).value.hue < 360
  {
    FormatHsl(Hsl(Hue(Hash(str)), Saturation, Lightness))
  }

  const BgKey: JsString := Ascii("bg")
  const TextKey: JsString := Ascii("text")
  const White: JsValue := Str(Ascii("#fff"))

  /** The `{bg, text}` pair `_colorForEntity` returns. */
  datatype Colors = Colors(bg: JsValue, text: JsValue)

  /** `_colorForEntity`: the override `colors?.[entityId]` when present,
      falling back to the hash colour and white text. */
  function ColorForEntity(colors: JsValue, entityId: JsString): (r: Colors)
    ensures Truthy(r.bg) && Truthy(r.text)
    ensures var entry := OptGet(colors, entityId);
      && (!Truthy(entry) ==> r == Colors(Str(HashColor(entityId)), White))
      && (entry.Str? && Truthy(entry) ==> r == Colors(entry, White))
      && (Truthy(entry) && !entry.Str? ==>
            && r.bg == (if Truthy(OptGet(entry, BgKey)) then OptGet(entry, BgKey)
                        else Str(HashColor(entityId)))
            && r.text == (if Truthy(OptGet(entry, TextKey)) then OptGet(entry, TextKey)
                          else White))
  {
    var entry := OptGet(colors, entityId);
    if !Truthy(entry) then Colors(Str(HashColor(entityId)), White)
    else if entry.Str? then Colors(entry, White)
    else Colors(Or(OptGet(entry, BgKey), Str(HashColor(entityId))),
                Or(OptGet(entry, TextKey), White))
  }

  /** An entity's colours depend only on its own override entry: adding,
      changing or removing another entity's override leaves them alone. */
  lemma ColorIndependentOfOtherOverrides(m: map<JsString, JsValue>, other: JsString, v: JsValue, entityId: JsString)
    requires other != entityId
    ensures ColorForEntity(Obj(m[other := v]), entityId) == ColorForEntity(Obj(m), entityId)
    ensures ColorForEntity(Obj(m - {other}), entityId) == ColorForEntity(Obj(m), entityId)
  {
  }
}
