/** Decimal digit strings: how a non-negative integer is printed by a template
    literal, and a reader that recovers the integer. */
module Decimal {
  import opened Wrappers

  /** One UTF-16 code unit, what `charCodeAt` returns. */
  type CodeUnit = c: int | 0 <= c < 0x1_0000

  const Zero: CodeUnit := 48
  const Minus: CodeUnit := 45
  const Comma: CodeUnit := 44

  predicate IsDigit(c: CodeUnit) {
    Zero <= c <= Zero + 9
  }

  predicate AllDigits(s: seq<CodeUnit>) {
    forall i :: 0 <= i < |s| ==> IsDigit(s[i])
  }

  /** The decimal digits of `n`, most significant first, no leading zero. */
  function Digits(n: nat): (r: seq<CodeUnit>)
    ensures 0 < |r| && AllDigits(r)
    ensures r[0] == Zero ==> n == 0
  {
    if n < 10 then [Zero + n] else Digits(n / 10) + [Zero + n % 10]
  }

  /** The number a digit string denotes. */
  function Value(s: seq<CodeUnit>): nat
    requires AllDigits(s)
  {
    if |s| == 0 then 0 else Value(s[..|s| - 1]) * 10 + (s[|s| - 1] - Zero)
  }

  /** Length of the longest prefix of `s` made of digits. */
  function DigitRun(s: seq<CodeUnit>): (k: nat)
    ensures k <= |s| && AllDigits(s[..k])
    ensures k < |s| ==> !IsDigit(s[k])
  {
    if |s| == 0 || !IsDigit(s[0]) then 0
    else
      var k := 1 + DigitRun(s[1..]);
      assert s[..k] == [s[0]] + s[1..][..k - 1];
      k
  }

  /** Reads a maximal run of digits off the front of `s`; None when `s` does
      not start with a digit. */
  function ReadNat(s: seq<CodeUnit>): (r: Option<(nat, seq<CodeUnit>)>)
    ensures r.Some? ==> |r.value.1| < |s| && r.value.1 == s[|s| - |r.value.1|..]
    ensures r.None? <==> |s| == 0 || !IsDigit(s[0])
  {
    var k := DigitRun(s);
    if k == 0 then None else Some((Value(s[..k]), s[k..]))
  }

  lemma {:induction false} ValueOfDigits(n: nat)
    ensures Value(Digits(n)) == n
  {
    if n >= 10 {
      var d := Digits(n / 10);
      ValueOfDigits(n / 10);
      assert (d + [Zero + n % 10])[..|d|] == d;
    }
  }

  lemma {:induction false} DigitRunOfDigits(d: seq<CodeUnit>, t: seq<CodeUnit>)
    requires AllDigits(d)
    requires t == [] || !IsDigit(t[0])
    ensures DigitRun(d + t) == |d|
  {
    if |d| > 0 {
      assert (d + t)[1..] == d[1..] + t;
      DigitRunOfDigits(d[1..], t);
    }
  }

  /** Printing then reading a number gives it back, and leaves whatever
      non-digit text followed untouched. */
  lemma DigitsRoundTrip(n: nat, t: seq<CodeUnit>)
    requires t == [] || !IsDigit(t[0])
    ensures ReadNat(Digits(n) + t) == Some((n, t))
  {
    var d := Digits(n);
    DigitRunOfDigits(d, t);
    ValueOfDigits(n);
    assert (d + t)[..|d|] == d;
    assert (d + t)[|d|..] == t;
  }
}
