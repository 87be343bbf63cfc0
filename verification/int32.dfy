/** Signed 32-bit arithmetic as JavaScript performs it on numbers: `x | 0`
    and `Math.imul` reduce the exact result modulo 2^32 into [-2^31, 2^31). */
module Int32 {

  predicate InRange(x: int) {
    -0x8000_0000 <= x < 0x8000_0000
  }

  /** The ECMAScript ToInt32 conversion, applied by `| 0`. The result is the
      unique 32-bit value congruent to `x` modulo 2^32. */
  function ToInt32(x: int): (r: int)
    ensures InRange(r)
    ensures (r - x) % 0x1_0000_0000 == 0
    ensures InRange(x) ==> r == x
  {
    (x + 0x8000_0000) % 0x1_0000_0000 - 0x8000_0000
  }

  /** `Math.imul(a, b)`: the low 32 bits of the product, read as signed. */
  function Imul(a: int, b: int): (r: int)
    ensures InRange(r)
  {
    ToInt32(a * b)
  }

  /** Values congruent modulo 2^32 wrap to the same 32-bit value. */
  lemma ToInt32OfShift(x: int, k: int)
    ensures ToInt32(x + k * 0x1_0000_0000) == ToInt32(x)
  {
  }

  /** Wrapping an intermediate result does not change the final wrap:
      `(Math.imul(m, h) + c) | 0` equals `(m * h + c) | 0`. */
  lemma {:induction false} WrapInside(m: int, h: int, c: int)
    ensures ToInt32(Imul(m, h) + c) == ToInt32(m * h + c)
  {
    var q := (m * h + 0x8000_0000) / 0x1_0000_0000;
    assert Imul(m, h) == m * h - q * 0x1_0000_0000;
    ToInt32OfShift(m * h + c, -q);
  }
}
