/** Java's fixed-width integers, as ranges of the unbounded `int`. */
module JavaInts {
  const INT_MIN: int := -0x8000_0000
  const INT_MAX: int := 0x7FFF_FFFF
  const LONG_MIN: int := -0x8000_0000_0000_0000
  const LONG_MAX: int := 0x7FFF_FFFF_FFFF_FFFF

  /** A Java `int`. */
  newtype int32 = x: int | INT_MIN <= x <= INT_MAX

  /** A Java `long`. */
  newtype int64 = x: int | LONG_MIN <= x <= LONG_MAX

  /** Java's `/` on integers: the quotient truncated toward zero. */
  function JavaDiv(a: int, b: int): (q: int)
    requires b > 0
    ensures a >= 0 ==> q == a / b
    ensures a < 0 ==> q == -((-a) / b)
    ensures q * b <= a < (q + 1) * b || (a < 0 && (q - 1) * b < a <= q * b)
  {
    if a >= 0 then a / b else -((-a) / b)
  }

  /** The narrowing cast `(int)` of a `long`: the low 32 bits, as two's complement. */
  function ToInt(x: int): (r: int32)
    ensures INT_MIN <= x <= INT_MAX ==> r as int == x
    ensures (x - r as int) % 0x1_0000_0000 == 0
  {
    var m := x % 0x1_0000_0000;
    if m > INT_MAX then (m - 0x1_0000_0000) as int32 else m as int32
  }
}
