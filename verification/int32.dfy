/** The C# `int` type: 32-bit two's complement, with the unchecked
    (wrap-around) arithmetic the compiler uses by default. */
module Int32 {

  const MIN: int := -0x8000_0000
  const MAX: int := 0x7fff_ffff
  const MODULUS: int := 0x1_0000_0000

  newtype int32 = x: int | -0x8000_0000 <= x < 0x8000_0000

  /** True when `x` is representable as a C# `int`. */
  predicate InRange(x: int) {
    MIN <= x <= MAX
  }

  /** The C# `int` that an unchecked operation yields when its exact result is `x`:
      the unique representable value congruent to `x` modulo 2^32. */
  function Wrap(x: int): (r: int32)
    ensures InRange(x) ==> r as int == x
    ensures (x - r as int) % MODULUS == 0
  {
    var m := x % MODULUS;
    if m <= MAX then m as int32 else (m - MODULUS) as int32
  }

  /** `System.Math.Min(int, int)`. */
  function Min(a: int32, b: int32): (r: int32)
    ensures r <= a && r <= b
    ensures r == a || r == b
  {
    if a <= b then a else b
  }
}
