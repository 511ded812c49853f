/** The fixed-width unsigned integers of the source, with their wrap-around written out. */
module Ints {

  const UINT8_LIMIT: nat := 0x100
  const UINT32_LIMIT: nat := 0x1_0000_0000

  type uint8 = x: int | 0 <= x < 0x100
  type uint32 = x: int | 0 <= x < 0x1_0000_0000

  /** C++ `uint32 * uint32`: the product taken modulo 2^32. */
  function Mul32(a: uint32, b: uint32): (r: uint32)
    ensures a * b < UINT32_LIMIT ==> r == a * b
    ensures r <= a * b
    ensures (a * b - r) % UINT32_LIMIT == 0
  {
    var p := a * b;
    p % UINT32_LIMIT
  }

  /** The implicit conversion of a `uint32` to a `uint8`: the low eight bits. */
  function Low8(x: uint32): (r: uint8)
    ensures x < UINT8_LIMIT ==> r == x
    ensures (x - r) % UINT8_LIMIT == 0
  {
    x % UINT8_LIMIT
  }
}
