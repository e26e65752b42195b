// Machine arithmetic on 64-bit unsigned numbers: the saturating operations.

module Arith {
  const U64: nat := 0x1_0000_0000_0000_0000
  const U64_MAX: nat := 0xFFFF_FFFF_FFFF_FFFF

  function Min(a: nat, b: nat): nat {
    if a <= b then a else b
  }

  function SatAdd(a: nat, b: nat): nat {
    Min(a + b, U64_MAX)
  }

  function SatMul(a: nat, b: nat): nat {
    Min(a * b, U64_MAX)
  }

  function SatSub(a: nat, b: nat): nat {
    if a >= b then a - b else 0
  }
}
