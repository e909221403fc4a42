// Vocabulary shared by the components.

module Basics {

  type Byte = n: int | 0 <= n < 256
  type Bytes = seq<Byte>

  datatype Option<+T> = None | Some(value: T)

  // A packet on the wire: the common header and one MTU's payload at most.
  const HEADER_LEN := 12
  const MAX_PAYLOAD := 1200
  const MAX_PACKET := HEADER_LEN + MAX_PAYLOAD

  const MAX_U32 := 0xFFFF_FFFF
  const U32_SPAN := 0x1_0000_0000

  type U32 = n: int | 0 <= n <= 0xFFFF_FFFF

  function Min(a: int, b: int): int {
    if a < b then a else b
  }

  function Max(a: int, b: int): int {
    if a < b then b else a
  }

  const MAX_U64 := 0xFFFF_FFFF_FFFF_FFFF

  type U64 = n: int | 0 <= n <= 0xFFFF_FFFF_FFFF_FFFF

  // Saturating arithmetic on 64-bit words.
  function SatAdd(a: U64, b: U64): U64 {
    Min(a + b, MAX_U64)
  }

  function SatSub(a: U64, b: U64): U64 {
    Max(a - b, 0)
  }

  function SatMul(a: U64, b: U64): U64 {
    Min(Times(a, b), MAX_U64)
  }

  // A product of its own name, which a proof can hide.
  function Times(a: int, b: int): (r: int)
    ensures 0 <= a && 0 <= b ==> 0 <= r
  {
    a * b
  }

  lemma Regroup<T>(a: seq<T>, b: seq<T>, c: seq<T>)
    ensures (a + b) + c == a + (b + c)
  {
  }
}
