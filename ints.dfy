/** Fixed-width unsigned integers of the C sources and their wrap-around arithmetic. */
module Ints {
  newtype u8 = x: int | 0 <= x < 0x100
  newtype u16 = x: int | 0 <= x < 0x1_0000
  newtype u32 = x: int | 0 <= x < 0x1_0000_0000
  newtype i32 = x: int | -0x8000_0000 <= x < 0x8000_0000

  const U8_MAX: int := 0xFF
  const U32_MAX: int := 0xFFFF_FFFF

  /** Conversion of an int to uint8_t (C assignment semantics). */
  function ToU8(x: int): (r: u8)
    ensures r as int == x % 0x100
  {
    (x % 0x100) as u8
  }

  /** Conversion of an int to uint16_t. */
  function ToU16(x: int): (r: u16)
    ensures r as int == x % 0x1_0000
  {
    (x % 0x1_0000) as u16
  }

  /** Conversion of an int to uint32_t. */
  function ToU32(x: int): (r: u32)
    ensures r as int == x % 0x1_0000_0000
  {
    (x % 0x1_0000_0000) as u32
  }

  function Pow2(n: nat): (r: nat)
    ensures r >= 1
  {
    if n == 0 then 1 else 2 * Pow2(n - 1)
  }

  /** Concatenation of bytes, most significant first. */
  function BigEndian(bytes: seq<u8>): nat
  {
    if |bytes| == 0 then 0 else BigEndian(bytes[..|bytes| - 1]) * 0x100 + bytes[|bytes| - 1] as nat
  }

  lemma {:induction false} Pow2Add(a: nat, c: nat)
    ensures Pow2(a + c) == Pow2(a) * Pow2(c)
    decreases c
  {
    if c > 0 {
      Pow2Add(a, c - 1);
    }
  }

  /** Euclidean division is determined by quotient and remainder. */
  lemma DivModUnique(x: int, m: int, q: int, r: int)
    requires m > 0 && 0 <= r < m && x == q * m + r
    ensures x / m == q && x % m == r
  {
    var q0 := x / m;
    var r0 := x % m;
    assert x == q0 * m + r0;
    assert (q - q0) * m == r0 - r;
    if q > q0 {
      MulAtLeast(q - q0, m);
    } else if q < q0 {
      MulAtLeast(q0 - q, m);
    }
  }

  lemma MulAtLeast(a: int, m: int)
    requires a >= 1 && m > 0
    ensures a * m >= m
  {
  }

  lemma MulLe(x: nat, y: nat, c: nat)
    requires x <= y
    ensures x * c <= y * c && c * x <= c * y
  {
  }
}
