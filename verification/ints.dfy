// Fixed-width integer helpers shared by the firmware model.
// C integer types are modelled as subset types of `int`; every wrap-around,
// shift or bit operation the firmware relies on is written out explicitly.
module Ints {

  const INT16_MIN: int := -0x8000
  const INT16_MAX: int := 0x7fff
  const INT32_MIN: int := -0x8000_0000
  const INT32_MAX: int := 0x7fff_ffff
  const TWO_32: int := 0x1_0000_0000

  type i16 = x: int | INT16_MIN <= x <= INT16_MAX
  type i32 = x: int | INT32_MIN <= x <= INT32_MAX
  type u8 = x: int | 0 <= x < 0x100
  type u16 = x: int | 0 <= x < 0x1_0000
  type u32 = x: int | 0 <= x < 0x1_0000_0000

  function Min(a: int, b: int): int { if a <= b then a else b }

  /** 2^k */
  function Pow2(k: nat): (r: nat)
    ensures r >= 1
  {
    if k == 0 then 1 else 2 * Pow2(k - 1)
  }

  /** C `x >> k` on a signed value (arithmetic shift on the target): rounds towards minus infinity. */
  function Asr(x: int, k: nat): int
  {
    x / Pow2(k)
  }

  /** C `x & ~0x1`: clears bit 0 of a two's complement value and keeps every other bit. */
  function ClearLsb(x: int): (r: int)
    ensures r % 2 == 0
    ensures r == x || r == x - 1
    ensures x % 2 == 0 ==> r == x
  {
    x - x % 2
  }

  /** C `x | 0x1`: sets bit 0 of a two's complement value and keeps every other bit. */
  function SetLsb(x: int): (r: int)
    ensures r % 2 == 1
    ensures r == x || r == x + 1
    ensures x % 2 == 1 ==> r == x
  {
    x + (1 - x % 2)
  }

  /** Unsigned 32-bit arithmetic: reduction modulo 2^32. */
  function Wrap32(x: int): (r: u32)
    ensures 0 <= x < TWO_32 ==> r == x
    ensures (x - r) % TWO_32 == 0
  {
    x % TWO_32
  }

  lemma Pow2Of16()
    ensures Pow2(16) == 0x1_0000
  {
    assert Pow2(4) == 16;
    assert Pow2(8) == 256;
    assert Pow2(12) == 4096;
  }

  /** Shifting a 32-bit sample right by 16 leaves a value that fits a 16-bit sample. */
  lemma AsrSixteenFitsI16(x: i32)
    ensures INT16_MIN <= Asr(x, 16) <= INT16_MAX
  {
    Pow2Of16();
  }

  /** Shifting a 16-bit sample left by 16 (multiplying by 2^16) leaves a value that fits a 32-bit sample. */
  lemma ShlSixteenFitsI32(v: i16)
    ensures INT32_MIN <= v * Pow2(16) <= INT32_MAX
  {
    Pow2Of16();
  }

  /** `(x >> 16) << 16` clears the low 16 bits: the result is x rounded down to a multiple of 2^16. */
  lemma {:induction false} AsrThenShl(x: int)
    ensures Asr(x, 16) * Pow2(16) == x - x % 0x1_0000
  {
    Pow2Of16();
  }
}
