// Fixed-width C integer types of the ESP32 target and the bit operations the
// firmware applies to them.  Dafny integers are unbounded, so every place where
// the firmware narrows a value (a store into a uint8_t, a uint32_t counter that
// wraps) goes through one of the conversions below.
module Ints {

  type uint8 = x: int | 0 <= x < 0x100
  type uint16 = x: int | 0 <= x < 0x1_0000
  type uint32 = x: int | 0 <= x < 0x1_0000_0000
  /** `long` on the ESP32 is 32 bits wide. */
  type int32 = x: int | -0x8000_0000 <= x < 0x8000_0000

  const UINT32_MAX: uint32 := 0xFFFF_FFFF

  /** Conversion of any integer to uint8_t (reduction modulo 2^8). */
  function ToU8(x: int): (r: uint8)
    ensures 0 <= x < 0x100 ==> r == x
  {
    x % 0x100
  }

  /** Conversion of any integer to uint16_t (reduction modulo 2^16). */
  function ToU16(x: int): (r: uint16)
    ensures 0 <= x < 0x1_0000 ==> r == x
  {
    x % 0x1_0000
  }

  /** Conversion of any integer to uint32_t (reduction modulo 2^32). */
  function ToU32(x: int): (r: uint32)
    ensures 0 <= x <= UINT32_MAX ==> r == x
    ensures -0x1_0000_0000 <= x < 0 ==> r == x + 0x1_0000_0000
  {
    x % 0x1_0000_0000
  }

  /** uint32_t addition, which wraps. */
  function AddU32(a: uint32, b: int): (r: uint32)
    ensures a + b <= UINT32_MAX && 0 <= a + b ==> r == a + b
  {
    ToU32(a + b)
  }

  /** uint32_t subtraction, which wraps. */
  function SubU32(a: uint32, b: uint32): (r: uint32)
    ensures b <= a ==> r == a - b
    ensures a < b ==> r == a - b + 0x1_0000_0000
  {
    ToU32(a - b)
  }

  /** Bytes of a 16-bit value, as Arduino's highByte and lowByte give them. */
  function HighByte(x: uint16): uint8 { x / 0x100 }
  function LowByte(x: uint16): uint8 { x % 0x100 }

  lemma BytesOfWord(x: uint16)
    ensures HighByte(x) * 0x100 + LowByte(x) == x
  {
  }

  function Pow2(k: nat): (r: nat)
    ensures r >= 1
  {
    if k == 0 then 1 else 2 * Pow2(k - 1)
  }

  /** C `|` on unsigned values, one bit at a time from the least significant.
      Shifts and masks by constants are written as the division, product and
      remainder they are; OR is kept as it is because the firmware applies it
      to fields whose disjointness has to be shown. */
  function OrBits(a: nat, b: nat): nat
    decreases a + b
  {
    if a == 0 then b
    else if b == 0 then a
    else 2 * OrBits(a / 2, b / 2) + (if a % 2 == 1 || b % 2 == 1 then 1 else 0)
  }

  /** OR never sets a bit at or above the highest bit of its operands. */
  lemma {:induction false} OrBitsBelow(a: nat, b: nat, k: nat)
    requires a < Pow2(k) && b < Pow2(k)
    ensures OrBits(a, b) < Pow2(k)
    decreases a + b
  {
    if a != 0 && b != 0 {
      assert k > 0;
      OrBitsBelow(a / 2, b / 2, k - 1);
    }
  }

  /** OR of a multiple of 2^k with a value below 2^k is their sum: the fields
      of a register image do not overlap. */
  lemma OrDisjoint(a: nat, k: nat, b: nat)
    requires a % Pow2(k) == 0 && b < Pow2(k)
    ensures OrBits(a, b) == a + b
  {
    var m := a / Pow2(k);
    assert a == m * Pow2(k);
    OrMultiple(m, k, b);
  }

  lemma {:induction false} OrMultiple(m: nat, k: nat, b: nat)
    requires b < Pow2(k)
    ensures OrBits(m * Pow2(k), b) == m * Pow2(k) + b
    decreases k
  {
    var a := m * Pow2(k);
    if k == 0 {
      assert b == 0;
    } else if a != 0 && b != 0 {
      assert Pow2(k) == 2 * Pow2(k - 1);
      assert a == 2 * (m * Pow2(k - 1));
      assert a / 2 == m * Pow2(k - 1) && a % 2 == 0;
      OrMultiple(m, k - 1, b / 2);
    }
  }

  /** `a | b` on two uint8_t values. */
  function Or8(a: uint8, b: uint8): (r: uint8)
    ensures r == OrBits(a, b)
  {
    assert Pow2(8) == 0x100;
    OrBitsBelow(a, b, 8);
    OrBits(a, b)
  }

  /** Division with remainder by a power of two up to 128, stated one fact
      at a time so that callers never reason about `/` and `%` themselves. */
  lemma DivOf(x: nat, d: nat, q: nat, r: nat)
    requires d == 2 || d == 4 || d == 8 || d == 16 || d == 32 || d == 64 || d == 128
    requires x == d * q + r && r < d
    ensures x / d == q
  {
  }

  lemma ModOf(x: nat, d: nat, q: nat, r: nat)
    requires d == 2 || d == 4 || d == 8 || d == 16 || d == 32 || d == 64 || d == 128
    requires x == d * q + r && r < d
    ensures x % d == r
  {
    DivOf(x, d, q, r);
  }

  lemma Or8Extend(x: uint8, s: nat, k: nat, e: uint8)
    requires x == s && s % Pow2(k) == 0 && e < Pow2(k)
    ensures Or8(x, e) == s + e
  {
    OrDisjoint(s, k, e);
  }

  function Min(a: int, b: int): int { if a <= b then a else b }
  function Max(a: int, b: int): int { if a <= b then b else a }
}
