/**
 Bytes as the driver's `uint8_t`: integers 0-255, with the truncation C applies
 when a wider value is stored into one, and the bitwise AND / OR the driver uses
 to build status bytes, defined bit by bit on natural numbers.
 */
module Bytes {

  type byte = x: int | 0 <= x < 256

  /** Storing an `int` into a `uint8_t`: keep the low 8 bits (two's complement for negatives). */
  function Truncate(x: int): (b: byte)
    ensures 0 <= x < 256 ==> b == x
    ensures 256 <= x < 512 ==> b == x - 256
    ensures -256 <= x < 0 ==> b == x + 256
  {
    x % 256
  }

  /** Bitwise OR, least significant bit first. */
  function BitOr(a: nat, b: nat): (bits: nat)
    decreases a + b
  {
    if a == 0 then b
    else if b == 0 then a
    else 2 * BitOr(a / 2, b / 2) + (if a % 2 == 1 || b % 2 == 1 then 1 else 0)
  }

  /** Bitwise AND, least significant bit first. */
  function BitAnd(a: nat, b: nat): (bits: nat)
    decreases a
  {
    if a == 0 || b == 0 then 0
    else 2 * BitAnd(a / 2, b / 2) + (if a % 2 == 1 && b % 2 == 1 then 1 else 0)
  }

  /** The low three bits of `x` are its lowest bit and the low two bits of `x / 2`. */
  lemma HalfModEight(x: nat)
    ensures x % 8 == 2 * ((x / 2) % 4) + x % 2
  {
  }

  /** The low nibble of `x` is its lowest bit and the low three bits of `x / 2`. */
  lemma HalfModSixteen(x: nat)
    ensures x % 16 == 2 * ((x / 2) % 8) + x % 2
  {
  }

  lemma AndLowBit(x: nat)
    ensures BitAnd(x, 1) == x % 2
  {
  }

  lemma AndLowTwoBits(x: nat)
    ensures BitAnd(x, 3) == x % 4
  {
    AndLowBit(x / 2);
  }

  lemma AndLowThreeBits(x: nat)
    ensures BitAnd(x, 7) == x % 8
  {
    AndLowTwoBits(x / 2);
    HalfModEight(x);
  }

  /** `x & 0x0F` keeps the low nibble. */
  lemma AndLowNibble(x: nat)
    ensures BitAnd(x, 0x0F) == x % 16
  {
    AndLowThreeBits(x / 2);
    HalfModSixteen(x);
  }

  lemma OrDisjointBit(h: nat, l: nat)
    requires h % 2 == 0 && l < 2
    ensures BitOr(h, l) == h + l
  {
  }

  lemma OrDisjointTwoBits(h: nat, l: nat)
    requires h % 4 == 0 && l < 4
    ensures BitOr(h, l) == h + l
  {
    OrDisjointBit(h / 2, l / 2);
  }

  lemma OrDisjointThreeBits(h: nat, l: nat)
    requires h % 8 == 0 && l < 8
    ensures BitOr(h, l) == h + l
  {
    OrDisjointTwoBits(h / 2, l / 2);
  }

  /** OR-ing a nibble into a value whose low nibble is clear is addition. */
  lemma OrDisjointNibble(h: nat, l: nat)
    requires h % 16 == 0 && l < 16
    ensures BitOr(h, l) == h + l
  {
    OrDisjointThreeBits(h / 2, l / 2);
  }
}
