/** The bitwise operators of the Go source on `uint8`, and what masking does to a byte. */
module Bits {
  import opened Base

  function Or8(a: byte, b: byte): (r: byte) { ((a as bv8) | (b as bv8)) as int }

  function And8(a: byte, b: byte): (r: byte) { ((a as bv8) & (b as bv8)) as int }

  function Xor8(a: byte, b: byte): (r: byte) { ((a as bv8) ^ (b as bv8)) as int }

  /** `b >> s` on `uint8`. */
  function Shr8(b: byte, s: nat): (r: byte)
    requires s <= 8
  {
    ((b as bv8) >> s) as int
  }

  /** The sprite test `sprite & (0x80 >> i) != 0`: bit i of a row, counted from the left. */
  predicate SpriteBit(sprite: byte, i: nat)
    requires i < 8
  {
    (sprite as bv8) & ((0x80 as bv8) >> i) != 0
  }

  lemma LowBit(b: byte)
    ensures And8(b, 1) == b % 2
  {
  }

  lemma HighBit(b: byte)
    ensures Shr8(b, 7) == b / 0x80
  {
  }

  /** Masking with 0 clears a byte and masking with 0xFF keeps it. */
  lemma MaskEnds(b: byte)
    ensures And8(b, 0) == 0
    ensures And8(b, 0xFF) == b
  {
  }

  /** `b & 0x0F` is the low nibble and `b & 0xF0` the byte with its low nibble cleared. */
  lemma MaskNibbles(b: byte)
    ensures And8(b, 0x0F) == b % 0x10
    ensures And8(b, 0xF0) == b / 0x10 * 0x10
  {
    BvRoundInt(b);
    BvLowNibble(b as bv8);
    BvHighNibble(b as bv8);
  }

  /** A masked byte is no larger than either operand. */
  lemma MaskBelow(a: byte, b: byte)
    ensures And8(a, b) <= a && And8(a, b) <= b
  {
    MaskBelowLeft(a, b);
    MaskBelowRight(a, b);
  }

  lemma MaskBelowLeft(a: byte, b: byte)
    ensures And8(a, b) <= a
  {
    BvAndBelowLeft(a as bv8, b as bv8);
    BvRoundInt(a);
  }

  lemma MaskBelowRight(a: byte, b: byte)
    ensures And8(a, b) <= b
  {
    BvAndBelowRight(a as bv8, b as bv8);
    BvRoundInt(b);
  }

  /** Bit i of `a & b` is set iff it is set in both. */
  lemma MaskBits(a: byte, b: byte, i: nat)
    requires i < 8
    ensures SpriteBit(And8(a, b), i) <==> SpriteBit(a, i) && SpriteBit(b, i)
  {
    AndBit(a, b, i);
    AndBitSplit(a, b, i);
  }

  lemma AndBit(a: byte, b: byte, i: nat)
    requires i < 8
    ensures SpriteBit(And8(a, b), i) <==> ((a as bv8) & (b as bv8)) & ((0x80 as bv8) >> i) != 0
  {
    BvBit((a as bv8) & (b as bv8), i);
  }

  lemma AndBitSplit(a: byte, b: byte, i: nat)
    requires i < 8
    ensures ((a as bv8) & (b as bv8)) & ((0x80 as bv8) >> i) != 0 <==> SpriteBit(a, i) && SpriteBit(b, i)
  {
    BvBitAnd(a as bv8, b as bv8, i);
  }

  // The steps between `bv8` and `int` that the lemmas above need, one per lemma: the
  // solver handles each alone but not several together.

  lemma BvRoundInt(b: byte)
    ensures (b as bv8) as int == b
  {
    if b < 0x10 {} else if b < 0x20 {} else if b < 0x40 {} else if b < 0x80 {}
    else if b < 0xC0 {} else {}
  }

  lemma BvRound(z: bv8)
    ensures (z as int) as bv8 == z
  {
  }

  lemma BvLowNibble(x: bv8)
    ensures (x & 0x0F) as int == (x as int) % 0x10
  {
  }

  lemma BvHighNibble(x: bv8)
    ensures (x & 0xF0) as int == (x as int) / 0x10 * 0x10
  {
  }

  lemma BvAndBelowLeft(x: bv8, y: bv8)
    ensures (x & y) as int <= x as int
  {
  }

  lemma BvAndBelowRight(x: bv8, y: bv8)
    ensures (x & y) as int <= y as int
  {
  }

  lemma BvBit(z: bv8, i: nat)
    requires i < 8
    ensures SpriteBit(z as int, i) <==> z & ((0x80 as bv8) >> i) != 0
  {
    BvRound(z);
    if i == 0 {} else if i == 1 {} else if i == 2 {} else if i == 3 {}
    else if i == 4 {} else if i == 5 {} else if i == 6 {} else {}
  }

  lemma BvBitAnd(x: bv8, y: bv8, i: nat)
    requires i < 8
    ensures (x & y) & ((0x80 as bv8) >> i) != 0
      <==> x & ((0x80 as bv8) >> i) != 0 && y & ((0x80 as bv8) >> i) != 0
  {
    if i == 0 {} else if i == 1 {} else if i == 2 {} else if i == 3 {}
    else if i == 4 {} else if i == 5 {} else if i == 6 {} else {}
  }
}
