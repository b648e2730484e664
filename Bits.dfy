/** Bit helpers used throughout Emulator.cpp (TestBit, BitSet, BitReset,
    BitGetVal) and the 16-bit WORD arithmetic of the source. The helpers are
    declared in Config.h, which is not part of this model; they are given
    their conventional meaning here. */
module Bits {

  /** An unsigned 16-bit value: an address or a register pair (WORD). */
  type Word = w: int | 0 <= w < 0x10000

  /** C++ arithmetic on a WORD wraps modulo 2^16. */
  function Wrap16(x: int): (w: Word)
    ensures 0 <= x < 0x10000 ==> w == x
  {
    x % 0x10000
  }

  /** Converting a value in 0..255 to a byte and back loses nothing. */
  lemma ByteRoundTrip(x: int)
    requires 0 <= x < 256
    ensures (x as bv8) as int == x
  {
    // the solver's conversion back to int yields x modulo 256
    assert x % 256 == x;
  }

  /** The single-bit mask for bit n of a byte. */
  function Mask(n: nat): (m: bv8)
    requires n < 8
  {
    1 << n
  }

  predicate TestBit(b: bv8, n: nat)
    requires n < 8
  {
    b & Mask(n) != 0
  }

  function BitSet(b: bv8, n: nat): (r: bv8)
    requires n < 8
    ensures TestBit(r, n)
    ensures r & !Mask(n) == b & !Mask(n)
  {
    b | Mask(n)
  }

  function BitReset(b: bv8, n: nat): (r: bv8)
    requires n < 8
    ensures !TestBit(r, n)
    ensures r & !Mask(n) == b & !Mask(n)
  {
    b & !Mask(n)
  }

  /** Setting or clearing one bit leaves every other bit as it was. */
  lemma OtherBitsKept(b: bv8, n: nat, j: nat)
    requires n < 8 && j < 8 && j != n
    ensures TestBit(BitSet(b, n), j) == TestBit(b, j)
    ensures TestBit(BitReset(b, n), j) == TestBit(b, j)
  {
    assert Mask(j) & Mask(n) == 0;
  }

  /** The value (0 or 1) of bit n. */
  function BitGetVal(b: bv8, n: nat): (r: bv8)
    requires n < 8
    ensures r == if TestBit(b, n) then 1 else 0
  {
    (b >> n) & 1
  }

  /** Bit 8 of a 16-bit address (TestBit applied to a WORD). */
  predicate AddressBit8(a: Word)
  {
    (a / 0x100) % 2 == 1
  }
}
