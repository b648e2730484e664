/** The value a read of the joypad register 0xFF00 returns
    (GetJoypadState, Emulator.cpp:1064-1081). The eight keys live in one
    byte, m_JoypadState, where a clear bit means the key is held down:
    bits 0-3 are the directions, bits 4-7 the buttons. */
module Joypad {
  import opened Bits

  /** The register as the source computes it from the stored byte `p1` at
      0xFF00 and the key byte: the stored byte is complemented, and then
      one group of keys is ANDed into the low nibble, chosen by bits 4 and
      5 of the complemented byte. */
  function JoypadRegister(p1: bv8, keys: bv8): (r: bv8)
  {
    var res := p1 ^ 0xFF;
    if !TestBit(res, 4) then res & ((keys >> 4) | 0xF0)
    else if !TestBit(res, 5) then res & ((keys & 0xF) | 0xF0)
    else res
  }

  /** The key group whose state shows through in the low nibble, if any:
      the buttons when bit 4 of the stored byte is set, else the directions
      when bit 5 is set. */
  function VisibleGroup(p1: bv8, keys: bv8): (g: bv8)
    ensures g <= 0xF
  {
    if TestBit(p1, 4) then keys >> 4
    else if TestBit(p1, 5) then keys & 0xF
    else 0xF
  }

  /** The upper nibble reads back as the complement of the stored byte;
      the lower nibble is the complement of the stored byte masked with the
      visible group, so a held key in that group always reads as 0. */
  lemma JoypadRegisterNibbles(p1: bv8, keys: bv8)
    ensures var r := JoypadRegister(p1, keys);
      && r & 0xF0 == !p1 & 0xF0
      && r & 0x0F == !p1 & VisibleGroup(p1, keys)
  {
  }

  /** A held button reads as a clear bit while the buttons are visible,
      and a held direction reads as a clear bit while the directions are. */
  lemma HeldKeyReadsClear(p1: bv8, keys: bv8, key: nat)
    requires key < 8 && !TestBit(keys, key)
    requires if key > 3 then TestBit(p1, 4) else !TestBit(p1, 4) && TestBit(p1, 5)
    ensures !TestBit(JoypadRegister(p1, keys), key % 4)
  {
  }
}
