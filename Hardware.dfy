/** The constant data and register layout declared in Emulator.h: the flag
    bit indices and masks, the 256-byte boot program, the COLOUR shades and
    the Register union of a 16-bit pair with its two 8-bit halves. */
module Hardware {
  import opened Bits

  // ---------------------------------------------------------------------
  // Flags of register F (the low half of AF)
  // ---------------------------------------------------------------------

  const FlagZ: nat := 7
  const FlagN: nat := 6
  const FlagH: nat := 5
  const FlagC: nat := 4

  const FlagMaskZ: bv8 := 128
  const FlagMaskN: bv8 := 64
  const FlagMaskH: bv8 := 32
  const FlagMaskC: bv8 := 16

  /** The mask constant that belongs to a flag bit index. */
  function FlagMaskOf(flag: nat): bv8
    requires FlagC <= flag <= FlagZ
  {
    if flag == FlagZ then FlagMaskZ
    else if flag == FlagN then FlagMaskN
    else if flag == FlagH then FlagMaskH
    else FlagMaskC
  }

  /** Every flag mask is 1 shifted left by the flag's bit index. */
  lemma FlagMasksAreBitMasks(flag: nat)
    requires FlagC <= flag <= FlagZ
    ensures FlagMaskOf(flag) == Mask(flag)
  {
  }

  // ---------------------------------------------------------------------
  // Register pairs
  // ---------------------------------------------------------------------

  /** A register pair: one 16-bit store whose high and low bytes are
      addressable on their own. On the little-endian target the union puts
      `lo` at the lower address, so the 16-bit value is hi * 256 + lo. */
  datatype Register = Register(reg: Word)
  {
    function Hi(): bv8 { (reg / 256) as bv8 }

    function Lo(): bv8 { (reg % 256) as bv8 }

    /** Assign the high byte alone (`r.hi = h`). */
    function WithHi(h: bv8): (r: Register)
      ensures r.Hi() == h && r.Lo() == Lo()
    {
      var x := h as int * 256 + reg % 256;
      assert x / 256 == h as int && x % 256 == reg % 256;
      Register(x)
    }

    /** Assign the low byte alone (`r.lo = l`). */
    function WithLo(l: bv8): (r: Register)
      ensures r.Lo() == l && r.Hi() == Hi()
    {
      var x := reg / 256 * 256 + l as int;
      assert x / 256 == reg / 256 && x % 256 == l as int;
      Register(x)
    }
  }

  lemma HiValue(r: Register)
    ensures r.Hi() as int == r.reg / 256
  {
    ByteRoundTrip(r.reg / 256);
  }

  lemma LoValue(r: Register)
    ensures r.Lo() as int == r.reg % 256
  {
    ByteRoundTrip(r.reg % 256);
  }

  /** The 16-bit value is the composition of the two bytes. */
  lemma RegisterComposition(r: Register)
    ensures r.reg == r.Hi() as int * 256 + r.Lo() as int
  {
    HiValue(r);
    LoValue(r);
  }

  /** Writing both halves determines the whole pair, whatever it held. */
  lemma HalvesDetermineRegister(r: Register, h: bv8, l: bv8)
    ensures r.WithHi(h).WithLo(l).reg == h as int * 256 + l as int
  {
    RegisterComposition(r.WithHi(h).WithLo(l));
  }

  /** The value of a flag as the getters return it (1 when set, else 0). */
  function FlagValue(af: Register, flag: nat): (f: int)
    requires FlagC <= flag <= FlagZ
    ensures f == 1 <==> af.Lo() & FlagMaskOf(flag) != 0
    ensures f == 0 <==> af.Lo() & FlagMaskOf(flag) == 0
  {
    if TestBit(af.Lo(), flag) then 1 else 0
  }

  // ---------------------------------------------------------------------
  // The boot program
  // ---------------------------------------------------------------------

  /** The I/O register whose write ends boot mode. */
  const BootDisableRegister: Word := 0xFF50

  const BootRom: seq<bv8> := [
    0x31, 0xFE, 0xFF, 0xAF, 0x21, 0xFF, 0x9F, 0x32, 0xCB, 0x7C, 0x20, 0xFB, 0x21, 0x26, 0xFF, 0x0E,
    0x11, 0x3E, 0x80, 0x32, 0xE2, 0x0C, 0x3E, 0xF3, 0xE2, 0x32, 0x3E, 0x77, 0x77, 0x3E, 0xFC, 0xE0,
    0x47, 0x11, 0x04, 0x01, 0x21, 0x10, 0x80, 0x1A, 0xCD, 0x95, 0x00, 0xCD, 0x96, 0x00, 0x13, 0x7B,
    0xFE, 0x34, 0x20, 0xF3, 0x11, 0xD8, 0x00, 0x06, 0x08, 0x1A, 0x13, 0x22, 0x23, 0x05, 0x20, 0xF9,
    0x3E, 0x19, 0xEA, 0x10, 0x99, 0x21, 0x2F, 0x99, 0x0E, 0x0C, 0x3D, 0x28, 0x08, 0x32, 0x0D, 0x20,
    0xF9, 0x2E, 0x0F, 0x18, 0xF3, 0x67, 0x3E, 0x64, 0x57, 0xE0, 0x42, 0x3E, 0x91, 0xE0, 0x40, 0x04,
    0x1E, 0x02, 0x0E, 0x0C, 0xF0, 0x44, 0xFE, 0x90, 0x20, 0xFA, 0x0D, 0x20, 0xF7, 0x1D, 0x20, 0xF2,
    0x0E, 0x13, 0x24, 0x7C, 0x1E, 0x83, 0xFE, 0x62, 0x28, 0x06, 0x1E, 0xC1, 0xFE, 0x64, 0x20, 0x06,
    0x7B, 0xE2, 0x0C, 0x3E, 0x87, 0xE2, 0xF0, 0x42, 0x90, 0xE0, 0x42, 0x15, 0x20, 0xD2, 0x05, 0x20,
    0x4F, 0x16, 0x20, 0x18, 0xCB, 0x4F, 0x06, 0x04, 0xC5, 0xCB, 0x11, 0x17, 0xC1, 0xCB, 0x11, 0x17,
    0x05, 0x20, 0xF5, 0x22, 0x23, 0x22, 0x23, 0xC9, 0xCE, 0xED, 0x66, 0x66, 0xCC, 0x0D, 0x00, 0x0B,
    0x03, 0x73, 0x00, 0x83, 0x00, 0x0C, 0x00, 0x0D, 0x00, 0x08, 0x11, 0x1F, 0x88, 0x89, 0x00, 0x0E,
    0xDC, 0xCC, 0x6E, 0xE6, 0xDD, 0xDD, 0xD9, 0x99, 0xBB, 0xBB, 0x67, 0x63, 0x6E, 0x0E, 0xEC, 0xCC,
    0xDD, 0xDC, 0x99, 0x9F, 0xBB, 0xB9, 0x33, 0x3E, 0x3C, 0x42, 0xB9, 0xA5, 0xB9, 0xA5, 0x42, 0x3C,
    0x21, 0x04, 0x01, 0x11, 0xA8, 0x00, 0x1A, 0x13, 0xBE, 0x00, 0x00, 0x23, 0x7D, 0xFE, 0x34, 0x20,
    0xF5, 0x06, 0x19, 0x78, 0x86, 0x23, 0x05, 0x20, 0xFB, 0x86, 0x00, 0x00, 0x3E, 0x01, 0xE0, 0x50
  ]

  /** The boot program fills the whole 256-byte overlay and ends with
      `LD A,1; LDH (0x50),A`: its last instruction writes to the I/O
      register whose write turns boot mode off. */
  lemma BootRomEndsWithBootDisable()
    ensures |BootRom| == 256
    ensures BootRom[252..] == [0x3E, 0x01, 0xE0, 0x50]
    ensures 0xFF00 + BootRom[255] as int == BootDisableRegister
  {
  }

  // ---------------------------------------------------------------------
  // Shades
  // ---------------------------------------------------------------------

  /** The COLOUR enum, lightest to darkest. */
  datatype Colour = LightestGreen | LightGreen | DarkGreen | DarkestGreen
  {
    /** The enumerator's value (its declaration position). */
    function Ordinal(): nat
    {
      match this
      case LightestGreen => 0
      case LightGreen => 1
      case DarkGreen => 2
      case DarkestGreen => 3
    }
  }

  /** The shade a 2-bit palette entry names. */
  function ColourOfShade(shade: bv8): (c: Colour)
    requires shade < 4
    ensures c.Ordinal() == shade as int
  {
    if shade == 0 then LightestGreen
    else if shade == 1 then LightGreen
    else if shade == 2 then DarkGreen
    else DarkestGreen
  }

  /** The enumerators are ordered lightest < light < dark < darkest, and a
      shade survives the trip through its ordinal. */
  lemma ColourOrdering(c: Colour)
    ensures LightestGreen.Ordinal() < LightGreen.Ordinal() < DarkGreen.Ordinal() < DarkestGreen.Ordinal()
    ensures c.Ordinal() < 4 && ColourOfShade(c.Ordinal() as bv8) == c
  {
  }
}
