/** The cartridge bank controller driven by writes below 0x8000 in
    Emulator.cpp (WriteByte, lines 379-473): RAM enabling, ROM bank
    selection for MBC1 and MBC2, the MBC1 upper-bits register and the
    16/8 versus 4/32 banking-mode switch. */
module Banking {
  import opened Bits

  /** The fields that describe the controller: m_UsingMBC1, m_UsingMBC2,
      m_EnableRamBank, m_CurrentRomBank, m_CurrentRamBank and
      m_UsingMemoryModel16_8. */
  datatype BankState = BankState(
    usingMbc1: bool,
    usingMbc2: bool,
    ramEnabled: bool,
    romBank: int,
    ramBank: int,
    mode16_8: bool)

  /** The ranges every reachable controller state stays in: at most seven
      ROM bank bits and two RAM bank bits. */
  predicate ValidBanks(b: BankState)
  {
    0 <= b.romBank < 128 && 0 <= b.ramBank < 4
  }

  /** The three bit-level facts that relate the masks the source applies to
      m_CurrentRomBank with arithmetic on its value. */
  lemma HighBitsValue(x: bv8)
    ensures (x & 224) as int == x as int / 32 * 32
  {
  }

  lemma LowBitsValue(x: bv8)
    ensures (x & 31) as int == x as int % 32
  {
  }

  lemma DisjointOrIsSum(x: bv8, y: bv8)
    requires x & y == 0
    ensures (x | y) as int == x as int + y as int
  {
  }

  /** A write to 0x0000-0x1FFF: 0x?A enables the RAM banks and 0 disables
      them. MBC1 ignores the address; MBC2 listens only when bit 8 of the
      address is clear. */
  function RamEnableWrite(b: BankState, a: Word, v: bv8): BankState
    requires a <= 0x1FFF
  {
    if b.usingMbc1 || (b.usingMbc2 && !AddressBit8(a)) then
      if v & 0xF == 0xA then b.(ramEnabled := true)
      else if v == 0 then b.(ramEnabled := false)
      else b
    else b
  }

  /** The value MBC1 ORs into the low five ROM bank bits: a written 0
      becomes 1 before the mask with 31 is applied. */
  function LowBankBits(v: bv8): bv8
  {
    (if v == 0 then 1 else v) & 31
  }

  /** A write to 0x2000-0x3FFF: MBC1 replaces the low five bits of the ROM
      bank, MBC2 replaces the whole bank with the low nibble. */
  function RomBankWrite(b: BankState, v: bv8): (r: BankState)
    requires ValidBanks(b)
    ensures ValidBanks(r)
  {
    if b.usingMbc1 then
      var kept := b.romBank as bv8 & 224;
      HighBitsValue(b.romBank as bv8);
      DisjointOrIsSum(kept, LowBankBits(v));
      b.(romBank := (kept | LowBankBits(v)) as int)
    else if b.usingMbc2 then
      b.(romBank := (v & 0xF) as int)
    else b
  }

  /** The bits a 16/8-mode write to 0x4000-0x5FFF puts above the low five
      bank bits, plus one when those low bits are all clear. */
  function UpperBankBits(romBank: bv8, v: bv8): bv8
  {
    var d := (v & 3) << 5;
    if romBank & 31 == 0 then d + 1 else d
  }

  /** A write to 0x4000-0x5FFF on MBC1: in 16/8 mode it selects RAM bank 0
      and replaces ROM bank bits 5 and 6; in 4/32 mode it selects the RAM
      bank. Other controllers ignore it. */
  function BankHighWrite(b: BankState, v: bv8): (r: BankState)
    requires ValidBanks(b)
    ensures ValidBanks(r)
  {
    if b.usingMbc1 then
      if b.mode16_8 then
        var x := b.romBank as bv8;
        var kept := x & 31;
        LowBitsValue(x);
        b.(ramBank := 0, romBank := (kept | UpperBankBits(x, v)) as int)
      else
        b.(ramBank := (v & 3) as int)
    else b
  }

  /** A write to 0x6000-0x7FFF on MBC1: bit 0 set selects 4/32 mode (and
      RAM bank 0), clear selects 16/8 mode. */
  function ModeWrite(b: BankState, v: bv8): BankState
  {
    if b.usingMbc1 then
      if v & 1 == 1 then b.(ramBank := 0, mode16_8 := false)
      else b.(mode16_8 := true)
    else b
  }

  /** Every write below 0x8000 lands in exactly one controller register.
      The controller kind is never changed by such a write. */
  function ControlWrite(b: BankState, a: Word, v: bv8): (r: BankState)
    requires ValidBanks(b)
    requires a < 0x8000
    ensures ValidBanks(r)
    ensures r.usingMbc1 == b.usingMbc1 && r.usingMbc2 == b.usingMbc2
  {
    if a <= 0x1FFF then RamEnableWrite(b, a, v)
    else if a <= 0x3FFF then RomBankWrite(b, v)
    else if a <= 0x5FFF then BankHighWrite(b, v)
    else ModeWrite(b, v)
  }

  /** The controller switch of ResetCPU on cartridge header byte 0x147:
      kind 0 has none, kinds 1-3 are MBC1, kinds 5 and 6 are MBC2 (leaving
      the MBC1 flag as it was), and other kinds change nothing. */
  function SelectController(b: BankState, kind: bv8): (r: BankState)
  {
    if kind == 0 then b.(usingMbc1 := false)
    else if kind <= 3 then b.(usingMbc1 := true)
    else if kind == 5 || kind == 6 then b.(usingMbc2 := true)
    else b
  }

  // ---------------------------------------------------------------------
  // Properties of the controller
  // ---------------------------------------------------------------------

  /** MBC1, 0x2000-0x3FFF: bits 5 and 6 of the ROM bank are kept, the low
      five bits become the written value masked with 31, and a written 0
      counts as 1. Nothing else changes. */
  lemma Mbc1RomBankLow(b: BankState, a: Word, v: bv8)
    requires ValidBanks(b) && b.usingMbc1
    requires 0x2000 <= a <= 0x3FFF
    ensures var r := ControlWrite(b, a, v);
      && r.romBank / 32 == b.romBank / 32
      && r.romBank % 32 == (if v == 0 then 1 else (v & 31) as int)
      && r == b.(romBank := r.romBank)
  {
    ByteRoundTrip(b.romBank);
    RomBankLowValue(b.romBank as bv8, v);
  }

  /** The bank value an MBC1 low-bits write produces, split into the
      kept upper part and the new low five bits. */
  lemma RomBankLowValue(x: bv8, v: bv8)
    ensures var r := ((x & 224) | LowBankBits(v)) as int;
      && r / 32 == x as int / 32
      && r % 32 == (if v == 0 then 1 else (v & 31) as int)
  {
    HighBitsValue(x);
    LowBitsValue(v);
    DisjointOrIsSum(x & 224, LowBankBits(v));
    var q := x as int / 32;
    var low := LowBankBits(v) as int;
    assert ((x & 224) | LowBankBits(v)) as int == q * 32 + low;
    assert 0 <= low < 32;
  }

  /** The 0-to-1 rule runs before the mask, so the low five bits end up
      clear exactly when the written value is a non-zero multiple of 32. */
  lemma Mbc1LowBitsClear(b: BankState, a: Word, v: bv8)
    requires ValidBanks(b) && b.usingMbc1
    requires 0x2000 <= a <= 0x3FFF
    ensures ControlWrite(b, a, v).romBank % 32 == 0 <==> v != 0 && v & 31 == 0
  {
    Mbc1RomBankLow(b, a, v);
    LowBitsValue(v);
  }

  /** A consequence of that order: with bits 5 and 6 clear, writing 0x20
      selects ROM bank 0 through this register. */
  lemma Mbc1WriteOf0x20SelectsBankZero(b: BankState)
    requires ValidBanks(b) && b.usingMbc1 && b.romBank < 32
    ensures ControlWrite(b, 0x2000, 0x20).romBank == 0
  {
    Mbc1RomBankLow(b, 0x2000, 0x20);
  }

  /** MBC1 in 16/8 mode, 0x4000-0x5FFF: RAM bank 0 is selected, bits 5
      and 6 of the ROM bank become bits 0 and 1 of the written value, and
      the low five bits are kept, except that all-clear low bits become 1. */
  lemma Mbc1UpperBits16_8(b: BankState, a: Word, v: bv8)
    requires ValidBanks(b) && b.usingMbc1 && b.mode16_8
    requires 0x4000 <= a <= 0x5FFF
    ensures var r := ControlWrite(b, a, v);
      && r.ramBank == 0
      && r.romBank / 32 == (v & 3) as int
      && r.romBank % 32 == (if b.romBank % 32 == 0 then 1 else b.romBank % 32)
      && r == b.(romBank := r.romBank, ramBank := 0)
  {
    var x := b.romBank as bv8;
    ByteRoundTrip(b.romBank);
    UpperBitsValue(x, v);
    var r := ControlWrite(b, a, v);
    var k := (v & 3) as int;
    var low := if b.romBank % 32 == 0 then 1 else b.romBank % 32;
    assert r.romBank == k * 32 + low;
    assert 0 <= k < 4 && 0 <= low < 32;
  }

  /** The bank value a 16/8-mode upper-bits write produces, as arithmetic. */
  lemma UpperBitsValue(x: bv8, v: bv8)
    requires x < 128
    ensures ((x & 31) | UpperBankBits(x, v)) as int
      == (v & 3) as int * 32 + (if x as int % 32 == 0 then 1 else x as int % 32)
  {
    LowBitsValue(x);
    DisjointOrIsSum(x & 31, UpperBankBits(x, v));
  }

  /** MBC1 in 4/32 mode, 0x4000-0x5FFF: only the RAM bank changes, to the
      low two bits of the written value. */
  lemma Mbc1RamBankSelect(b: BankState, a: Word, v: bv8)
    requires ValidBanks(b) && b.usingMbc1 && !b.mode16_8
    requires 0x4000 <= a <= 0x5FFF
    ensures ControlWrite(b, a, v) == b.(ramBank := (v & 3) as int)
    ensures ControlWrite(b, a, v).ramBank == (v as int) % 4
  {
  }

  /** MBC1, 0x6000-0x7FFF: odd values select 4/32 mode and RAM bank 0,
      even values select 16/8 mode. */
  lemma Mbc1ModeSelect(b: BankState, a: Word, v: bv8)
    requires ValidBanks(b) && b.usingMbc1
    requires 0x6000 <= a <= 0x7FFF
    ensures var r := ControlWrite(b, a, v);
      && (r.mode16_8 <==> v as int % 2 == 0)
      && (v as int % 2 == 1 ==> r.ramBank == 0)
      && r.romBank == b.romBank && r.ramEnabled == b.ramEnabled
  {
  }

  /** 0x0000-0x1FFF: the RAM-enable latch becomes true for a low nibble of
      0xA, false for 0, and otherwise holds; MBC2 takes the write only when
      address bit 8 is clear, and a cartridge without controller never. */
  lemma RamEnableLatch(b: BankState, a: Word, v: bv8)
    requires ValidBanks(b)
    requires a <= 0x1FFF
    ensures var listens := b.usingMbc1 || (b.usingMbc2 && !AddressBit8(a));
      var r := ControlWrite(b, a, v);
      && r.ramEnabled == (if listens then v & 0xF == 0xA || (v != 0 && b.ramEnabled) else b.ramEnabled)
      && r == b.(ramEnabled := r.ramEnabled)
  {
  }

  /** MBC2, 0x2000-0x3FFF: the ROM bank becomes the written low nibble,
      bank 0 included. */
  lemma Mbc2RomBank(b: BankState, a: Word, v: bv8)
    requires ValidBanks(b) && !b.usingMbc1 && b.usingMbc2
    requires 0x2000 <= a <= 0x3FFF
    ensures ControlWrite(b, a, v) == b.(romBank := v as int % 16)
  {
    LowBitsValue(v);
    assert (v & 0xF) as int == ((v & 31) as int) % 16;
  }

  /** MBC2 has no upper-bits or mode register. */
  lemma Mbc2IgnoresHighRegisters(b: BankState, a: Word, v: bv8)
    requires ValidBanks(b) && !b.usingMbc1 && b.usingMbc2
    requires 0x4000 <= a <= 0x7FFF
    ensures ControlWrite(b, a, v) == b
  {
  }

  /** Without a bank controller no write below 0x8000 has any effect. */
  lemma NoControllerIgnoresWrites(b: BankState, a: Word, v: bv8)
    requires ValidBanks(b) && !b.usingMbc1 && !b.usingMbc2
    requires a < 0x8000
    ensures ControlWrite(b, a, v) == b
  {
  }
}
