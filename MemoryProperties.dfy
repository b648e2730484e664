/** What ReadMemory and WriteByte promise about the memory map
    (Emulator.cpp:327-349 and 372-570), and what ResetCPU and the stack
    helpers leave behind. */
module MemoryProperties {
  import opened Bits
  import opened Hardware
  import opened Banking
  import opened Joypad
  import opened Machine

  // ---------------------------------------------------------------------
  // Reads
  // ---------------------------------------------------------------------

  /** While boot mode is on, the first 256 addresses read the boot
      program; otherwise the low ROM area reads the flat memory, where
      LoadRom placed the first 32 KiB of the cartridge. */
  lemma ReadLowArea(m: Machine, a: Word)
    requires Valid(m) && a < 0x4000
    ensures m.bootMode && a <= 0xFF ==> Read(m, a) == BootRom[a]
    ensures !(m.bootMode && a <= 0xFF) ==> Read(m, a) == m.mem[a]
  {
  }

  /** The switchable ROM window reads the cartridge byte at offset
      a - 0x4000 of the selected 16 KiB bank. */
  lemma ReadRomWindow(m: Machine, a: Word)
    requires Valid(m) && InRomWindow(a)
    ensures Read(m, a) == m.game[m.bank.romBank * 0x4000 + (a - 0x4000)]
  {
  }

  /** The external RAM window reads the selected RAM bank. */
  lemma ReadRamWindow(m: Machine, a: Word)
    requires Valid(m) && RamMapped(m) && InRamWindow(a)
    ensures Read(m, a) == m.ramBanks[m.bank.ramBank][a - 0xA000]
  {
  }

  /** 0xFF00 is computed from the key state, not read from memory. */
  lemma ReadJoypadRegister(m: Machine)
    requires Valid(m)
    ensures Read(m, 0xFF00) == JoypadRegister(m.mem[0xFF00], m.joypad)
  {
  }

  /** Addresses whose reads are the flat memory byte. */
  predicate FlatRead(a: Word)
  {
    0x8000 <= a <= 0x9FFF || 0xC000 <= a <= 0xFEFF || (0xFF01 <= a <= 0xFFFF)
  }

  lemma ReadFlat(m: Machine, a: Word)
    requires Valid(m) && FlatRead(a)
    ensures Read(m, a) == m.mem[a]
  {
  }

  // ---------------------------------------------------------------------
  // Writes
  // ---------------------------------------------------------------------

  /** A write below 0x8000 never changes the flat memory (nor anything
      but the bank controller): the ROM area is read-only. */
  lemma WriteBelow8000OnlyControlsBanks(m: Machine, a: Word, v: bv8)
    requires Valid(m) && a < 0x8000
    ensures WriteDefined(m, a, v)
    ensures Write(m, a, v) == m.(bank := ControlWrite(m.bank, a, v))
    ensures Write(m, a, v).mem == m.mem
  {
  }

  /** A write to echo RAM stores the byte both at its address and 0x2000
      below it, and both read back as the written byte. */
  lemma EchoWriteReachesWorkRam(m: Machine, e: Word, v: bv8)
    requires Valid(m) && 0xE000 <= e <= 0xFDFF
    ensures WriteDefined(m, e, v)
    ensures var r := Write(m, e, v);
      && r == m.(mem := m.mem[e := v][e - 0x2000 := v])
      && Read(r, e) == v && Read(r, e - 0x2000) == v
  {
  }

  /** The echo goes one way only: a write to work RAM leaves the byte
      0x2000 above it alone. */
  lemma WorkRamWriteIsNotEchoed(m: Machine, a: Word, v: bv8)
    requires Valid(m) && 0xC000 <= a <= 0xDDFF
    ensures WriteDefined(m, a, v)
    ensures var r := Write(m, a, v);
      && r == m.(mem := m.mem[a := v])
      && r.mem[a + 0x2000] == m.mem[a + 0x2000]
  {
  }

  /** Writes to 0xFEA0-0xFEFF and 0xFF4C-0xFF7F are ignored, except that
      0xFF50 in boot mode still leaves boot mode. */
  lemma RestrictedWritesIgnored(m: Machine, a: Word, v: bv8)
    requires Valid(m)
    requires 0xFEA0 <= a <= 0xFEFF || 0xFF4C <= a <= 0xFF7F
    requires !(m.bootMode && a == BootDisableRegister)
    ensures WriteDefined(m, a, v) && Write(m, a, v) == m
  {
  }

  /** In boot mode a write to 0xFF50 is a reset out of boot mode; the
      written value itself is dropped (0xFF50 lies in an ignored range). */
  lemma BootDisableWrite(m: Machine, v: bv8)
    requires Valid(m) && m.bootMode
    ensures WriteDefined(m, BootDisableRegister, v)
    ensures Write(m, BootDisableRegister, v) == Reset(m.(bootMode := false))
    ensures !Write(m, BootDisableRegister, v).bootMode
  {
    ResetKeepsUntouchedFields(m.(bootMode := false));
  }

  /** A RAM-window write that reaches a bank reads back, and touches
      nothing but that one byte of the selected bank. */
  lemma RamWriteReadBack(m: Machine, a: Word, v: bv8)
    requires Valid(m) && RamMapped(m) && RamStoreHappens(m.bank, a)
    ensures WriteDefined(m, a, v)
    ensures var r := Write(m, a, v);
      && Read(r, a) == v
      && r.ramBanks[r.bank.ramBank] == m.ramBanks[m.bank.ramBank][a - 0xA000 := v]
      && r == m.(ramBanks := r.ramBanks)
  {
  }

  /** With RAM disabled under MBC1, enabled under MBC2, without any
      controller, or above 0xA1FF under MBC2, a RAM-window write is
      dropped. */
  lemma RamWriteBlocked(m: Machine, a: Word, v: bv8)
    requires Valid(m) && InRamWindow(a) && !RamStoreHappens(m.bank, a)
    ensures WriteDefined(m, a, v) && Write(m, a, v) == m
  {
  }

  /** Writing DIV (0xFF04) zeroes it and the divider counter, whatever the
      value written. */
  lemma DividerWriteResets(m: Machine, v: bv8)
    requires Valid(m)
    ensures WriteDefined(m, 0xFF04, v)
    ensures var r := Write(m, 0xFF04, v);
      r.mem[0xFF04] == 0 && r.timer.divider == 0 && r == m.(mem := r.mem, timer := m.timer.(divider := 0))
  {
  }

  /** The period table of WriteByte for TAC: 00 selects 1024 cycles, 01
      selects 16, 10 selects 64 and 11 selects 256. */
  lemma ClockSpeedTable(tac: bv8)
    ensures ClockSpeedOf(tac) == [1024, 16, 64, 256][tac as int % 4]
  {
    LowBitsValue(tac);
    assert (tac & 3) as int == (tac & 31) as int % 4;
  }

  /** Writing TAC (0xFF07) stores it and selects the period from its low
      two bits; the timer counter restarts only when the period changes. */
  lemma TimerControlWrite(m: Machine, v: bv8)
    requires Valid(m)
    ensures WriteDefined(m, 0xFF07, v)
    ensures var r := Write(m, 0xFF07, v);
      && r.mem == m.mem[0xFF07 := v]
      && r.timer.clockSpeed == ClockSpeedOf(v)
      && r.timer.counter == (if ClockSpeedOf(v) != m.timer.clockSpeed then 0 else m.timer.counter)
      && r == m.(mem := r.mem, timer := r.timer) && r.timer.divider == m.timer.divider
  {
  }

  /** Writing LY (0xFF44) resets it to 0. */
  lemma ScanlineWriteResets(m: Machine, v: bv8)
    requires Valid(m)
    ensures WriteDefined(m, 0xFF44, v)
    ensures Write(m, 0xFF44, v) == m.(mem := m.mem[0xFF44 := 0])
  {
  }

  /** Writing 0xFF46 copies 160 bytes from page v (read through
      ReadMemory) into OAM at 0xFE00 and changes no other byte. */
  lemma DmaTransferCopies(m: Machine, v: bv8)
    requires Valid(m) && DmaDefined(m, v)
    ensures WriteDefined(m, 0xFF46, v)
    ensures var r := Write(m, 0xFF46, v);
      && (forall k :: 0xFE00 <= k < 0xFEA0 ==> r.mem[k] == Read(m, v as int * 256 + (k - 0xFE00)))
      && (forall k :: 0 <= k < MemorySize && !(0xFE00 <= k < 0xFEA0) ==> r.mem[k] == m.mem[k])
      && r == m.(mem := r.mem)
  {
    assert Write(m, 0xFF46, v) == Dma(m, v);
  }

  /** Addresses a write stores to and a read returns unchanged: video RAM,
      work RAM, echo RAM, OAM and high RAM. */
  predicate StackCell(a: Word)
  {
    0x8000 <= a <= 0x9FFF || 0xC000 <= a <= 0xFDFF || 0xFE00 <= a <= 0xFE9F || 0xFF80 <= a
  }

  /** At a stack cell a write reads back, and only the cell (and for echo
      RAM its copy 0x2000 below) changes. */
  lemma StackCellWrite(m: Machine, a: Word, v: bv8)
    requires Valid(m) && StackCell(a)
    ensures WriteDefined(m, a, v)
    ensures Write(m, a, v) == m.(mem := if 0xE000 <= a <= 0xFDFF then m.mem[a := v][a - 0x2000 := v]
                                        else m.mem[a := v])
    ensures Read(Write(m, a, v), a) == v
  {
  }

  /** No write ever changes the flat memory below 0x8000: the copy of the
      cartridge's first 32 KiB that LoadRom made stays intact. */
  lemma WriteKeepsRomArea(m: Machine, a: Word, v: bv8, k: int)
    requires Valid(m) && WriteDefined(m, a, v) && 0 <= k < 0x8000
    ensures Write(m, a, v).mem[k] == m.mem[k]
  {
    if m.bootMode && a == BootDisableRegister {
      var restarted := Reset(m.(bootMode := false));
      ResetKeepsMemoryBelowIo(m.(bootMode := false));
      StoreKeepsRomArea(restarted, a, v, k);
    } else {
      StoreKeepsRomArea(m, a, v, k);
    }
  }

  lemma StoreKeepsRomArea(m: Machine, a: Word, v: bv8, k: int)
    requires Valid(m) && WriteDefined(m, a, v) && 0 <= k < 0x8000
    ensures Store(m, a, v).mem[k] == m.mem[k]
  {
    if a < 0xFF00 {
      StoreBelowIoKeepsRomArea(m, a, v, k);
    } else {
      StoreIoKeepsRomArea(m, a, v, k);
    }
  }

  lemma StoreBelowIoKeepsRomArea(m: Machine, a: Word, v: bv8, k: int)
    requires Valid(m) && WriteDefined(m, a, v) && 0 <= k < 0x8000 && a < 0xFF00
    ensures Store(m, a, v).mem[k] == m.mem[k]
  {
    var r := Store(m, a, v);
    if a < 0x8000 || InRamWindow(a) || 0xFEA0 <= a <= 0xFEFF {
      assert r.mem == m.mem;
    } else if 0xE000 <= a <= 0xFDFF {
      assert r.mem == m.mem[a := v][a - 0x2000 := v];
    } else {
      assert r.mem == m.mem[a := v];
    }
  }

  lemma StoreIoKeepsRomArea(m: Machine, a: Word, v: bv8, k: int)
    requires Valid(m) && WriteDefined(m, a, v) && 0 <= k < 0x8000 && 0xFF00 <= a
    ensures Store(m, a, v).mem[k] == m.mem[k]
  {
    var r := Store(m, a, v);
    if 0xFF4C <= a <= 0xFF7F {
      assert r.mem == m.mem;
    } else if a == 0xFF04 || a == 0xFF44 {
      assert r.mem == m.mem[a := 0];
    } else if a == 0xFF46 {
    } else {
      assert r.mem == m.mem[a := v];
    }
  }

  /** RequestInterupt sets one bit of IF (0xFF0F) and changes nothing
      else. */
  lemma RequestIsWriteByte(m: Machine, bit: nat)
    requires Valid(m) && bit < 8
    ensures WriteDefined(m, 0xFF0F, BitSet(Read(m, 0xFF0F), bit))
    ensures Request(m, bit) == Write(m, 0xFF0F, BitSet(Read(m, 0xFF0F), bit))
  {
  }

  // ---------------------------------------------------------------------
  // The stack
  // ---------------------------------------------------------------------

  /** Stack pointer arithmetic modulo 0x10000: the two cells a push
      writes, and the way back up. */
  lemma StackPointerSteps(s: Word)
    ensures var a1 := if s == 0 then 0xFFFF else s - 1;
      var a2 := if a1 == 0 then 0xFFFF else a1 - 1;
      && Wrap16(s - 1) == a1 && Wrap16(a1 - 1) == a2 && Wrap16(s - 2) == a2
      && Wrap16(a2 + 1) == a1 && Wrap16(a2 + 2) == s
  {
  }

  /** The high and low byte of a word put it back together. */
  lemma ByteHalves(w: Word)
    ensures HighByte(w) as int * 256 + LowByte(w) as int == w
  {
    ByteRoundTrip(w / 256);
    ByteRoundTrip(w % 256);
  }

  /** One half of a push onto a stack cell: the byte lands in the cell
      below the stack pointer, no CPU field but the stack pointer changes,
      and every address other than that cell and its echo keeps its
      byte. */
  lemma PushByteStores(m: Machine, v: bv8, keep: int)
    requires Valid(m) && StackCell(Wrap16(m.cpu.sp.reg - 1))
    requires 0 <= keep < MemorySize && keep != Wrap16(m.cpu.sp.reg - 1) && keep != Wrap16(m.cpu.sp.reg - 1) - 0x2000
    ensures PushByteDefined(m, v)
    ensures var r := PushByte(m, v);
      && r.cpu == StepDown(m).cpu && r.mem[Wrap16(m.cpu.sp.reg - 1)] == v && r.mem[keep] == m.mem[keep]
  {
    var m1 := StepDown(m);
    StackCellWrite(m1, m1.cpu.sp.reg, v);
  }

  /** The two bytes a push onto two stack cells leaves behind: the high
      byte just below the old stack pointer, the low byte below that. */
  lemma PushStores(m: Machine, w: Word)
    requires Valid(m)
    requires StackCell(Wrap16(m.cpu.sp.reg - 1)) && StackCell(Wrap16(m.cpu.sp.reg - 2))
    ensures PushDefined(m, w)
    ensures var r := Push(m, w);
      && r.cpu.sp.reg == Wrap16(m.cpu.sp.reg - 2)
      && r.mem[Wrap16(m.cpu.sp.reg - 1)] == HighByte(w)
      && r.mem[Wrap16(m.cpu.sp.reg - 2)] == LowByte(w)
  {
    var a1 := Wrap16(m.cpu.sp.reg - 1);
    var a2 := Wrap16(m.cpu.sp.reg - 2);
    StackPointerSteps(m.cpu.sp.reg);
    PushByteStores(m, HighByte(w), a2);
    var m1 := PushByte(m, HighByte(w));
    assert m1.cpu.sp.reg == a1 && Wrap16(m1.cpu.sp.reg - 1) == a2;
    PushByteStores(m1, LowByte(w), a1);
  }

  /** A push onto a stack whose two next cells are stack cells is defined,
      and popping right after it returns the pushed word and restores the
      stack pointer. */
  lemma PushThenPop(m: Machine, w: Word)
    requires Valid(m)
    requires StackCell(Wrap16(m.cpu.sp.reg - 1)) && StackCell(Wrap16(m.cpu.sp.reg - 2))
    ensures PushDefined(m, w)
    ensures var r := Push(m, w);
      && r.cpu.sp.reg == Wrap16(m.cpu.sp.reg - 2)
      && PopDefined(r) && PopValue(r) == w
      && Pop(r).cpu.sp == m.cpu.sp
  {
    StackPointerSteps(m.cpu.sp.reg);
    PushStores(m, w);
    var r := Push(m, w);
    ReadFlat(r, Wrap16(m.cpu.sp.reg - 1));
    ReadFlat(r, Wrap16(m.cpu.sp.reg - 2));
    ByteHalves(w);
  }

  // ---------------------------------------------------------------------
  // ResetCPU
  // ---------------------------------------------------------------------

  /** The I/O defaults of ResetCPU: the timer, LCD, scroll, palette and
      interrupt-enable registers take their power-up values; IF, STAT, LY
      and DIV are not in the table and keep theirs, and so does everything
      below 0xFF00. */
  lemma IoDefaultsValues(mem: seq<bv8>)
    requires |mem| == MemorySize
    ensures var r := IoDefaults(mem);
      && r[0xFF00] == 0xFF
      && r[0xFF05] == 0 && r[0xFF06] == 0 && r[0xFF07] == 0
      && r[0xFF40] == 0x91 && r[0xFF42] == 0 && r[0xFF43] == 0 && r[0xFF45] == 0
      && r[0xFF47] == 0xFC && r[0xFF48] == 0xFF && r[0xFF49] == 0xFF
      && r[0xFF4A] == 0 && r[0xFF4B] == 0 && r[0xFFFF] == 0
      && r[0xFF04] == mem[0xFF04] && r[0xFF0F] == mem[0xFF0F]
      && r[0xFF41] == mem[0xFF41] && r[0xFF44] == mem[0xFF44]
    ensures forall k :: 0 <= k < 0xFF00 ==> IoDefaults(mem)[k] == mem[k]
  {
  }

  /** ResetCPU's only change to the flat memory is the I/O table. */
  lemma ResetMemory(m: Machine)
    requires Valid(m)
    ensures Reset(m).mem == IoDefaults(m.mem)
  {
  }

  /** ResetCPU never touches the flat memory below the I/O registers. */
  lemma ResetKeepsMemoryBelowIo(m: Machine)
    requires Valid(m)
    ensures forall k :: 0 <= k < 0xFF00 ==> Reset(m).mem[k] == m.mem[k]
  {
    ResetMemory(m);
    IoDefaultsValues(m.mem);
  }

  /** ResetCPU: the CPU registers and counters take their power-up values,
      AF = 0x01B0 being set through its two halves; the screen is blanked
      and RAM bank 0 is selected with RAM disabled. */
  lemma ResetRegisters(m: Machine)
    requires Valid(m)
    ensures var r := Reset(m);
      && r.cpu.pc == 0x100 && r.cpu.sp.reg == 0xFFFE
      && r.cpu.af.reg == 0x01B0 && r.cpu.bc.reg == 0x0013 && r.cpu.de.reg == 0x00D8 && r.cpu.hl.reg == 0x014D
      && r.joypad == 0xFF && !r.cpu.halted
      && r.timer.counter == 0 && r.timer.divider == 0 && r.timer.clockSpeed == 1024
      && r.retrace == RetraceStart && r.cpu.cycles == 0 && r.cpu.totalOpcodes == 0
      && r.bank.ramBank == 0 && !r.bank.ramEnabled
      && r.screen == BlankScreen()
  {
    HalvesDetermineRegister(m.cpu.af, 0x01, 0xB0);
  }

  /** What ResetCPU leaves as it was: the cartridge, the flat memory
      outside the I/O table, boot mode, the ROM bank, the banking mode and
      the interrupt latches. */
  lemma ResetKeepsUntouchedFields(m: Machine)
    requires Valid(m)
    ensures var r := Reset(m);
      && r.game == m.game && r.bootMode == m.bootMode
      && r.bank.romBank == m.bank.romBank && r.bank.mode16_8 == m.bank.mode16_8
      && r.cpu.ime == m.cpu.ime && r.cpu.pendingDisable == m.cpu.pendingDisable && r.cpu.pendingEnable == m.cpu.pendingEnable
  {
    ResetShape(m);
  }

  /** ResetCPU is the field defaults followed by the controller switch on
      the cartridge's own kind byte; only the RAM bank vector differs
      between known and unknown kinds. */
  lemma ResetShape(m: Machine)
    requires Valid(m)
    ensures var cleared := ResetFields(m);
      Reset(m) == cleared.(bank := SelectController(cleared.bank, m.mem[0x147]), ramBanks := Reset(m).ramBanks)
  {
    ResetKind(m);
  }

  /** ResetCPU reads the cartridge kind after its I/O table is written;
      the kind's byte is outside that table. */
  lemma ResetKind(m: Machine)
    requires Valid(m)
    ensures Read(ResetFields(m), 0x147) == m.mem[0x147]
  {
    IoDefaultsValues(m.mem);
  }

  /** The cartridge kind in header byte 0x147 decides the controller; a
      known kind appends 17 RAM banks and seeds the first from 0xA000-0xBFFF,
      an unknown kind leaves the bank vector and MBC1 setting alone. */
  lemma ResetSelectsController(m: Machine)
    requires Valid(m)
    ensures var r := Reset(m); var kind := m.mem[0x147];
      && (kind == 0 ==> !r.bank.usingMbc1 && !r.bank.usingMbc2)
      && (1 <= kind <= 3 ==> r.bank.usingMbc1 && !r.bank.usingMbc2)
      && (kind == 5 || kind == 6 ==> r.bank.usingMbc1 == m.bank.usingMbc1 && r.bank.usingMbc2)
      && (KnownCartridge(kind) ==>
            |r.ramBanks| == |m.ramBanks| + BanksPerAllocation && r.ramBanks[0] == m.mem[0xA000..0xC000])
      && (!KnownCartridge(kind) ==>
            r.ramBanks == m.ramBanks && r.bank.usingMbc1 == m.bank.usingMbc1 && !r.bank.usingMbc2)
  {
    ResetShape(m);
    var cleared := ResetFields(m);
    IoDefaultsValues(m.mem);
    assert cleared.mem[0xA000..0xC000] == m.mem[0xA000..0xC000];
  }

  /** After LoadRom: boot mode is off and execution starts at 0x100 in
      ROM bank 1; the bottom 32 KiB of memory hold the cartridge's first
      32 KiB and the rest below the I/O registers is zero; the header's
      kind byte selects the controller, and a known kind gets the 17 RAM
      banks, the first seeded from the zeroed 0xA000-0xBFFF, while an
      unknown kind gets none. The master interrupt enable starts off. */
  lemma LoadRomState(game: seq<bv8>)
    requires |game| == RomImageSize
    ensures var r := Reset(Loaded(game)); var kind := game[0x147];
      && !r.bootMode && r.cpu.pc == 0x100 && r.bank.romBank == 1 && r.bank.mode16_8 && !r.cpu.ime
      && r.game == game
      && (forall k :: 0 <= k < 0x8000 ==> r.mem[k] == game[k])
      && (forall k :: 0x8000 <= k < 0xFF00 ==> r.mem[k] == 0)
      && r.bank.usingMbc1 == (1 <= kind <= 3)
      && r.bank.usingMbc2 == (kind == 5 || kind == 6)
      && (KnownCartridge(kind) ==> |r.ramBanks| == BanksPerAllocation && r.ramBanks[0] == seq(RamBankSize, _ => 0))
      && (!KnownCartridge(kind) ==> r.ramBanks == [])
  {
    var m := Loaded(game);
    ResetKeepsMemoryBelowIo(m);
    ResetSelectsController(m);
    ResetRegisters(m);
    ResetKeepsUntouchedFields(m);
    assert m.mem[0x147] == game[0x147];
    assert m.mem[0xA000..0xC000] == seq(RamBankSize, _ => 0);
  }
}
