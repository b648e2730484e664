/** The bookkeeping of ExecuteNextOpcode (Emulator.cpp:251-296) around
    the instruction itself: the opcode fetch, the program counter and
    the halt state before ExecuteOpcode, and the delayed DI/EI latches and
    the serial port after it. ExecuteOpcode is not part of this model, so
    the two halves are separate steps. */
module Execution {
  import opened Bits
  import opened Hardware
  import opened Machine
  import opened MemoryProperties

  /** The opcodes of DI and EI. */
  const DisableOpcode: bv8 := 0xF3
  const EnableOpcode: bv8 := 0xFB
  /** The value of SC (0xFF02) that starts a serial transfer. */
  const SerialStart: bv8 := 0x81

  /** The fetch reads bootROM[pc] in boot mode, which is only defined on
      the 256 bytes of the table, and reads through ReadMemory in the two
      banked windows. */
  predicate FetchDefined(m: Machine)
  {
    && !(m.bootMode && m.cpu.pc > 0xFF)
    && (InRamWindow(m.cpu.pc) ==> RamMapped(m))
  }

  /** The opcode ExecuteNextOpcode fetches: from the boot program or the
      flat memory, except in the ROM and RAM windows, where ReadMemory
      resolves the bank. */
  function Fetch(m: Machine): bv8
    requires Valid(m) && FetchDefined(m)
  {
    var pc := m.cpu.pc;
    if InRomWindow(pc) || InRamWindow(pc) then Read(m, pc)
    else if m.bootMode then BootRom[pc]
    else m.mem[pc]
  }

  /** The step before ExecuteOpcode: a running CPU moves the program
      counter past the opcode (wrapping as a WORD) and counts it; a
      halted one only spends four cycles. */
  function Advance(m: Machine): (r: Machine)
    requires Valid(m)
    ensures Valid(r)
  {
    if !m.cpu.halted then m.(cpu := m.cpu.(pc := Wrap16(m.cpu.pc + 1), totalOpcodes := m.cpu.totalOpcodes + 1))
    else m.(cpu := m.cpu.(cycles := m.cpu.cycles + 4))
  }

  /** The address of the byte before the program counter, as
      ReadMemory(m_ProgramCounter - 1) converts it. */
  function Previous(m: Machine): Word
  {
    Wrap16(m.cpu.pc - 1)
  }

  /** The latch reads are defined. */
  predicate LatchesDefined(m: Machine)
  {
    m.cpu.pendingDisable || m.cpu.pendingEnable ==> ReadDefined(m, Previous(m))
  }

  /** The DI latch fires: it is pending and the byte before the program
      counter is not the DI itself. */
  predicate DisableFires(m: Machine)
    requires Valid(m) && LatchesDefined(m)
  {
    m.cpu.pendingDisable && Read(m, Previous(m)) != DisableOpcode
  }

  /** The EI latch fires: it is pending and the byte before the program
      counter is not the EI itself. */
  predicate EnableFires(m: Machine)
    requires Valid(m) && LatchesDefined(m)
  {
    m.cpu.pendingEnable && Read(m, Previous(m)) != EnableOpcode
  }

  /** A pending DI that fires clears the latch and the master enable. */
  function DisableLatch(m: Machine): (r: Machine)
    requires Valid(m) && LatchesDefined(m)
    ensures Valid(r)
  {
    if DisableFires(m) then m.(cpu := m.cpu.(pendingDisable := false, ime := false)) else m
  }

  /** A pending EI that fires clears the latch and sets the master
      enable. */
  function EnableLatch(m: Machine): (r: Machine)
    requires Valid(m) && LatchesDefined(m)
    ensures Valid(r)
  {
    if EnableFires(m) then m.(cpu := m.cpu.(pendingEnable := false, ime := true)) else m
  }

  /** The serial check: a started transfer is acknowledged by clearing SC.
      The character itself goes to a log outside the emulator. */
  function SerialAck(m: Machine): (r: Machine)
    requires Valid(m)
    ensures Valid(r)
  {
    if m.mem[0xFF02] == SerialStart then m.(mem := m.mem[0xFF02 := 0]) else m
  }

  /** The step after ExecuteOpcode: the DI latch, then the EI latch, then
      the serial check. */
  function Finish(m: Machine): (r: Machine)
    requires Valid(m) && LatchesDefined(m)
    ensures Valid(r)
  {
    var disabled := DisableLatch(m);
    assert LatchesDefined(disabled);
    SerialAck(EnableLatch(disabled))
  }

  // ---------------------------------------------------------------------
  // Properties
  // ---------------------------------------------------------------------

  /** The fetch agrees with ReadMemory at the program counter everywhere
      but at 0xFF00, where ReadMemory computes the joypad byte and the
      fetch takes the stored one. */
  lemma FetchIsRead(m: Machine)
    requires Valid(m) && FetchDefined(m) && m.cpu.pc != 0xFF00
    ensures ReadDefined(m, m.cpu.pc)
    ensures Fetch(m) == Read(m, m.cpu.pc)
  {
  }

  /** A running CPU moves on to the next address and counts one more
      opcode; a halted one stays at the same address, counts nothing and
      spends four cycles. Nothing else changes. */
  lemma AdvanceSteps(m: Machine)
    requires Valid(m)
    ensures var r := Advance(m);
      && r.cpu.pc == (if m.cpu.halted then m.cpu.pc else (m.cpu.pc + 1) % 0x10000)
      && r.cpu.totalOpcodes == m.cpu.totalOpcodes + (if m.cpu.halted then 0 else 1)
      && r.cpu.cycles == m.cpu.cycles + (if m.cpu.halted then 4 else 0)
      && r == m.(cpu := m.cpu.(pc := r.cpu.pc, totalOpcodes := r.cpu.totalOpcodes, cycles := r.cpu.cycles))
  {
  }

  /** The program counter wraps from 0xFFFF to 0, and the byte before it
      is then read at 0xFFFF. */
  lemma AdvanceWraps(m: Machine)
    requires Valid(m) && !m.cpu.halted && m.cpu.pc == 0xFFFF
    ensures Advance(m).cpu.pc == 0 && Previous(Advance(m)) == 0xFFFF
  {
  }

  /** ReadMemory does not look at the CPU registers. */
  lemma ReadIgnoresCpu(m: Machine, c: Cpu, a: Word)
    requires Valid(m) && ReadDefined(m, a)
    ensures Read(m.(cpu := c), a) == Read(m, a)
  {
  }

  /** After the latches, the master enable is on when the EI latch fired,
      off when only the DI latch fired, and unchanged otherwise; a latch
      stays pending exactly when it was pending and the byte before the
      program counter is its own opcode. Nothing but the CPU latches and
      the master enable changes. */
  lemma LatchesDecide(m: Machine)
    requires Valid(m) && LatchesDefined(m)
    ensures var r := EnableLatch(DisableLatch(m));
      var firesD := m.cpu.pendingDisable && Read(m, Previous(m)) != 0xF3;
      var firesE := m.cpu.pendingEnable && Read(m, Previous(m)) != 0xFB;
      && r.cpu.ime == (if firesE then true else if firesD then false else m.cpu.ime)
      && r.cpu.pendingDisable == (m.cpu.pendingDisable && Read(m, Previous(m)) == 0xF3)
      && r.cpu.pendingEnable == (m.cpu.pendingEnable && Read(m, Previous(m)) == 0xFB)
      && r == m.(cpu := m.cpu.(ime := r.cpu.ime, pendingDisable := r.cpu.pendingDisable, pendingEnable := r.cpu.pendingEnable))
  {
    var d := DisableLatch(m);
    if m.cpu.pendingEnable {
      ReadIgnoresCpu(m, d.cpu, Previous(m));
      assert EnableFires(d) == (m.cpu.pendingEnable && Read(m, Previous(m)) != 0xFB);
    }
  }

  /** Right after the DI instruction itself the latch waits: the
      interrupts are switched off only after the next instruction. */
  lemma DisableWaitsOneInstruction(m: Machine)
    requires Valid(m) && LatchesDefined(m) && m.cpu.pendingDisable && !m.cpu.pendingEnable
    requires Read(m, Previous(m)) == DisableOpcode
    ensures Finish(m).cpu.ime == m.cpu.ime && Finish(m).cpu.pendingDisable
  {
    LatchesDecide(m);
  }

  /** SC reads 0 after a started transfer and is otherwise kept; no
      other byte of memory changes. */
  lemma SerialAcknowledged(m: Machine)
    requires Valid(m)
    ensures var r := SerialAck(m);
      && r.mem[0xFF02] == (if m.mem[0xFF02] == 0x81 then 0 else m.mem[0xFF02])
      && r == m.(mem := m.mem[0xFF02 := r.mem[0xFF02]])
  {
  }
}
