/** Interrupt dispatch: DoInterupts (Emulator.cpp:671-690) and
    ServiceInterrupt (Emulator.cpp:694-728). RequestInterupt is
    Machine.Request. A serviced interrupt pushes the program counter,
    leaves the halt state, jumps to the handler, turns the master enable
    off and acknowledges its bit in IF (0xFF0F). */
module Interrupts {
  import opened Bits
  import opened Hardware
  import opened Machine
  import opened MemoryProperties

  /** IF as ReadMemory returns it: the plain byte at 0xFF0F. */
  function RequestFlags(m: Machine): (f: bv8)
    requires Valid(m)
    ensures f == m.mem[0xFF0F]
  {
    Read(m, 0xFF0F)
  }

  /** IE as ReadMemory returns it: the plain byte at 0xFFFF. */
  function EnableFlags(m: Machine): (f: bv8)
    requires Valid(m)
    ensures f == m.mem[0xFFFF]
  {
    Read(m, 0xFFFF)
  }

  /** The handler address of the switch in ServiceInterrupt: V-Blank,
      LCD status, timer and joypad. Any other bit reaches the default case,
      which only asserts in a debug build, so the program counter keeps
      the value it had. */
  function Vector(num: nat, pc: Word): (r: Word)
  {
    if num == 0 then 0x40
    else if num == 1 then 0x48
    else if num == 2 then 0x50
    else if num == 4 then 0x60
    else pc
  }

  /** The push of ServiceInterrupt is defined. */
  predicate ServiceDefined(m: Machine)
    requires Valid(m)
  {
    PushDefined(m, m.cpu.pc)
  }

  /** ServiceInterrupt. The push goes through WriteByte, so the program
      counter the switch falls back on is the one after the push. */
  function Service(m: Machine, num: nat): (r: Machine)
    requires Valid(m) && num < 8 && ServiceDefined(m)
    ensures Valid(r)
    ensures RamMapped(m) ==> RamMapped(r)
  {
    var pushed := Push(m, m.cpu.pc);
    pushed.(cpu := pushed.cpu.(halted := false, pc := Vector(num, pushed.cpu.pc), ime := false),
            mem := pushed.mem[0xFF0F := BitReset(pushed.mem[0xFF0F], num)])
  }

  /** Bit `bit` is serviced in the scan: requested in the snapshot of IF
      taken before the loop, and enabled in IE as it reads at that point. */
  predicate Taken(m: Machine, flag: bv8, bit: nat)
    requires Valid(m) && bit < 8
  {
    TestBit(flag, bit) && TestBit(EnableFlags(m), bit)
  }

  /** The service the scan performs at `bit`, if any, is defined. */
  predicate StepDefined(m: Machine, flag: bv8, bit: nat)
    requires Valid(m) && bit < 8
  {
    Taken(m, flag, bit) ==> ServiceDefined(m)
  }

  /** One pass of the loop body of DoInterupts. */
  function ScanStep(m: Machine, flag: bv8, bit: nat): (r: Machine)
    requires Valid(m) && bit < 8 && StepDefined(m, flag, bit)
    ensures Valid(r)
  {
    if Taken(m, flag, bit) then Service(m, bit) else m
  }

  /** Every ServiceInterrupt the scan from `bit` up performs is defined. */
  predicate ScanDefined(m: Machine, flag: bv8, bit: nat)
    requires Valid(m) && bit <= 8
    decreases 8 - bit
  {
    bit == 8 || (StepDefined(m, flag, bit) && ScanDefined(ScanStep(m, flag, bit), flag, bit + 1))
  }

  /** The loop of DoInterupts from `bit` up: IF was read once, before the
      loop, while IE is read again for every requested bit. */
  function ScanFrom(m: Machine, flag: bv8, bit: nat): (r: Machine)
    requires Valid(m) && bit <= 8 && ScanDefined(m, flag, bit)
    ensures Valid(r)
    decreases 8 - bit
  {
    if bit == 8 then m else ScanFrom(ScanStep(m, flag, bit), flag, bit + 1)
  }

  predicate InterruptsDefined(m: Machine)
    requires Valid(m)
  {
    m.cpu.ime && RequestFlags(m) > 0 ==> ScanDefined(m, RequestFlags(m), 0)
  }

  /** DoInterupts: nothing happens while the master enable is off or no
      interrupt is requested. */
  function DoInterrupts(m: Machine): (r: Machine)
    requires Valid(m) && InterruptsDefined(m)
    ensures Valid(r)
  {
    if m.cpu.ime && RequestFlags(m) > 0 then ScanFrom(m, RequestFlags(m), 0) else m
  }

  // ---------------------------------------------------------------------
  // Properties
  // ---------------------------------------------------------------------

  /** A cell where a write is a plain store that nothing mirrors, and
      that is neither IF nor IE: video RAM, work RAM, OAM, and high RAM
      below IE. */
  predicate PlainCell(a: int)
  {
    0x8000 <= a < 0xA000 || 0xC000 <= a < 0xE000 || 0xFE00 <= a < 0xFEA0 || 0xFF80 <= a < 0xFFFF
  }

  /** The stack pointer leaves room for `n` pushes inside one region of
      plain cells. The stack ResetCPU sets up, at 0xFFFE in high RAM, has
      room for 63 pushes. */
  predicate StackRoom(m: Machine, n: nat)
  {
    var sp := m.cpu.sp.reg;
    || 0x8000 + 2 * n <= sp <= 0xA000
    || 0xC000 + 2 * n <= sp <= 0xE000
    || 0xFE00 + 2 * n <= sp <= 0xFEA0
    || 0xFF80 + 2 * n <= sp <= 0xFFFF
  }

  /** After one push of a word, room for one push fewer is left. */
  lemma RoomShrinks(m: Machine, r: Machine, n: nat)
    requires StackRoom(m, n + 1) && r.cpu.sp.reg == m.cpu.sp.reg - 2
    ensures StackRoom(r, n)
  {
  }

  /** Room for `n` pushes is room for any fewer. */
  lemma RoomLess(m: Machine, n: nat, k: nat)
    requires StackRoom(m, n) && k <= n
    ensures StackRoom(m, k)
  {
  }

  /** One byte pushed onto a plain cell: the stack pointer goes down by one
      and the byte lands there; nothing else changes. */
  lemma PushByteOntoPlainCell(m: Machine, v: bv8)
    requires Valid(m) && PlainCell(m.cpu.sp.reg - 1)
    ensures PushByteDefined(m, v)
    ensures PushByte(m, v) == m.(cpu := m.cpu.(sp := Register(m.cpu.sp.reg - 1)), mem := m.mem[m.cpu.sp.reg - 1 := v])
  {
    var a := m.cpu.sp.reg - 1;
    assert Wrap16(a) == a;
    var m1 := StepDown(m);
    assert StackCell(a) && !(0xE000 <= a <= 0xFDFF);
    StackCellWrite(m1, a, v);
  }

  /** A word pushed onto plain cells: high byte at sp - 1, low byte at
      sp - 2, the stack pointer two lower, nothing else changed. */
  lemma PushOntoPlainCells(m: Machine, w: Word)
    requires Valid(m) && StackRoom(m, 1)
    ensures PushDefined(m, w)
    ensures Push(m, w) == m.(cpu := m.cpu.(sp := Register(m.cpu.sp.reg - 2)),
                             mem := m.mem[m.cpu.sp.reg - 1 := HighByte(w)][m.cpu.sp.reg - 2 := LowByte(w)])
  {
    PushByteOntoPlainCell(m, HighByte(w));
    PushByteOntoPlainCell(PushByte(m, HighByte(w)), LowByte(w));
  }

  /** ServiceInterrupt with room on the stack, as one state. */
  lemma ServiceShape(m: Machine, num: nat)
    requires Valid(m) && num < 8 && StackRoom(m, 1)
    ensures ServiceDefined(m)
    ensures Service(m, num) ==
      m.(cpu := m.cpu.(sp := Register(m.cpu.sp.reg - 2), halted := false, pc := Vector(num, m.cpu.pc), ime := false),
         mem := m.mem[m.cpu.sp.reg - 1 := HighByte(m.cpu.pc)][m.cpu.sp.reg - 2 := LowByte(m.cpu.pc)]
                     [0xFF0F := BitReset(m.mem[0xFF0F], num)])
  {
    PushOntoPlainCells(m, m.cpu.pc);
  }

  /** ServiceInterrupt(n) for n in {0, 1, 2, 4} on a stack of plain cells:
      the handler address is 0x40, 0x48, 0x50 or 0x60, the CPU leaves the
      halt state, the master enable is off, bit n of IF is acknowledged and
      the other bits stay, and a pop right after returns the interrupted
      program counter and the old stack pointer. */
  lemma ServiceJumpsToVector(m: Machine, num: nat)
    requires Valid(m) && (num == 0 || num == 1 || num == 2 || num == 4)
    requires StackCell(Wrap16(m.cpu.sp.reg - 1)) && StackCell(Wrap16(m.cpu.sp.reg - 2))
    ensures ServiceDefined(m)
    ensures var r := Service(m, num);
      && r.cpu.pc == (if num == 0 then 0x40 else if num == 1 then 0x48 else if num == 2 then 0x50 else 0x60)
      && !r.cpu.halted && !r.cpu.ime
      && r.mem[0xFF0F] == BitReset(m.mem[0xFF0F], num)
      && PopDefined(r) && PopValue(r) == m.cpu.pc && Pop(r).cpu.sp == m.cpu.sp
  {
    PushKeepsCpuAndIf(m, m.cpu.pc);
    ServiceReturns(m, num);
  }

  /** The word ServiceInterrupt leaves on a stack of plain cells is the
      interrupted program counter. */
  lemma ServiceReturns(m: Machine, num: nat)
    requires Valid(m) && num < 8
    requires StackCell(Wrap16(m.cpu.sp.reg - 1)) && StackCell(Wrap16(m.cpu.sp.reg - 2))
    ensures ServiceDefined(m)
    ensures var r := Service(m, num); PopDefined(r) && PopValue(r) == m.cpu.pc && Pop(r).cpu.sp == m.cpu.sp
  {
    PushThenPop(m, m.cpu.pc);
    var pushed := Push(m, m.cpu.pc);
    var r := Service(m, num);
    StackPointerSteps(m.cpu.sp.reg);
    var a2 := pushed.cpu.sp.reg;
    var a1 := Wrap16(a2 + 1);
    assert a1 == Wrap16(m.cpu.sp.reg - 1) && a2 == Wrap16(m.cpu.sp.reg - 2);
    assert r.mem == pushed.mem[0xFF0F := BitReset(pushed.mem[0xFF0F], num)] && r.cpu.sp == pushed.cpu.sp;
    assert a1 != 0xFF0F && a2 != 0xFF0F;
    PopReadsCells(pushed, r);
  }

  /** A pop from plain cells sees only the two cells above the stack
      pointer. */
  lemma PopReadsCells(p: Machine, r: Machine)
    requires Valid(p) && Valid(r) && r.cpu.sp == p.cpu.sp
    requires FlatRead(p.cpu.sp.reg) && FlatRead(Wrap16(p.cpu.sp.reg + 1))
    requires r.mem[p.cpu.sp.reg] == p.mem[p.cpu.sp.reg]
    requires r.mem[Wrap16(p.cpu.sp.reg + 1)] == p.mem[Wrap16(p.cpu.sp.reg + 1)]
    ensures PopDefined(p) && PopDefined(r) && PopValue(r) == PopValue(p) && Pop(r).cpu.sp == Pop(p).cpu.sp
  {
    ReadFlat(p, p.cpu.sp.reg);
    ReadFlat(p, Wrap16(p.cpu.sp.reg + 1));
    ReadFlat(r, p.cpu.sp.reg);
    ReadFlat(r, Wrap16(p.cpu.sp.reg + 1));
  }

  /** A push onto stack cells changes no CPU field but the stack pointer,
      and keeps IF: no stack cell, nor the work-RAM copy of an echo cell, is
      0xFF0F. */
  lemma PushKeepsCpuAndIf(m: Machine, w: Word)
    requires Valid(m)
    requires StackCell(Wrap16(m.cpu.sp.reg - 1)) && StackCell(Wrap16(m.cpu.sp.reg - 2))
    ensures PushDefined(m, w)
    ensures Push(m, w).cpu == m.cpu.(sp := Push(m, w).cpu.sp)
    ensures Push(m, w).mem[0xFF0F] == m.mem[0xFF0F]
  {
    StackPointerSteps(m.cpu.sp.reg);
    PushByteStores(m, HighByte(w), 0xFF0F);
    var m1 := PushByte(m, HighByte(w));
    PushByteStores(m1, LowByte(w), 0xFF0F);
  }

  /** For a bit without a handler (3 and 5-7) the program counter after
      ServiceInterrupt is the interrupted one, although the push, the halt
      exit, the master disable and the acknowledge all still happen. */
  lemma ServiceUnknownKeepsPc(m: Machine, num: nat)
    requires Valid(m) && num < 8 && num != 0 && num != 1 && num != 2 && num != 4
    requires StackRoom(m, 1)
    ensures ServiceDefined(m)
    ensures var r := Service(m, num);
      && r.cpu.pc == m.cpu.pc && r.cpu.sp.reg == m.cpu.sp.reg - 2
      && !r.cpu.halted && !r.cpu.ime && !TestBit(r.mem[0xFF0F], num)
  {
    ServiceShape(m, num);
  }

  /** With the master enable off, or nothing requested, DoInterupts does
      nothing. */
  lemma NoDispatchWhenDisabled(m: Machine)
    requires Valid(m) && (!m.cpu.ime || m.mem[0xFF0F] == 0)
    ensures InterruptsDefined(m) && DoInterrupts(m) == m
  {
  }

  /** How many bits from `bit` up are both requested and enabled. */
  function Serviced(flag: bv8, ie: bv8, bit: nat): (n: nat)
    requires bit <= 8
    ensures n <= 8 - bit
    decreases 8 - bit
  {
    if bit == 8 then 0
    else (if TestBit(flag, bit) && TestBit(ie, bit) then 1 else 0) + Serviced(flag, ie, bit + 1)
  }

  /** What the scan from `bit` up did to `m` when it ended in `r`: every
      bit that is requested in the snapshot and enabled is cleared in IF,
      every other bit of IF is kept, each service pushed one word, and the
      master enable and the halt state survive only if nothing was
      serviced. IE is never changed. */
  predicate ScanEffect(m: Machine, r: Machine, flag: bv8, bit: nat)
    requires Valid(m) && Valid(r) && bit <= 8
  {
    var ie := m.mem[0xFFFF];
    var n := Serviced(flag, ie, bit);
    && r.mem[0xFFFF] == ie
    && r.cpu.sp.reg == m.cpu.sp.reg - 2 * n
    && r.cpu.ime == (m.cpu.ime && n == 0)
    && r.cpu.halted == (m.cpu.halted && n == 0)
    && forall j :: 0 <= j < 8 ==>
         (TestBit(r.mem[0xFF0F], j) <==> TestBit(m.mem[0xFF0F], j) && !(bit <= j && TestBit(flag, j) && TestBit(ie, j)))
  }

  /** The scan from `bit` up, with room on the stack, services every bit
      that is requested in the snapshot and enabled, as ScanEffect says. */
  lemma {:induction false} ScanServicesAll(m: Machine, flag: bv8, bit: nat)
    requires Valid(m) && bit <= 8 && StackRoom(m, 8 - bit)
    ensures ScanDefined(m, flag, bit)
    ensures ScanEffect(m, ScanFrom(m, flag, bit), flag, bit)
    decreases 8 - bit
  {
    if bit < 8 {
      RoomLess(m, 8 - bit, 7 - bit);
      if Taken(m, flag, bit) {
        RoomLess(m, 8 - bit, 1);
        ServiceEffects(m, bit);
        var s := Service(m, bit);
        RoomShrinks(m, s, 7 - bit);
        ScanServicesAll(s, flag, bit + 1);
        TakenStep(m, ScanFrom(s, flag, bit + 1), flag, bit);
      } else {
        ScanServicesAll(m, flag, bit + 1);
        SkippedStep(m, ScanFrom(m, flag, bit + 1), flag, bit);
      }
    }
  }

  /** A serviced bit followed by the scan above it has the effect of the
      scan from that bit. */
  lemma TakenStep(m: Machine, r: Machine, flag: bv8, bit: nat)
    requires Valid(m) && Valid(r) && bit < 8 && StackRoom(m, 1) && Taken(m, flag, bit) && ServiceDefined(m)
    requires ScanEffect(Service(m, bit), r, flag, bit + 1)
    ensures ScanEffect(m, r, flag, bit)
  {
    ServiceEffects(m, bit);
  }

  /** A bit the scan passes over adds nothing to the effect of the scan
      above it. */
  lemma SkippedStep(m: Machine, r: Machine, flag: bv8, bit: nat)
    requires Valid(m) && Valid(r) && bit < 8 && !Taken(m, flag, bit)
    requires ScanEffect(m, r, flag, bit + 1)
    ensures ScanEffect(m, r, flag, bit)
  {
  }

  /** One service with room on the stack, field by field: IE kept, one
      word pushed, master enable and halt state off, only bit `num` of IF
      cleared. */
  lemma ServiceEffects(m: Machine, num: nat)
    requires Valid(m) && num < 8 && StackRoom(m, 1)
    ensures ServiceDefined(m)
    ensures var r := Service(m, num);
      && r.mem[0xFFFF] == m.mem[0xFFFF]
      && r.cpu.sp.reg == m.cpu.sp.reg - 2
      && !r.cpu.ime && !r.cpu.halted
      && !TestBit(r.mem[0xFF0F], num)
      && forall j :: 0 <= j < 8 && j != num ==> TestBit(r.mem[0xFF0F], j) == TestBit(m.mem[0xFF0F], j)
  {
    ServiceShape(m, num);
    forall j | 0 <= j < 8 && j != num
      ensures TestBit(BitReset(m.mem[0xFF0F], num), j) == TestBit(m.mem[0xFF0F], j)
    {
      OtherBitsKept(m.mem[0xFF0F], num, j);
    }
  }

  /** DoInterupts with room for eight pushes on the stack: afterwards IF
      holds exactly the requested bits that are not enabled, the stack has
      grown by one word per serviced bit, and the master enable is off if
      anything was serviced. */
  lemma DispatchServicesEveryPending(m: Machine)
    requires Valid(m) && m.cpu.ime && StackRoom(m, 8)
    ensures InterruptsDefined(m)
    ensures var r := DoInterrupts(m); var n := Serviced(m.mem[0xFF0F], m.mem[0xFFFF], 0);
      && r.cpu.sp.reg == m.cpu.sp.reg - 2 * n
      && r.cpu.ime == (n == 0)
      && forall j :: 0 <= j < 8 ==>
           (TestBit(r.mem[0xFF0F], j) <==> TestBit(m.mem[0xFF0F], j) && !TestBit(m.mem[0xFFFF], j))
  {
    ScanServicesAll(m, m.mem[0xFF0F], 0);
    if m.mem[0xFF0F] == 0 {
      assert Serviced(m.mem[0xFF0F], m.mem[0xFFFF], 0) == 0 by { NothingRequested(m.mem[0xFFFF], 0); }
    }
  }

  /** The stack ResetCPU sets up, SP = 0xFFFE in high RAM, has room for
      every service one DoInterupts can make, so DispatchServicesEveryPending
      applies from the first instruction on. */
  lemma ResetLeavesStackRoom(m: Machine)
    requires Valid(m)
    ensures StackRoom(Reset(m), 8)
  {
    ResetRegisters(m);
  }

  lemma {:induction false} NothingRequested(ie: bv8, bit: nat)
    requires bit <= 8
    ensures Serviced(0, ie, bit) == 0
    decreases 8 - bit
  {
    if bit < 8 {
      NothingRequested(ie, bit + 1);
    }
  }

  /** V-Blank and timer requested and enabled together: both are serviced
      in one DoInterupts, V-Blank first, so the CPU ends at the timer
      handler with the V-Blank handler's address 0x0040 pushed above the
      interrupted program counter. */
  lemma LaterRequestPreempts(m: Machine)
    requires Valid(m) && m.cpu.ime && StackRoom(m, 2)
    requires m.mem[0xFF0F] == 0x05 && m.mem[0xFFFF] == 0x05
    ensures InterruptsDefined(m)
    ensures var r := DoInterrupts(m); var sp := m.cpu.sp.reg;
      && r.cpu.pc == 0x50 && r.cpu.sp.reg == sp - 4
      && r.mem[sp - 1] == HighByte(m.cpu.pc) && r.mem[sp - 2] == LowByte(m.cpu.pc)
      && r.mem[sp - 3] == 0x00 && r.mem[sp - 4] == 0x40
  {
    ScanOfVBlankAndTimer(m, m.mem[0xFF0F]);
    VBlankThenTimer(m);
  }

  /** With IE = 0x05 the scan of the snapshot 0x05 is two services, bits
      0 and 2. */
  lemma ScanOfVBlankAndTimer(m: Machine, flag: bv8)
    requires Valid(m) && StackRoom(m, 2) && m.mem[0xFFFF] == 0x05 && flag == 0x05
    ensures ScanDefined(m, flag, 0) && ServiceDefined(m)
    ensures var m1 := Service(m, 0); ServiceDefined(m1) && ScanFrom(m, flag, 0) == Service(m1, 2)
  {
    ServiceKeepsIe(m, 0);
    var m1 := Service(m, 0);
    TimerOnlyAfterVBlank(m1, flag);
    VBlankAndTimerTaken(m, flag);
    ScanTaken(m, flag, 0, 1);
  }

  /** With IE = 0x05 the snapshot 0x05 takes bits 0 and 2 and passes bit 1
      over. */
  lemma VBlankAndTimerTaken(m: Machine, flag: bv8)
    requires Valid(m) && m.mem[0xFFFF] == 0x05 && flag == 0x05
    ensures Taken(m, flag, 0) && !Taken(m, flag, 1) && Taken(m, flag, 2)
  {
    assert EnableFlags(m) == 0x05;
  }

  /** The rest of that scan, from bit 1 up: only the timer is serviced. */
  lemma TimerOnlyAfterVBlank(m: Machine, flag: bv8)
    requires Valid(m) && StackRoom(m, 1) && m.mem[0xFFFF] == 0x05 && flag == 0x05
    ensures ScanDefined(m, flag, 1) && ServiceDefined(m) && ScanFrom(m, flag, 1) == Service(m, 2)
  {
    ServiceKeepsIe(m, 2);
    NoneTakenAbove(Service(m, 2), flag, 3);
    VBlankAndTimerTaken(m, flag);
    ScanTaken(m, flag, 2, 3);
    ScanSkipped(m, flag, 1, 2);
  }

  /** A service with room on the stack keeps IE and pushes one word. */
  lemma ServiceKeepsIe(m: Machine, num: nat)
    requires Valid(m) && num < 8 && StackRoom(m, 1)
    ensures ServiceDefined(m)
    ensures Service(m, num).mem[0xFFFF] == m.mem[0xFFFF] && Service(m, num).cpu.sp.reg == m.cpu.sp.reg - 2
  {
    ServiceShape(m, num);
  }

  /** One pass of the scan that services its bit; `next` is the bit after. */
  lemma ScanTaken(m: Machine, flag: bv8, bit: nat, next: nat)
    requires Valid(m) && bit < 8 && next == bit + 1 && Taken(m, flag, bit) && ServiceDefined(m)
    requires ScanDefined(Service(m, bit), flag, next)
    ensures ScanDefined(m, flag, bit) && ScanFrom(m, flag, bit) == ScanFrom(Service(m, bit), flag, next)
  {
  }

  /** One pass of the scan that passes its bit over. */
  lemma ScanSkipped(m: Machine, flag: bv8, bit: nat, next: nat)
    requires Valid(m) && bit < 8 && next == bit + 1 && !Taken(m, flag, bit) && ScanDefined(m, flag, next)
    ensures ScanDefined(m, flag, bit) && ScanFrom(m, flag, bit) == ScanFrom(m, flag, next)
  {
  }

  /** The stack and program counter after servicing V-Blank and then the
      timer. */
  lemma VBlankThenTimer(m: Machine)
    requires Valid(m) && StackRoom(m, 2)
    ensures ServiceDefined(m) && ServiceDefined(Service(m, 0))
    ensures var r := Service(Service(m, 0), 2); var sp := m.cpu.sp.reg;
      && r.cpu.pc == 0x50 && r.cpu.sp.reg == sp - 4
      && r.mem[sp - 1] == HighByte(m.cpu.pc) && r.mem[sp - 2] == LowByte(m.cpu.pc)
      && r.mem[sp - 3] == 0x00 && r.mem[sp - 4] == 0x40
  {
    RoomLess(m, 2, 1);
    ServiceStack(m, 0);
    var m1 := Service(m, 0);
    RoomShrinks(m, m1, 1);
    ServiceStack(m1, 2);
    VBlankVectorBytes();
  }

  lemma VBlankVectorBytes()
    ensures HighByte(0x40) == 0x00 && LowByte(0x40) == 0x40
  {
    assert 0x40 % 256 == 0x40;
  }

  /** One service with room on the stack, as the stack sees it: the
      handler address, the pushed word, and every other cell but IF
      untouched. */
  lemma ServiceStack(m: Machine, num: nat)
    requires Valid(m) && num < 8 && StackRoom(m, 1)
    ensures ServiceDefined(m)
    ensures var r := Service(m, num); var sp := m.cpu.sp.reg;
      && r.cpu.pc == Vector(num, m.cpu.pc) && r.cpu.sp.reg == sp - 2
      && r.mem[sp - 1] == HighByte(m.cpu.pc) && r.mem[sp - 2] == LowByte(m.cpu.pc)
      && forall k :: 0 <= k < MemorySize && k != sp - 1 && k != sp - 2 && k != 0xFF0F ==> r.mem[k] == m.mem[k]
  {
    ServiceShape(m, num);
  }

  /** With the snapshot 0x05, no bit from 3 up is serviced. */
  lemma {:induction false} NoneTakenAbove(m: Machine, flag: bv8, bit: nat)
    requires Valid(m) && flag == 0x05 && 3 <= bit <= 8
    ensures ScanDefined(m, flag, bit) && ScanFrom(m, flag, bit) == m
    decreases 8 - bit
  {
    if bit < 8 {
      assert !TestBit(flag, bit);
      NoneTakenAbove(m, flag, bit + 1);
      ScanSkipped(m, flag, bit, bit + 1);
    }
  }
}
