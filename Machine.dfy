/** The state of the emulator as one value, and the two operations every
    other part goes through: ReadMemory (Emulator.cpp:327-349) and
    WriteByte (Emulator.cpp:372-570). ResetCPU (Emulator.cpp:89-191) and
    CreateRamBanks (Emulator.cpp:1171-1181) live here too, because a write
    to 0xFF50 in boot mode calls ResetCPU. The stack helpers
    (Emulator.cpp:650-667) and RequestInterupt (Emulator.cpp:1185-1189)
    are compositions of the two. */
module Machine {
  import opened Bits
  import opened Hardware
  import opened Banking
  import opened Joypad

  const RomImageSize: nat := 0x200000
  const MemorySize: nat := 0x10000
  const RamBankSize: nat := 0x2000
  /** ResetScreen: 160 x 144 pixels of four bytes each. */
  const ScreenSize: nat := 160 * 144 * 4
  /** CreateRamBanks allocates this many banks whatever the cartridge says. */
  const BanksPerAllocation: nat := 17
  /** RETRACE_START: clock cycles per scanline. */
  const RetraceStart: int := 456

  /** The CPU registers and the fields ExecuteNextOpcode and the interrupt
      code keep beside them. */
  datatype Cpu = Cpu(
    af: Register,
    bc: Register,
    de: Register,
    hl: Register,
    sp: Register,                // m_StackPointer
    pc: Word,                    // m_ProgramCounter
    halted: bool,                // m_Halted
    ime: bool,                   // m_EnableInterupts
    pendingDisable: bool,        // m_PendingInteruptDisabled
    pendingEnable: bool,         // m_PendingInteruptEnabled
    cycles: int,                 // m_CyclesThisUpdate
    totalOpcodes: int)           // m_TotalOpcodes

  /** The cycle accumulators of DoTimers and the TAC period. */
  datatype TimerState = TimerState(
    counter: int,                // m_TimerVariable
    divider: int,                // m_DividerVariable
    clockSpeed: int)             // m_CurrentClockSpeed

  /** Every field of the Emulator class that the core reads or writes.
      The boot overlay is the fixed table bootROM (Hardware.BootRom), so
      it is not part of the state. */
  datatype Machine = Machine(
    game: seq<bv8>,              // m_GameBank: the cartridge as loaded
    mem: seq<bv8>,               // m_Rom: the flat 64 KiB address space
    ramBanks: seq<seq<bv8>>,     // m_RamBank
    bank: BankState,             // the controller fields
    bootMode: bool,              // m_BootMode
    joypad: bv8,                 // m_JoypadState, a clear bit is a held key
    cpu: Cpu,
    timer: TimerState,
    retrace: int,                // m_RetraceLY
    screen: seq<bv8>)            // m_ScreenData

  /** The sizes the source fixes, the controller ranges, and the shape of
      the bank vector: banks are only ever added 17 at a time, each of
      0x2000 bytes. */
  predicate Valid(m: Machine)
  {
    && |m.game| == RomImageSize
    && |m.mem| == MemorySize
    && |m.screen| == ScreenSize
    && ValidBanks(m.bank)
    && |m.ramBanks| % BanksPerAllocation == 0
    && (forall i :: 0 <= i < |m.ramBanks| ==> |m.ramBanks[i]| == RamBankSize)
  }

  /** `m_RamBank.at(m_CurrentRamBank)` succeeds. The selected bank is
      always below 4, so this holds exactly when any banks exist. */
  predicate RamMapped(m: Machine)
  {
    |m.ramBanks| > 0
  }

  predicate InRomWindow(a: Word) { 0x4000 <= a <= 0x7FFF }

  predicate InRamWindow(a: Word) { 0xA000 <= a <= 0xBFFF }

  /** A read is defined unless it needs a RAM bank that does not exist
      (`std::vector::at` throws). */
  predicate ReadDefined(m: Machine, a: Word)
  {
    InRamWindow(a) && !(m.bootMode && a <= 0xFF) ==> RamMapped(m)
  }

  /** ReadMemory. In the ROM window the source adds (bank - 1) * 0x4000 in
      unsigned arithmetic; for bank 0 that wraps to a - 0x4000, which the
      integer expression below gives directly. */
  function Read(m: Machine, a: Word): bv8
    requires Valid(m)
    requires ReadDefined(m, a)
  {
    if m.bootMode && a <= 0xFF then BootRom[a]
    else if InRomWindow(a) then m.game[a + (m.bank.romBank - 1) * 0x4000]
    else if InRamWindow(a) then m.ramBanks[m.bank.ramBank][a - 0xA000]
    else if a == 0xFF00 then JoypadRegister(m.mem[0xFF00], m.joypad)
    else m.mem[a]
  }

  // ---------------------------------------------------------------------
  // ResetScreen, CreateRamBanks, ResetCPU
  // ---------------------------------------------------------------------

  function BlankScreen(): (s: seq<bv8>)
    ensures |s| == ScreenSize && forall i :: 0 <= i < |s| ==> s[i] == 0
  {
    seq(ScreenSize, _ => 0)
  }

  /** A freshly allocated bank. The source leaves its bytes uninitialised;
      the model fills them with zero. */
  function FreshBanks(n: nat): (banks: seq<seq<bv8>>)
    ensures |banks| == n && forall i :: 0 <= i < n ==> |banks[i]| == RamBankSize
  {
    seq(n, _ => seq(RamBankSize, _ => 0))
  }

  /** CreateRamBanks: append 17 banks, then copy 0xA000-0xBFFF of the flat
      memory into the first bank of the vector. */
  function CreateRamBanks(m: Machine): (r: Machine)
    requires Valid(m)
    ensures Valid(r) && RamMapped(r)
    ensures |r.ramBanks| == |m.ramBanks| + BanksPerAllocation
    ensures r.ramBanks[0] == m.mem[0xA000..0xC000]
    ensures forall i :: 1 <= i < |m.ramBanks| ==> r.ramBanks[i] == m.ramBanks[i]
    ensures r == m.(ramBanks := r.ramBanks)
  {
    var grown := m.ramBanks + FreshBanks(BanksPerAllocation);
    m.(ramBanks := grown[0 := m.mem[0xA000..0xC000]])
  }

  /** The I/O register defaults of ResetCPU, stored in the source's
      order. */
  function IoDefaults(mem: seq<bv8>): (r: seq<bv8>)
    requires |mem| == MemorySize
    ensures |r| == MemorySize
  {
    mem[0xFF00 := 0xFF][0xFF05 := 0x00][0xFF06 := 0x00][0xFF07 := 0x00]
       [0xFF10 := 0x80][0xFF11 := 0xBF][0xFF12 := 0xF3][0xFF14 := 0xBF]
       [0xFF16 := 0x3F][0xFF17 := 0x00][0xFF19 := 0xBF][0xFF1A := 0x7F]
       [0xFF1B := 0xFF][0xFF1C := 0x9F][0xFF1E := 0xBF][0xFF20 := 0xFF]
       [0xFF21 := 0x00][0xFF22 := 0x00][0xFF23 := 0xBF][0xFF24 := 0x77]
       [0xFF25 := 0xF3][0xFF26 := 0xF1][0xFF40 := 0x91][0xFF42 := 0x00]
       [0xFF43 := 0x00][0xFF45 := 0x00][0xFF47 := 0xFC][0xFF48 := 0xFF]
       [0xFF49 := 0xFF][0xFF4A := 0x00][0xFF4B := 0x00][0xFFFF := 0x00]
  }

  /** The cartridge kinds ResetCPU recognises (header byte 0x147). */
  predicate KnownCartridge(kind: bv8)
  {
    kind <= 3 || kind == 5 || kind == 6
  }

  /** The field assignments of ResetCPU that come before the cartridge
      kind is examined. */
  function ResetFields(m: Machine): (r: Machine)
    requires Valid(m)
    ensures Valid(r)
  {
    m.(screen := BlankScreen(),
       bank := m.bank.(ramBank := 0, ramEnabled := false, usingMbc2 := false),
       timer := TimerState(0, 0, 1024),
       joypad := 0xFF,
       cpu := m.cpu.(halted := false,
                     totalOpcodes := 0,
                     cycles := 0,
                     pc := 0x100,
                     af := m.cpu.af.WithHi(0x01).WithLo(0xB0),
                     bc := Register(0x0013),
                     de := Register(0x00D8),
                     hl := Register(0x014D),
                     sp := Register(0xFFFE)),
       mem := IoDefaults(m.mem),
       retrace := RetraceStart)
  }

  /** ResetCPU: the register and I/O defaults, then the controller kind
      from header byte 0x147. An unknown kind returns early: MBC1 keeps its
      old setting and no RAM banks are created. */
  function Reset(m: Machine): (r: Machine)
    requires Valid(m)
    ensures Valid(r) && |r.ramBanks| >= |m.ramBanks|
  {
    var cleared := ResetFields(m);
    var kind := Read(cleared, 0x147);
    var configured := cleared.(bank := SelectController(cleared.bank, kind));
    if KnownCartridge(kind) then CreateRamBanks(configured) else configured
  }

  /** The state LoadRom hands to ResetCPU: the constructor's values
      (Emulator.cpp:12-34), the flat memory cleared and the first 32 KiB
      of the cartridge copied to its bottom, ROM bank 1 and boot mode off.
      The registers, the program counter and m_UsingMBC2, which the
      constructor leaves unset, start at 0 here; ResetCPU sets each of
      them. */
  function Loaded(game: seq<bv8>): (m: Machine)
    requires |game| == RomImageSize
    ensures Valid(m) && m.game == game
  {
    Machine(game,
            seq(MemorySize, i requires 0 <= i < MemorySize => if i < 0x8000 then game[i] else 0),
            [],
            BankState(false, false, false, 1, 0, true),
            false, 0,
            Cpu(Register(0), Register(0), Register(0), Register(0), Register(0), 0,
                false, false, false, false, 0, 0),
            TimerState(0, 0, 1024),
            RetraceStart, BlankScreen())
  }

  // ---------------------------------------------------------------------
  // WriteByte
  // ---------------------------------------------------------------------

  /** The timer period selected by the low two bits of TAC (0xFF07). */
  function ClockSpeedOf(tac: bv8): (speed: int)
    ensures speed == 16 || speed == 64 || speed == 256 || speed == 1024
  {
    var select := tac & 3;
    if select == 0 then 1024
    else if select == 1 then 16
    else if select == 2 then 64
    else 256
  }

  /** Whether a write into the RAM window reaches the selected bank: with
      RAM enabled only under MBC1, and with RAM disabled only under MBC2
      below 0xA200. */
  predicate RamStoreHappens(b: BankState, a: Word)
  {
    InRamWindow(a) &&
    if b.ramEnabled then b.usingMbc1 else b.usingMbc2 && a < 0xA200
  }

  /** The 160 addresses a DMA transfer from page `v` reads. */
  predicate DmaDefined(m: Machine, v: bv8)
  {
    0xA0 <= v <= 0xBF ==> RamMapped(m)
  }

  /** A write is defined unless it stores into, or copies from, a RAM bank
      that does not exist. */
  predicate WriteDefined(m: Machine, a: Word, v: bv8)
  {
    && (RamStoreHappens(m.bank, a) ==> RamMapped(m))
    && (a == 0xFF46 ==> DmaDefined(m, v))
  }

  /** The OAM image after a DMA transfer from page `v`: byte i of
      0xFE00-0xFE9F becomes what ReadMemory returns at v * 256 + i. No read
      address of the transfer falls inside the part already copied, so
      every byte is read from the state before the transfer. */
  function Dma(m: Machine, v: bv8): (r: Machine)
    requires Valid(m) && DmaDefined(m, v)
    ensures Valid(r)
  {
    m.(mem := seq(MemorySize, k requires 0 <= k < MemorySize =>
      if 0xFE00 <= k < 0xFEA0 then Read(m, v as int * 256 + (k - 0xFE00)) else m.mem[k]))
  }

  /** The address dispatch of WriteByte, after the boot-mode check. */
  function Store(m: Machine, a: Word, v: bv8): (r: Machine)
    requires Valid(m) && WriteDefined(m, a, v)
    ensures Valid(r) && |r.ramBanks| == |m.ramBanks|
  {
    if a < 0x8000 then m.(bank := ControlWrite(m.bank, a, v))
    else if InRamWindow(a) then
      if RamStoreHappens(m.bank, a) then
        var i := m.bank.ramBank;
        m.(ramBanks := m.ramBanks[i := m.ramBanks[i][a - 0xA000 := v]])
      else m
    else if 0xC000 <= a <= 0xDFFF then m.(mem := m.mem[a := v])
    else if 0xE000 <= a <= 0xFDFF then m.(mem := m.mem[a := v][a - 0x2000 := v])
    else if 0xFEA0 <= a <= 0xFEFF then m
    else if a == 0xFF04 then m.(mem := m.mem[0xFF04 := 0], timer := m.timer.(divider := 0))
    else if a == 0xFF07 then
      var stored := m.(mem := m.mem[a := v]);
      if ClockSpeedOf(v) != m.timer.clockSpeed then stored.(timer := m.timer.(counter := 0, clockSpeed := ClockSpeedOf(v)))
      else stored
    else if a == 0xFF44 then m.(mem := m.mem[0xFF44 := 0])
    else if a == 0xFF45 then m.(mem := m.mem[a := v])
    else if a == 0xFF46 then Dma(m, v)
    else if 0xFF4C <= a <= 0xFF7F then m
    else m.(mem := m.mem[a := v])
  }

  /** WriteByte: in boot mode a write to 0xFF50 first leaves boot mode and
      runs ResetCPU; then the address is dispatched. */
  function Write(m: Machine, a: Word, v: bv8): (r: Machine)
    requires Valid(m) && WriteDefined(m, a, v)
    ensures Valid(r)
    ensures RamMapped(m) ==> RamMapped(r)
  {
    if m.bootMode && a == BootDisableRegister then
      var restarted := Reset(m.(bootMode := false));
      assert !InRamWindow(a) && a != 0xFF46;
      Store(restarted, a, v)
    else Store(m, a, v)
  }

  /** RequestInterupt: set the bit in IF (0xFF0F). The source reads IF
      through ReadMemory and writes it back through WriteByte; the lemma
      RequestIsWriteByte shows that this comes to the same state. */
  function Request(m: Machine, bit: nat): (r: Machine)
    requires Valid(m) && bit < 8
    ensures Valid(r)
  {
    m.(mem := m.mem[0xFF0F := BitSet(m.mem[0xFF0F], bit)])
  }

  // ---------------------------------------------------------------------
  // The stack
  // ---------------------------------------------------------------------

  function HighByte(w: Word): bv8 { (w / 256) as bv8 }

  function LowByte(w: Word): bv8 { (w % 256) as bv8 }

  /** The stack pointer moved down by one, wrapping as a WORD does. */
  function StepDown(m: Machine): Machine
  {
    m.(cpu := m.cpu.(sp := Register(Wrap16(m.cpu.sp.reg - 1))))
  }

  /** The write of one half of a push is defined. */
  predicate PushByteDefined(m: Machine, v: bv8)
  {
    var m1 := StepDown(m);
    WriteDefined(m1, m1.cpu.sp.reg, v)
  }

  /** One half of PushWordOntoStack: decrement the stack pointer, then
      write the byte through WriteByte. */
  function PushByte(m: Machine, v: bv8): (r: Machine)
    requires Valid(m) && PushByteDefined(m, v)
    ensures Valid(r)
    ensures RamMapped(m) ==> RamMapped(r)
  {
    var m1 := StepDown(m);
    Write(m1, m1.cpu.sp.reg, v)
  }

  /** Both writes of a push are defined. */
  predicate PushDefined(m: Machine, w: Word)
    requires Valid(m)
  {
    PushByteDefined(m, HighByte(w)) && PushByteDefined(PushByte(m, HighByte(w)), LowByte(w))
  }

  /** PushWordOntoStack: the high byte first, then the low byte. */
  function Push(m: Machine, w: Word): (r: Machine)
    requires Valid(m) && PushDefined(m, w)
    ensures Valid(r)
    ensures RamMapped(m) ==> RamMapped(r)
  {
    PushByte(PushByte(m, HighByte(w)), LowByte(w))
  }

  predicate PopDefined(m: Machine)
  {
    ReadDefined(m, m.cpu.sp.reg) && ReadDefined(m, Wrap16(m.cpu.sp.reg + 1))
  }

  /** The word PopWordOffStack returns: the byte above the stack pointer
      is the high byte. */
  function PopValue(m: Machine): (w: Word)
    requires Valid(m) && PopDefined(m)
  {
    Read(m, Wrap16(m.cpu.sp.reg + 1)) as int * 256 + Read(m, m.cpu.sp.reg) as int
  }

  /** The state after PopWordOffStack: the stack pointer moved up by two. */
  function Pop(m: Machine): Machine
  {
    m.(cpu := m.cpu.(sp := Register(Wrap16(m.cpu.sp.reg + 2))))
  }
}
