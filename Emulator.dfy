/** The Emulator class of Emulator.cpp as an object: the flat memory
    m_Rom and the screen buffer m_ScreenData are arrays updated in place,
    the controller, CPU, timer and LCD fields are fields, and every method
    is proved to take the object from State() to the state the matching
    function of the value model gives. */
module EmulatorClass {
  import opened Bits
  import opened Hardware
  import opened Banking
  import opened Joypad
  import opened Machine
  import opened MemoryProperties
  import Spec = Machine
  import Interrupts
  import Timers
  import Input
  import Render
  import Lcd
  import Execution

  class Emulator {
    /** m_GameBank: the cartridge image, fixed once loaded. */
    const gameBank: seq<bv8>
    /** m_Rom: the 64 KiB address space. */
    const rom: array<bv8>
    /** m_ScreenData: 160 x 144 pixels of four bytes. */
    const screenData: array<bv8>
    /** m_RamBank: the external RAM banks. */
    var ramBanks: seq<seq<bv8>>

    var usingMbc1: bool
    var usingMbc2: bool
    var enableRamBank: bool
    var currentRomBank: int
    var currentRamBank: int
    var usingMemoryModel16_8: bool
    var bootMode: bool
    var joypadState: bv8

    var registerAF: Register
    var registerBC: Register
    var registerDE: Register
    var registerHL: Register
    var stackPointer: Register
    var programCounter: Word
    var halted: bool
    var enableInterupts: bool
    var pendingInteruptDisabled: bool
    var pendingInteruptEnabled: bool
    var cyclesThisUpdate: int
    var totalOpcodes: int

    var timerVariable: int
    var dividerVariable: int
    var currentClockSpeed: int
    var retraceLY: int

    /** The controller fields as a value of the model. */
    ghost function Banks(): BankState
      reads this
    {
      BankState(usingMbc1, usingMbc2, enableRamBank, currentRomBank, currentRamBank, usingMemoryModel16_8)
    }

    /** The object as a value of the model. */
    ghost function State(): Machine
      reads this, rom, screenData
    {
      Machine(gameBank, rom[..], ramBanks,
              Banks(),
              bootMode, joypadState,
              Cpu(registerAF, registerBC, registerDE, registerHL, stackPointer, programCounter, halted,
                  enableInterupts, pendingInteruptDisabled, pendingInteruptEnabled, cyclesThisUpdate, totalOpcodes),
              TimerState(timerVariable, dividerVariable, currentClockSpeed),
              retraceLY, screenData[..])
    }

    ghost predicate Valid()
      reads this, rom, screenData
    {
      && rom.Length == MemorySize
      && screenData.Length == ScreenSize
      && Spec.Valid(State())
    }

    // -------------------------------------------------------------------
    // Reading
    // -------------------------------------------------------------------

    /** GetJoypadState. */
    function GetJoypadState(): bv8
      reads this, rom
      requires rom.Length == MemorySize
    {
      JoypadRegister(rom[0xFF00], joypadState)
    }

    /** ReadMemory. */
    function ReadMemory(address: Word): (r: bv8)
      reads this, rom, screenData
      requires Valid() && ReadDefined(State(), address)
      ensures r == Read(State(), address)
    {
      if bootMode && address <= 0xFF then BootRom[address]
      else if 0x4000 <= address <= 0x7FFF then gameBank[address + (currentRomBank - 1) * 0x4000]
      else if 0xA000 <= address <= 0xBFFF then ramBanks[currentRamBank][address - 0xA000]
      else if address == 0xFF00 then GetJoypadState()
      else rom[address]
    }

    // -------------------------------------------------------------------
    // ResetScreen, CreateRamBanks, ResetCPU
    // -------------------------------------------------------------------

    /** ResetScreen: every byte of the screen buffer becomes 0. */
    method ResetScreen()
      requires screenData.Length == ScreenSize && rom.Length == MemorySize
      modifies screenData
      ensures State() == old(State()).(screen := BlankScreen())
    {
      var i := 0;
      while i < screenData.Length
        invariant 0 <= i <= screenData.Length
        invariant forall k :: 0 <= k < i ==> screenData[k] == 0
      {
        screenData[i] := 0;
        i := i + 1;
      }
    }

    /** CreateRamBanks: seventeen new banks are appended, then the first
        bank of the vector takes a copy of 0xA000-0xBFFF. */
    method CreateRamBanks()
      requires Valid()
      modifies this
      ensures Valid()
      ensures State() == Spec.CreateRamBanks(old(State()))
    {
      var banks := ramBanks;
      var i := 0;
      while i < BanksPerAllocation
        invariant 0 <= i <= BanksPerAllocation
        invariant banks == old(ramBanks) + FreshBanks(i)
      {
        banks := banks + [seq(RamBankSize, _ => 0)];
        i := i + 1;
      }
      var first := banks[0];
      var k := 0;
      while k < RamBankSize
        invariant 0 <= k <= RamBankSize && |first| == RamBankSize
        invariant forall j :: 0 <= j < k ==> first[j] == rom[0xA000 + j]
      {
        first := first[k := rom[0xA000 + k]];
        k := k + 1;
      }
      assert first == rom[0xA000..0xC000];
      ramBanks := banks[0 := first];
    }

    /** The I/O register table of ResetCPU. */
    method WriteIoDefaults()
      requires rom.Length == MemorySize && screenData.Length == ScreenSize
      modifies rom
      ensures State() == old(State()).(mem := IoDefaults(old(rom[..])))
    {
      rom[0xFF00] := 0xFF;
      rom[0xFF05] := 0x00;
      rom[0xFF06] := 0x00;
      rom[0xFF07] := 0x00;
      rom[0xFF10] := 0x80;
      rom[0xFF11] := 0xBF;
      rom[0xFF12] := 0xF3;
      rom[0xFF14] := 0xBF;
      rom[0xFF16] := 0x3F;
      rom[0xFF17] := 0x00;
      rom[0xFF19] := 0xBF;
      rom[0xFF1A] := 0x7F;
      rom[0xFF1B] := 0xFF;
      rom[0xFF1C] := 0x9F;
      rom[0xFF1E] := 0xBF;
      rom[0xFF20] := 0xFF;
      rom[0xFF21] := 0x00;
      rom[0xFF22] := 0x00;
      rom[0xFF23] := 0xBF;
      rom[0xFF24] := 0x77;
      rom[0xFF25] := 0xF3;
      rom[0xFF26] := 0xF1;
      rom[0xFF40] := 0x91;
      rom[0xFF42] := 0x00;
      rom[0xFF43] := 0x00;
      rom[0xFF45] := 0x00;
      rom[0xFF47] := 0xFC;
      rom[0xFF48] := 0xFF;
      rom[0xFF49] := 0xFF;
      rom[0xFF4A] := 0x00;
      rom[0xFF4B] := 0x00;
      rom[0xFFFF] := 0x00;
    }

    /** The first two assignments of ResetCPU: RAM bank 0 and the TIMA
        counter cleared. */
    method ResetBankAndTimer()
      modifies this
      ensures State() == old(State()).(bank := old(State()).bank.(ramBank := 0), timer := old(State()).timer.(counter := 0))
    {
      currentRamBank := 0;
      timerVariable := 0;
    }

    /** The next two: the timer at the 4096 Hz period and DIV's counter
        cleared. */
    method ResetClock()
      modifies this
      ensures State() == old(State()).(timer := old(State()).timer.(divider := 0, clockSpeed := 1024))
    {
      currentClockSpeed := 1024;
      dividerVariable := 0;
    }

    /** The next two: the CPU runs and no opcode has been counted. */
    method ResetHalt()
      modifies this
      ensures State() == old(State()).(cpu := old(State()).cpu.(halted := false, totalOpcodes := 0))
    {
      halted := false;
      totalOpcodes := 0;
    }

    /** The next three: no key is held, no cycle is counted and the
        program counter is at 0x100. */
    method ResetRunState()
      modifies this
      ensures State() == old(State()).(joypad := 0xFF, cpu := old(State()).cpu.(cycles := 0, pc := 0x100))
    {
      joypadState := 0xFF;
      cyclesThisUpdate := 0;
      programCounter := 0x100;
    }

    /** AF := 0x01B0, written as its two halves. */
    method ResetAccumulator()
      modifies this
      ensures State() == old(State()).(cpu := old(State()).cpu.(af := old(registerAF).WithHi(0x01).WithLo(0xB0)))
    {
      registerAF := registerAF.WithHi(0x01);
      registerAF := registerAF.WithLo(0xB0);
    }

    /** BC := 0x0013 and DE := 0x00D8. */
    method ResetPairs()
      modifies this
      ensures State() == old(State()).(cpu := old(State()).cpu.(bc := Register(0x0013), de := Register(0x00D8)))
    {
      registerBC := Register(0x0013);
      registerDE := Register(0x00D8);
    }

    /** HL := 0x014D and SP := 0xFFFE. */
    method ResetPointers()
      modifies this
      ensures State() == old(State()).(cpu := old(State()).cpu.(hl := Register(0x014D), sp := Register(0xFFFE)))
    {
      registerHL := Register(0x014D);
      stackPointer := Register(0xFFFE);
    }

    /** The controller switch of ResetCPU on the cartridge kind. */
    method SelectCartridge(kind: bv8) returns (known: bool)
      modifies this
      ensures State() == old(State()).(bank := SelectController(old(State()).bank, kind))
      ensures known == KnownCartridge(kind)
    {
      if kind == 0 {
        usingMbc1 := false;
      } else if kind <= 3 {
        usingMbc1 := true;
      } else if kind == 5 || kind == 6 {
        usingMbc2 := true;
      } else {
        return false;
      }
      return true;
    }

    /** The last assignments before the cartridge kind is read: the
        scanline counter restarts and RAM and MBC2 are switched off. */
    method ResetLineAndController()
      modifies this
      ensures State() == old(State()).(retrace := RetraceStart,
                                      bank := old(State()).bank.(ramEnabled := false, usingMbc2 := false))
    {
      retraceLY := RetraceStart;
      enableRamBank := false;
      usingMbc2 := false;
    }

    /** The assignments of ResetCPU before the cartridge kind is read. */
    method ResetFieldValues()
      requires Valid()
      modifies this, rom, screenData
      ensures State() == ResetFields(old(State()))
    {
      ResetScreen();
      ResetBankAndTimer();
      ResetClock();
      ResetHalt();
      ResetRunState();
      ResetAccumulator();
      ResetPairs();
      ResetPointers();
      WriteIoDefaults();
      ResetLineAndController();
    }

    /** ResetCPU. Returns false for a cartridge kind it does not handle,
        in which case no RAM banks are created. */
    method ResetCPU() returns (known: bool)
      requires Valid()
      modifies this, rom, screenData
      ensures Valid()
      ensures State() == Reset(old(State()))
      ensures known == KnownCartridge(old(rom[0x147]))
    {
      ghost var m0 := State();
      ResetFieldValues();
      ResetKind(m0);
      var kind := ReadMemory(0x147);
      known := SelectCartridge(kind);
      if known {
        CreateRamBanks();
      }
    }

    /** The constructor followed by LoadRom: the fields take the
        constructor's values, the screen is cleared, the flat memory is
        cleared and receives the first 32 KiB of the cartridge, ROM bank 1
        is selected, boot mode is turned off and ResetCPU runs. The file
        read is replaced by the image it yields; the boot overlay is the
        fixed bootROM table. */
    constructor LoadRom(game: seq<bv8>)
      requires |game| == RomImageSize
      ensures Valid()
      ensures State() == Reset(Loaded(game))
    {
      gameBank := game;
      rom := new bv8[MemorySize](i requires 0 <= i < MemorySize => if i < 0x8000 then game[i] else 0);
      screenData := new bv8[ScreenSize];
      ramBanks := [];
      usingMbc1 := false;
      usingMbc2 := false;
      enableRamBank := false;
      currentRomBank := 1;
      currentRamBank := 0;
      usingMemoryModel16_8 := true;
      bootMode := false;
      joypadState := 0;
      registerAF, registerBC, registerDE, registerHL, stackPointer := Register(0), Register(0), Register(0), Register(0), Register(0);
      programCounter := 0;
      halted := false;
      enableInterupts := false;
      pendingInteruptDisabled := false;
      pendingInteruptEnabled := false;
      cyclesThisUpdate := 0;
      totalOpcodes := 0;
      timerVariable := 0;
      dividerVariable := 0;
      currentClockSpeed := 1024;
      retraceLY := RetraceStart;
      new;
      ghost var loaded := Loaded(game);
      assert rom[..] == loaded.mem;
      assert State() == loaded.(screen := screenData[..]);
      ResetScreen();
      assert State() == loaded;
      var _ := ResetCPU();
    }

    // -------------------------------------------------------------------
    // WriteByte
    // -------------------------------------------------------------------

    /** Memory after the first n bytes of a DMA transfer from page v. */
    static ghost function Copied(m: Machine, v: bv8, n: int): (mem: seq<bv8>)
      requires Spec.Valid(m) && DmaDefined(m, v) && 0 <= n <= 0xA0
      ensures |mem| == MemorySize
    {
      seq(MemorySize, k requires 0 <= k < MemorySize =>
        if 0xFE00 <= k < 0xFE00 + n then Read(m, v as int * 256 + (k - 0xFE00)) else m.mem[k])
    }

    /** Step n of the transfer reads the same byte from the partly copied
        memory as from the memory before the transfer: the byte it reads
        is never one already copied. */
    static lemma CopyReadsOriginal(m: Machine, v: bv8, n: int)
      requires Spec.Valid(m) && DmaDefined(m, v) && 0 <= n < 0xA0
      ensures var partial := m.(mem := Copied(m, v, n));
        && Spec.Valid(partial) && ReadDefined(partial, v as int * 256 + n)
        && Read(partial, v as int * 256 + n) == Read(m, v as int * 256 + n)
    {
      var a := v as int * 256 + n;
      assert Copied(m, v, n)[a] == m.mem[a];
      assert Copied(m, v, n)[0xFF00] == m.mem[0xFF00];
    }

    /** Storing byte n extends the copied prefix by one. */
    static lemma CopyGrows(m: Machine, v: bv8, n: int)
      requires Spec.Valid(m) && DmaDefined(m, v) && 0 <= n < 0xA0
      ensures Copied(m, v, n)[0xFE00 + n := Read(m, v as int * 256 + n)] == Copied(m, v, n + 1)
    {
    }

    /** No byte copied, and all 160 copied. */
    static lemma CopyEnds(m: Machine, v: bv8)
      requires Spec.Valid(m) && DmaDefined(m, v)
      ensures Copied(m, v, 0) == m.mem
      ensures Copied(m, v, 0xA0) == Dma(m, v).mem
    {
    }

    /** One byte of the DMA transfer: OAM byte n takes what ReadMemory
        returns at v * 256 + n. */
    method CopyByte(ghost m0: Machine, v: bv8, n: int)
      requires rom.Length == MemorySize && screenData.Length == ScreenSize
      requires Spec.Valid(m0) && DmaDefined(m0, v) && 0 <= n < 0xA0
      requires State() == m0.(mem := Copied(m0, v, n))
      modifies rom
      ensures State() == m0.(mem := Copied(m0, v, n + 1))
    {
      CopyReadsOriginal(m0, v, n);
      CopyGrows(m0, v, n);
      rom[0xFE00 + n] := ReadMemory(v as int * 256 + n);
    }

    /** The DMA transfer: 160 bytes from page `data`, each read through
        ReadMemory, into OAM at 0xFE00. */
    method DmaTransfer(data: bv8)
      requires Valid() && DmaDefined(State(), data)
      modifies rom
      ensures State() == Dma(old(State()), data)
    {
      ghost var m0 := State();
      CopyEnds(m0, data);
      var i := 0;
      while i < 0xA0
        invariant 0 <= i <= 0xA0
        invariant State() == m0.(mem := Copied(m0, data, i))
      {
        CopyByte(m0, data, i);
        i := i + 1;
      }
    }

    /** A write to 0x0000-0x1FFF: the RAM enable register. */
    method EnableRamWrite(address: Word, data: bv8)
      requires address <= 0x1FFF
      modifies this
      ensures Banks() == RamEnableWrite(old(Banks()), address, data)
      ensures State() == old(State()).(bank := Banks())
    {
      if usingMbc1 {
        if data & 0xF == 0xA {
          enableRamBank := true;
        } else if data == 0 {
          enableRamBank := false;
        }
      } else if usingMbc2 {
        if !AddressBit8(address) {
          if data & 0xF == 0xA {
            enableRamBank := true;
          } else if data == 0 {
            enableRamBank := false;
          }
        }
      }
    }

    /** A write to 0x2000-0x3FFF: the low ROM bank bits. */
    method RomBankSelect(data: bv8)
      requires ValidBanks(Banks())
      modifies this
      ensures Banks() == RomBankWrite(old(Banks()), data)
      ensures State() == old(State()).(bank := Banks())
    {
      if usingMbc1 {
        var low := data;
        if low == 0 {
          low := low + 1;
        }
        low := low & 31;
        assert low == LowBankBits(data);
        currentRomBank := ((currentRomBank as bv8 & 224) | low) as int;
      } else if usingMbc2 {
        currentRomBank := (data & 0xF) as int;
      }
    }

    /** A write to 0x4000-0x5FFF: ROM bank bits 5 and 6, or the RAM bank. */
    method BankHighSelect(data: bv8)
      requires ValidBanks(Banks())
      modifies this
      ensures Banks() == BankHighWrite(old(Banks()), data)
      ensures State() == old(State()).(bank := Banks())
    {
      if usingMbc1 {
        if usingMemoryModel16_8 {
          currentRamBank := 0;
          var high := (data & 3) << 5;
          if currentRomBank as bv8 & 31 == 0 {
            high := high + 1;
          }
          assert high == UpperBankBits(currentRomBank as bv8, data);
          currentRomBank := ((currentRomBank as bv8 & 31) | high) as int;
        } else {
          currentRamBank := (data & 3) as int;
        }
      }
    }

    /** A write to 0x6000-0x7FFF: the banking mode. */
    method ModeSelect(data: bv8)
      modifies this
      ensures Banks() == ModeWrite(old(Banks()), data)
      ensures State() == old(State()).(bank := Banks())
    {
      if usingMbc1 {
        if data & 1 == 1 {
          currentRamBank := 0;
          usingMemoryModel16_8 := false;
        } else {
          usingMemoryModel16_8 := true;
        }
      }
    }

    /** A write to 0xA000-0xBFFF: into the selected RAM bank, when the
        controller lets it through. */
    method RamWrite(address: Word, data: bv8)
      requires Valid() && InRamWindow(address) && WriteDefined(State(), address, data)
      modifies this
      ensures State() == Store(old(State()), address, data)
    {
      if enableRamBank {
        if usingMbc1 {
          ramBanks := ramBanks[currentRamBank := ramBanks[currentRamBank][address - 0xA000 := data]];
        }
      } else if usingMbc2 && address < 0xA200 {
        ramBanks := ramBanks[currentRamBank := ramBanks[currentRamBank][address - 0xA000 := data]];
      }
    }

    /** A write to TAC (0xFF07): stored, and a new period restarts the
        timer counter. */
    method TimerControlWrite(data: bv8)
      requires Valid()
      modifies this, rom
      ensures State() == Store(old(State()), 0xFF07, data)
    {
      rom[0xFF07] := data;
      var timerVal := data & 3;
      var clockSpeed := 0;
      if timerVal == 0 {
        clockSpeed := 1024;
      } else if timerVal == 1 {
        clockSpeed := 16;
      } else if timerVal == 2 {
        clockSpeed := 64;
      } else {
        clockSpeed := 256;
      }
      if clockSpeed != currentClockSpeed {
        timerVariable := 0;
        currentClockSpeed := clockSpeed;
      }
    }

    /** The controller registers below 0x8000. */
    method ControlRegisterWrite(address: Word, data: bv8)
      requires Valid() && address < 0x8000
      modifies this
      ensures State() == Store(old(State()), address, data)
    {
      if address <= 0x1FFF {
        EnableRamWrite(address, data);
      } else if address <= 0x3FFF {
        RomBankSelect(data);
      } else if address <= 0x5FFF {
        BankHighSelect(data);
      } else {
        ModeSelect(data);
      }
    }

    /** The writes at and above 0xC000 that store into the flat memory
        or ignore the write. */
    method FlatWrite(address: Word, data: bv8)
      requires Valid() && 0xC000 <= address && address != 0xFF04 && address != 0xFF07 && address != 0xFF46
      modifies this, rom
      ensures State() == Store(old(State()), address, data)
    {
      if address <= 0xDFFF {
        rom[address] := data;
      } else if address <= 0xFDFF {
        rom[address] := data;
        rom[address - 0x2000] := data;
      } else if 0xFEA0 <= address <= 0xFEFF {
      } else if address == 0xFF44 {
        rom[0xFF44] := 0;
      } else if address == 0xFF45 {
        rom[address] := data;
      } else if 0xFF4C <= address <= 0xFF7F {
      } else {
        rom[address] := data;
      }
    }

    /** The address dispatch of WriteByte. */
    method Dispatch(address: Word, data: bv8)
      requires Valid() && WriteDefined(State(), address, data)
      modifies this, rom
      ensures State() == Store(old(State()), address, data)
    {
      if address < 0x8000 {
        ControlRegisterWrite(address, data);
      } else if 0xA000 <= address <= 0xBFFF {
        RamWrite(address, data);
      } else if address < 0xC000 {
        rom[address] := data;
      } else if address == 0xFF04 {
        rom[0xFF04] := 0;
        dividerVariable := 0;
      } else if address == 0xFF07 {
        TimerControlWrite(data);
      } else if address == 0xFF46 {
        DmaTransfer(data);
      } else {
        FlatWrite(address, data);
      }
    }

    /** WriteByte. */
    method WriteByte(address: Word, data: bv8)
      requires Valid() && WriteDefined(State(), address, data)
      modifies this, rom, screenData
      ensures Valid()
      ensures State() == Write(old(State()), address, data)
    {
      ghost var m0 := State();
      if bootMode && address == BootDisableRegister {
        bootMode := false;
        var _ := ResetCPU();
        ghost var restarted := Reset(m0.(bootMode := false));
        assert State() == restarted;
        Dispatch(address, data);
        assert State() == Store(restarted, address, data);
      } else {
        Dispatch(address, data);
        assert State() == Store(m0, address, data);
      }
    }

    // -------------------------------------------------------------------
    // Interrupts and the stack
    // -------------------------------------------------------------------

    /** RequestInterupt: IF is read through ReadMemory, the bit set, and
        the byte written back through WriteByte. */
    method RequestInterupt(bit: nat)
      requires Valid() && bit < 8
      modifies this, rom, screenData
      ensures Valid()
      ensures State() == Request(old(State()), bit)
    {
      RequestIsWriteByte(State(), bit);
      var requestFlag := ReadMemory(0xFF0F);
      requestFlag := BitSet(requestFlag, bit);
      WriteByte(0xFF0F, requestFlag);
    }

    /** One half of PushWordOntoStack: the stack pointer moves down and
        the byte is written there through WriteByte. */
    method PushByte(v: bv8)
      requires Valid() && PushByteDefined(State(), v)
      modifies this, rom, screenData
      ensures State() == Spec.PushByte(old(State()), v)
    {
      StepDownStack();
      WriteByte(stackPointer.reg, v);
    }

    /** The stack pointer moves down one byte, wrapping as a WORD. */
    method StepDownStack()
      requires Valid()
      modifies this
      ensures Valid()
      ensures State() == StepDown(old(State()))
    {
      stackPointer := Register(Wrap16(stackPointer.reg - 1));
    }

    /** PushWordOntoStack: the high byte goes below the stack pointer
        first, then the low byte below it. */
    method PushWordOntoStack(word: Word)
      requires Valid() && PushDefined(State(), word)
      modifies this, rom, screenData
      ensures Valid()
      ensures State() == Push(old(State()), word)
    {
      var hi := (word / 256) as bv8;
      var lo := (word % 256) as bv8;
      PushByte(hi);
      PushByte(lo);
    }

    /** PopWordOffStack: the byte above the stack pointer is the high
        byte; the stack pointer moves up by two. */
    method PopWordOffStack() returns (word: Word)
      requires Valid() && PopDefined(State())
      modifies this
      ensures Valid()
      ensures word == PopValue(old(State()))
      ensures State() == Pop(old(State()))
    {
      var hi := ReadMemory(Wrap16(stackPointer.reg + 1));
      var lo := ReadMemory(stackPointer.reg);
      word := hi as int * 256 + lo as int;
      stackPointer := Register(Wrap16(stackPointer.reg + 2));
    }

    /** The part of ServiceInterrupt after the push: leave the halt
        state, jump to the handler and switch the master enable off. */
    method EnterHandler(num: nat)
      modifies this
      ensures var m := old(State());
        State() == m.(cpu := m.cpu.(halted := false, pc := Interrupts.Vector(num, m.cpu.pc), ime := false))
    {
      halted := false;
      JumpToHandler(num);
    }

    /** The jump to the handler, then the master enable switched off. */
    method JumpToHandler(num: nat)
      modifies this
      ensures var m := old(State());
        State() == m.(cpu := m.cpu.(pc := Interrupts.Vector(num, m.cpu.pc), ime := false))
    {
      var target := HandlerAddress(num);
      programCounter := target;
      enableInterupts := false;
    }

    /** The switch of ServiceInterrupt: the handler address of interrupt
        `num`, or the program counter unchanged for a number without
        one. */
    method HandlerAddress(num: nat) returns (target: Word)
      ensures target == Interrupts.Vector(num, programCounter)
    {
      target := programCounter;
      if num == 0 {
        target := 0x40;
      } else if num == 1 {
        target := 0x48;
      } else if num == 2 {
        target := 0x50;
      } else if num == 4 {
        target := 0x60;
      }
    }

    /** The last statement of ServiceInterrupt: the request bit in IF is
        cleared in the flat memory. */
    method AcknowledgeRequest(num: nat)
      requires rom.Length == MemorySize && screenData.Length == ScreenSize && num < 8
      modifies rom
      ensures var m := old(State());
        State() == m.(mem := m.mem[0xFF0F := BitReset(m.mem[0xFF0F], num)])
    {
      rom[0xFF0F] := BitReset(rom[0xFF0F], num);
    }

    /** ServiceInterrupt. */
    method ServiceInterrupt(num: nat)
      requires Valid() && num < 8 && Interrupts.ServiceDefined(State())
      modifies this, rom, screenData
      ensures Valid()
      ensures State() == Interrupts.Service(old(State()), num)
    {
      PushWordOntoStack(programCounter);
      EnterHandler(num);
      AcknowledgeRequest(num);
    }

    /** DoInterupts: with the master enable on and something requested,
        every bit requested in the IF read before the loop and enabled in
        IE as it reads at that point is serviced, lowest bit first. */
    method DoInterupts()
      requires Valid() && Interrupts.InterruptsDefined(State())
      modifies this, rom, screenData
      ensures Valid()
      ensures State() == Interrupts.DoInterrupts(old(State()))
    {
      ghost var m0 := State();
      if enableInterupts {
        var requestFlag := ReadMemory(0xFF0F);
        if requestFlag > 0 {
          var bit := 0;
          while bit < 8
            invariant 0 <= bit <= 8 && Valid()
            invariant Interrupts.ScanDefined(State(), requestFlag, bit)
            invariant Interrupts.ScanFrom(State(), requestFlag, bit) == Interrupts.ScanFrom(m0, requestFlag, 0)
          {
            if TestBit(requestFlag, bit) {
              var enabledReg := ReadMemory(0xFFFF);
              if TestBit(enabledReg, bit) {
                ServiceInterrupt(bit);
              }
            }
            bit := bit + 1;
          }
        }
      }
    }

    // -------------------------------------------------------------------
    // Timers
    // -------------------------------------------------------------------

    /** The TIMA half of DoTimers, once TAC bit 2 is found set. */
    method CountTima(cycles: int)
      requires Valid()
      modifies this, rom, screenData
      ensures State() == Timers.TimaStep(old(State()), cycles)
    {
      timerVariable := timerVariable + cycles;
      if timerVariable >= currentClockSpeed {
        timerVariable := 0;
        var overflow := rom[0xFF05] == 0xFF;
        rom[0xFF05] := rom[0xFF05] + 1;
        if overflow {
          rom[0xFF05] := rom[0xFF06];
          RequestInterupt(2);
        }
      }
    }

    /** The DIV half of DoTimers. */
    method StepDivider()
      requires rom.Length == MemorySize && screenData.Length == ScreenSize && Spec.Valid(State())
      modifies this, rom
      ensures State() == Timers.DividerStep(old(State()))
    {
      if dividerVariable >= 256 {
        dividerVariable := 0;
        rom[0xFF04] := rom[0xFF04] + 1;
      }
    }

    /** DoTimers. */
    method DoTimers(cycles: int)
      requires Valid()
      modifies this, rom, screenData
      ensures Valid()
      ensures State() == Timers.Tick(old(State()), cycles)
    {
      ghost var m0 := State();
      var timerAtts := rom[0xFF07];
      dividerVariable := dividerVariable + cycles;
      assert State() == m0.(timer := m0.timer.(divider := m0.timer.divider + cycles));
      if TestBit(timerAtts, 2) {
        CountTima(cycles);
      }
      assert State() == Timers.Count(m0, cycles);
      StepDivider();
    }

    // -------------------------------------------------------------------
    // Keys
    // -------------------------------------------------------------------

    /** KeyPressed. The joypad register is read straight from the flat
        memory, since ReadMemory computes 0xFF00. */
    method KeyPressed(key: nat)
      requires Valid() && key < 8
      modifies this, rom, screenData
      ensures Valid()
      ensures State() == Input.KeyPressed(old(State()), key)
    {
      var previouslyUnset := !TestBit(joypadState, key);
      joypadState := BitReset(joypadState, key);
      var button := key > 3;
      var keyReq := rom[0xFF00];
      var requestInterupt := false;
      if button && !TestBit(keyReq, 5) {
        requestInterupt := true;
      } else if !button && !TestBit(keyReq, 4) {
        requestInterupt := true;
      }
      if requestInterupt && !previouslyUnset {
        RequestInterupt(4);
      }
    }

    /** KeyReleased. */
    method KeyReleased(key: nat)
      requires Valid() && key < 8
      modifies this
      ensures Valid()
      ensures State() == Input.KeyReleased(old(State()), key)
    {
      joypadState := BitSet(joypadState, key);
    }

    // -------------------------------------------------------------------
    // The LCD: status, line drawing, DoGraphics
    // -------------------------------------------------------------------

    /** GetLCDMode: the mode bits of the stored STAT byte. */
    function GetLCDMode(): (mode: bv8)
      reads this, rom, screenData
      requires Valid()
      ensures mode == Lcd.LcdMode(State()) && mode <= 3
    {
      rom[0xFF41] & 3
    }

    /** The mode selection of SetLCDStatus with the display on, for the
        STAT byte and LY it read: the mode, STAT with the mode bits put
        in, and whether the mode's interrupt is enabled. */
    method SelectMode(lcdStatus: bv8, ly: bv8) returns (mode: bv8, status: bv8, reqInt: bool)
      ensures mode == Lcd.ModeOf(ly, retraceLY) && mode <= 3
      ensures status == Lcd.WithMode(lcdStatus, mode)
      ensures reqInt == Lcd.ModeInterruptEnabled(status, mode)
    {
      status := lcdStatus;
      reqInt := false;
      if ly >= Lcd.VBlankLine {
        mode := 1;
        status := BitSet(status, 0);
        status := BitReset(status, 1);
        reqInt := TestBit(status, 4);
      } else {
        var mode2Bounds := RetraceStart - 80;
        var mode3Bounds := mode2Bounds - 172;
        if retraceLY >= mode2Bounds {
          mode := 2;
          status := BitReset(status, 0);
          status := BitSet(status, 1);
          reqInt := TestBit(status, 5);
        } else if retraceLY >= mode3Bounds {
          mode := 3;
          status := BitSet(status, 0);
          status := BitSet(status, 1);
        } else {
          mode := 0;
          status := BitReset(status, 0);
          status := BitReset(status, 1);
          reqInt := TestBit(status, 3);
        }
      }
    }

    /** SetLCDStatus with the display off: the countdown restarts, LY
        is cleared and STAT is written back in mode 1. */
    method StatusWhileOff(lcdStatus: bv8)
      requires Valid() && lcdStatus == rom[0xFF41] && !Lcd.LcdOn(State())
      modifies this, rom, screenData
      ensures State() == Lcd.SetLcdStatus(old(State()))
    {
      retraceLY := RetraceStart;
      rom[0xFF44] := 0;
      var status := BitSet(lcdStatus, 0);
      status := BitReset(status, 1);
      WriteByte(0xFF41, status);
    }

    /** The end of SetLCDStatus with the display on. */
    method CheckCoincidence(lcdStatus: bv8, ly: bv8)
      requires Valid()
      modifies this, rom, screenData
      ensures Valid()
      ensures State() == Lcd.CheckCoincidence(old(State()), lcdStatus, ly)
    {
      var status := lcdStatus;
      var lyc := ReadMemory(0xFF45);
      if lyc == ly {
        status := BitSet(status, 2);
        if TestBit(status, 6) {
          RequestInterupt(1);
        }
      } else {
        status := BitReset(status, 2);
      }
      WriteByte(0xFF41, status);
    }

    /** SetLCDStatus. */
    method SetLCDStatus()
      requires Valid()
      modifies this, rom, screenData
      ensures Valid()
      ensures State() == Lcd.SetLcdStatus(old(State()))
    {
      var lcdStatus := ReadMemory(0xFF41);
      if !TestBit(ReadMemory(0xFF40), 7) {
        StatusWhileOff(lcdStatus);
        return;
      }
      StatusWhileOn(lcdStatus);
    }

    /** SetLCDStatus with the display on: the mode is selected, its
        interrupt requested when enabled and the mode changed, then the
        coincidence flag is updated and STAT written back. */
    method StatusWhileOn(lcdStatus: bv8)
      requires Valid() && lcdStatus == rom[0xFF41] && Lcd.LcdOn(State())
      modifies this, rom, screenData
      ensures Valid()
      ensures State() == Lcd.SetLcdStatus(old(State()))
    {
      ghost var m0 := State();
      var ly := ReadMemory(0xFF44);
      var oldMode := GetLCDMode();
      var mode, status, reqInt := SelectMode(lcdStatus, ly);
      assert status == Lcd.ModeStatus(m0);
      ModeRequest(reqInt && mode != oldMode);
      CheckCoincidence(status, ly);
    }

    /** The mode interrupt of SetLCDStatus: interrupt 1 when `due`. */
    method ModeRequest(due: bool)
      requires Valid()
      modifies this, rom, screenData
      ensures Valid()
      ensures State() == if due then Request(old(State()), 1) else old(State())
    {
      if due {
        RequestInterupt(1);
      }
    }

    /** The four stores of one pixel into m_ScreenData. */
    method StorePixel(ly: nat, pixel: nat, col: Colour)
      requires screenData.Length == ScreenSize && ly < Render.ScreenHeight && pixel < Render.ScreenWidth
      modifies screenData
      ensures screenData[..] == Render.Paint(old(screenData[..]), ly, pixel, col)
    {
      var rgb := Render.RgbOf(col);
      var offset := ly * 160 * 4 + pixel * 4;
      screenData[offset] := rgb.blue;
      screenData[offset + 1] := rgb.green;
      screenData[offset + 2] := rgb.red;
      screenData[offset + 3] := 255;
    }

    /** One pass of the pixel loop of RenderBackground, with `mem` the
        memory as the loop reads it. The colour is the background colour
        the value model computes from the scroll, window and tile bytes. */
    method BackgroundPixel(ghost mem: seq<bv8>, lcdControl: bv8, ly: nat, pixel: nat)
      requires rom.Length == MemorySize && screenData.Length == ScreenSize
      requires ly < Render.ScreenHeight && pixel < Render.ScreenWidth && rom[..] == mem
      modifies screenData
      ensures screenData[..] == Render.Paint(old(screenData[..]), ly, pixel, Render.BackgroundColour(mem, lcdControl, pixel))
    {
      var col := Render.BackgroundColour(rom[..], lcdControl, pixel);
      StorePixel(ly, pixel, col);
    }

    /** The pixel loop of RenderBackground on a line of the screen. */
    method BackgroundLine(lcdControl: bv8, ly: nat)
      requires rom.Length == MemorySize && screenData.Length == ScreenSize && ly < Render.ScreenHeight
      modifies screenData
      ensures screenData[..] == Render.PaintBackground(rom[..], lcdControl, ly, old(screenData[..]), Render.ScreenWidth)
    {
      ghost var mem := rom[..];
      var pixel := 0;
      while pixel < 160
        invariant 0 <= pixel <= 160 && rom[..] == mem
        invariant screenData[..] == Render.PaintBackground(mem, lcdControl, ly, old(screenData[..]), pixel)
      {
        BackgroundPixel(mem, lcdControl, ly, pixel);
        pixel := pixel + 1;
      }
    }

    /** RenderBackground: line LY, left to right, while LCDC bit 0 is
        set. A line below the screen is left alone (the source runs the
        pixel loop and skips every pixel). */
    method RenderBackground(lcdControl: bv8)
      requires rom.Length == MemorySize && screenData.Length == ScreenSize
      modifies screenData
      ensures screenData[..] == Render.RenderBackground(rom[..], lcdControl, old(screenData[..]))
    {
      if !TestBit(lcdControl, 0) {
        return;
      }
      var ly := rom[0xFF44] as nat;
      if ly < Render.ScreenHeight {
        BackgroundLine(lcdControl, ly);
      }
    }

    /** The stores of one sprite pixel: a sprite behind the background
        (`behind`) is only drawn where the screen shows the lightest
        green. */
    method DrawOverBackground(ly: nat, pixel: nat, col: Colour, behind: bool)
      requires screenData.Length == ScreenSize && ly < Render.ScreenHeight && pixel < Render.ScreenWidth
      modifies screenData
      ensures behind && !Render.ShowsLightest(old(screenData[..]), Render.Offset(ly, pixel)) ==>
        screenData[..] == old(screenData[..])
      ensures !(behind && !Render.ShowsLightest(old(screenData[..]), Render.Offset(ly, pixel))) ==>
        screenData[..] == Render.Paint(old(screenData[..]), ly, pixel, col)
    {
      var offset := ly * 160 * 4 + pixel * 4;
      if behind && (screenData[offset + 2] != 155 || screenData[offset + 1] != 188 || screenData[offset] != 15) {
        return;
      }
      StorePixel(ly, pixel, col);
    }

    /** One pass of the inner loop of RenderSprites: tile pixel
        `tilePixel` of a sprite crossing line `ly`, with `mem` the memory
        as the loop reads it. */
    method SpritePixel(ghost mem: seq<bv8>, s: Render.Sprite, ly: nat, data1: bv8, data2: bv8, tilePixel: nat)
      requires rom.Length == MemorySize && screenData.Length == ScreenSize && tilePixel < 8 && rom[..] == mem
      modifies screenData
      ensures screenData[..] == Render.SpritePixel(mem, s, ly, data1, data2, old(screenData[..]), tilePixel)
    {
      var col := Render.SpriteColour(rom[..], s, data1, data2, tilePixel);
      var pixel := s.x as int + (7 - tilePixel);
      if col != LightestGreen && ly < Render.ScreenHeight && pixel < Render.ScreenWidth {
        DrawOverBackground(ly, pixel, col, TestBit(s.attributes, 7));
      }
    }

    /** The inner loop of RenderSprites for one sprite crossing line
        `ly`, from tile pixel 7 down to 0. */
    method DrawSpriteRow(s: Render.Sprite, ly: nat, data1: bv8, data2: bv8)
      requires rom.Length == MemorySize && screenData.Length == ScreenSize
      modifies screenData
      ensures screenData[..] == Render.SpritePixels(rom[..], s, ly, data1, data2, old(screenData[..]), 7)
    {
      ghost var mem := rom[..];
      ghost var goal := Render.SpritePixels(mem, s, ly, data1, data2, screenData[..], 7);
      var tilePixel := 7;
      while tilePixel >= 0
        invariant -1 <= tilePixel <= 7 && rom[..] == mem
        invariant Render.SpritePixels(mem, s, ly, data1, data2, screenData[..], tilePixel) == goal
      {
        SpritePixel(mem, s, ly, data1, data2, tilePixel);
        tilePixel := tilePixel - 1;
      }
    }

    /** RenderSprites: the forty OAM entries in order. */
    method RenderSprites(lcdControl: bv8)
      requires rom.Length == MemorySize && screenData.Length == ScreenSize
      modifies screenData
      ensures screenData[..] == Render.RenderSprites(rom[..], lcdControl, old(screenData[..]))
    {
      if !TestBit(lcdControl, 1) {
        return;
      }
      ghost var mem := rom[..];
      var i := 0;
      while i < 40
        invariant 0 <= i <= 40 && rom[..] == mem
        invariant screenData[..] == Render.DrawSprites(mem, lcdControl, old(screenData[..]), i)
      {
        DrawSprite(mem, lcdControl, i);
        i := i + 1;
      }
    }

    /** One pass of the sprite loop: sprite `i` is drawn when line LY
        crosses it. */
    method DrawSprite(ghost mem: seq<bv8>, lcdControl: bv8, i: nat)
      requires rom.Length == MemorySize && screenData.Length == ScreenSize && i < 40 && rom[..] == mem
      modifies screenData
      ensures screenData[..] == Render.DrawSprite(mem, lcdControl, old(screenData[..]), i)
    {
      var height := Render.SpriteHeight(lcdControl);
      var s := Render.SpriteAt(rom[..], i);
      var ly := rom[0xFF44] as nat;
      if Render.OnSprite(s, ly, height) {
        var data1 := Render.SpriteData(rom[..], s, ly, height, 0);
        var data2 := Render.SpriteData(rom[..], s, ly, height, 1);
        DrawSpriteRow(s, ly, data1, data2);
      }
    }

    /** DrawScanLine. */
    method DrawScanLine()
      requires Valid()
      modifies screenData
      ensures Valid()
      ensures State() == Lcd.DrawScanLine(old(State()))
    {
      var lcdControl := ReadMemory(0xFF40);
      if TestBit(lcdControl, 7) {
        RenderBackground(lcdControl);
        RenderSprites(lcdControl);
      }
    }

    /** IssueVerticalBlank: request interrupt 0. */
    method IssueVerticalBlank()
      requires Valid()
      modifies this, rom, screenData
      ensures Valid()
      ensures State() == Request(old(State()), 0)
    {
      RequestInterupt(0);
    }

    /** The first two statements of DrawCurrentLine with the display on:
        LY goes up by one and the countdown restarts. */
    method StepLine()
      requires Valid()
      modifies this, rom
      ensures Valid()
      ensures var m := old(State());
        State() == m.(mem := m.mem[0xFF44 := m.mem[0xFF44] + 1], retrace := RetraceStart)
    {
      rom[0xFF44] := rom[0xFF44] + 1;
      retraceLY := RetraceStart;
    }

    /** LY is set back to line 0 in the flat memory. */
    method ClearLine()
      requires Valid()
      modifies rom
      ensures Valid()
      ensures var m := old(State());
        State() == m.(mem := m.mem[0xFF44 := 0])
    {
      rom[0xFF44] := 0;
    }

    /** DrawCurrentLine up to the drawing, with the display on: LY
        moves on, the countdown restarts, line 144 requests the vertical
        blank and a line past 153 becomes 0. Returns LY as read after the
        increment. */
    method AdvanceLine() returns (ly: bv8)
      requires Valid() && Lcd.LcdOn(State())
      modifies this, rom, screenData
      ensures Valid()
      ensures ly == old(State()).mem[0xFF44] + 1
      ensures State() == Lcd.Advanced(old(State()))
    {
      ghost var m0 := State();
      StepLine();
      ly := ReadMemory(0xFF44);
      if ly == Lcd.VBlankLine {
        IssueVerticalBlank();
      }
      if ly > Lcd.LastLine {
        ClearLine();
        assert State().mem == m0.mem[0xFF44 := 0];
      }
    }

    /** DrawCurrentLine. */
    method DrawCurrentLine()
      requires Valid()
      modifies this, rom, screenData
      ensures Valid()
      ensures State() == Lcd.DrawCurrentLine(old(State()))
    {
      ghost var m0 := State();
      if !TestBit(ReadMemory(0xFF40), 7) {
        return;
      }
      Lcd.LineShape(m0);
      var ly := AdvanceLine();
      if ly < Lcd.VBlankLine {
        DrawScanLine();
      }
    }

    /** The countdown of DoGraphics. */
    method CountDown(cycles: int)
      requires Valid()
      modifies this
      ensures Valid()
      ensures State() == Lcd.CountDown(old(State()), cycles)
    {
      if TestBit(ReadMemory(0xFF40), 7) {
        retraceLY := retraceLY - cycles;
      }
    }

    /** DoGraphics. */
    method DoGraphics(cycles: int)
      requires Valid()
      modifies this, rom, screenData
      ensures Valid()
      ensures State() == Lcd.DoGraphics(old(State()), cycles)
    {
      ghost var m0 := State();
      SetLCDStatus();
      CountDown(cycles);
      ghost var counted := State();
      if rom[0xFF44] > Lcd.LastLine {
        ClearLine();
      }
      assert State() == Lcd.ClampLine(counted);
      if retraceLY <= 0 {
        DrawCurrentLine();
      }
    }

    // -------------------------------------------------------------------
    // ExecuteNextOpcode around ExecuteOpcode
    // -------------------------------------------------------------------

    /** The part of ExecuteNextOpcode before ExecuteOpcode: the opcode is
        fetched and a running CPU moves past it, while a halted one only
        spends four cycles. */
    method FetchOpcode() returns (opcode: bv8)
      requires Valid() && Execution.FetchDefined(State())
      modifies this
      ensures Valid()
      ensures opcode == Execution.Fetch(old(State()))
      ensures State() == Execution.Advance(old(State()))
    {
      opcode := ReadOpcode();
      CountOpcode();
    }

    /** The opcode at the program counter: from the boot program or the
        flat memory, or through ReadMemory inside the banked windows. */
    method ReadOpcode() returns (opcode: bv8)
      requires Valid() && Execution.FetchDefined(State())
      ensures opcode == Execution.Fetch(State())
    {
      opcode := if bootMode then BootRom[programCounter] else rom[programCounter];
      if (0x4000 <= programCounter <= 0x7FFF) || (0xA000 <= programCounter <= 0xBFFF) {
        opcode := ReadMemory(programCounter);
      }
    }

    /** A running CPU moves past the opcode and counts it; a halted one
        spends four cycles. */
    method CountOpcode()
      requires Valid()
      modifies this
      ensures Valid()
      ensures State() == Execution.Advance(old(State()))
    {
      if !halted {
        programCounter := Wrap16(programCounter + 1);
        totalOpcodes := totalOpcodes + 1;
      } else {
        cyclesThisUpdate := cyclesThisUpdate + 4;
      }
    }

    /** The DI latch of ExecuteNextOpcode. */
    method DisableLatch()
      requires Valid() && Execution.LatchesDefined(State())
      modifies this
      ensures State() == Execution.DisableLatch(old(State()))
    {
      if pendingInteruptDisabled {
        if ReadMemory(Wrap16(programCounter - 1)) != Execution.DisableOpcode {
          pendingInteruptDisabled := false;
          enableInterupts := false;
        }
      }
    }

    /** The EI latch of ExecuteNextOpcode. */
    method EnableLatch()
      requires Valid() && Execution.LatchesDefined(State())
      modifies this
      ensures State() == Execution.EnableLatch(old(State()))
    {
      if pendingInteruptEnabled {
        if ReadMemory(Wrap16(programCounter - 1)) != Execution.EnableOpcode {
          pendingInteruptEnabled := false;
          enableInterupts := true;
        }
      }
    }

    /** The part of ExecuteNextOpcode after ExecuteOpcode: the latches,
        then the serial check. */
    method FinishOpcode()
      requires Valid() && Execution.LatchesDefined(State())
      modifies this, rom
      ensures Valid()
      ensures State() == Execution.Finish(old(State()))
    {
      ghost var m0 := State();
      DisableLatch();
      assert Execution.LatchesDefined(State());
      EnableLatch();
      if rom[0xFF02] == Execution.SerialStart {
        rom[0xFF02] := 0;
      }
    }
  }
}
