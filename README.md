# IronBoy memory map and peripherals in Dafny

A model of the emulation core of IronBoy's `Emulator` class (Emulator.cpp and
Emulator.h): the memory map that every read and write goes through, with
its cartridge banking, and the small state machines that hang off it. These
are the timer and divider, interrupt request and dispatch, the LCD timing
state machine and the scanline renderer, the joypad register, the reset
defaults, and the bookkeeping that `ExecuteNextOpcode` does around an
instruction.

The project has two layers.

- **A value model.** The whole emulator state is the datatype
  `Machine.Machine`: the cartridge image, the flat 64 KiB memory
  `m_Rom`, the RAM banks, the bank-controller registers, the CPU registers
  and latches, the timer accumulators, the scanline countdown and the
  screen buffer. The boot program is the fixed table `Hardware.BootRom`
  (bootROM in Emulator.h), so it is not part of the state.
  - Every routine of the source is a function on `Machine`, in the module
    named after its area (`Machine`, `Timers`, `Interrupts`, `Lcd`,
    `Render`, `Input`, `Execution`, `Banking`).
  - The properties the source promises are lemmas about those functions.
- **An object model.** `EmulatorClass.Emulator` is the source class as a
  Dafny class.
  - `m_Rom` and `m_ScreenData` are arrays updated in place.
  - The controller, CPU, timer and LCD variables are fields.
  - The DMA copy, the interrupt scan and the two render loops are `while`
    loops with invariants.
  - Every method is proved to take the object from `State()` to the state
    the matching function of the value model gives. The lemmas about that
    function therefore hold of the method.

Bytes are `bv8`, so BYTE arithmetic wraps as in C++. WORD arithmetic is
written out with `Bits.Wrap16`. A `Register` is one 16-bit value with its
`hi` and `lo` halves as views of it, as in the source's union on a
little-endian target.

## Model

| member | source | states |
|---|---|---|
| Hardware.FlagMasksAreBitMasks | Emulator.h:12-19 | each flag mask (Z 128, N 64, H 32, C 16) is 1 shifted left by the flag's bit index (7, 6, 5, 4) |
| Hardware.Register.WithHi | Emulator.h:196-202 | assigning the high byte sets it and keeps the low byte |
| Hardware.Register.WithLo | Emulator.h:196-202 | assigning the low byte sets it and keeps the high byte |
| Hardware.HiValue | Emulator.h:196-202 | the high byte is the 16-bit value divided by 256 |
| Hardware.LoValue | Emulator.h:196-202 | the low byte is the 16-bit value modulo 256 |
| Hardware.RegisterComposition | Emulator.h:196-202 | `reg == hi * 256 + lo` for every register |
| Hardware.HalvesDetermineRegister | Emulator.h:196-202 | writing both halves determines the whole pair, whatever it held before |
| Hardware.FlagValue | Emulator.cpp:574-606 | a flag getter returns 1 exactly when the flag's mask bit of F is set, and 0 exactly when it is clear |
| Hardware.BootRomEndsWithBootDisable | Emulator.h:24-41 | the boot program has 256 bytes and ends with `3E 01 E0 50`, whose store goes to 0xFF50, the register that ends boot mode |
| Hardware.ColourOfShade | Emulator.h:101-106 | the colour named by a 2-bit shade has that shade as its position in the COLOUR enum |
| Hardware.ColourOrdering | Emulator.h:101-106 | LIGHTEST_GREEN < LIGHT_GREEN < DARK_GREEN < DARKEST_GREEN, and a colour survives the trip through its ordinal |
| Joypad.JoypadRegisterNibbles | Emulator.cpp:1064-1081 | the high nibble of 0xFF00 reads as the complement of the stored byte; the low nibble is that complement masked with the selected key group |
| Joypad.HeldKeyReadsClear | Emulator.cpp:1064-1081 | a held key reads as a clear bit while its group is the visible one |
| Banking.ControlWrite | Emulator.cpp:379-473 | a write below 0x8000 keeps the bank state well formed and never changes the controller kind |
| Banking.RamEnableLatch | Emulator.cpp:379-395 | the RAM-enable latch goes on for a low nibble of 0xA, off for 0, and otherwise holds; MBC2 listens only when address bit 8 is clear, no controller never; nothing else changes |
| Banking.Mbc1RomBankLow | Emulator.cpp:398-409 | MBC1 at 0x2000-0x3FFF keeps ROM bank bits 5 and up, puts `data & 31` in the low five bits with a written 0 counting as 1, and changes nothing else |
| Banking.RomBankLowValue | Emulator.cpp:400-409 | the masked bank value, split into the kept upper part and the new low five bits |
| Banking.Mbc1LowBitsClear | Emulator.cpp:400-409 | the low five bits end up clear exactly when the written value is a non-zero multiple of 32 (the 0-to-1 rule runs before the mask) |
| Banking.Mbc1WriteOf0x20SelectsBankZero | Emulator.cpp:400-409 | with bits 5 and 6 clear, writing 0x20 selects ROM bank 0 through this register |
| Banking.Mbc2RomBank | Emulator.cpp:417-420 | MBC2 at 0x2000-0x3FFF sets the ROM bank to the written low nibble, 0 included |
| Banking.Mbc1UpperBits16_8 | Emulator.cpp:424-449 | MBC1 in 16/8 mode at 0x4000-0x5FFF selects RAM bank 0, puts `data & 3` in ROM bank bits 5-6, keeps the low five bits but turns all-clear low bits into 1 |
| Banking.UpperBitsValue | Emulator.cpp:431-442 | the bank value of that write, as arithmetic on the old bank and the data |
| Banking.Mbc1RamBankSelect | Emulator.cpp:450-458 | MBC1 in 4/32 mode at 0x4000-0x5FFF selects RAM bank `data & 3` and changes nothing else |
| Banking.Mbc1ModeSelect | Emulator.cpp:463-473 | MBC1 at 0x6000-0x7FFF: odd data selects 4/32 mode and RAM bank 0, even data 16/8 mode; ROM bank and RAM enable kept |
| Banking.Mbc2IgnoresHighRegisters | Emulator.cpp:424-473 | MBC2 ignores writes to 0x4000-0x7FFF |
| Banking.NoControllerIgnoresWrites | Emulator.cpp:379-473 | without a controller no write below 0x8000 has any effect |
| Machine.BlankScreen | Emulator.cpp:82-85 | the cleared screen buffer has 160 x 144 x 4 bytes, all zero |
| Machine.FreshBanks | Emulator.cpp:1173-1177 | a fresh allocation has the requested number of banks of 0x2000 bytes each |
| Machine.CreateRamBanks | Emulator.cpp:1171-1181 | 17 banks are appended; the first bank of the vector becomes a copy of 0xA000-0xBFFF; every other existing bank and every other part of the state is kept |
| Machine.ClockSpeedOf | Emulator.cpp:516-536 | the period selected by TAC is 16, 64, 256 or 1024 |
| MemoryProperties.ReadLowArea | Emulator.cpp:328-348 | in boot mode the first 256 addresses read the fixed bootROM table (`Hardware.BootRom`, Emulator.h:24-41); otherwise the ROM area below 0x4000 reads the flat memory |
| MemoryProperties.ReadRomWindow | Emulator.cpp:333-337 | 0x4000-0x7FFF reads the cartridge byte `romBank * 0x4000 + (a - 0x4000)` |
| MemoryProperties.ReadRamWindow | Emulator.cpp:340-343 | 0xA000-0xBFFF reads byte `a - 0xA000` of the selected RAM bank |
| MemoryProperties.ReadJoypadRegister | Emulator.cpp:345-346 | 0xFF00 reads the joypad byte computed from the key state, not the stored byte |
| MemoryProperties.ReadFlat | Emulator.cpp:348 | video RAM, work RAM, echo RAM, OAM and the registers above 0xFF00 read the flat memory |
| MemoryProperties.WriteBelow8000OnlyControlsBanks | Emulator.cpp:379-473 | a write below 0x8000 never changes the flat memory; it only updates the bank-controller state |
| MemoryProperties.EchoWriteReachesWorkRam | Emulator.cpp:497-500 | a write to 0xE000-0xFDFF stores the byte at its address and 0x2000 below, both read back as written, nothing else changes |
| MemoryProperties.WorkRamWriteIsNotEchoed | Emulator.cpp:492-494 | a write to work RAM stores only there; the byte 0x2000 above is kept |
| MemoryProperties.RestrictedWritesIgnored | Emulator.cpp:502-563 | writes to 0xFEA0-0xFEFF and 0xFF4C-0xFF7F change nothing (save the boot-mode write to 0xFF50) |
| MemoryProperties.BootDisableWrite | Emulator.cpp:373-376 | in boot mode a write to 0xFF50 leaves boot mode and runs ResetCPU; the value itself is dropped |
| MemoryProperties.RamWriteReadBack | Emulator.cpp:477-488 | a RAM-window write the controller lets through reads back and changes only that byte of the selected bank |
| MemoryProperties.RamWriteBlocked | Emulator.cpp:477-488 | any other RAM-window write (MBC1 with RAM off, MBC2 with RAM on or above 0xA1FF, no controller) is dropped |
| MemoryProperties.DividerWriteResets | Emulator.cpp:507-510 | writing DIV zeroes it and the divider accumulator, whatever the value |
| MemoryProperties.ClockSpeedTable | Emulator.cpp:516-536 | TAC 00, 01, 10, 11 select periods 1024, 16, 64, 256 |
| MemoryProperties.TimerControlWrite | Emulator.cpp:513-542 | writing TAC stores it, selects the period from its low bits, and restarts the timer accumulator only when the period changes |
| MemoryProperties.ScanlineWriteResets | Emulator.cpp:546-548 | writing LY resets it to 0 and changes nothing else |
| MemoryProperties.DmaTransferCopies | Emulator.cpp:554-559 | writing 0xFF46 copies the 160 bytes ReadMemory returns from page `v` into 0xFE00-0xFE9F and changes no other byte |
| MemoryProperties.StackCellWrite | Emulator.cpp:492-568 | a write to a cell the stack can use reads back, and only it (and for echo RAM its copy) changes |
| MemoryProperties.WriteKeepsRomArea | Emulator.cpp:372-570 | no write ever changes the flat memory below 0x8000 |
| MemoryProperties.RequestIsWriteByte | Emulator.cpp:1185-1189 | RequestInterupt is WriteByte of IF, read through ReadMemory, with the bit set |
| MemoryProperties.PushStores | Emulator.cpp:650-657 | a push leaves the high byte just below the old stack pointer, the low byte below that, and the stack pointer two lower |
| MemoryProperties.PushThenPop | Emulator.cpp:650-667 | a pop right after a push returns the pushed word and restores the stack pointer |
| MemoryProperties.IoDefaultsValues | Emulator.cpp:107-138 | the I/O table of ResetCPU holds the power-up values; IF, STAT, LY, DIV and all memory below 0xFF00 keep theirs |
| MemoryProperties.ResetMemory | Emulator.cpp:107-138 | the I/O table is ResetCPU's only change to the flat memory |
| MemoryProperties.ResetKeepsMemoryBelowIo | Emulator.cpp:89-191 | ResetCPU never touches the flat memory below 0xFF00 |
| MemoryProperties.ResetRegisters | Emulator.cpp:90-105 | after ResetCPU: PC 0x100, SP 0xFFFE, AF 0x01B0, BC 0x0013, DE 0x00D8, HL 0x014D, no key held, CPU running, counters cleared, period 1024, RAM bank 0 and RAM off, screen blank |
| MemoryProperties.ResetKeepsUntouchedFields | Emulator.cpp:89-191 | ResetCPU keeps the cartridge, boot mode, the ROM bank, the banking mode and the interrupt latches |
| MemoryProperties.ResetShape | Emulator.cpp:89-191 | ResetCPU is the field defaults followed by the controller switch on the kind byte; only the RAM bank vector depends on whether the kind is known |
| MemoryProperties.ResetKind | Emulator.cpp:148 | the kind ResetCPU reads at 0x147 is the byte stored there before the reset |
| MemoryProperties.ResetSelectsController | Emulator.cpp:145-187 | kind 0 means no controller, 1-3 MBC1, 5-6 MBC2 with MBC1 left as it was; a known kind appends 17 banks seeded from 0xA000-0xBFFF; an unknown one returns early with the bank vector untouched |
| MemoryProperties.LoadRomState | Emulator.cpp:45-72 | after LoadRom: boot mode off, PC 0x100, ROM bank 1, 16/8 mode, interrupts off, the cartridge's first 32 KiB at the bottom of memory and zero up to 0xFF00, the controller chosen by byte 0x147, and 17 banks, the first zero, for a known kind or none |
| Timers.DividerStepFrame | Emulator.cpp:1162-1166 | the DIV step changes only DIV and the divider accumulator |
| Timers.CountKeepsDivider | Emulator.cpp:1134-1160 | the counting part keeps DIV and adds the cycles to the divider accumulator |
| Timers.TimerOverflowReloads | Emulator.cpp:1139-1158 | when TIMA is 0xFF and the period is reached, TIMA is reloaded from TMA, the accumulator restarts and interrupt 2 is requested |
| Timers.TimerIncrements | Emulator.cpp:1139-1159 | below 0xFF, TIMA goes up by one when the period is reached, the accumulator restarts and IF is kept |
| Timers.TimerWaits | Emulator.cpp:1139-1160 | before the period or while TAC bit 2 is clear, TIMA and IF are kept and only an enabled timer accumulates the cycles |
| Timers.DividerAdvances | Emulator.cpp:1137-1166 | DIV goes up by one, as a byte, exactly when the divider accumulator reaches 256, which then restarts at 0 |
| Timers.TickFrame | Emulator.cpp:1134-1167 | DoTimers changes only the timer state and DIV, TIMA and IF, and never the period |
| Timers.TickKeepsInvariant | Emulator.cpp:1134-1167 | with a non-negative cycle count, DoTimers keeps both accumulators below their limits |
| Timers.WriteKeepsTimerInvariant | Emulator.cpp:507-542 | every write keeps the accumulator invariant: a new period and a DIV write restart their accumulators |
| Interrupts.RequestFlags | Emulator.cpp:675 | IF as ReadMemory returns it is the stored byte |
| Interrupts.EnableFlags | Emulator.cpp:681 | IE as ReadMemory returns it is the stored byte |
| Interrupts.Service | Emulator.cpp:694-729 | ServiceInterrupt keeps the state well formed and keeps mapped RAM mapped |
| Interrupts.PushByteOntoPlainCell | Emulator.cpp:650-654 | one byte pushed onto a plain cell (video RAM, work RAM, OAM or high RAM below IE): SP one lower, the byte there, nothing else changed |
| Interrupts.PushOntoPlainCells | Emulator.cpp:650-657 | a word pushed onto plain cells: high byte at sp - 1, low byte at sp - 2, SP two lower, nothing else changed |
| Interrupts.ServiceShape | Emulator.cpp:694-729 | ServiceInterrupt as one state: the push, the halt exit, the handler address, the master enable off and IF bit n cleared |
| Interrupts.ServiceJumpsToVector | Emulator.cpp:694-729 | for n in {0, 1, 2, 4}: PC becomes 0x40, 0x48, 0x50 or 0x60, the CPU leaves halt, IME is off, IF bit n is cleared, and a pop returns the old PC and SP |
| Interrupts.ServiceReturns | Emulator.cpp:694-729 | the word ServiceInterrupt leaves on the stack pops back as the interrupted PC with the old SP |
| Interrupts.PopReadsCells | Emulator.cpp:661-667 | a pop from plain cells depends only on the two cells above SP |
| Interrupts.PushKeepsCpuAndIf | Emulator.cpp:650-657 | a push onto stack cells changes no CPU field but SP, and keeps IF |
| Interrupts.ServiceUnknownKeepsPc | Emulator.cpp:709-727 | for a bit without a handler (3, 5-7) PC is kept, yet the push, halt exit, IME off and acknowledge all happen |
| Interrupts.NoDispatchWhenDisabled | Emulator.cpp:671-676 | with IME off or nothing requested, DoInterupts changes nothing |
| Interrupts.Serviced | Emulator.cpp:678-687 | the number of bits serviced from `bit` up is at most the number of bits left |
| Interrupts.ScanServicesAll | Emulator.cpp:678-687 | with the stack in any region of plain cells (video RAM, work RAM, OAM or high RAM, so also at the reset SP 0xFFFE), the scan services every bit requested in the IF snapshot and enabled: each clears its IF bit, other bits stay, one word is pushed per service, IME and halt survive only if nothing was serviced, IE is kept |
| Interrupts.ServiceEffects | Emulator.cpp:694-729 | with room for one push in a region of plain cells, one service keeps IE, pushes one word, turns IME and halt off and clears exactly IF bit n |
| Interrupts.DispatchServicesEveryPending | Emulator.cpp:671-690 | with room for eight pushes in a region of plain cells, which the reset stack has, after DoInterupts, IF holds exactly the requested bits that are not enabled; SP drops one word per serviced bit; IME is off if anything was serviced |
| Interrupts.ResetLeavesStackRoom | Emulator.cpp:104 | the stack ResetCPU sets up, SP = 0xFFFE in high RAM, has room for the eight pushes DispatchServicesEveryPending needs |
| Interrupts.LaterRequestPreempts | Emulator.cpp:671-729 | with V-Blank and timer both pending and enabled, both are serviced in one call, V-Blank first: PC ends at 0x50 with 0x0040 pushed above the interrupted PC |
| Interrupts.ScanOfVBlankAndTimer | Emulator.cpp:678-687 | with IE 0x05 the scan of the snapshot 0x05 is two services, bits 0 then 2 |
| Interrupts.VBlankAndTimerTaken | Emulator.cpp:679-682 | with IE 0x05 the snapshot 0x05 takes bits 0 and 2 and passes bit 1 over |
| Interrupts.TimerOnlyAfterVBlank | Emulator.cpp:678-687 | from bit 1 up that scan services the timer only |
| Interrupts.ServiceKeepsIe | Emulator.cpp:694-729 | a service keeps IE and pushes one word |
| Interrupts.ScanTaken | Emulator.cpp:679-685 | a pass whose bit is requested and enabled services it and moves on |
| Interrupts.ScanSkipped | Emulator.cpp:679-682 | a pass whose bit is not taken moves on without a change |
| Interrupts.VBlankThenTimer | Emulator.cpp:694-729 | two services, V-Blank then timer: PC 0x50, SP four lower, the old PC and then 0x0040 on the stack |
| Interrupts.ServiceStack | Emulator.cpp:694-729 | one service: PC the handler address, SP two lower, the old PC below SP, every other cell but IF kept |
| Interrupts.NoneTakenAbove | Emulator.cpp:678-687 | with the snapshot 0x05 no bit from 3 up is serviced |
| Input.PressRequestsJoypadInterrupt | Emulator.cpp:1085-1119 | after KeyPressed(k) key k is held, the others keep their state, and IF bit 4 is set exactly when it was or the key went down while its group was selected; nothing but the key byte and IF changes |
| Input.PressKeepsOtherRequests | Emulator.cpp:1085-1119 | KeyPressed keeps every IF bit but 4 |
| Input.ReleaseLiftsKey | Emulator.cpp:1123-1128 | after KeyReleased(k) key k is up, the others keep their state, nothing else changes |
| Input.PressThenRelease | Emulator.cpp:1085-1128 | pressing a key that is up and releasing it restores the key byte |
| Input.ReleaseThenPress | Emulator.cpp:1085-1128 | releasing a held key and pressing it again restores the key byte and requests interrupt 4 when the game is interested |
| Input.PressedKeyReadsClear | Emulator.cpp:1064-1119 | a key held through KeyPressed reads as a clear bit of 0xFF00 while its group is visible |
| Execution.FetchIsRead | Emulator.cpp:252-255 | the fetched opcode is what ReadMemory returns at PC, except at 0xFF00 |
| Execution.AdvanceSteps | Emulator.cpp:257-270 | a running CPU moves PC on by one (as a WORD) and counts the opcode; a halted one only spends four cycles; nothing else changes |
| Execution.AdvanceWraps | Emulator.cpp:264 | PC wraps from 0xFFFF to 0, and the byte before it is then read at 0xFFFF |
| Execution.LatchesDecide | Emulator.cpp:272-286 | after the latches IME is on when EI fired, off when only DI fired, else kept; a latch stays pending exactly when the previous byte is its own opcode |
| Execution.DisableWaitsOneInstruction | Emulator.cpp:272-279 | right after DI itself the latch waits and IME is kept |
| Execution.SerialAcknowledged | Emulator.cpp:288-293 | SC becomes 0 after a started transfer (0x81), else is kept; no other byte changes |
| Lcd.LcdMode | Emulator.cpp:1193-1196 | the mode is at most 3 |
| Lcd.ClampLine | Emulator.cpp:240-242 | after the check LY is at most 153 |
| Lcd.StatusWriteStores | Emulator.cpp:567-568 | writing STAT through WriteByte is a plain store |
| Lcd.RequestTwice | Emulator.cpp:1185-1189 | requesting the same interrupt twice comes to one request |
| Lcd.StatusShape | Emulator.cpp:998-1059 | with the display on, SetLCDStatus sets IF bit 1 when an interrupt is due, replaces STAT, and changes nothing else |
| Lcd.ModeBits | Emulator.cpp:1005-1039 | the new mode lands in bits 0-1 and bits 2-7 are kept |
| Lcd.StatusByte | Emulator.cpp:1046-1057 | the STAT written has the mode in bits 0-1, bit 2 set exactly when LYC == LY, bits 3-7 kept |
| Lcd.StatusModeSelected | Emulator.cpp:1005-1059 | with the display on: mode 1 from line 144, else mode 2 while the countdown is at least 376, mode 3 while at least 204, else mode 0; bit 2 flags LYC == LY; only STAT and IF change |
| Lcd.StatInterruptRule | Emulator.cpp:1042-1054 | IF bit 1 ends set exactly when it was set, or the mode changed to one whose enable bit is set (3, 4, 5; none for mode 3), or LYC == LY with bit 6 set; other IF bits are kept |
| Lcd.StatusWhileOff | Emulator.cpp:985-996 | with the display off: countdown 456, LY 0, mode 1 in STAT with its other bits kept, IF untouched |
| Lcd.StatusKeepsTiming | Emulator.cpp:982-1060 | SetLCDStatus keeps LCDC and the screen, and with the display on LY and the countdown |
| Lcd.ScanLineDrawsLine | Emulator.cpp:733-741 | DrawScanLine changes only line LY of the screen, nothing off screen or with the display off; with the background on each pixel shows its background colour or a sprite's non-lightest colour |
| Lcd.ScanLineKeepsOtherLines | Emulator.cpp:733-741 | every screen byte outside line LY is kept |
| Lcd.ScanLineFrame | Emulator.cpp:733-741 | DrawScanLine changes only the screen |
| Lcd.NextLineValue | Emulator.cpp:629-643 | the line after 153 is 0, the increment wraps at 256, and the new line is 144 exactly from 143 |
| Lcd.AdvanceStores | Emulator.cpp:629-641 | the stores of DrawCurrentLine before the drawing come to the advanced state |
| Lcd.LineShape | Emulator.cpp:623-646 | DrawCurrentLine with the display on is the advance, then the drawing of the new line when it is below 144 |
| Lcd.LineInRange | Emulator.cpp:623-646 | DrawCurrentLine never leaves LY past 153, unless the display is off and nothing changes |
| Lcd.LineAdvances | Emulator.cpp:629-641 | countdown 456, LY to the next line and 0 after 153; only LY, IF, the countdown and the screen change |
| Lcd.VBlankOnLine144 | Emulator.cpp:632-637 | interrupt 0 is requested exactly when the new line is 144; other IF bits kept |
| Lcd.LineDrawnAfterIncrement | Emulator.cpp:629-645 | the line drawn is the new LY; from line 143 to 254 nothing is drawn |
| Lcd.LineZeroNeverDrawn | Emulator.cpp:629-645 | from a line at most 153, line 0 of the screen is never drawn |
| Lcd.GraphicsKeepsLineInRange | Emulator.cpp:232-247 | after DoGraphics LY is at most 153 |
| Lcd.GraphicsKeepsCountdown | Emulator.cpp:232-247 | the countdown after DoGraphics is positive, and at most 456 when it was and the cycles are not negative |
| Lcd.GraphicsLineTiming | Emulator.cpp:232-247 | with the display on the cycles come off the countdown; while it stays positive line and screen are kept, once spent it restarts at 456 and LY moves on |
| Lcd.GraphicsWhileOff | Emulator.cpp:232-247 | with the display off LY 0, countdown 456, mode 1, screen and IF kept |
| Lcd.GraphicsNeverDrawsLineZero | Emulator.cpp:232-247 | DoGraphics never changes line 0 of the screen |
| Render.PaletteLookup | Emulator.cpp:927-978 | GetColour gives the shade at bits (2n + 1, 2n) of the palette; a number above 3 reads bit 0 twice |
| Render.SpriteRowOffset | Emulator.cpp:855-859 | the row offset is at most twice the sprite height |
| Render.FlippedTopLineReadsPastTile | Emulator.cpp:855-859 | on the top line of a vertically flipped sprite the row offset is 2 * height, one row past the tile |
| Render.LightestTest | Emulator.cpp:910-914 | the sprite-behind-background test holds of a stored colour exactly when it is the lightest green |
| Render.PaintEffect | Emulator.cpp:819-824 | painting a pixel sets its four bytes and keeps every other pixel and every byte off the line |
| Render.PaintBackgroundUpTo | Emulator.cpp:769-825 | the first n passes paint exactly pixels 0 to n - 1 of the line with their background colours |
| Render.BackgroundPaintsLine | Emulator.cpp:745-826 | with LCDC bit 0 set and LY on screen every pixel of line LY gets its background colour and the rest is kept; otherwise nothing changes |
| Render.PaintOutcome | Emulator.cpp:876-919 | one sprite pixel in a colour other than the lightest keeps to the sprite outcome: bytes off line LY kept, and each pixel of the line either kept or showing a colour other than the lightest green |
| Render.SpritePixelOutcome | Emulator.cpp:866-920 | one pass of the inner sprite loop keeps to the sprite outcome |
| Render.SpritePixelsOutcome | Emulator.cpp:866-920 | the inner sprite loop keeps to the sprite outcome |
| Render.SpritePixelsOffScreen | Emulator.cpp:904-906 | below the screen the inner loop draws nothing |
| Render.DrawSpriteOutcome | Emulator.cpp:839-921 | one sprite keeps to the outcome and draws nothing below the screen |
| Render.DrawSpritesOutcome | Emulator.cpp:839-922 | the sprite loop keeps to the outcome and draws nothing below the screen |
| Render.SpritesNeverDrawLightest | Emulator.cpp:830-923 | RenderSprites changes only line LY and never draws the lightest green there |
| Render.ShowsLightestStored | Emulator.cpp:910 | the behind-background test reads only the pixel's own red, green and blue |
| Render.SpritePixelsAt | Emulator.cpp:866-920 | the inner sprite loop leaves each pixel of the line as `SpriteDrawnAt` says: the tile pixel landing there is drawn unless it is the lightest green, or the sprite is behind a background that does not show the lightest green there |
| Render.SpritePixelAt | Emulator.cpp:866-920 | one pass followed by the passes below it leaves each pixel as the passes from that tile pixel down do |
| Render.PaintStores | Emulator.cpp:917-920 | the painted pixel shows its colour |
| Render.PaintKeepsPixel | Emulator.cpp:917-920 | painting keeps every other pixel of the line |
| Render.DrawSpriteAt | Emulator.cpp:839-921 | one sprite leaves each pixel of line LY as `SpriteDrawnAt` says for its tile bytes if the line crosses it, and keeps it otherwise |
| Render.BehindBackgroundKeepsShade | Emulator.cpp:908-913 | a sprite with attribute bit 7 set never overwrites a pixel of line LY that does not show the lightest green |
| Render.InFrontPaintsColour | Emulator.cpp:872-920 | a sprite with attribute bit 7 clear paints each of its tile pixels that lands on the screen and is not the lightest green, in that colour, whatever was there |
| EmulatorClass.Emulator.ReadMemory | Emulator.cpp:327-349 | returns `Read` of the current state, the function the read lemmas describe |
| EmulatorClass.Emulator.ResetScreen | Emulator.cpp:82-85 | every screen byte becomes 0; nothing else changes |
| EmulatorClass.Emulator.CreateRamBanks | Emulator.cpp:1171-1181 | the state becomes `Machine.CreateRamBanks` of the old one |
| EmulatorClass.Emulator.WriteIoDefaults | Emulator.cpp:107-138 | the flat memory becomes the I/O table applied to the old memory |
| EmulatorClass.Emulator.ResetBankAndTimer | Emulator.cpp:91-92 | RAM bank 0 and the timer accumulator 0; nothing else changes |
| EmulatorClass.Emulator.ResetClock | Emulator.cpp:93-94 | period 1024 and the divider accumulator 0; nothing else changes |
| EmulatorClass.Emulator.ResetHalt | Emulator.cpp:95-96 | the CPU runs and the opcode count is 0 |
| EmulatorClass.Emulator.ResetRunState | Emulator.cpp:97-99 | no key is held, the cycle count is 0 and PC is 0x100 |
| EmulatorClass.Emulator.ResetAccumulator | Emulator.cpp:100-101 | AF high byte 0x01, then low byte 0xB0 |
| EmulatorClass.Emulator.ResetPairs | Emulator.cpp:102-103 | BC 0x0013 and DE 0x00D8 |
| EmulatorClass.Emulator.ResetPointers | Emulator.cpp:104-105 | HL 0x014D and SP 0xFFFE |
| EmulatorClass.Emulator.SelectCartridge | Emulator.cpp:148-165 | the controller switch on the kind byte, and whether the kind is known |
| EmulatorClass.Emulator.ResetLineAndController | Emulator.cpp:139-145 | countdown 456, RAM and MBC2 switched off |
| EmulatorClass.Emulator.ResetFieldValues | Emulator.cpp:90-145 | the state becomes `ResetFields` of the old one |
| EmulatorClass.Emulator.ResetCPU | Emulator.cpp:89-191 | the state becomes `Reset` of the old one (see the ResetCPU lemmas), and the result says whether the kind byte was known |
| EmulatorClass.Emulator.LoadRom | Emulator.cpp:45-72 | the new object is in `Reset(Loaded(game))`, the state LoadRomState describes: boot mode off, PC 0x100, the cartridge's first 32 KiB in memory, and 17 banks, the first zero, for a known kind |
| EmulatorClass.Emulator.CopyByte | Emulator.cpp:556-558 | one more OAM byte copied from what ReadMemory returns |
| EmulatorClass.Emulator.DmaTransfer | Emulator.cpp:554-559 | the state becomes `Dma` of the old one, the 160-byte copy of DmaTransferCopies |
| EmulatorClass.Emulator.EnableRamWrite | Emulator.cpp:379-395 | the bank state becomes the RAM-enable write of the old one; nothing else changes |
| EmulatorClass.Emulator.RomBankSelect | Emulator.cpp:398-421 | the bank state becomes the low ROM bank write of the old one |
| EmulatorClass.Emulator.BankHighSelect | Emulator.cpp:424-460 | the bank state becomes the upper-bits or RAM bank write of the old one |
| EmulatorClass.Emulator.ModeSelect | Emulator.cpp:463-473 | the bank state becomes the banking mode write of the old one |
| EmulatorClass.Emulator.RamWrite | Emulator.cpp:477-488 | the RAM-window case of the dispatch |
| EmulatorClass.Emulator.TimerControlWrite | Emulator.cpp:513-542 | the TAC case of the dispatch |
| EmulatorClass.Emulator.ControlRegisterWrite | Emulator.cpp:379-473 | the cases below 0x8000 of the dispatch |
| EmulatorClass.Emulator.FlatWrite | Emulator.cpp:492-569 | the cases from 0xC000 up of the dispatch |
| EmulatorClass.Emulator.Dispatch | Emulator.cpp:379-569 | the whole address dispatch of WriteByte |
| EmulatorClass.Emulator.WriteByte | Emulator.cpp:372-570 | the state becomes `Write` of the old one, whose per-range behaviour the write lemmas state |
| EmulatorClass.Emulator.RequestInterupt | Emulator.cpp:1185-1189 | the state becomes `Request(old, bit)`: IF bit set, nothing else changed |
| EmulatorClass.Emulator.PushByte | Emulator.cpp:653-656 | SP one lower and the byte written there through WriteByte |
| EmulatorClass.Emulator.StepDownStack | Emulator.cpp:653 | SP one lower, wrapping as a WORD |
| EmulatorClass.Emulator.PushWordOntoStack | Emulator.cpp:650-657 | the state becomes `Push(old, word)`, the push PushThenPop undoes |
| EmulatorClass.Emulator.PopWordOffStack | Emulator.cpp:661-667 | returns the word above SP, high byte above, and moves SP up by two |
| EmulatorClass.Emulator.EnterHandler | Emulator.cpp:697-727 | halt off, PC the handler address, IME off |
| EmulatorClass.Emulator.JumpToHandler | Emulator.cpp:709-727 | PC the handler address, IME off |
| EmulatorClass.Emulator.HandlerAddress | Emulator.cpp:709-725 | the handler address of interrupt n, or the current PC for a number without one |
| EmulatorClass.Emulator.AcknowledgeRequest | Emulator.cpp:728 | IF bit n cleared in the flat memory |
| EmulatorClass.Emulator.ServiceInterrupt | Emulator.cpp:694-729 | the state becomes `Service(old, num)` |
| EmulatorClass.Emulator.DoInterupts | Emulator.cpp:671-690 | the state becomes `DoInterrupts(old)`, the scan DispatchServicesEveryPending describes |
| EmulatorClass.Emulator.CountTima | Emulator.cpp:1139-1160 | the TIMA half of DoTimers |
| EmulatorClass.Emulator.StepDivider | Emulator.cpp:1162-1166 | the DIV half of DoTimers |
| EmulatorClass.Emulator.DoTimers | Emulator.cpp:1134-1167 | the state becomes `Tick(old, cycles)` |
| EmulatorClass.Emulator.KeyPressed | Emulator.cpp:1085-1119 | the state becomes `Input.KeyPressed(old, key)` |
| EmulatorClass.Emulator.KeyReleased | Emulator.cpp:1123-1128 | the state becomes `Input.KeyReleased(old, key)` |
| EmulatorClass.Emulator.GetLCDMode | Emulator.cpp:1193-1196 | the mode bits of the stored STAT, at most 3 |
| EmulatorClass.Emulator.SelectMode | Emulator.cpp:1001-1040 | the mode for LY and the countdown, STAT with it put in, and whether its interrupt is enabled |
| EmulatorClass.Emulator.StatusWhileOff | Emulator.cpp:985-996 | SetLCDStatus with the display off |
| EmulatorClass.Emulator.StatusWhileOn | Emulator.cpp:998-1059 | SetLCDStatus with the display on |
| EmulatorClass.Emulator.ModeRequest | Emulator.cpp:1042-1044 | interrupt 1 requested when due, else nothing |
| EmulatorClass.Emulator.CheckCoincidence | Emulator.cpp:1046-1059 | the LYC check, its interrupt and the STAT write |
| EmulatorClass.Emulator.SetLCDStatus | Emulator.cpp:982-1060 | the state becomes `SetLcdStatus(old)` |
| EmulatorClass.Emulator.StorePixel | Emulator.cpp:819-824 | the four bytes of one pixel |
| EmulatorClass.Emulator.BackgroundPixel | Emulator.cpp:770-824 | one pixel painted with its background colour |
| EmulatorClass.Emulator.BackgroundLine | Emulator.cpp:769-825 | all 160 pixels of the line painted left to right |
| EmulatorClass.Emulator.RenderBackground | Emulator.cpp:745-826 | the screen becomes `Render.RenderBackground` of the old one |
| EmulatorClass.Emulator.DrawOverBackground | Emulator.cpp:910-919 | a sprite behind the background draws only over the lightest green |
| EmulatorClass.Emulator.SpritePixel | Emulator.cpp:866-920 | one pass of the inner sprite loop |
| EmulatorClass.Emulator.DrawSpriteRow | Emulator.cpp:866-920 | the inner sprite loop from tile pixel 7 down to 0 |
| EmulatorClass.Emulator.DrawSprite | Emulator.cpp:840-921 | one pass of the sprite loop |
| EmulatorClass.Emulator.RenderSprites | Emulator.cpp:830-923 | the screen becomes `Render.RenderSprites` of the old one |
| EmulatorClass.Emulator.DrawScanLine | Emulator.cpp:733-741 | the state becomes `Lcd.DrawScanLine(old)` |
| EmulatorClass.Emulator.IssueVerticalBlank | Emulator.cpp:612-619 | interrupt 0 requested |
| EmulatorClass.Emulator.StepLine | Emulator.cpp:629-630 | LY up by one and the countdown at 456 |
| EmulatorClass.Emulator.ClearLine | Emulator.cpp:640 | LY set to 0 |
| EmulatorClass.Emulator.AdvanceLine | Emulator.cpp:629-641 | the advance before the drawing, returning the new LY |
| EmulatorClass.Emulator.DrawCurrentLine | Emulator.cpp:623-646 | the state becomes `Lcd.DrawCurrentLine(old)` |
| EmulatorClass.Emulator.CountDown | Emulator.cpp:236-238 | the cycles come off the countdown while the display is on |
| EmulatorClass.Emulator.DoGraphics | Emulator.cpp:232-247 | the state becomes `Lcd.DoGraphics(old, cycles)` |
| EmulatorClass.Emulator.FetchOpcode | Emulator.cpp:252-270 | returns the opcode at PC and advances PC and the count, or spends four cycles when halted |
| EmulatorClass.Emulator.ReadOpcode | Emulator.cpp:252-255 | the opcode from the boot program, the flat memory or, in the banked windows, ReadMemory |
| EmulatorClass.Emulator.CountOpcode | Emulator.cpp:257-270 | PC and the count advance, or four cycles pass when halted |
| EmulatorClass.Emulator.DisableLatch | Emulator.cpp:274-279 | the DI latch |
| EmulatorClass.Emulator.EnableLatch | Emulator.cpp:281-286 | the EI latch |
| EmulatorClass.Emulator.FinishOpcode | Emulator.cpp:272-293 | the latches, then the serial acknowledge |

Each class method's `ensures` names the value-model function of the same
routine, and the lemmas in the rows above state what that function does.
The value-model functions whose own contract is only the state invariant
are not listed; these are `Machine.Write`, `Machine.Store`, `Machine.Reset`,
`Machine.Push`, `Timers.Tick`, `Lcd.SetLcdStatus`, `Lcd.DoGraphics`,
`Render.RenderSprites` and the like. The lemmas about them are.

## Left out

- Update (Emulator.cpp:200-228) is not modelled. Its loop runs ExecuteOpcode, then calls the render callback and the debug pause function; all three are calls this model cannot see.
- ExecuteOpcode and the CPU_* instruction helpers are declared in Emulator.h but not defined in the files modelled, so no opcode is given meaning. ExecuteNextOpcode is modelled as the step before the instruction (`FetchOpcode`) and the step after it (`FinishOpcode`).
- ReadWord and ReadLSWord (Emulator.cpp:353-367) only serve the opcode executor and are not modelled.
- The serial character sent to the log (Emulator.cpp:289-291) is output; only the clearing of 0xFF02 is modelled.
- LoadRom's file read (Emulator.cpp:54-57) is replaced by the cartridge image as a parameter of `EmulatorClass.Emulator.LoadRom`. That constructor stands for the constructor followed by one LoadRom. StopGame, m_GameLoaded and the reload path are not modelled.
- SetRenderFunc, GetCurrentOpcode, GetImmediateData1 and GetImmediateData2 are host and debugger helpers and are not modelled.
- m_DoLogging, m_TimeToPause, m_DebugPause, m_DebugPausePending and m_DebugValue (Emulator.cpp:141) are never read by the modelled routines and are not modelled.
- The static debug counters `hack`, `counter9`, `vblankcount` and `timerhack` have no observable effect and are not modelled.
- The register fields the constructor leaves unset, and m_UsingMBC2, start at 0 (false) in `Machine.Loaded`. ResetCPU assigns each of them before anything reads it.
- Machine.CreateRamBanks: a new bank is filled with zeros. The source leaves its bytes uninitialised, because its memset clears only a pointer's worth of bytes. The first bank is overwritten from 0xA000-0xBFFF in any case.
- The RAM bank vector is a sequence of byte sequences. The source's vector of heap pointers is never aliased, so nothing is lost by this.
- A read or write in the RAM window 0xA000-0xBFFF with no RAM bank allocated makes the source's `m_RamBank.at()` throw; so does a DMA transfer from pages 0xA0-0xBF, which reads through ReadMemory. ROM-window reads use m_GameBank and cannot throw. The model makes the RAM-window case a precondition instead: `Machine.ReadDefined`, `Machine.WriteDefined`, `Machine.DmaDefined` and `Execution.FetchDefined`.
- EmulatorClass.Emulator.FetchOpcode: in boot mode a program counter above 0xFF would index past the 256-byte boot table, which is undefined behaviour in C++. The model requires that it does not happen.
- EmulatorClass.Emulator.KeyPressed and EmulatorClass.Emulator.KeyReleased require a key below 8. Keys come from the host's key table in GameBoy.cpp, which is not part of this model.
- m_TotalOpcodes (64-bit), m_CyclesThisUpdate, m_TimerVariable, m_DividerVariable and m_RetraceLY are unbounded integers here, so their overflow is not modelled. That needs more than 2^31 cycles in one call.
- The `assert(false)` branches are taken as in a release build, where assert does nothing. These are the default cases of ServiceInterrupt, GetColour and the TAC switch, and the off-screen check of RenderBackground.
- EmulatorClass.Emulator.RenderBackground skips the pixel loop when LY is 144 or more. The source runs the loop and skips every pixel, so the screen comes out the same.
- The renderer reads video RAM, OAM and the LCD registers from the flat memory directly. ReadMemory returns the flat byte at every address those routines read (`MemoryProperties.ReadFlat`).
- The debug-only log branches (`if (false)` blocks) are not modelled.

## Notes on the source

The model follows the code wherever a plain reading of the hardware would
differ:

- The MBC1 0-to-1 rule runs before the mask with 31, so writing 0x20, 0x40 or 0x60 gives low bits 0 (`Banking.Mbc1LowBitsClear`).
- MBC2 writes into the RAM window only while RAM is *not* enabled (Emulator.cpp:483).
- Echo RAM is written one way only.
- DoInterupts services every pending, enabled bit in one call, lowest first.
- The joypad handler is bit 4; bit 3 has no handler, and servicing it keeps the PC.
- Sprite transparency is tested on the palette-mapped shade, not on the raw colour number.
- A vertically flipped sprite reads row `height - line`, one row past its tile on its top line.
- LY is incremented before the line is drawn, so screen line 0 is never drawn.
- CreateRamBanks appends 17 banks on every ResetCPU, so the vector grows by 17 on each reset.
