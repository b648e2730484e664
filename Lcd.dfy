/** The LCD timing side: SetLCDStatus (Emulator.cpp:982-1060), GetLCDMode
    (Emulator.cpp:1193-1196), DrawScanLine (Emulator.cpp:733-741),
    DrawCurrentLine (Emulator.cpp:623-646) and DoGraphics
    (Emulator.cpp:232-247). LCDC (0xFF40), STAT (0xFF41), LY (0xFF44) and
    LYC (0xFF45) read through ReadMemory as the flat memory byte
    (MemoryProperties.ReadFlat), so they are read from `mem` here. */
module Lcd {
  import opened Bits
  import opened Machine
  import opened MemoryProperties
  import opened Render

  /** VERTICAL_BLANK_SCAN_LINE: the first line of the vertical blank. */
  const VBlankLine: bv8 := 0x90
  /** VERTICAL_BLANK_SCAN_LINE_MAX: the last line before LY wraps. */
  const LastLine: bv8 := 0x99
  /** The countdown bounds of SetLCDStatus: mode 2 lasts the first 80
      cycles of a line, mode 3 the next 172. */
  const Mode2Bound: int := RetraceStart - 80
  const Mode3Bound: int := Mode2Bound - 172

  /** LCDC bit 7: the display is on. */
  predicate LcdOn(m: Machine)
    requires Valid(m)
  {
    TestBit(m.mem[0xFF40], 7)
  }

  /** GetLCDMode: the low two bits of the stored STAT byte. */
  function LcdMode(m: Machine): (mode: bv8)
    requires Valid(m)
    ensures mode <= 3
  {
    m.mem[0xFF41] & 3
  }

  // ---------------------------------------------------------------------
  // SetLCDStatus
  // ---------------------------------------------------------------------

  /** The mode SetLCDStatus selects with the display on: the vertical
      blank from line 144 on, otherwise by the countdown of the line. */
  function ModeOf(ly: bv8, retrace: int): bv8
  {
    if ly >= VBlankLine then 1
    else if retrace >= Mode2Bound then 2
    else if retrace >= Mode3Bound then 3
    else 0
  }

  /** The two BitSet/BitReset calls that put a mode into STAT bits 0-1. */
  function WithMode(status: bv8, mode: bv8): bv8
  {
    if mode == 1 then BitReset(BitSet(status, 0), 1)
    else if mode == 2 then BitSet(BitReset(status, 0), 1)
    else if mode == 3 then BitSet(BitSet(status, 0), 1)
    else BitReset(BitReset(status, 0), 1)
  }

  /** The STAT enable bit of the mode's interrupt: bit 3 for the
      horizontal blank, 4 for the vertical blank, 5 for the OAM search;
      mode 3 has none. */
  predicate ModeInterruptEnabled(status: bv8, mode: bv8)
  {
    if mode == 1 then TestBit(status, 4)
    else if mode == 2 then TestBit(status, 5)
    else if mode == 0 then TestBit(status, 3)
    else false
  }

  function CurrentMode(m: Machine): bv8
    requires Valid(m)
  {
    ModeOf(m.mem[0xFF44], m.retrace)
  }

  /** STAT with the new mode in bits 0-1. */
  function ModeStatus(m: Machine): bv8
    requires Valid(m)
  {
    WithMode(m.mem[0xFF41], CurrentMode(m))
  }

  /** LYC equals LY. */
  predicate Coincident(m: Machine)
    requires Valid(m)
  {
    m.mem[0xFF45] == m.mem[0xFF44]
  }

  /** The STAT byte SetLCDStatus writes with the display on: the mode,
      then the coincidence flag in bit 2. */
  function NewStatus(m: Machine): bv8
    requires Valid(m)
  {
    if Coincident(m) then BitSet(ModeStatus(m), 2) else BitReset(ModeStatus(m), 2)
  }

  /** The mode interrupt: its enable bit is set and the mode differs from
      the one stored before. */
  predicate ModeInterrupt(m: Machine)
    requires Valid(m)
  {
    ModeInterruptEnabled(ModeStatus(m), CurrentMode(m)) && CurrentMode(m) != LcdMode(m)
  }

  /** The coincidence interrupt: LYC equals LY and STAT bit 6 is set. */
  predicate CoincidenceInterrupt(m: Machine)
    requires Valid(m)
  {
    Coincident(m) && TestBit(NewStatus(m), 6)
  }

  /** SetLCDStatus. With the display off the countdown restarts, LY is
      set to 0 and STAT shows mode 1; with it on, the mode and coincidence
      interrupts are requested (both are interrupt 1) and the new STAT is
      written back through WriteByte. */
  function SetLcdStatus(m: Machine): (r: Machine)
    requires Valid(m)
    ensures Valid(r)
  {
    if !LcdOn(m) then
      var off := m.(retrace := RetraceStart, mem := m.mem[0xFF44 := 0]);
      Write(off, 0xFF41, WithMode(m.mem[0xFF41], 1))
    else
      var afterMode := if ModeInterrupt(m) then Request(m, 1) else m;
      CheckCoincidence(afterMode, ModeStatus(m), m.mem[0xFF44])
  }

  /** The end of SetLCDStatus with the display on, for the STAT byte
      with the new mode and the LY read at the start: bit 2 flags LYC ==
      LY, the coincidence interrupt is requested when bit 6 enables it,
      and STAT is written back. */
  function CheckCoincidence(m: Machine, status: bv8, ly: bv8): (r: Machine)
    requires Valid(m)
    ensures Valid(r)
  {
    var flagged := if m.mem[0xFF45] == ly then BitSet(status, 2) else BitReset(status, 2);
    var requested := if m.mem[0xFF45] == ly && TestBit(flagged, 6) then Request(m, 1) else m;
    Write(requested, 0xFF41, flagged)
  }

  // ---------------------------------------------------------------------
  // DrawScanLine, DrawCurrentLine, DoGraphics
  // ---------------------------------------------------------------------

  /** DrawScanLine: the background, then the sprites over it, on line
      LY; nothing while the display is off. */
  function DrawScanLine(m: Machine): (r: Machine)
    requires Valid(m)
    ensures Valid(r)
  {
    var lcdc := m.mem[0xFF40];
    if TestBit(lcdc, 7) then m.(screen := RenderSprites(m.mem, lcdc, RenderBackground(m.mem, lcdc, m.screen)))
    else m
  }

  /** DrawCurrentLine: with the display on, LY goes up by one (as a
      byte) and the countdown restarts; reaching line 144 requests the
      vertical blank interrupt, passing line 153 resets LY to 0, and a
      line below 144 is drawn. The line is drawn after LY was incremented. */
  function DrawCurrentLine(m: Machine): (r: Machine)
    requires Valid(m)
    ensures Valid(r)
  {
    if !LcdOn(m) then m
    else
      var ly := m.mem[0xFF44] + 1;
      var stepped := m.(mem := m.mem[0xFF44 := ly], retrace := RetraceStart);
      var blanked := if ly == VBlankLine then Request(stepped, 0) else stepped;
      var wrapped := if ly > LastLine then blanked.(mem := blanked.mem[0xFF44 := 0]) else blanked;
      if ly < VBlankLine then DrawScanLine(wrapped) else wrapped
  }

  /** The countdown of DoGraphics: the cycles of the last instruction
      are taken off while the display is on. */
  function CountDown(m: Machine, cycles: int): (r: Machine)
    requires Valid(m)
    ensures Valid(r)
  {
    if LcdOn(m) then m.(retrace := m.retrace - cycles) else m
  }

  /** The LY check of DoGraphics: a line past 153 becomes 0. */
  function ClampLine(m: Machine): (r: Machine)
    requires Valid(m)
    ensures Valid(r)
    ensures r.mem[0xFF44] <= LastLine
  {
    if m.mem[0xFF44] > LastLine then m.(mem := m.mem[0xFF44 := 0]) else m
  }

  /** DoGraphics: update STAT, count the cycles down, keep LY in range,
      and move to the next line once the countdown is spent. */
  function DoGraphics(m: Machine, cycles: int): (r: Machine)
    requires Valid(m)
    ensures Valid(r)
  {
    var counted := ClampLine(CountDown(SetLcdStatus(m), cycles));
    if counted.retrace <= 0 then DrawCurrentLine(counted) else counted
  }

  // ---------------------------------------------------------------------
  // Properties of SetLCDStatus
  // ---------------------------------------------------------------------

  /** Writing STAT through WriteByte is a plain store. */
  lemma StatusWriteStores(m: Machine, v: bv8)
    requires Valid(m)
    ensures WriteDefined(m, 0xFF41, v)
    ensures Write(m, 0xFF41, v) == m.(mem := m.mem[0xFF41 := v])
  {
  }

  /** Two requests of the same interrupt come to one. */
  lemma RequestTwice(m: Machine, bit: nat)
    requires Valid(m) && bit < 8
    ensures Request(Request(m, bit), bit) == Request(m, bit)
  {
    var f := m.mem[0xFF0F];
    assert BitSet(BitSet(f, bit), bit) == BitSet(f, bit);
  }

  /** The IF byte after the two requests of SetLCDStatus. */
  function StatusFlags(m: Machine): bv8
    requires Valid(m)
  {
    if ModeInterrupt(m) || CoincidenceInterrupt(m) then BitSet(m.mem[0xFF0F], 1) else m.mem[0xFF0F]
  }

  /** SetLCDStatus with the display on, as one state: IF bit 1 set when
      either interrupt is due, STAT replaced, nothing else changed. */
  lemma StatusShape(m: Machine)
    requires Valid(m) && LcdOn(m)
    ensures SetLcdStatus(m) == m.(mem := m.mem[0xFF0F := StatusFlags(m)][0xFF41 := NewStatus(m)])
  {
    var afterMode := if ModeInterrupt(m) then Request(m, 1) else m;
    assert afterMode.mem[0xFF45] == m.mem[0xFF45];
    var afterMatch := if CoincidenceInterrupt(m) then Request(afterMode, 1) else afterMode;
    assert afterMatch == m.(mem := m.mem[0xFF0F := StatusFlags(m)]) by {
      if ModeInterrupt(m) && CoincidenceInterrupt(m) {
        RequestTwice(m, 1);
      }
    }
    StatusWriteStores(afterMatch, NewStatus(m));
  }

  /** The mode bits and the bits above them after WithMode. */
  lemma ModeBits(status: bv8, mode: bv8)
    requires mode <= 3
    ensures WithMode(status, mode) & 3 == mode
    ensures forall j :: 2 <= j < 8 ==> TestBit(WithMode(status, mode), j) == TestBit(status, j)
  {
    forall j | 2 <= j < 8
      ensures TestBit(WithMode(status, mode), j) == TestBit(status, j)
    {
      OtherBitsKept(status, 0, j);
      OtherBitsKept(BitSet(status, 0), 1, j);
      OtherBitsKept(BitReset(status, 0), 1, j);
    }
  }

  /** The STAT byte SetLCDStatus writes: the mode in bits 0-1, bit 2 set
      exactly when LYC equals LY, bits 3-7 as they were. */
  lemma StatusByte(status: bv8, mode: bv8, same: bool)
    requires mode <= 3
    ensures var s := WithMode(status, mode); var r := if same then BitSet(s, 2) else BitReset(s, 2);
      && r & 3 == mode
      && (TestBit(r, 2) <==> same)
      && forall j :: 3 <= j < 8 ==> TestBit(r, j) == TestBit(status, j)
  {
    var s := WithMode(status, mode);
    ModeBits(status, mode);
    assert BitSet(s, 2) & 3 == s & 3 && BitReset(s, 2) & 3 == s & 3;
    forall j | 3 <= j < 8
      ensures TestBit(BitSet(s, 2), j) == TestBit(status, j) && TestBit(BitReset(s, 2), j) == TestBit(status, j)
    {
      OtherBitsKept(s, 2, j);
    }
  }

  /** With the display on, SetLCDStatus puts mode 1 in STAT from line 144
      on, otherwise mode 2 while the countdown is at least 376, mode 3
      while it is at least 204 and mode 0 below; bit 2 flags LYC == LY and
      bits 3-7 are kept. Only STAT and IF change. */
  lemma StatusModeSelected(m: Machine)
    requires Valid(m) && LcdOn(m)
    ensures var r := SetLcdStatus(m); var ly := m.mem[0xFF44];
      && LcdMode(r) == (if ly >= 144 then 1 else if m.retrace >= 376 then 2 else if m.retrace >= 204 then 3 else 0)
      && (TestBit(r.mem[0xFF41], 2) <==> m.mem[0xFF45] == ly)
      && (forall j :: 3 <= j < 8 ==> TestBit(r.mem[0xFF41], j) == TestBit(m.mem[0xFF41], j))
      && r == m.(mem := m.mem[0xFF0F := r.mem[0xFF0F]][0xFF41 := r.mem[0xFF41]])
  {
    StatusShape(m);
    StatusByte(m.mem[0xFF41], CurrentMode(m), Coincident(m));
  }

  /** The LCD status interrupt (bit 1 of IF) is set after SetLCDStatus
      exactly when it was set before, or the display entered a mode other
      than the stored one whose STAT enable bit is set (3 for mode 0, 4 for
      mode 1, 5 for mode 2, none for mode 3), or LYC equals LY with STAT
      bit 6 set. The other bits of IF are kept. */
  lemma StatInterruptRule(m: Machine)
    requires Valid(m) && LcdOn(m)
    ensures var r := SetLcdStatus(m); var stat := m.mem[0xFF41]; var mode := ModeOf(m.mem[0xFF44], m.retrace);
      && (TestBit(r.mem[0xFF0F], 1) <==>
            || TestBit(m.mem[0xFF0F], 1)
            || (mode != stat & 3 &&
                ((mode == 0 && TestBit(stat, 3)) || (mode == 1 && TestBit(stat, 4)) || (mode == 2 && TestBit(stat, 5))))
            || (m.mem[0xFF45] == m.mem[0xFF44] && TestBit(stat, 6)))
      && (forall j :: 0 <= j < 8 && j != 1 ==> TestBit(r.mem[0xFF0F], j) == TestBit(m.mem[0xFF0F], j))
  {
    StatusShape(m);
    var stat := m.mem[0xFF41];
    ModeBits(stat, CurrentMode(m));
    StatusByte(stat, CurrentMode(m), Coincident(m));
    forall j | 0 <= j < 8 && j != 1
      ensures TestBit(BitSet(m.mem[0xFF0F], 1), j) == TestBit(m.mem[0xFF0F], j)
    {
      OtherBitsKept(m.mem[0xFF0F], 1, j);
    }
  }

  /** With the display off SetLCDStatus restarts the countdown, sets LY to
      0 and puts mode 1 in STAT, keeping its other bits; IF is untouched. */
  lemma StatusWhileOff(m: Machine)
    requires Valid(m) && !LcdOn(m)
    ensures var r := SetLcdStatus(m);
      && r.retrace == 456 && r.mem[0xFF44] == 0 && LcdMode(r) == 1
      && (forall j :: 2 <= j < 8 ==> TestBit(r.mem[0xFF41], j) == TestBit(m.mem[0xFF41], j))
      && r == m.(retrace := 456, mem := m.mem[0xFF44 := 0][0xFF41 := r.mem[0xFF41]])
  {
    var off := m.(retrace := RetraceStart, mem := m.mem[0xFF44 := 0]);
    StatusWriteStores(off, WithMode(m.mem[0xFF41], 1));
    ModeBits(m.mem[0xFF41], 1);
  }

  // ---------------------------------------------------------------------
  // Properties of the line drawing
  // ---------------------------------------------------------------------

  /** DrawScanLine changes only line LY of the screen, and nothing while
      LY is below the screen or the display is off. With the background
      on, every pixel of the line shows its background colour or a colour
      a sprite drew, never the lightest green drawn by a sprite. */
  lemma ScanLineDrawsLine(m: Machine)
    requires Valid(m)
    ensures var r := DrawScanLine(m); var ly := m.mem[0xFF44] as nat; var lcdc := m.mem[0xFF40];
      && r == m.(screen := r.screen)
      && (ly >= ScreenHeight || !TestBit(lcdc, 7) ==> r == m)
      && (forall k :: 0 <= k < ScreenSize && !InLine(k, ly) ==> r.screen[k] == m.screen[k])
      && (ly < ScreenHeight && TestBit(lcdc, 7) && TestBit(lcdc, 0) ==>
            forall p :: 0 <= p < ScreenWidth ==>
              StoredAt(r.screen, ly, p) == PixelOf(BackgroundColour(m.mem, lcdc, p)) || DarkPixel(StoredAt(r.screen, ly, p)))
  {
    var lcdc := m.mem[0xFF40];
    var back := RenderBackground(m.mem, lcdc, m.screen);
    BackgroundPaintsLine(m.mem, lcdc, m.screen);
    SpritesNeverDrawLightest(m.mem, lcdc, back);
  }

  /** The byte arithmetic of the line advance: the increment wraps at
      256 and the line after 153 is 0. */
  lemma NextLineValue(b: bv8)
    ensures var n := b + 1;
      && (if n > LastLine then 0 else n) as int == (if b as int < 153 then b as int + 1 else 0)
      && (n == VBlankLine <==> b as int == 143)
      && (n < VBlankLine <==> b as int < 143 || b as int == 255)
      && n as int == (b as int + 1) % 256
  {
  }

  /** The IF byte after the line advance. */
  function BlankFlags(m: Machine): bv8
    requires Valid(m)
  {
    if m.mem[0xFF44] + 1 == VBlankLine then BitSet(m.mem[0xFF0F], 0) else m.mem[0xFF0F]
  }

  /** The state DrawCurrentLine reaches before drawing: LY advanced, IF
      updated and the countdown restarted. */
  function Advanced(m: Machine): (r: Machine)
    requires Valid(m)
    ensures Valid(r)
  {
    var n := m.mem[0xFF44] + 1;
    m.(retrace := RetraceStart, mem := m.mem[0xFF44 := if n > LastLine then 0 else n][0xFF0F := BlankFlags(m)])
  }

  /** The stores of DrawCurrentLine before the drawing come to Advanced. */
  lemma AdvanceStores(m: Machine)
    requires Valid(m)
    ensures var ly := m.mem[0xFF44] + 1;
      var stepped := m.(mem := m.mem[0xFF44 := ly], retrace := RetraceStart);
      var blanked := if ly == VBlankLine then Request(stepped, 0) else stepped;
      (if ly > LastLine then blanked.(mem := blanked.mem[0xFF44 := 0]) else blanked) == Advanced(m)
  {
    var ly := m.mem[0xFF44] + 1;
    var flags := BlankFlags(m);
    if ly > LastLine {
      assert m.mem[0xFF44 := ly][0xFF0F := flags][0xFF44 := 0] == m.mem[0xFF44 := 0][0xFF0F := flags];
    }
  }

  /** DrawCurrentLine with the display on is the advance, followed by
      the drawing of the new line when it is below 144. */
  lemma LineShape(m: Machine)
    requires Valid(m) && LcdOn(m)
    ensures DrawCurrentLine(m) == if m.mem[0xFF44] + 1 < VBlankLine then DrawScanLine(Advanced(m)) else Advanced(m)
  {
    AdvanceStores(m);
  }

  /** DrawScanLine keeps every byte of the screen outside line LY. */
  lemma ScanLineKeepsOtherLines(m: Machine)
    requires Valid(m)
    ensures forall k :: 0 <= k < ScreenSize && !InLine(k, m.mem[0xFF44] as nat) ==> DrawScanLine(m).screen[k] == m.screen[k]
  {
    var lcdc := m.mem[0xFF40];
    var back := RenderBackground(m.mem, lcdc, m.screen);
    BackgroundPaintsLine(m.mem, lcdc, m.screen);
    SpritesNeverDrawLightest(m.mem, lcdc, back);
  }

  /** DrawScanLine changes the screen only. */
  lemma ScanLineFrame(m: Machine)
    requires Valid(m)
    ensures DrawScanLine(m) == m.(screen := DrawScanLine(m).screen)
  {
  }

  /** DrawCurrentLine never leaves LY past 153. */
  lemma LineInRange(m: Machine)
    requires Valid(m)
    ensures DrawCurrentLine(m).mem[0xFF44] <= LastLine || (!LcdOn(m) && DrawCurrentLine(m) == m)
  {
    if LcdOn(m) {
      LineShape(m);
      ScanLineFrame(Advanced(m));
    }
  }

  /** DrawCurrentLine with the display on: the countdown restarts at 456,
      LY moves to the next line and wraps to 0 after line 153, and nothing
      but LY, IF, the countdown and the screen changes. */
  lemma LineAdvances(m: Machine)
    requires Valid(m) && LcdOn(m)
    ensures var r := DrawCurrentLine(m); var ly := m.mem[0xFF44] as int;
      && r.retrace == 456
      && r.mem[0xFF44] as int == (if ly < 153 then ly + 1 else 0)
      && r == m.(retrace := 456, screen := r.screen, mem := m.mem[0xFF44 := r.mem[0xFF44]][0xFF0F := r.mem[0xFF0F]])
  {
    var a := Advanced(m);
    LineShape(m);
    ScanLineFrame(a);
    assert DrawCurrentLine(m) == a.(screen := DrawCurrentLine(m).screen);
    NextLineValue(m.mem[0xFF44]);
  }

  /** DrawCurrentLine requests the vertical blank interrupt (bit 0 of IF)
      exactly when the new line is 144, and keeps the other bits of IF. */
  lemma VBlankOnLine144(m: Machine)
    requires Valid(m) && LcdOn(m)
    ensures var r := DrawCurrentLine(m);
      && (TestBit(r.mem[0xFF0F], 0) <==> TestBit(m.mem[0xFF0F], 0) || m.mem[0xFF44] as int == 143)
      && (forall j :: 1 <= j < 8 ==> TestBit(r.mem[0xFF0F], j) == TestBit(m.mem[0xFF0F], j))
  {
    var a := Advanced(m);
    LineShape(m);
    ScanLineFrame(a);
    assert DrawCurrentLine(m).mem[0xFF0F] == BlankFlags(m);
    NextLineValue(m.mem[0xFF44]);
    forall j | 1 <= j < 8
      ensures TestBit(BitSet(m.mem[0xFF0F], 0), j) == TestBit(m.mem[0xFF0F], j)
    {
      OtherBitsKept(m.mem[0xFF0F], 0, j);
    }
  }

  /** The line DrawCurrentLine draws is the new LY: from a line between 0
      and 142 it is drawn (and only it changes); from any other line the
      screen is kept. */
  lemma LineDrawnAfterIncrement(m: Machine)
    requires Valid(m) && LcdOn(m)
    ensures var r := DrawCurrentLine(m); var ly := m.mem[0xFF44] as int;
      && (143 <= ly < 255 ==> r.screen == m.screen)
      && (forall k :: 0 <= k < ScreenSize && !InLine(k, (ly + 1) % 256) ==> r.screen[k] == m.screen[k])
  {
    LineShape(m);
    NextLineValue(m.mem[0xFF44]);
    var n := m.mem[0xFF44] + 1;
    if n < VBlankLine {
      assert Advanced(m).mem[0xFF44] as int == (m.mem[0xFF44] as int + 1) % 256;
      ScanLineKeepsOtherLines(Advanced(m));
    }
  }

  /** A line byte at most 153 is at most 153 as a number. */
  lemma InRangeLine(b: bv8)
    requires b <= LastLine
    ensures b as int <= 153
  {
  }

  /** Every line but the first starts after the first one ends. */
  lemma LaterLineStartsAfterFirst(n: nat)
    requires n >= 1
    ensures Offset(n, 0) >= Offset(0, ScreenWidth)
  {
  }

  /** From a line in range (at most 153) DrawCurrentLine never touches
      line 0 of the screen: the increment comes first, so the line drawn
      is 1 or more. */
  lemma LineZeroNeverDrawn(m: Machine)
    requires Valid(m) && m.mem[0xFF44] <= LastLine
    ensures forall k :: 0 <= k < ScreenSize && InLine(k, 0) ==> DrawCurrentLine(m).screen[k] == m.screen[k]
  {
    if LcdOn(m) {
      LineDrawnAfterIncrement(m);
      var ly := m.mem[0xFF44] as int;
      InRangeLine(m.mem[0xFF44]);
      var next := (ly + 1) % 256;
      assert next == ly + 1;
      LaterLineStartsAfterFirst(next);
      forall k | 0 <= k < ScreenSize && InLine(k, 0)
        ensures !InLine(k, next)
      {
      }
    }
  }

  // ---------------------------------------------------------------------
  // Properties of DoGraphics
  // ---------------------------------------------------------------------

  /** SetLCDStatus with the display on keeps LY, LCDC, the countdown and
      the screen. */
  lemma StatusKeepsTiming(m: Machine)
    requires Valid(m)
    ensures var r := SetLcdStatus(m);
      && r.mem[0xFF40] == m.mem[0xFF40] && r.screen == m.screen
      && (LcdOn(m) ==> r.mem[0xFF44] == m.mem[0xFF44] && r.retrace == m.retrace)
  {
    if LcdOn(m) {
      StatusShape(m);
    } else {
      StatusWhileOff(m);
    }
  }

  /** After DoGraphics LY is never past line 153. */
  lemma GraphicsKeepsLineInRange(m: Machine, cycles: int)
    requires Valid(m)
    ensures DoGraphics(m, cycles).mem[0xFF44] <= LastLine
  {
    var counted := ClampLine(CountDown(SetLcdStatus(m), cycles));
    if counted.retrace <= 0 {
      LineInRange(counted);
    }
  }

  /** The countdown of the line after DoGraphics is positive, and stays
      at most 456 when it was and no negative cycle count is given. */
  lemma GraphicsKeepsCountdown(m: Machine, cycles: int)
    requires Valid(m)
    ensures 0 < DoGraphics(m, cycles).retrace
    ensures m.retrace <= 456 && cycles >= 0 ==> DoGraphics(m, cycles).retrace <= 456
  {
    StatusKeepsTiming(m);
    if !LcdOn(m) {
      StatusWhileOff(m);
    }
  }

  /** With the display on, DoGraphics takes the cycles off the countdown;
      while it stays positive the line and the screen are kept (LY past
      153 reads 0), and once it is spent the countdown restarts at 456
      and LY moves on: line 153 wraps to 0 and a line past 153 reads as 0
      and moves to 1. */
  lemma GraphicsLineTiming(m: Machine, cycles: int)
    requires Valid(m) && LcdOn(m)
    ensures var r := DoGraphics(m, cycles); var ly := m.mem[0xFF44] as int;
      if m.retrace - cycles > 0 then
        && r.retrace == m.retrace - cycles
        && r.mem[0xFF44] as int == (if ly > 153 then 0 else ly)
        && r.screen == m.screen
      else
        && r.retrace == 456
        && r.mem[0xFF44] as int == (if ly < 153 then ly + 1 else if ly == 153 then 0 else 1)
  {
    StatusKeepsTiming(m);
    var counted := ClampLine(CountDown(SetLcdStatus(m), cycles));
    assert LcdOn(counted);
    if counted.retrace <= 0 {
      LineAdvances(counted);
    }
  }

  /** With the display off, DoGraphics leaves LY at 0, the countdown at
      456, STAT in mode 1, and the screen and IF as they were. */
  lemma GraphicsWhileOff(m: Machine, cycles: int)
    requires Valid(m) && !LcdOn(m)
    ensures var r := DoGraphics(m, cycles);
      && r.retrace == 456 && r.mem[0xFF44] == 0 && LcdMode(r) == 1
      && r.screen == m.screen && r.mem[0xFF0F] == m.mem[0xFF0F]
  {
    StatusWhileOff(m);
  }

  /** DoGraphics never changes line 0 of the screen: LY is brought into
      range before the line advance, and the advance draws only after the
      increment. */
  lemma GraphicsNeverDrawsLineZero(m: Machine, cycles: int)
    requires Valid(m)
    ensures forall k :: 0 <= k < ScreenSize && InLine(k, 0) ==> DoGraphics(m, cycles).screen[k] == m.screen[k]
  {
    StatusKeepsTiming(m);
    var counted := ClampLine(CountDown(SetLcdStatus(m), cycles));
    if counted.retrace <= 0 {
      LineZeroNeverDrawn(counted);
    }
  }
}
