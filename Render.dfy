/** The pixel side: GetColour (Emulator.cpp:927-978), RenderBackground
    (Emulator.cpp:745-826) and RenderSprites (Emulator.cpp:830-923). A line
    is drawn into m_ScreenData, 160 x 144 pixels of four bytes each (blue,
    green, red, 255). Every byte these routines read through ReadMemory
    lies in video RAM, OAM or the LCD registers 0xFF40-0xFF4B, where
    ReadMemory returns the flat memory byte (MemoryProperties.ReadFlat), so
    they are stated over the flat memory `mem`. */
module Render {
  import opened Bits
  import opened Hardware
  import opened Machine

  const ScreenWidth: nat := 160
  const ScreenHeight: nat := 144
  /** Bytes per screen row. */
  const RowBytes: nat := 640

  // ---------------------------------------------------------------------
  // Palette and colours
  // ---------------------------------------------------------------------

  /** GetColour for a palette byte already read: entry `num` of the
      palette is the bit pair (2 num + 1, 2 num). A number above 3 reaches
      the default case, which only asserts in a debug build, leaving both
      bit positions at 0. */
  function GetColour(palette: bv8, num: bv8): (c: Colour)
  {
    var hi: nat := if num == 0 then 1 else if num == 1 then 3 else if num == 2 then 5 else if num == 3 then 7 else 0;
    var lo: nat := if num == 0 then 0 else if num == 1 then 2 else if num == 2 then 4 else if num == 3 then 6 else 0;
    ColourOfShade((BitGetVal(palette, hi) << 1) | BitGetVal(palette, lo))
  }

  datatype Rgb = Rgb(red: bv8, green: bv8, blue: bv8)

  /** The colour table shared by both renderers. */
  function RgbOf(c: Colour): Rgb
  {
    match c
    case LightestGreen => Rgb(155, 188, 15)
    case LightGreen => Rgb(139, 172, 15)
    case DarkGreen => Rgb(48, 98, 48)
    case DarkestGreen => Rgb(15, 56, 15)
  }

  /** A pixel as m_ScreenData stores it: blue, green, red, then 255. */
  datatype Stored = Stored(blue: bv8, green: bv8, red: bv8, alpha: bv8)

  function PixelOf(c: Colour): Stored
  {
    var rgb := RgbOf(c);
    Stored(rgb.blue, rgb.green, rgb.red, 255)
  }

  /** The test RenderSprites makes before drawing a sprite pixel behind
      the background: the stored red, green and blue are those of the
      lightest green. */
  predicate ShowsLightest(screen: seq<bv8>, offset: nat)
    requires offset + 3 <= |screen|
  {
    screen[offset + 2] == 155 && screen[offset + 1] == 188 && screen[offset] == 15
  }

  /** Where a pixel starts in the screen buffer. */
  function Offset(ly: nat, pixel: nat): nat
  {
    ly * RowBytes + pixel * 4
  }

  /** Pixel `pixel` of line `ly` as stored. */
  function StoredAt(screen: seq<bv8>, ly: nat, pixel: nat): Stored
    requires |screen| == ScreenSize && ly < ScreenHeight && pixel < ScreenWidth
  {
    var o := Offset(ly, pixel);
    Stored(screen[o], screen[o + 1], screen[o + 2], screen[o + 3])
  }

  /** Offset k lies in line ly of the screen. */
  predicate InLine(k: int, ly: nat)
  {
    Offset(ly, 0) <= k < Offset(ly, ScreenWidth)
  }

  /** The four stores of one pixel. */
  function Paint(screen: seq<bv8>, ly: nat, pixel: nat, c: Colour): (r: seq<bv8>)
    requires |screen| == ScreenSize && ly < ScreenHeight && pixel < ScreenWidth
    ensures |r| == ScreenSize
  {
    var o := Offset(ly, pixel);
    var rgb := RgbOf(c);
    screen[o := rgb.blue][o + 1 := rgb.green][o + 2 := rgb.red][o + 3 := 255]
  }

  // ---------------------------------------------------------------------
  // Background and window
  // ---------------------------------------------------------------------

  /** A byte read as SIGNED_BYTE. */
  function Signed(b: bv8): (v: int)
  {
    if b < 128 then b as int else b as int - 256
  }

  /** The colour RenderBackground gives pixel `pixel` of the current line.
      The window is used when LCDC bit 5 is set and WY <= LY; then the tile
      map is chosen by bit 6 instead of bit 3, the row is LY - WY, and for
      pixels at or right of WX - 7 the column is pixel - (WX - 7). Bit 4
      selects the tile data at 0x8000 (unsigned tile numbers) or at 0x8800
      (signed tile numbers offset by 128). All byte arithmetic wraps. */
  function BackgroundColour(mem: seq<bv8>, lcdc: bv8, pixel: nat): Colour
    requires |mem| == MemorySize && pixel < ScreenWidth
  {
    var scY := mem[0xFF42];
    var scX := mem[0xFF43];
    var wndY := mem[0xFF4A];
    var wndX := mem[0xFF4B] - 7;
    var ly := mem[0xFF44];
    var tileData := if TestBit(lcdc, 4) then 0x8000 else 0x8800;
    var usingWnd := TestBit(lcdc, 5) && wndY <= ly;
    var tileMap := if TestBit(lcdc, if usingWnd then 6 else 3) then 0x9C00 else 0x9800;
    var yPos := if !usingWnd then scY + ly else ly - wndY;
    var xPos := if usingWnd && pixel >= wndX as int then pixel as bv8 - wndX else scX + pixel as bv8;
    var tileNum := mem[tileMap + (yPos / 8) as int * 32 + (xPos / 8) as int];
    var tileLocation := if tileData == 0x8800 then tileData + (Signed(tileNum) + 128) * 16 else tileData + tileNum as int * 16;
    var line := (yPos % 8) as int * 2;
    var data1 := mem[tileLocation + line];
    var data2 := mem[tileLocation + line + 1];
    var bit := 7 - (xPos % 8) as int;
    GetColour(mem[0xFF47], (BitGetVal(data2, bit) << 1) | BitGetVal(data1, bit))
  }

  /** The pixel loop of RenderBackground after its first `n` passes:
      pixels 0 to n - 1 of line `ly` painted left to right. */
  function PaintBackground(mem: seq<bv8>, lcdc: bv8, ly: nat, screen: seq<bv8>, n: nat): (r: seq<bv8>)
    requires |mem| == MemorySize && |screen| == ScreenSize && ly < ScreenHeight && n <= ScreenWidth
    ensures |r| == ScreenSize
  {
    if n == 0 then screen
    else Paint(PaintBackground(mem, lcdc, ly, screen, n - 1), ly, n - 1, BackgroundColour(mem, lcdc, n - 1))
  }

  /** RenderBackground: nothing while LCDC bit 0 is clear; a line LY
      outside the screen skips every pixel. */
  function RenderBackground(mem: seq<bv8>, lcdc: bv8, screen: seq<bv8>): (r: seq<bv8>)
    requires |mem| == MemorySize && |screen| == ScreenSize
    ensures |r| == ScreenSize
  {
    var ly := mem[0xFF44] as nat;
    if !TestBit(lcdc, 0) || ly >= ScreenHeight then screen
    else PaintBackground(mem, lcdc, ly, screen, ScreenWidth)
  }

  // ---------------------------------------------------------------------
  // Sprites
  // ---------------------------------------------------------------------

  /** One OAM entry, with the position already moved by -16 and -8 as
      bytes. */
  datatype Sprite = Sprite(y: bv8, x: bv8, pattern: bv8, attributes: bv8)

  function SpriteAt(mem: seq<bv8>, i: nat): Sprite
    requires |mem| == MemorySize && i < 40
  {
    var a := 0xFE00 + i * 4;
    Sprite(mem[a] - 16, mem[a + 1] - 8, mem[a + 2], mem[a + 3])
  }

  /** LCDC bit 2 selects 8x16 sprites. */
  function SpriteHeight(lcdc: bv8): nat
  {
    if TestBit(lcdc, 2) then 16 else 8
  }

  /** The byte offset, inside the sprite's tile data, of the row line `ly`
      crosses. A vertically flipped sprite uses height - line, so its top
      line reads one row past the tile. */
  function SpriteRowOffset(s: Sprite, ly: nat, height: nat): (r: nat)
    requires s.y as int <= ly < s.y as int + height
    ensures r <= 2 * height
  {
    var line := ly - s.y as int;
    (if TestBit(s.attributes, 6) then height - line else line) * 2
  }

  /** The colour of tile pixel `tilePixel` (bit 7 is the leftmost) under the
      sprite's palette, OBP1 when attribute bit 4 is set and OBP0 when it is
      clear; attribute bit 5 mirrors the bit. */
  function SpriteColour(mem: seq<bv8>, s: Sprite, data1: bv8, data2: bv8, tilePixel: nat): Colour
    requires |mem| == MemorySize && tilePixel < 8
  {
    var bit := if TestBit(s.attributes, 5) then 7 - tilePixel else tilePixel;
    var palette := if TestBit(s.attributes, 4) then mem[0xFF49] else mem[0xFF48];
    GetColour(palette, (BitGetVal(data2, bit) << 1) | BitGetVal(data1, bit))
  }

  /** One pass of the inner loop of RenderSprites, for tile pixel
      `tilePixel`. A pixel mapped to the lightest green is transparent; a
      pixel off the right edge, or on a line below the screen, is skipped;
      a sprite behind the background (attribute bit 7) only draws where
      the screen shows the lightest green. */
  function SpritePixel(mem: seq<bv8>, s: Sprite, ly: nat, data1: bv8, data2: bv8, screen: seq<bv8>, tilePixel: nat): (r: seq<bv8>)
    requires |mem| == MemorySize && |screen| == ScreenSize && tilePixel < 8
    ensures |r| == ScreenSize
  {
    var col := SpriteColour(mem, s, data1, data2, tilePixel);
    var pixel := s.x as int + (7 - tilePixel);
    if col == LightestGreen || ly >= ScreenHeight || pixel >= ScreenWidth then screen
    else if TestBit(s.attributes, 7) && !ShowsLightest(screen, Offset(ly, pixel)) then screen
    else Paint(screen, ly, pixel, col)
  }

  /** The inner loop of RenderSprites from tile pixel `tilePixel` down to
      0. */
  function SpritePixels(mem: seq<bv8>, s: Sprite, ly: nat, data1: bv8, data2: bv8, screen: seq<bv8>, tilePixel: int): (r: seq<bv8>)
    requires |mem| == MemorySize && |screen| == ScreenSize && -1 <= tilePixel < 8
    ensures |r| == ScreenSize
    decreases tilePixel + 1
  {
    if tilePixel < 0 then screen
    else SpritePixels(mem, s, ly, data1, data2, SpritePixel(mem, s, ly, data1, data2, screen, tilePixel), tilePixel - 1)
  }

  /** Line `ly` crosses the sprite. */
  predicate OnSprite(s: Sprite, ly: nat, height: nat)
  {
    s.y as int <= ly < s.y as int + height
  }

  /** The two bytes of the tile row RenderSprites reads for the sprite:
      `half` 0 is the low bit plane, 1 the high one. */
  function SpriteData(mem: seq<bv8>, s: Sprite, ly: nat, height: nat, half: nat): bv8
    requires |mem| == MemorySize && OnSprite(s, ly, height) && height <= 16 && half < 2
  {
    mem[0x8000 + s.pattern as int * 16 + SpriteRowOffset(s, ly, height) + half]
  }

  /** One pass of the outer loop of RenderSprites: sprite `i`, if line LY
      crosses it. */
  function DrawSprite(mem: seq<bv8>, lcdc: bv8, screen: seq<bv8>, i: nat): (r: seq<bv8>)
    requires |mem| == MemorySize && |screen| == ScreenSize && i < 40
    ensures |r| == ScreenSize
  {
    var s := SpriteAt(mem, i);
    var ly := mem[0xFF44] as nat;
    var height := SpriteHeight(lcdc);
    if OnSprite(s, ly, height) then
      SpritePixels(mem, s, ly, SpriteData(mem, s, ly, height, 0), SpriteData(mem, s, ly, height, 1), screen, 7)
    else screen
  }

  /** The first `n` passes of the outer loop of RenderSprites: sprites 0
      to n - 1 in order, each drawn over the previous ones. */
  function DrawSprites(mem: seq<bv8>, lcdc: bv8, screen: seq<bv8>, n: nat): (r: seq<bv8>)
    requires |mem| == MemorySize && |screen| == ScreenSize && n <= 40
    ensures |r| == ScreenSize
  {
    if n == 0 then screen else DrawSprite(mem, lcdc, DrawSprites(mem, lcdc, screen, n - 1), n - 1)
  }

  /** RenderSprites: nothing while LCDC bit 1 is clear, else the forty OAM
      entries in order, each drawn over the previous ones. */
  function RenderSprites(mem: seq<bv8>, lcdc: bv8, screen: seq<bv8>): (r: seq<bv8>)
    requires |mem| == MemorySize && |screen| == ScreenSize
    ensures |r| == ScreenSize
  {
    if !TestBit(lcdc, 1) then screen else DrawSprites(mem, lcdc, screen, 40)
  }

  // ---------------------------------------------------------------------
  // Properties
  // ---------------------------------------------------------------------

  /** GetColour reads palette entry `num` as the bit pair at 2 num, so the
      shade's position in the COLOUR enum is that 2-bit value; a number
      above 3 reads bit 0 twice. */
  lemma PaletteLookup(palette: bv8, num: bv8)
    ensures num <= 3 ==> GetColour(palette, num).Ordinal() == ((palette >> (2 * num as nat)) & 3) as int
    ensures num > 3 ==> GetColour(palette, num) == if TestBit(palette, 0) then DarkestGreen else LightestGreen
  {
    if num == 0 {
      assert (BitGetVal(palette, 1) << 1) | BitGetVal(palette, 0) == (palette >> 0) & 3;
    } else if num == 1 {
      assert (BitGetVal(palette, 3) << 1) | BitGetVal(palette, 2) == (palette >> 2) & 3;
    } else if num == 2 {
      assert (BitGetVal(palette, 5) << 1) | BitGetVal(palette, 4) == (palette >> 4) & 3;
    } else if num == 3 {
      assert (BitGetVal(palette, 7) << 1) | BitGetVal(palette, 6) == (palette >> 6) & 3;
    }
  }

  /** The sprite test for "the background shows lightest green" holds of a
      stored colour exactly when it is the lightest green. */
  lemma LightestTest(screen: seq<bv8>, ly: nat, pixel: nat, c: Colour)
    requires |screen| == ScreenSize && ly < ScreenHeight && pixel < ScreenWidth
    requires StoredAt(screen, ly, pixel) == PixelOf(c)
    ensures ShowsLightest(screen, Offset(ly, pixel)) <==> c == LightestGreen
  {
  }

  /** Painting one pixel sets its four bytes and keeps every other pixel
      of the line and every byte outside the line. */
  lemma PaintEffect(screen: seq<bv8>, ly: nat, pixel: nat, c: Colour)
    requires |screen| == ScreenSize && ly < ScreenHeight && pixel < ScreenWidth
    ensures var r := Paint(screen, ly, pixel, c);
      && StoredAt(r, ly, pixel) == PixelOf(c)
      && (forall p :: 0 <= p < ScreenWidth && p != pixel ==> StoredAt(r, ly, p) == StoredAt(screen, ly, p))
      && (forall k :: 0 <= k < ScreenSize && !InLine(k, ly) ==> r[k] == screen[k])
  {
  }

  /** The first `n` passes of the pixel loop paint exactly pixels 0 to
      n - 1 of the line, each with its background colour. */
  lemma {:induction false} PaintBackgroundUpTo(mem: seq<bv8>, lcdc: bv8, ly: nat, screen: seq<bv8>, n: nat)
    requires |mem| == MemorySize && |screen| == ScreenSize && ly < ScreenHeight && n <= ScreenWidth
    ensures var r := PaintBackground(mem, lcdc, ly, screen, n);
      && (forall p :: 0 <= p < ScreenWidth ==>
            StoredAt(r, ly, p) == if p < n then PixelOf(BackgroundColour(mem, lcdc, p)) else StoredAt(screen, ly, p))
      && (forall k :: 0 <= k < ScreenSize && !InLine(k, ly) ==> r[k] == screen[k])
  {
    if n > 0 {
      var prev := PaintBackground(mem, lcdc, ly, screen, n - 1);
      var c := BackgroundColour(mem, lcdc, n - 1);
      var r := Paint(prev, ly, n - 1, c);
      assert PaintBackground(mem, lcdc, ly, screen, n) == r;
      PaintBackgroundUpTo(mem, lcdc, ly, screen, n - 1);
      PaintEffect(prev, ly, n - 1, c);
      forall p | 0 <= p < ScreenWidth
        ensures StoredAt(r, ly, p) == if p < n then PixelOf(BackgroundColour(mem, lcdc, p)) else StoredAt(screen, ly, p)
      {
        if p != n - 1 {
          assert StoredAt(r, ly, p) == StoredAt(prev, ly, p);
        }
      }
    }
  }

  /** RenderBackground with LCDC bit 0 set and LY on the screen gives
      every pixel of line LY its background colour and keeps the rest of
      the screen; otherwise it changes nothing. */
  lemma BackgroundPaintsLine(mem: seq<bv8>, lcdc: bv8, screen: seq<bv8>)
    requires |mem| == MemorySize && |screen| == ScreenSize
    ensures var r := RenderBackground(mem, lcdc, screen); var ly := mem[0xFF44] as nat;
      if TestBit(lcdc, 0) && ly < ScreenHeight then
        && (forall p :: 0 <= p < ScreenWidth ==> StoredAt(r, ly, p) == PixelOf(BackgroundColour(mem, lcdc, p)))
        && (forall k :: 0 <= k < ScreenSize && !InLine(k, ly) ==> r[k] == screen[k])
      else r == screen
  {
    var ly := mem[0xFF44] as nat;
    if TestBit(lcdc, 0) && ly < ScreenHeight {
      PaintBackgroundUpTo(mem, lcdc, ly, screen, ScreenWidth);
    }
  }

  /** A pixel in one of the three colours a sprite can draw. */
  predicate DarkPixel(p: Stored)
  {
    p == PixelOf(LightGreen) || p == PixelOf(DarkGreen) || p == PixelOf(DarkestGreen)
  }

  /** What the sprite layer may do to a screen on line `ly`: every byte
      outside the line is kept, and every pixel of the line either keeps
      its stored value or shows a colour other than the lightest green. */
  predicate SpriteOutcome(before: seq<bv8>, after: seq<bv8>, ly: nat)
    requires |before| == ScreenSize && |after| == ScreenSize && ly < ScreenHeight
  {
    && (forall k :: 0 <= k < ScreenSize && !InLine(k, ly) ==> after[k] == before[k])
    && (forall p :: 0 <= p < ScreenWidth ==>
          StoredAt(after, ly, p) == StoredAt(before, ly, p) || DarkPixel(StoredAt(after, ly, p)))
  }

  lemma OutcomeChains(a: seq<bv8>, b: seq<bv8>, c: seq<bv8>, ly: nat)
    requires |a| == ScreenSize && |b| == ScreenSize && |c| == ScreenSize && ly < ScreenHeight
    requires SpriteOutcome(a, b, ly) && SpriteOutcome(b, c, ly)
    ensures SpriteOutcome(a, c, ly)
  {
  }

  /** One sprite pixel drawn in a colour other than the lightest green
      keeps to the sprite outcome. */
  lemma PaintOutcome(screen: seq<bv8>, ly: nat, pixel: nat, c: Colour)
    requires |screen| == ScreenSize && ly < ScreenHeight && pixel < ScreenWidth && c != LightestGreen
    ensures SpriteOutcome(screen, Paint(screen, ly, pixel, c), ly)
  {
    PaintEffect(screen, ly, pixel, c);
  }

  /** One pass of the inner loop keeps to the sprite outcome on a line
      of the screen. */
  lemma SpritePixelOutcome(mem: seq<bv8>, s: Sprite, ly: nat, data1: bv8, data2: bv8, screen: seq<bv8>, tilePixel: nat)
    requires |mem| == MemorySize && |screen| == ScreenSize && ly < ScreenHeight && tilePixel < 8
    ensures SpriteOutcome(screen, SpritePixel(mem, s, ly, data1, data2, screen, tilePixel), ly)
  {
    var col := SpriteColour(mem, s, data1, data2, tilePixel);
    var pixel := s.x as int + (7 - tilePixel);
    if SpritePixel(mem, s, ly, data1, data2, screen, tilePixel) != screen {
      PaintOutcome(screen, ly, pixel, col);
    }
  }

  /** The inner loop keeps to the sprite outcome on a line of the
      screen. */
  lemma {:induction false} SpritePixelsOutcome(mem: seq<bv8>, s: Sprite, ly: nat, data1: bv8, data2: bv8, screen: seq<bv8>, tilePixel: int)
    requires |mem| == MemorySize && |screen| == ScreenSize && ly < ScreenHeight && -1 <= tilePixel < 8
    ensures SpriteOutcome(screen, SpritePixels(mem, s, ly, data1, data2, screen, tilePixel), ly)
    decreases tilePixel + 1
  {
    if tilePixel >= 0 {
      var next := SpritePixel(mem, s, ly, data1, data2, screen, tilePixel);
      SpritePixelOutcome(mem, s, ly, data1, data2, screen, tilePixel);
      SpritePixelsOutcome(mem, s, ly, data1, data2, next, tilePixel - 1);
      OutcomeChains(screen, next, SpritePixels(mem, s, ly, data1, data2, screen, tilePixel), ly);
    }
  }

  /** Below the screen the inner loop draws nothing. */
  lemma {:induction false} SpritePixelsOffScreen(mem: seq<bv8>, s: Sprite, ly: nat, data1: bv8, data2: bv8, screen: seq<bv8>, tilePixel: int)
    requires |mem| == MemorySize && |screen| == ScreenSize && ly >= ScreenHeight && -1 <= tilePixel < 8
    ensures SpritePixels(mem, s, ly, data1, data2, screen, tilePixel) == screen
    decreases tilePixel + 1
  {
    if tilePixel >= 0 {
      SpritePixelsOffScreen(mem, s, ly, data1, data2, screen, tilePixel - 1);
    }
  }

  lemma DrawSpriteOutcome(mem: seq<bv8>, lcdc: bv8, screen: seq<bv8>, i: nat)
    requires |mem| == MemorySize && |screen| == ScreenSize && i < 40
    ensures var r := DrawSprite(mem, lcdc, screen, i); var ly := mem[0xFF44] as nat;
      if ly < ScreenHeight then SpriteOutcome(screen, r, ly) else r == screen
  {
    var s := SpriteAt(mem, i);
    var ly := mem[0xFF44] as nat;
    var height := SpriteHeight(lcdc);
    if OnSprite(s, ly, height) {
      var data1 := SpriteData(mem, s, ly, height, 0);
      var data2 := SpriteData(mem, s, ly, height, 1);
      if ly < ScreenHeight {
        SpritePixelsOutcome(mem, s, ly, data1, data2, screen, 7);
      } else {
        SpritePixelsOffScreen(mem, s, ly, data1, data2, screen, 7);
      }
    }
  }

  /** The outer loop keeps to the sprite outcome as well, and draws
      nothing below the screen. */
  lemma {:induction false} DrawSpritesOutcome(mem: seq<bv8>, lcdc: bv8, screen: seq<bv8>, n: nat)
    requires |mem| == MemorySize && |screen| == ScreenSize && n <= 40
    ensures var r := DrawSprites(mem, lcdc, screen, n); var ly := mem[0xFF44] as nat;
      if ly < ScreenHeight then SpriteOutcome(screen, r, ly) else r == screen
  {
    if n > 0 {
      var prev := DrawSprites(mem, lcdc, screen, n - 1);
      DrawSpritesOutcome(mem, lcdc, screen, n - 1);
      DrawSpriteOutcome(mem, lcdc, prev, n - 1);
      if mem[0xFF44] as nat < ScreenHeight {
        OutcomeChains(screen, prev, DrawSprites(mem, lcdc, screen, n), mem[0xFF44] as nat);
      }
    }
  }

  /** RenderSprites only ever changes line LY, and never draws the
      lightest green there: that shade is transparent for sprites. A line
      below the screen is left alone. */
  lemma SpritesNeverDrawLightest(mem: seq<bv8>, lcdc: bv8, screen: seq<bv8>)
    requires |mem| == MemorySize && |screen| == ScreenSize
    ensures var r := RenderSprites(mem, lcdc, screen); var ly := mem[0xFF44] as nat;
      if ly < ScreenHeight then SpriteOutcome(screen, r, ly) else r == screen
  {
    if TestBit(lcdc, 1) {
      DrawSpritesOutcome(mem, lcdc, screen, 40);
    }
  }

  /** The sprite test reads only the pixel's own red, green and blue. */
  lemma ShowsLightestStored(screen: seq<bv8>, ly: nat, pixel: nat)
    requires |screen| == ScreenSize && ly < ScreenHeight && pixel < ScreenWidth
    ensures var st := StoredAt(screen, ly, pixel);
      ShowsLightest(screen, Offset(ly, pixel)) <==> st.red == 155 && st.green == 188 && st.blue == 15
  {
  }

  /** What the inner loop of RenderSprites, run from tile pixel `upTo`
      down, leaves at screen pixel `pixel` of line `ly`: the tile pixel
      that lands there, if the loop reaches it, is drawn unless its colour
      is the lightest green or the sprite is behind a background that does
      not show the lightest green there; otherwise the pixel is kept. */
  function SpriteDrawnAt(mem: seq<bv8>, s: Sprite, data1: bv8, data2: bv8, screen: seq<bv8>, ly: nat, pixel: nat, upTo: int): Stored
    requires |mem| == MemorySize && |screen| == ScreenSize && ly < ScreenHeight && pixel < ScreenWidth && upTo < 8
  {
    var tilePixel := s.x as int + 7 - pixel;
    if 0 <= tilePixel <= upTo then
      var col := SpriteColour(mem, s, data1, data2, tilePixel);
      if col != LightestGreen && (!TestBit(s.attributes, 7) || ShowsLightest(screen, Offset(ly, pixel))) then PixelOf(col)
      else StoredAt(screen, ly, pixel)
    else StoredAt(screen, ly, pixel)
  }

  /** The inner loop from `tilePixel` down leaves every pixel of the line
      as SpriteDrawnAt says: each tile pixel lands on its own screen
      pixel, so no pass sees another pass's store. */
  lemma {:induction false} SpritePixelsAt(mem: seq<bv8>, s: Sprite, ly: nat, data1: bv8, data2: bv8, screen: seq<bv8>, tilePixel: int)
    requires |mem| == MemorySize && |screen| == ScreenSize && ly < ScreenHeight && -1 <= tilePixel < 8
    ensures var r := SpritePixels(mem, s, ly, data1, data2, screen, tilePixel);
      forall p :: 0 <= p < ScreenWidth ==> StoredAt(r, ly, p) == SpriteDrawnAt(mem, s, data1, data2, screen, ly, p, tilePixel)
    decreases tilePixel + 1
  {
    if tilePixel >= 0 {
      var next := SpritePixel(mem, s, ly, data1, data2, screen, tilePixel);
      SpritePixelsAt(mem, s, ly, data1, data2, next, tilePixel - 1);
      forall p | 0 <= p < ScreenWidth
        ensures SpriteDrawnAt(mem, s, data1, data2, next, ly, p, tilePixel - 1) == SpriteDrawnAt(mem, s, data1, data2, screen, ly, p, tilePixel)
      {
        SpritePixelAt(mem, s, ly, data1, data2, screen, tilePixel, p);
      }
    }
  }

  /** Whether pass `tilePixel` of the inner loop stores its colour. */
  predicate PassDraws(mem: seq<bv8>, s: Sprite, ly: nat, data1: bv8, data2: bv8, screen: seq<bv8>, tilePixel: nat)
    requires |mem| == MemorySize && |screen| == ScreenSize && ly < ScreenHeight && tilePixel < 8
  {
    var target := s.x as int + (7 - tilePixel);
    && SpriteColour(mem, s, data1, data2, tilePixel) != LightestGreen
    && target < ScreenWidth
    && (!TestBit(s.attributes, 7) || ShowsLightest(screen, Offset(ly, target)))
  }

  /** One pass of the inner loop, followed by the passes below it, leaves
      pixel `p` as all the passes from `tilePixel` down do. */
  lemma SpritePixelAt(mem: seq<bv8>, s: Sprite, ly: nat, data1: bv8, data2: bv8, screen: seq<bv8>, tilePixel: nat, p: nat)
    requires |mem| == MemorySize && |screen| == ScreenSize && ly < ScreenHeight && tilePixel < 8 && p < ScreenWidth
    ensures var next := SpritePixel(mem, s, ly, data1, data2, screen, tilePixel);
      SpriteDrawnAt(mem, s, data1, data2, next, ly, p, tilePixel - 1) == SpriteDrawnAt(mem, s, data1, data2, screen, ly, p, tilePixel)
  {
    var next := SpritePixel(mem, s, ly, data1, data2, screen, tilePixel);
    var target := s.x as int + (7 - tilePixel);
    var col := SpriteColour(mem, s, data1, data2, tilePixel);
    if PassDraws(mem, s, ly, data1, data2, screen, tilePixel) {
      assert next == Paint(screen, ly, target, col);
      if p == target {
        PaintStores(screen, ly, target, col);
      } else {
        PaintKeepsPixel(screen, ly, target, col, p);
      }
    } else {
      assert next == screen;
    }
    PassStep(mem, s, ly, data1, data2, screen, next, tilePixel, p);
  }

  /** The step of SpritePixelAt, for any screen `next` that holds at `p`
      what the pass stores there. */
  lemma PassStep(mem: seq<bv8>, s: Sprite, ly: nat, data1: bv8, data2: bv8, screen: seq<bv8>, next: seq<bv8>, tilePixel: nat, p: nat)
    requires |mem| == MemorySize && |screen| == ScreenSize && |next| == ScreenSize && ly < ScreenHeight && tilePixel < 8 && p < ScreenWidth
    requires StoredAt(next, ly, p) ==
      if p == s.x as int + (7 - tilePixel) && PassDraws(mem, s, ly, data1, data2, screen, tilePixel)
      then PixelOf(SpriteColour(mem, s, data1, data2, tilePixel))
      else StoredAt(screen, ly, p)
    ensures SpriteDrawnAt(mem, s, data1, data2, next, ly, p, tilePixel - 1) == SpriteDrawnAt(mem, s, data1, data2, screen, ly, p, tilePixel)
  {
    if p != s.x as int + (7 - tilePixel) {
      ShowsLightestStored(next, ly, p);
      ShowsLightestStored(screen, ly, p);
    }
  }

  /** The pixel Paint paints shows its colour. */
  lemma PaintStores(screen: seq<bv8>, ly: nat, pixel: nat, c: Colour)
    requires |screen| == ScreenSize && ly < ScreenHeight && pixel < ScreenWidth
    ensures StoredAt(Paint(screen, ly, pixel, c), ly, pixel) == PixelOf(c)
  {
  }

  /** Paint keeps every other pixel of the line. */
  lemma PaintKeepsPixel(screen: seq<bv8>, ly: nat, pixel: nat, c: Colour, p: nat)
    requires |screen| == ScreenSize && ly < ScreenHeight && pixel < ScreenWidth && p < ScreenWidth && p != pixel
    ensures StoredAt(Paint(screen, ly, pixel, c), ly, p) == StoredAt(screen, ly, p)
  {
  }

  /** One pass of the outer loop leaves every pixel of line LY as
      SpriteDrawnAt says for the sprite's two tile bytes, when the line
      crosses the sprite, and keeps it otherwise. */
  lemma DrawSpriteAt(mem: seq<bv8>, lcdc: bv8, screen: seq<bv8>, i: nat)
    requires |mem| == MemorySize && |screen| == ScreenSize && i < 40
    ensures var s := SpriteAt(mem, i); var ly := mem[0xFF44] as nat; var height := SpriteHeight(lcdc);
      var r := DrawSprite(mem, lcdc, screen, i);
      ly < ScreenHeight ==> forall p :: 0 <= p < ScreenWidth ==>
        StoredAt(r, ly, p) ==
          if OnSprite(s, ly, height)
          then SpriteDrawnAt(mem, s, SpriteData(mem, s, ly, height, 0), SpriteData(mem, s, ly, height, 1), screen, ly, p, 7)
          else StoredAt(screen, ly, p)
  {
    var s := SpriteAt(mem, i);
    var ly := mem[0xFF44] as nat;
    var height := SpriteHeight(lcdc);
    if ly < ScreenHeight && OnSprite(s, ly, height) {
      SpritePixelsAt(mem, s, ly, SpriteData(mem, s, ly, height, 0), SpriteData(mem, s, ly, height, 1), screen, 7);
    }
  }

  /** A sprite behind the background (attribute bit 7 set) never
      overwrites a pixel of line LY that does not show the lightest
      green. */
  lemma BehindBackgroundKeepsShade(mem: seq<bv8>, lcdc: bv8, screen: seq<bv8>, i: nat)
    requires |mem| == MemorySize && |screen| == ScreenSize && i < 40
    requires TestBit(SpriteAt(mem, i).attributes, 7)
    ensures var ly := mem[0xFF44] as nat; var r := DrawSprite(mem, lcdc, screen, i);
      ly < ScreenHeight ==> forall p :: 0 <= p < ScreenWidth && !ShowsLightest(screen, Offset(ly, p)) ==>
        StoredAt(r, ly, p) == StoredAt(screen, ly, p)
  {
    DrawSpriteAt(mem, lcdc, screen, i);
  }

  /** A sprite in front of the background (attribute bit 7 clear) paints
      every tile pixel of line LY that lands on the screen and whose colour
      is not the lightest green, in that colour, whatever was there. */
  lemma InFrontPaintsColour(mem: seq<bv8>, lcdc: bv8, screen: seq<bv8>, i: nat, tilePixel: nat)
    requires |mem| == MemorySize && |screen| == ScreenSize && i < 40 && tilePixel < 8
    requires !TestBit(SpriteAt(mem, i).attributes, 7)
    ensures var s := SpriteAt(mem, i); var ly := mem[0xFF44] as nat; var height := SpriteHeight(lcdc);
      var pixel := s.x as int + (7 - tilePixel); var r := DrawSprite(mem, lcdc, screen, i);
      ly < ScreenHeight && OnSprite(s, ly, height) && pixel < ScreenWidth ==>
        var col := SpriteColour(mem, s, SpriteData(mem, s, ly, height, 0), SpriteData(mem, s, ly, height, 1), tilePixel);
        col != LightestGreen ==> StoredAt(r, ly, pixel) == PixelOf(col)
  {
    DrawSpriteAt(mem, lcdc, screen, i);
  }

  /** On the top line of a vertically flipped sprite the row offset is
      2 * height, one row past the sprite's tile data. */
  lemma FlippedTopLineReadsPastTile(s: Sprite, height: nat)
    requires TestBit(s.attributes, 6) && height > 0
    ensures SpriteRowOffset(s, s.y as nat, height) == 2 * height
  {
  }
}
