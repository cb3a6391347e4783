/** The picture as the bytes of video memory and the registers make it: addresses and bits only. */
module ScreenBytes {
  import opened Bits
  import opened Audio
  import opened Picture
  import opened Compositor

  function Digit(b: bool): nat {
    if b then 1 else 0
  }

  /** Bit `column` of the two bytes of a tile row, the second byte the upper bit. */
  function RowColour(g: Gpu, row: u16, column: nat): nat
    requires IsVideoAddress(row) && IsVideoAddress(row + 1)
  {
    2 * Digit(Bit(VideoByte(g, row + 1), column)) + Digit(Bit(VideoByte(g, row), column))
  }

  /** Field `index` of a palette of four two-bit fields, the first lowest. */
  function Field(palette: u8, index: nat): nat {
    2 * Digit(Bit(palette, 2 * index + 1)) + Digit(Bit(palette, 2 * index))
  }

  /** The row of the background or window tile at a point of a map: the map at 0x9800 or 0x9C00 holds one
      byte per tile, 32 to a row, and tiles are numbered from 0x8000, or signed from 0x9000. */
  function MapRow16(g: Gpu, m: IoMemory, x: nat, y: nat, second: bool): u16 {
    var entry := VideoByte(g, (if second then 0x9C00 else 0x9800) + 0x20 * (y / 8 % 0x20) + x / 8 % 0x20);
    var tile := if Bit(m[0x40], 4) then 0x8000 + 0x10 * entry else 0x9000 + 0x10 * (if entry < 0x80 then entry else entry - 0x100);
    tile + 2 * (y % 8)
  }

  function MapShade(g: Gpu, m: IoMemory, x: nat, y: nat, second: bool): nat {
    Field(m[0x47], RowColour(g, MapRow16(g, m, x, y, second), 7 - x % 8))
  }

  // ----- sprites: y, x, tile and attributes at 0xFE00 + 4k -----

  function SpriteByte(g: Gpu, k: nat, j: nat): u8
    requires k < 40 && j < 4
  {
    VideoByte(g, 0xFE00 + 4 * k + j)
  }

  function Height(m: IoMemory): nat {
    if Bit(m[0x40], 2) then 16 else 8
  }

  predicate OnLine(g: Gpu, m: IoMemory, y: nat, k: nat)
    requires k < 40
  {
    SpriteByte(g, k, 0) <= y + 16 < SpriteByte(g, k, 0) + Height(m)
  }

  predicate InColumn(g: Gpu, x: nat, k: nat)
    requires k < 40
  {
    SpriteByte(g, k, 1) <= x + 8 < SpriteByte(g, k, 1) + 8
  }

  /** The address of the tile row of sprite k on line y; attribute bit 6 counts the rows down from the height. */
  function SpriteRow16(g: Gpu, m: IoMemory, y: nat, k: nat): u16
    requires k < 40 && OnLine(g, m, y, k)
  {
    var row := y + 16 - SpriteByte(g, k, 0);
    var row := if Bit(SpriteByte(g, k, 3), 6) then Height(m) - row else row;
    var n := SpriteByte(g, k, 2);
    var tile := if Bit(m[0x40], 2) then 2 * (n / 2) + (if row >= 8 then 1 else 0) else n;
    0x8000 + 0x10 * tile + 2 * (row % 8)
  }

  /** Attribute bit 5 mirrors the columns. */
  function SpriteIndex(g: Gpu, m: IoMemory, x: nat, y: nat, k: nat): nat
    requires k < 40 && OnLine(g, m, y, k) && InColumn(g, x, k)
  {
    var column := x + 8 - SpriteByte(g, k, 1);
    RowColour(g, SpriteRow16(g, m, y, k), if Bit(SpriteByte(g, k, 3), 5) then column else 7 - column)
  }

  /** Attribute bit 4 picks the palette at 0xFF48 or 0xFF49. */
  function SpriteField(g: Gpu, m: IoMemory, x: nat, y: nat, k: nat): nat
    requires k < 40 && OnLine(g, m, y, k) && InColumn(g, x, k)
  {
    Field(if Bit(SpriteByte(g, k, 3), 4) then m[0x49] else m[0x48], SpriteIndex(g, m, x, y, k))
  }

  function OnLineSoFar(g: Gpu, m: IoMemory, y: nat, k: nat): nat
    requires k <= 40
  {
    if k == 0 then 0 else OnLineSoFar(g, m, y, k - 1) + Digit(OnLine(g, m, y, k - 1))
  }

  predicate Visible(g: Gpu, m: IoMemory, x: nat, y: nat, k: nat)
    requires k < 40
  {
    OnLine(g, m, y, k) && OnLineSoFar(g, m, y, k) < 10 && InColumn(g, x, k) && SpriteIndex(g, m, x, y, k) != 0
  }

  /** The first visible sprite from k on, or 40. */
  function FirstVisible(g: Gpu, m: IoMemory, x: nat, y: nat, k: nat): (first: nat)
    requires k <= 40
    ensures k <= first <= 40 && (first < 40 ==> Visible(g, m, x, y, first))
    decreases 40 - k
  {
    if k == 40 || Visible(g, m, x, y, k) then k else FirstVisible(g, m, x, y, k + 1)
  }

  /** The shade of a pixel: a sprite in front, the window, the background where it is not 0, a sprite behind. */
  function ShadeAt(g: Gpu, m: IoMemory, x: nat, y: nat): nat {
    var k := if Bit(m[0x40], 1) then FirstVisible(g, m, x, y, 0) else 40;
    var sprite := if k < 40 then SpriteField(g, m, x, y, k) else 0;
    if k < 40 && !Bit(SpriteByte(g, k, 3), 7) then sprite
    else if Bit(m[0x40], 5) && m[0x4B] <= 166 && 0 <= x + 7 - m[0x4B] < 160 && 0 <= g.windowLine - m[0x4A] < 144 then
      MapShade(g, m, x + 7 - m[0x4B], g.windowLine - m[0x4A], Bit(m[0x40], 6))
    else
      var under := if Bit(m[0x40], 0) then MapShade(g, m, x + m[0x43], y + m[0x42], Bit(m[0x40], 3)) else 0;
      if under != 0 then under else sprite
  }

  // ----- the compositor draws exactly that -----

  lemma {:induction false} ShrDigit(x: nat, n: nat)
    ensures Shr(x, n) % 2 == Digit(Bit(x, n))
    ensures Shr(x, n) / 2 == Shr(x, n + 1)
    decreases n
  {
    if n > 0 {
      ShrDigit(x / 2, n - 1);
    } else {
      assert Shr(x, 1) == Shr(x / 2, 0);
    }
  }

  lemma ShadeIsField(palette: u8, index: nat)
    ensures Picture.Shade(palette, index) == Field(palette, index)
  {
    hide Shr, Bit;
    ShrDigit(palette, 2 * index);
    ShrDigit(palette, 2 * index + 1);
    var x := Shr(palette, 2 * index);
    assert x % 4 == x / 2 % 2 * 2 + x % 2;
  }

  lemma PatternRow(g: Gpu, tile: nat, row: nat, half: nat)
    requires tile < 0x180 && row < 8 && half < 2
    ensures VideoByte(g, 0x8000 + 0x10 * tile + 2 * row + half) == g.patterns[tile][row][half]
  {
    var o := 0x10 * tile + 2 * row + half;
    assert o / 0x10 == tile && o % 0x10 == 2 * row + half;
    assert (2 * row + half) / 2 == row && o % 2 == half;
  }

  lemma ColourIsRow(g: Gpu, tile: nat, row: nat, column: nat)
    requires tile < 0x180 && row < 8 && column < 8
    ensures ColourIndex(g.patterns[tile], row, column) == RowColour(g, 0x8000 + 0x10 * tile + 2 * row, 7 - column)
  {
    hide Shr, Bit, VideoByte;
    PatternRow(g, tile, row, 0);
    PatternRow(g, tile, row, 1);
    ShrDigit(g.patterns[tile][row][0], 7 - column);
    ShrDigit(g.patterns[tile][row][1], 7 - column);
  }

  lemma MapEntry(g: Gpu, second: bool, row: nat, column: nat)
    requires row < 0x20 && column < 0x20
    ensures VideoByte(g, (if second then 0x9C00 else 0x9800) + 0x20 * row + column) == g.backgrounds[if second then 1 else 0][row][column]
  {
    var o := (if second then 0x400 else 0) + 0x20 * row + column;
    assert o / 0x400 == (if second then 1 else 0) && o % 0x400 == 0x20 * row + column;
    assert (0x20 * row + column) / 0x20 == row && o % 0x20 == column;
  }

  lemma MapShadeIs(g: Gpu, m: IoMemory, x: u16, y: u16, second: bool)
    ensures PixelFromMap(g, m, x, y, second) == MapShade(g, m, x, y, second)
  {
    hide ColourIndex, RowColour, VideoByte, Picture.Shade, Field, Bit;
    BitDigits(m[0x40]);
    var row, column: nat := y / 8 % 0x20, x / 8 % 0x20;
    MapEntry(g, second, row, column);
    var entry := g.backgrounds[if second then 1 else 0][row][column];
    var tile := if m[0x40] / 0x10 % 2 == 0 then 0x100 + Signed8(entry) else entry;
    ColourIsRow(g, tile, y % 8, x % 8);
    ShadeIsField(m[0x47], ColourIndex(g.patterns[tile], y % 8, x % 8));
  }

  lemma SpriteBytes(g: Gpu, k: nat)
    requires k < 40
    ensures SpriteByte(g, k, 0) == g.sprites[k].y && SpriteByte(g, k, 1) == g.sprites[k].x
    ensures SpriteByte(g, k, 2) == g.sprites[k].tile && SpriteByte(g, k, 3) == g.sprites[k].attribs
  {
    assert 4 * k / 4 == k && (4 * k + 1) / 4 == k && (4 * k + 2) / 4 == k && (4 * k + 3) / 4 == k;
  }

  lemma HeightIs(m: IoMemory)
    ensures SpriteHeight(m) == Height(m)
  {
    hide Bit;
    BitDigits(m[0x40]);
  }

  lemma OnLineIs(g: Gpu, m: IoMemory, y: nat, k: nat)
    requires k < 40
    ensures OnScanline(g.sprites[k], m, y) == OnLine(g, m, y, k)
  {
    hide SpriteByte, SpriteHeight, Height;
    SpriteBytes(g, k);
    HeightIs(m);
  }

  lemma InColumnIs(g: Gpu, x: nat, k: nat)
    requires k < 40
    ensures CoversColumn(g.sprites[k], x) == InColumn(g, x, k)
  {
    hide SpriteByte;
    SpriteBytes(g, k);
  }

  lemma SpriteRowIs(g: Gpu, m: IoMemory, y: nat, k: nat)
    requires k < 40 && OnLine(g, m, y, k) && OnScanline(g.sprites[k], m, y)
    ensures var s := g.sprites[k]; var row := SpriteRow(s, m, y);
      SpriteRow16(g, m, y, k) == 0x8000 + 0x10 * SpriteTile(s, m, row) + 2 * (row % 8)
  {
    hide SpriteByte, Bit;
    SpriteBytes(g, k);
    BitDigits(m[0x40]);
    BitDigits(g.sprites[k].attribs);
  }

  lemma SpriteIndexIs(g: Gpu, m: IoMemory, x: nat, y: nat, k: nat)
    requires k < 40 && OnLine(g, m, y, k) && InColumn(g, x, k) && OnScanline(g.sprites[k], m, y) && CoversColumn(g.sprites[k], x)
    ensures SpriteColour(g.sprites[k], g, m, x, y) == SpriteIndex(g, m, x, y, k)
  {
    hide SpriteByte, Bit, ColourIndex, RowColour, SpriteRow, SpriteTile, SpriteRow16;
    var s := g.sprites[k];
    SpriteBytes(g, k);
    BitDigits(s.attribs);
    SpriteRowIs(g, m, y, k);
    var row := SpriteRow(s, m, y);
    ColourIsRow(g, SpriteTile(s, m, row), row % 8, SpriteColumn(s, x));
  }

  lemma {:induction false} SoFarIs(g: Gpu, m: IoMemory, y: nat, k: nat)
    requires k <= 40
    ensures OnLineBefore(g, m, y, k) == OnLineSoFar(g, m, y, k)
  {
    hide OnScanline, OnLine;
    if k > 0 {
      OnLineIs(g, m, y, k - 1);
      SoFarIs(g, m, y, k - 1);
    }
  }

  lemma VisibleIs(g: Gpu, m: IoMemory, x: nat, y: nat, k: nat)
    requires k < 40
    ensures Shows(g, m, x, y, k) == Visible(g, m, x, y, k)
  {
    hide OnScanline, CoversColumn, OnLine, InColumn, SpriteColour, SpriteIndex, OnLineBefore, OnLineSoFar;
    OnLineIs(g, m, y, k);
    InColumnIs(g, x, k);
    SoFarIs(g, m, y, k);
    if OnLine(g, m, y, k) && InColumn(g, x, k) {
      SpriteIndexIs(g, m, x, y, k);
    }
  }

  lemma HitIs(g: Gpu, m: IoMemory, x: nat, y: nat, k: nat)
    requires k < 40 && Shows(g, m, x, y, k) && Visible(g, m, x, y, k)
    ensures HitBy(g, m, x, y, k) == Opaque(SpriteField(g, m, x, y, k), !Bit(SpriteByte(g, k, 3), 7))
  {
    hide SpriteByte, Bit, SpriteColour, SpriteIndex, Field, Picture.Shade, OnLine, InColumn, OnScanline, CoversColumn, OnLineBefore, OnLineSoFar;
    SpriteBytes(g, k);
    BitDigits(g.sprites[k].attribs);
    SpriteIndexIs(g, m, x, y, k);
    ShadeIsField(m[0x48], SpriteIndex(g, m, x, y, k));
    ShadeIsField(m[0x49], SpriteIndex(g, m, x, y, k));
  }

  lemma {:induction false} FirstIsFirst(g: Gpu, m: IoMemory, x: nat, y: nat, k: nat, j: nat)
    requires k <= j < 40 && Visible(g, m, x, y, j) && forall i :: k <= i < j ==> !Visible(g, m, x, y, i)
    ensures FirstVisible(g, m, x, y, k) == j
    decreases j - k
  {
    hide Visible;
    if k < j {
      FirstIsFirst(g, m, x, y, k + 1, j);
    }
  }

  lemma {:induction false} NoneIsFirst(g: Gpu, m: IoMemory, x: nat, y: nat, k: nat)
    requires k <= 40 && forall i :: k <= i < 40 ==> !Visible(g, m, x, y, i)
    ensures FirstVisible(g, m, x, y, k) == 40
    decreases 40 - k
  {
    hide Visible;
    if k < 40 {
      NoneIsFirst(g, m, x, y, k + 1);
    }
  }

  lemma SpriteAtIs(g: Gpu, m: IoMemory, x: nat, y: nat)
    ensures var k := if Bit(m[0x40], 1) then FirstVisible(g, m, x, y, 0) else 40;
      SpriteAt(g, m, x, y) == if k == 40 then NoSprite else Opaque(SpriteField(g, m, x, y, k), !Bit(SpriteByte(g, k, 3), 7))
  {
    hide SpriteScan, Shows, Visible, Bit, HitBy, SpriteField, SpriteByte;
    BitDigits(m[0x40]);
    SpriteAtIsFirst(g, m, x, y);
    forall k | 0 <= k < 40 ensures Shows(g, m, x, y, k) == Visible(g, m, x, y, k) {
      VisibleIs(g, m, x, y, k);
    }
    if Bit(m[0x40], 1) {
      if SpriteAt(g, m, x, y).NoSprite? {
        NoneIsFirst(g, m, x, y, 0);
      } else {
        var j :| 0 <= j < 40 && ShowsFirst(g, m, x, y, j) && SpriteAt(g, m, x, y) == HitBy(g, m, x, y, j);
        FirstIsFirst(g, m, x, y, 0, j);
        HitIs(g, m, x, y, j);
      }
    }
  }

  /** Every pixel of the compositor has the shade that the bytes of memory give it. */
  lemma PixelFromBytes(g: Gpu, m: IoMemory, x: nat, y: nat)
    requires x < 160 && y < 0x100
    ensures Pixel(g, m, x, y) == ShadeAt(g, m, x, y)
  {
    hide SpriteAt, PixelFromMap, MapShade, FirstVisible, Visible, SpriteField, SpriteByte, Bit;
    BitDigits(m[0x40]);
    SpriteAtIs(g, m, x, y);
    if WindowCovers(g, m, x) {
      MapShadeIs(g, m, x + 7 - m[0x4B], g.windowLine - m[0x4A], Bit(m[0x40], 6));
    }
    MapShadeIs(g, m, x + m[0x43], y + m[0x42], Bit(m[0x40], 3));
  }

  /** A rendered line is those shades, column by column, for the line in LY. */
  lemma LineFromBytes(g: Gpu, m: IoMemory)
    ensures |LinePixels(g, m)| == 160 && forall x :: 0 <= x < 160 ==> LinePixels(g, m)[x] == ShadeAt(g, m, x, m[0x44])
  {
    hide Pixel, ShadeAt;
    forall x | 0 <= x < 160 ensures LinePixels(g, m)[x] == ShadeAt(g, m, x, m[0x44]) {
      PixelFromBytes(g, m, x, m[0x44]);
    }
  }
}
