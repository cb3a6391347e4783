/** The picture unit: video memory, the line compositor and the LCD stage machine. */
module Picture {
  import opened Outcomes
  import opened Bits
  import opened Audio

  const IF := 0x0F
  const LCDC := 0x40
  const STAT := 0x41
  const SCY := 0x42
  const SCX := 0x43
  const LY := 0x44
  const LYC := 0x45
  const BGP := 0x47
  const OBP0 := 0x48
  const WY := 0x4A
  const WX := 0x4B

  const SCREEN_WIDTH := 160

  datatype Sprite = Sprite(y: u8, x: u8, tile: u8, attribs: u8)

  type Row = s: seq<u8> | |s| == 2 witness [0, 0]
  type Tile = s: seq<Row> | |s| == 8 witness BlankTile()
  type Patterns = s: seq<Tile> | |s| == 0x180 witness BlankPatterns()
  type MapRow = s: seq<u8> | |s| == 0x20 witness seq(0x20, _ => 0)
  type Background = s: seq<MapRow> | |s| == 0x20 witness BlankBackground()
  type Backgrounds = s: seq<Background> | |s| == 2 witness BlankBackgrounds()
  type Sprites = s: seq<Sprite> | |s| == 40 witness seq(40, _ => Sprite(0, 0, 0, 0))

  function BlankTile(): (t: seq<Row>)
    ensures |t| == 8
  {
    seq<Row>(8, _ => [0, 0])
  }

  function BlankPatterns(): (p: seq<Tile>)
    ensures |p| == 0x180
  {
    seq<Tile>(0x180, _ => BlankTile())
  }

  function BlankBackground(): (b: seq<MapRow>)
    ensures |b| == 0x20
  {
    seq<MapRow>(0x20, _ => seq<u8>(0x20, _ => 0))
  }

  function BlankBackgrounds(): (b: seq<Background>)
    ensures |b| == 2
  {
    [BlankBackground(), BlankBackground()]
  }

  datatype Gpu = Gpu(sprites: Sprites, patterns: Patterns, backgrounds: Backgrounds, dots: nat, windowLine: nat)

  function InitialGpu(): Gpu {
    Gpu(seq(40, _ => Sprite(0, 0, 0, 0)), BlankPatterns(), BlankBackgrounds(), 0, 0)
  }

  // ----- video memory -----

  predicate IsPatternAddress(addr: int) {
    0x8000 <= addr < 0x9800
  }

  predicate IsMapAddress(addr: int) {
    0x9800 <= addr < 0xA000
  }

  predicate IsOamAddress(addr: int) {
    0xFE00 <= addr < 0xFEA0
  }

  predicate IsVideoAddress(addr: int) {
    0x8000 <= addr < 0xA000 || IsOamAddress(addr)
  }

  function PatternByte(p: Patterns, addr: u16): u8
    requires IsPatternAddress(addr)
  {
    p[(addr - 0x8000) / 0x10][(addr - 0x8000) % 0x10 / 2][(addr - 0x8000) % 2]
  }

  function WithPatternByte(p: Patterns, addr: u16, v: u8): Patterns
    requires IsPatternAddress(addr)
  {
    var tile, row, half := (addr - 0x8000) / 0x10, (addr - 0x8000) % 0x10 / 2, (addr - 0x8000) % 2;
    var newRow: Row := p[tile][row][half := v];
    var newTile: Tile := p[tile][row := newRow];
    p[tile := newTile]
  }

  function MapByte(b: Backgrounds, addr: u16): u8
    requires IsMapAddress(addr)
  {
    b[(addr - 0x9800) / 0x400][(addr - 0x9800) % 0x400 / 0x20][(addr - 0x9800) % 0x20]
  }

  function WithMapByte(b: Backgrounds, addr: u16, v: u8): Backgrounds
    requires IsMapAddress(addr)
  {
    var map', row, col := (addr - 0x9800) / 0x400, (addr - 0x9800) % 0x400 / 0x20, (addr - 0x9800) % 0x20;
    var newRow: MapRow := b[map'][row][col := v];
    var newMap: Background := b[map'][row := newRow];
    b[map' := newMap]
  }

  function Attribute(s: Sprite, k: nat): u8 {
    match k
    case 0 => s.y
    case 1 => s.x
    case 2 => s.tile
    case _ => s.attribs
  }

  function WithAttribute(s: Sprite, k: nat, v: u8): Sprite {
    match k
    case 0 => s.(y := v)
    case 1 => s.(x := v)
    case 2 => s.(tile := v)
    case _ => s.(attribs := v)
  }

  function OamByte(s: Sprites, addr: u16): u8
    requires IsOamAddress(addr)
  {
    Attribute(s[(addr - 0xFE00) / 4], (addr - 0xFE00) % 4)
  }

  function WithOamByte(s: Sprites, addr: u16, v: u8): Sprites
    requires IsOamAddress(addr)
  {
    s[(addr - 0xFE00) / 4 := WithAttribute(s[(addr - 0xFE00) / 4], (addr - 0xFE00) % 4, v)]
  }

  function Mode(m: IoMemory): nat {
    m[STAT] % 4
  }

  /** May the CPU (not a DMA) touch this address while the picture unit is in its current mode? */
  predicate Accessible(m: IoMemory, addr: u16) {
    if IsOamAddress(addr) then Mode(m) != 2 && Mode(m) != 3 else Mode(m) != 3
  }

  /** The stored byte, whatever the mode. */
  function VideoByte(g: Gpu, addr: u16): u8
    requires IsVideoAddress(addr)
  {
    if IsPatternAddress(addr) then PatternByte(g.patterns, addr)
    else if IsMapAddress(addr) then MapByte(g.backgrounds, addr)
    else OamByte(g.sprites, addr)
  }

  function WithVideoByte(g: Gpu, addr: u16, v: u8): Gpu
    requires IsVideoAddress(addr)
  {
    if IsPatternAddress(addr) then g.(patterns := WithPatternByte(g.patterns, addr, v))
    else if IsMapAddress(addr) then g.(backgrounds := WithMapByte(g.backgrounds, addr, v))
    else g.(sprites := WithOamByte(g.sprites, addr, v))
  }

  function ReadVideo(g: Gpu, m: IoMemory, addr: u16, isDma: bool): Outcome<u8>
    requires IsVideoAddress(addr)
  {
    if !isDma && !Accessible(m, addr) then Err(PpuViolation) else Ok(VideoByte(g, addr))
  }

  function WriteVideo(g: Gpu, m: IoMemory, addr: u16, v: u8, isDma: bool): Outcome<Gpu>
    requires IsVideoAddress(addr)
  {
    if !isDma && !Accessible(m, addr) then Err(PpuViolation) else Ok(WithVideoByte(g, addr, v))
  }

  // ----- the compositor -----

  function ColourIndex(t: Tile, row: nat, column: nat): (c: nat)
    requires row < 8 && column < 8
    ensures c < 4
  {
    Shr(t[row][1], 7 - column) % 2 * 2 + Shr(t[row][0], 7 - column) % 2
  }

  function Shade(palette: u8, index: nat): (c: nat)
    ensures c < 4
  {
    Shr(palette, 2 * index) % 4
  }

  function SpriteHeight(m: IoMemory): nat {
    if m[LCDC] / 4 % 2 == 1 then 16 else 8
  }

  predicate OnScanline(s: Sprite, m: IoMemory, screenY: nat) {
    s.y <= screenY + 16 < s.y + SpriteHeight(m)
  }

  predicate CoversColumn(s: Sprite, screenX: nat) {
    screenX < s.x <= screenX + 8
  }

  function SpriteRow(s: Sprite, m: IoMemory, screenY: nat): (row: nat)
    requires OnScanline(s, m, screenY)
    ensures row <= 16
  {
    var row := 16 + screenY - s.y;
    if s.attribs / 0x40 % 2 == 1 then SpriteHeight(m) - row else row
  }

  function SpriteColumn(s: Sprite, screenX: nat): (column: nat)
    requires CoversColumn(s, screenX)
    ensures column < 8
  {
    var column := 8 + screenX - s.x;
    if s.attribs / 0x20 % 2 == 1 then 7 - column else column
  }

  function SpriteTile(s: Sprite, m: IoMemory, row: nat): (t: nat)
    ensures t < 0x100
  {
    if m[LCDC] / 4 % 2 == 1 then s.tile - s.tile % 2 + (if row > 7 then 1 else 0) else s.tile
  }

  function SpriteColour(s: Sprite, g: Gpu, m: IoMemory, screenX: nat, screenY: nat): nat
    requires OnScanline(s, m, screenY) && CoversColumn(s, screenX)
  {
    var row := SpriteRow(s, m, screenY);
    ColourIndex(g.patterns[SpriteTile(s, m, row)], row % 8, SpriteColumn(s, screenX))
  }

  function SpriteShade(s: Sprite, m: IoMemory, index: nat): nat {
    Shade(m[OBP0 + s.attribs / 0x10 % 2], index)
  }

  function PixelFromMap(g: Gpu, m: IoMemory, mapX: u16, mapY: u16, second: bool): (c: nat)
    ensures c < 4
  {
    var entry := g.backgrounds[if second then 1 else 0][mapY / 8 % 0x20][mapX / 8 % 0x20];
    var tile := if m[LCDC] / 0x10 % 2 == 0 then 0x100 + Signed8(entry) else entry;
    Shade(m[BGP], ColourIndex(g.patterns[tile], mapY % 8, mapX % 8))
  }

  datatype SpriteHit = NoSprite | Opaque(shade: nat, front: bool)

  /** Scans OAM from entry k with `count` entries of this line already seen. */
  function SpriteScan(g: Gpu, m: IoMemory, screenX: nat, screenY: nat, k: nat, count: nat): SpriteHit
    requires k <= 40
    decreases 40 - k
  {
    if k == 40 then NoSprite
    else
      var s := g.sprites[k];
      if !OnScanline(s, m, screenY) then SpriteScan(g, m, screenX, screenY, k + 1, count)
      else if count + 1 > 10 || !CoversColumn(s, screenX) || SpriteColour(s, g, m, screenX, screenY) == 0
      then SpriteScan(g, m, screenX, screenY, k + 1, count + 1)
      else Opaque(SpriteShade(s, m, SpriteColour(s, g, m, screenX, screenY)), s.attribs < 0x80)
  }

  function SpriteAt(g: Gpu, m: IoMemory, screenX: nat, screenY: nat): SpriteHit {
    if m[LCDC] / 2 % 2 == 1 then SpriteScan(g, m, screenX, screenY, 0, 0) else NoSprite
  }

  predicate WindowCovers(g: Gpu, m: IoMemory, screenX: nat) {
    && m[WX] <= 166
    && 0 <= screenX + 7 - m[WX] < 160
    && 0 <= g.windowLine - m[WY] < 144
  }

  function Pixel(g: Gpu, m: IoMemory, screenX: nat, screenY: nat): nat
    requires screenX < SCREEN_WIDTH && screenY < 0x100
  {
    var sprite := SpriteAt(g, m, screenX, screenY);
    if sprite.Opaque? && sprite.front then sprite.shade
    else if m[LCDC] / 0x20 % 2 == 1 && WindowCovers(g, m, screenX) then
      PixelFromMap(g, m, screenX + 7 - m[WX], g.windowLine - m[WY], m[LCDC] / 0x40 % 2 == 1)
    else
      var under := if sprite.Opaque? then sprite.shade else 0;
      if m[LCDC] % 2 == 1 then
        var background := PixelFromMap(g, m, screenX + m[SCX], screenY + m[SCY], m[LCDC] / 8 % 2 == 1);
        if background != 0 then background else under
      else under
  }

  function AdvanceWindow(g: Gpu, m: IoMemory): Gpu {
    if m[WX] <= 166 || m[LCDC] / 0x20 % 2 == 1 then g.(windowLine := g.windowLine + 1) else g
  }

  function LinePixels(g: Gpu, m: IoMemory): (pixels: seq<nat>)
    ensures |pixels| == SCREEN_WIDTH
  {
    seq(SCREEN_WIDTH, x requires 0 <= x < SCREEN_WIDTH => Pixel(g, m, x, m[LY]))
  }

  // ----- the LCD stage machine -----

  const DOTS_PER_LINE := 456
  const VISIBLE_DOTS := 65664
  const FRAME_DOTS := 70224

  /** What a frame leaves behind, each event stamped with the cycle at which it happened. */
  datatype LcdEvent =
    | Line(y: nat, pixels: seq<nat>, cycle: nat)
    | VBlank(cycle: nat)
    | Commit(cycle: nat)

  datatype LcdUpdate = LcdUpdate(gpu: Gpu, memory: IoMemory, events: seq<LcdEvent>)

  predicate LcdOn(m: IoMemory) {
    m[LCDC] >= 0x80
  }

  function WithMode(m: IoMemory, stage: nat): IoMemory
    requires stage < 4
  {
    m[STAT := m[STAT] - m[STAT] % 4 + stage]
  }

  function Request(m: IoMemory, mask: u8): IoMemory {
    m[IF := Or8(m[IF], mask)]
  }

  /** Enters a stage that is not the current one. */
  function EnterStage(m: IoMemory, stage: nat, interrupt: bool): IoMemory
    requires stage < 4
  {
    WithMode(if interrupt then Request(m, 2) else m, stage)
  }

  /** The coincidence flag, refreshed when a line starts. */
  function CompareLine(m: IoMemory): IoMemory {
    var stat := m[STAT] - m[STAT] / 4 % 2 * 4;
    var m := m[STAT := if m[LY] == m[LYC] then stat + 4 else stat];
    if m[STAT] / 0x40 % 2 == 1 && m[STAT] / 4 % 2 == 1 then Request(m, 2) else m
  }

  function DrawingStage(g: Gpu, m: IoMemory, scheduled: bool, cycle: nat): LcdUpdate {
    var offset := g.dots % DOTS_PER_LINE;
    if offset <= 77 then
      LcdUpdate(g, if Mode(m) == 2 then m else CompareLine(EnterStage(m, 2, m[STAT] / 0x20 % 2 == 1)), [])
    else if offset <= 246 then LcdUpdate(g, WithMode(m, 3), [])
    else if Mode(m) == 0 then LcdUpdate(g, m, [])
    else
      var m := EnterStage(m, 0, m[STAT] / 8 % 2 == 1);
      if scheduled then
        var g := AdvanceWindow(g, m);
        LcdUpdate(g, m, [Line(m[LY], LinePixels(g, m), cycle)])
      else LcdUpdate(g, m, [])
  }

  function UpdateLcd(g: Gpu, m: IoMemory, scheduled: bool, cycle: nat): LcdUpdate {
    if !LcdOn(m) then LcdUpdate(g.(dots := 0), WithMode(m[LY := 0], 0), [])
    else
      var m := m[LY := g.dots / DOTS_PER_LINE % 0x100];
      if g.dots < VISIBLE_DOTS then DrawingStage(g, m, scheduled, cycle)
      else if g.dots < FRAME_DOTS then
        if Mode(m) == 1 then LcdUpdate(g, m, [])
        else LcdUpdate(g, Request(EnterStage(m, 1, m[STAT] / 0x10 % 2 == 1), 1), [VBlank(cycle)])
      else LcdUpdate(g.(dots := 0, windowLine := 0), m[LY := 0], [Commit(cycle)])
  }

  predicate Committed(u: LcdUpdate) {
    |u.events| == 1 && u.events[0].Commit?
  }

  // ----- what the front end receives -----

  datatype Shown = Dot(colour: nat, x: nat, y: nat) | Completed

  /** The dots of a line, left to right. */
  function Dots(pixels: seq<nat>, y: nat): seq<Shown> {
    seq(|pixels|, x requires 0 <= x < |pixels| => Dot(pixels[x], x, y))
  }

  /** What the front end is sent for an event. */
  function Sent(events: seq<LcdEvent>): seq<Shown> {
    if events == [] then []
    else (match events[0]
          case Line(y, pixels, _) => Dots(pixels, y)
          case VBlank(_) => []
          case Commit(_) => [Completed]) + Sent(events[1..])
  }

  lemma SentOne(e: LcdEvent)
    ensures Sent([e]) == match e case Line(y, pixels, _) => Dots(pixels, y) case VBlank(_) => [] case Commit(_) => [Completed]
  {
    assert Sent([e][1..]) == [];
  }

  lemma {:induction false} SentConcat(first: seq<LcdEvent>, rest: seq<LcdEvent>)
    ensures Sent(first + rest) == Sent(first) + Sent(rest)
    decreases |first|
  {
    if first == [] {
      assert first + rest == rest;
    } else {
      assert (first + rest)[1..] == first[1..] + rest;
      SentConcat(first[1..], rest);
    }
  }
}
