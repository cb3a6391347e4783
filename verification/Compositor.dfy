/** The line compositor against a declarative account of sprites, window and background. */
module Compositor {
  import opened Bits
  import opened Audio
  import opened Picture

  // ----- sprites -----

  /** How many of the first k sprites are on the line. */
  function OnLineBefore(g: Gpu, m: IoMemory, screenY: nat, k: nat): nat
    requires k <= 40
  {
    if k == 0 then 0
    else OnLineBefore(g, m, screenY, k - 1) + (if OnScanline(g.sprites[k - 1], m, screenY) then 1 else 0)
  }

  /** Sprite k is among the first ten on the line, covers the column, and is opaque there. */
  predicate Shows(g: Gpu, m: IoMemory, screenX: nat, screenY: nat, k: nat)
    requires k < 40
  {
    && OnScanline(g.sprites[k], m, screenY)
    && OnLineBefore(g, m, screenY, k) < 10
    && CoversColumn(g.sprites[k], screenX)
    && SpriteColour(g.sprites[k], g, m, screenX, screenY) != 0
  }

  predicate ShowsFirst(g: Gpu, m: IoMemory, screenX: nat, screenY: nat, k: nat)
    requires k < 40
  {
    Shows(g, m, screenX, screenY, k) && forall j :: 0 <= j < k ==> !Shows(g, m, screenX, screenY, j)
  }

  /** What sprite k contributes. */
  function HitBy(g: Gpu, m: IoMemory, screenX: nat, screenY: nat, k: nat): SpriteHit
    requires k < 40 && Shows(g, m, screenX, screenY, k)
  {
    var s := g.sprites[k];
    Opaque(SpriteShade(s, m, SpriteColour(s, g, m, screenX, screenY)), s.attribs < 0x80)
  }

  /** The scan stops at the first sprite that shows, and finds none only if none shows. */
  lemma {:induction false} ScanFindsFirst(g: Gpu, m: IoMemory, screenX: nat, screenY: nat, k: nat)
    requires k <= 40
    ensures var hit := SpriteScan(g, m, screenX, screenY, k, OnLineBefore(g, m, screenY, k));
      if hit.NoSprite? then forall j :: k <= j < 40 ==> !Shows(g, m, screenX, screenY, j)
      else exists j :: k <= j < 40 && Shows(g, m, screenX, screenY, j) && hit == HitBy(g, m, screenX, screenY, j)
             && forall i :: k <= i < j ==> !Shows(g, m, screenX, screenY, i)
    decreases 40 - k
  {
    hide OnScanline, CoversColumn, SpriteColour, SpriteShade;
    if k < 40 {
      ScanFindsFirst(g, m, screenX, screenY, k + 1);
      if Shows(g, m, screenX, screenY, k) {
        assert SpriteScan(g, m, screenX, screenY, k, OnLineBefore(g, m, screenY, k)) == HitBy(g, m, screenX, screenY, k);
      } else {
        assert SpriteScan(g, m, screenX, screenY, k, OnLineBefore(g, m, screenY, k)) ==
               SpriteScan(g, m, screenX, screenY, k + 1, OnLineBefore(g, m, screenY, k + 1));
      }
    }
  }

  /** At each pixel the sprite layer is the first opaque one covering it among the first ten on the line. */
  lemma SpriteAtIsFirst(g: Gpu, m: IoMemory, screenX: nat, screenY: nat)
    ensures var hit := SpriteAt(g, m, screenX, screenY);
      if m[LCDC] / 2 % 2 == 0 then hit.NoSprite?
      else if hit.NoSprite? then forall j :: 0 <= j < 40 ==> !Shows(g, m, screenX, screenY, j)
      else exists j :: 0 <= j < 40 && ShowsFirst(g, m, screenX, screenY, j) && hit == HitBy(g, m, screenX, screenY, j)
  {
    hide Shows, SpriteScan;
    ScanFindsFirst(g, m, screenX, screenY, 0);
    if m[LCDC] / 2 % 2 == 1 {
      var hit := SpriteScan(g, m, screenX, screenY, 0, 0);
      if hit.Opaque? {
        var j :| 0 <= j < 40 && Shows(g, m, screenX, screenY, j) && hit == HitBy(g, m, screenX, screenY, j)
                 && forall i :: 0 <= i < j ==> !Shows(g, m, screenX, screenY, i);
        assert ShowsFirst(g, m, screenX, screenY, j);
      }
    }
  }

  // ----- layers -----

  datatype Layer = Clear | Shade(shade: nat)

  /** The first layer from the top that is not clear; 0 under them all. */
  function Topmost(layers: seq<Layer>): nat
    decreases |layers|
  {
    if layers == [] then 0 else if layers[0].Clear? then Topmost(layers[1..]) else layers[0].shade
  }

  function SpriteLayer(hit: SpriteHit, front: bool): Layer {
    if hit.Opaque? && hit.front == front then Shade(hit.shade) else Clear
  }

  function WindowLayer(g: Gpu, m: IoMemory, screenX: nat): Layer {
    if m[LCDC] / 0x20 % 2 == 1 && WindowCovers(g, m, screenX)
    then Shade(PixelFromMap(g, m, screenX + 7 - m[WX], g.windowLine - m[WY], m[LCDC] / 0x40 % 2 == 1))
    else Clear
  }

  /** The background is transparent where its shade is 0. */
  function BackgroundLayer(g: Gpu, m: IoMemory, screenX: nat, screenY: nat): Layer
    requires screenX < SCREEN_WIDTH && screenY < 0x100
  {
    var shade := PixelFromMap(g, m, screenX + m[SCX], screenY + m[SCY], m[LCDC] / 8 % 2 == 1);
    if m[LCDC] % 2 == 1 && shade != 0 then Shade(shade) else Clear
  }

  /** A pixel is the topmost of front sprite, window, background and back sprite. */
  lemma PixelIsTopmost(g: Gpu, m: IoMemory, screenX: nat, screenY: nat)
    requires screenX < SCREEN_WIDTH && screenY < 0x100
    ensures var hit := SpriteAt(g, m, screenX, screenY);
      Pixel(g, m, screenX, screenY) ==
      Topmost([SpriteLayer(hit, true), WindowLayer(g, m, screenX), BackgroundLayer(g, m, screenX, screenY), SpriteLayer(hit, false)])
  {
    hide PixelFromMap, SpriteAt, WindowCovers;
    var hit := SpriteAt(g, m, screenX, screenY);
    var l4 := [SpriteLayer(hit, false)];
    var l3 := [BackgroundLayer(g, m, screenX, screenY)] + l4;
    var l2 := [WindowLayer(g, m, screenX)] + l3;
    var l1 := [SpriteLayer(hit, true)] + l2;
    assert l4[1..] == [] && l3[1..] == l4 && l2[1..] == l3 && l1[1..] == l2;
    assert Topmost(l4) == if hit.Opaque? && !hit.front then hit.shade else 0;
    assert Topmost(l3) == if l3[0].Clear? then Topmost(l4) else l3[0].shade;
    assert Topmost(l2) == if l2[0].Clear? then Topmost(l3) else l2[0].shade;
    assert Topmost(l1) == if l1[0].Clear? then Topmost(l2) else l1[0].shade;
    assert l1 == [SpriteLayer(hit, true), WindowLayer(g, m, screenX), BackgroundLayer(g, m, screenX, screenY), SpriteLayer(hit, false)];
  }

  lemma {:induction false} ScanShade(g: Gpu, m: IoMemory, screenX: nat, screenY: nat, k: nat, count: nat)
    requires k <= 40
    ensures var hit := SpriteScan(g, m, screenX, screenY, k, count); hit.Opaque? ==> hit.shade < 4
    decreases 40 - k
  {
    hide OnScanline, CoversColumn, SpriteColour;
    if k < 40 {
      ScanShade(g, m, screenX, screenY, k + 1, count);
      ScanShade(g, m, screenX, screenY, k + 1, count + 1);
    }
  }

  /** A rendered line has one pixel for each column, in order, every shade below 4. */
  lemma LineShades(g: Gpu, m: IoMemory)
    ensures var pixels := LinePixels(g, m);
      |pixels| == SCREEN_WIDTH && forall x :: 0 <= x < SCREEN_WIDTH ==> pixels[x] == Pixel(g, m, x, m[LY]) < 4
  {
    hide SpriteScan, PixelFromMap, WindowCovers;
    forall x | 0 <= x < SCREEN_WIDTH ensures Pixel(g, m, x, m[LY]) < 4 {
      ScanShade(g, m, x, m[LY], 0, 0);
    }
  }

  lemma Periodic(x: nat)
    ensures x % 0x100 / 8 % 0x20 == x / 8 % 0x20 && x % 0x100 % 8 == x % 8
  {
    var q, r := x / 0x100, x % 0x100;
    ModUnique(x, 8, 0x20 * q + r / 8, r % 8);
    ModUnique(x / 8, 0x20, q, r / 8);
    ModUnique(r / 8, 0x20, 0, r / 8);
  }

  /** Background and window lookups wrap every 256 pixels in both directions. */
  lemma MapLookupPeriodic(g: Gpu, m: IoMemory, x: u16, y: u16, second: bool)
    ensures PixelFromMap(g, m, x, y, second) == PixelFromMap(g, m, x % 0x100, y % 0x100, second)
  {
    hide ColourIndex, Picture.Shade, Signed8;
    Periodic(x);
    Periodic(y);
  }
}
