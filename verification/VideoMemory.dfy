/** The three decoders of video memory are one bijection between addresses and bytes. */
module VideoMemory {
  import opened Bits
  import opened Picture

  lemma PatternReadOverWrite(p: Patterns, a: u16, b: u16, v: u8)
    requires IsPatternAddress(a) && IsPatternAddress(b)
    ensures PatternByte(WithPatternByte(p, a, v), b) == if a == b then v else PatternByte(p, b)
  {
    Digits3(a - 0x8000, b - 0x8000);
  }

  /** An offset is determined by its tile, row and byte. */
  lemma Digits3(x: nat, y: nat)
    ensures x / 0x10 == y / 0x10 && x % 0x10 / 2 == y % 0x10 / 2 && x % 2 == y % 2 ==> x == y
  {
  }

  lemma MapReadOverWrite(p: Backgrounds, a: u16, b: u16, v: u8)
    requires IsMapAddress(a) && IsMapAddress(b)
    ensures MapByte(WithMapByte(p, a, v), b) == if a == b then v else MapByte(p, b)
  {
    MapDigits(a - 0x9800, b - 0x9800);
  }

  lemma MapDigits(x: nat, y: nat)
    ensures x / 0x400 == y / 0x400 && x % 0x400 / 0x20 == y % 0x400 / 0x20 && x % 0x20 == y % 0x20 ==> x == y
  {
  }

  lemma OamReadOverWrite(s: Sprites, a: u16, b: u16, v: u8)
    requires IsOamAddress(a) && IsOamAddress(b)
    ensures OamByte(WithOamByte(s, a, v), b) == if a == b then v else OamByte(s, b)
  {
  }

  /** The three video decoders never send two addresses to the same byte. */
  lemma VideoReadOverWrite(g: Gpu, a: u16, b: u16, v: u8)
    requires IsVideoAddress(a) && IsVideoAddress(b)
    ensures VideoByte(WithVideoByte(g, a, v), b) == if a == b then v else VideoByte(g, b)
  {
    hide PatternByte, MapByte, OamByte, WithPatternByte, WithMapByte, WithOamByte;
    if IsPatternAddress(a) && IsPatternAddress(b) {
      PatternReadOverWrite(g.patterns, a, b, v);
    } else if IsMapAddress(a) && IsMapAddress(b) {
      MapReadOverWrite(g.backgrounds, a, b, v);
    } else if IsOamAddress(a) && IsOamAddress(b) {
      OamReadOverWrite(g.sprites, a, b, v);
    }
  }

  predicate SameVideo(g: Gpu, h: Gpu) {
    forall a: u16 :: IsVideoAddress(a) ==> VideoByte(g, a) == VideoByte(h, a)
  }

  lemma PatternsCovered(g: Gpu, h: Gpu)
    requires SameVideo(g, h)
    ensures g.patterns == h.patterns
  {
    forall t | 0 <= t < 0x180 ensures g.patterns[t] == h.patterns[t] {
      forall r | 0 <= r < 8 ensures g.patterns[t][r] == h.patterns[t][r] {
        var a := 0x8000 + 0x10 * t + 2 * r;
        assert VideoByte(g, a) == VideoByte(h, a) && VideoByte(g, a + 1) == VideoByte(h, a + 1);
        assert PatternByte(g.patterns, a) == g.patterns[t][r][0] && PatternByte(g.patterns, a + 1) == g.patterns[t][r][1];
        assert PatternByte(h.patterns, a) == h.patterns[t][r][0] && PatternByte(h.patterns, a + 1) == h.patterns[t][r][1];
        assert g.patterns[t][r] == h.patterns[t][r];
      }
    }
  }

  lemma MapsCovered(g: Gpu, h: Gpu)
    requires SameVideo(g, h)
    ensures g.backgrounds == h.backgrounds
  {
    forall m | 0 <= m < 2 ensures g.backgrounds[m] == h.backgrounds[m] {
      forall r | 0 <= r < 0x20 ensures g.backgrounds[m][r] == h.backgrounds[m][r] {
        forall c | 0 <= c < 0x20 ensures g.backgrounds[m][r][c] == h.backgrounds[m][r][c] {
          var a := 0x9800 + 0x400 * m + 0x20 * r + c;
          assert VideoByte(g, a) == VideoByte(h, a);
          assert MapByte(g.backgrounds, a) == g.backgrounds[m][r][c] && MapByte(h.backgrounds, a) == h.backgrounds[m][r][c];
        }
      }
    }
  }

  lemma OamCovered(g: Gpu, h: Gpu)
    requires SameVideo(g, h)
    ensures g.sprites == h.sprites
  {
    forall k | 0 <= k < 40 ensures g.sprites[k] == h.sprites[k] {
      var a := 0xFE00 + 4 * k;
      assert VideoByte(g, a) == VideoByte(h, a) && VideoByte(g, a + 1) == VideoByte(h, a + 1);
      assert VideoByte(g, a + 2) == VideoByte(h, a + 2) && VideoByte(g, a + 3) == VideoByte(h, a + 3);
      assert OamByte(g.sprites, a) == g.sprites[k].y && OamByte(h.sprites, a) == h.sprites[k].y;
      assert OamByte(g.sprites, a + 1) == g.sprites[k].x && OamByte(h.sprites, a + 1) == h.sprites[k].x;
      assert OamByte(g.sprites, a + 2) == g.sprites[k].tile && OamByte(h.sprites, a + 2) == h.sprites[k].tile;
      assert OamByte(g.sprites, a + 3) == g.sprites[k].attribs && OamByte(h.sprites, a + 3) == h.sprites[k].attribs;
    }
  }

  /** ... and between them they reach every byte there is: the decoders are bijections. */
  lemma VideoCovered(g: Gpu, h: Gpu)
    requires SameVideo(g, h)
    ensures g == h.(dots := g.dots, windowLine := g.windowLine)
  {
    PatternsCovered(g, h);
    MapsCovered(g, h);
    OamCovered(g, h);
  }
}
