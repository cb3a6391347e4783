/** The picture unit as the object it is, drawing on a front end that records what it is sent. */
module PictureDevice {
  import opened Outcomes
  import opened Bits
  import opened Audio
  import opened Picture

  /** The host side of the screen and the serial port. */
  class Frontend {
    var shown: seq<Shown>
    var received: seq<u8>

    constructor ()
      ensures shown == [] && received == []
    {
      shown := [];
      received := [];
    }

    method AddPixel(colour: nat, x: nat, y: nat)
      modifies this`shown
      ensures shown == old(shown) + [Dot(colour, x, y)]
    {
      shown := shown + [Dot(colour, x, y)];
    }

    method CommitRender()
      modifies this`shown
      ensures shown == old(shown) + [Completed]
    {
      shown := shown + [Completed];
    }

    method SendSerial(value: u8)
      modifies this`received
      ensures received == old(received) + [value]
    {
      received := received + [value];
    }
  }

  class GPU {
    const ioMemory: array<u8>
    var sprites: Sprites
    var patternTables: Patterns
    var backgroundMaps: Backgrounds
    var vCycleCount: nat
    var windowOffsetY: nat

    constructor (ioMemory: array<u8>)
      requires ioMemory.Length == 0x80
      ensures Valid() && this.ioMemory == ioMemory && View() == InitialGpu()
    {
      this.ioMemory := ioMemory;
      sprites := InitialGpu().sprites;
      patternTables := BlankPatterns();
      backgroundMaps := BlankBackgrounds();
      vCycleCount := 0;
      windowOffsetY := 0;
    }

    ghost predicate Valid() {
      ioMemory.Length == 0x80
    }

    function View(): Gpu
      reads this
    {
      Gpu(sprites, patternTables, backgroundMaps, vCycleCount, windowOffsetY)
    }

    function Memory(): IoMemory
      requires Valid()
      reads ioMemory
    {
      ioMemory[..]
    }

    // ----- video memory -----

    method ReadU8(addr: u16, isDma: bool) returns (o: Outcome<u8>)
      requires Valid() && IsVideoAddress(addr)
      ensures o == ReadVideo(View(), Memory(), addr, isDma)
    {
      var mode := ioMemory[STAT] % 4;
      if IsPatternAddress(addr) {
        if !isDma && mode == 3 {
          return Err(PpuViolation);
        }
        o := Ok(PatternByte(patternTables, addr));
      } else if IsMapAddress(addr) {
        if !isDma && mode == 3 {
          return Err(PpuViolation);
        }
        o := Ok(MapByte(backgroundMaps, addr));
      } else {
        if !isDma && (mode == 2 || mode == 3) {
          return Err(PpuViolation);
        }
        o := Ok(OamByte(sprites, addr));
      }
    }

    method WriteU8(addr: u16, value: u8, isDma: bool) returns (o: Outcome<()>)
      requires Valid() && IsVideoAddress(addr)
      modifies this`sprites, this`patternTables, this`backgroundMaps
      ensures match WriteVideo(old(View()), Memory(), addr, value, isDma)
              case Ok(g) => o == Ok(()) && View() == g
              case Err(e) => o == Err(e) && View() == old(View())
    {
      var mode := ioMemory[STAT] % 4;
      if IsPatternAddress(addr) {
        if !isDma && mode == 3 {
          return Err(PpuViolation);
        }
        patternTables := WithPatternByte(patternTables, addr, value);
      } else if IsMapAddress(addr) {
        if !isDma && mode == 3 {
          return Err(PpuViolation);
        }
        backgroundMaps := WithMapByte(backgroundMaps, addr, value);
      } else {
        if !isDma && (mode == 2 || mode == 3) {
          return Err(PpuViolation);
        }
        sprites := WithOamByte(sprites, addr, value);
      }
      o := Ok(());
    }

    // ----- the compositor -----

    /** The front-to-back scan of sprite memory. */
    method SpriteOverridesPixel(screenX: nat, screenY: nat) returns (hit: SpriteHit)
      requires Valid()
      ensures hit == SpriteScan(View(), Memory(), screenX, screenY, 0, 0)
    {
      hide OnScanline, CoversColumn, SpriteColour, SpriteShade;
      var onLine := 0;
      for k := 0 to 40
        invariant SpriteScan(View(), Memory(), screenX, screenY, k, onLine) == SpriteScan(View(), Memory(), screenX, screenY, 0, 0)
      {
        var s := sprites[k];
        if OnScanline(s, Memory(), screenY) {
          onLine := onLine + 1;
          if onLine <= 10 && CoversColumn(s, screenX) {
            var colour := SpriteColour(s, View(), Memory(), screenX, screenY);
            if colour != 0 {
              return Opaque(SpriteShade(s, Memory(), colour), s.attribs < 0x80);
            }
          }
        }
      }
      hit := NoSprite;
    }

    method PixelAt(screenX: nat, screenY: nat) returns (colour: nat)
      requires Valid() && screenX < SCREEN_WIDTH && screenY < 0x100
      ensures colour == Pixel(View(), Memory(), screenX, screenY)
    {
      hide SpriteScan, PixelFromMap, WindowCovers;
      colour := 0;
      if ioMemory[LCDC] / 2 % 2 == 1 {
        var hit := SpriteOverridesPixel(screenX, screenY);
        if hit.Opaque? {
          colour := hit.shade;
          if hit.front {
            return;
          }
        }
      }
      if ioMemory[LCDC] / 0x20 % 2 == 1 && WindowCovers(View(), Memory(), screenX) {
        WindowInRange(screenX);
        return PixelFromMap(View(), Memory(), screenX + 7 - ioMemory[WX], windowOffsetY - ioMemory[WY], ioMemory[LCDC] / 0x40 % 2 == 1);
      }
      if ioMemory[LCDC] % 2 == 1 {
        var background := PixelFromMap(View(), Memory(), screenX + ioMemory[SCX], screenY + ioMemory[SCY], ioMemory[LCDC] / 8 % 2 == 1);
        if background != 0 {
          colour := background;
        }
      }
    }

    lemma WindowInRange(screenX: nat)
      requires Valid() && WindowCovers(View(), Memory(), screenX)
      ensures 0 <= screenX + 7 - ioMemory[WX] < 160 && 0 <= windowOffsetY - ioMemory[WY] < 144
    {
    }

    /** Draws the current line: one pixel for each column, in order. */
    method RenderLine(frontend: Frontend)
      requires Valid()
      modifies this`windowOffsetY, frontend`shown
      ensures View() == AdvanceWindow(old(View()), Memory())
      ensures frontend.shown == old(frontend.shown) + Dots(LinePixels(View(), Memory()), ioMemory[LY])
    {
      hide Pixel;
      if ioMemory[WX] <= 166 || ioMemory[LCDC] / 0x20 % 2 == 1 {
        windowOffsetY := windowOffsetY + 1;
      }
      var y: nat := ioMemory[LY];
      ghost var line := Dots(LinePixels(View(), Memory()), y);
      for x := 0 to SCREEN_WIDTH
        invariant View() == AdvanceWindow(old(View()), Memory())
        invariant frontend.shown == old(frontend.shown) + line[..x]
      {
        var colour := PixelAt(x, y);
        frontend.AddPixel(colour, x, y);
        assert line[x] == Dot(colour, x, y);
        assert line[..x + 1] == line[..x] + [line[x]];
      }
      assert line[..SCREEN_WIDTH] == line;
    }

    // ----- the LCD stage machine -----

    method SetLCDStage(stage: nat, interrupt: bool) returns (entered: bool)
      requires Valid() && stage < 4
      modifies ioMemory
      ensures entered == (old(Mode(Memory())) != stage)
      ensures Memory() == if entered then EnterStage(old(Memory()), stage, interrupt) else old(Memory())
    {
      if ioMemory[STAT] % 4 != stage {
        if interrupt {
          ioMemory[IF] := Or8(ioMemory[IF], 2);
        }
        ioMemory[STAT] := ioMemory[STAT] - ioMemory[STAT] % 4 + stage;
        return true;
      }
      return false;
    }

    method UpdateTimers(dt: nat)
      modifies this`vCycleCount
      ensures View() == old(View()).(dots := old(View()).dots + 4 * dt)
    {
      vCycleCount := vCycleCount + 4 * dt;
    }

    method CompareLineRegisters()
      requires Valid()
      modifies ioMemory
      ensures Memory() == CompareLine(old(Memory()))
    {
      hide Or8;
      var cleared := ioMemory[STAT] - ioMemory[STAT] / 4 % 2 * 4;
      ioMemory[STAT] := if ioMemory[LY] == ioMemory[LYC] then cleared + 4 else cleared;
      if ioMemory[STAT] / 0x40 % 2 == 1 && ioMemory[STAT] / 4 % 2 == 1 {
        ioMemory[IF] := Or8(ioMemory[IF], 2);
      }
    }

    method Draw(frontend: Frontend, scheduled: bool, cycle: nat) returns (ghost events: seq<LcdEvent>)
      requires Valid()
      modifies this`windowOffsetY, ioMemory, frontend`shown
      ensures LcdUpdate(View(), Memory(), events) == DrawingStage(old(View()), old(Memory()), scheduled, cycle)
      ensures frontend.shown == old(frontend.shown) + Sent(events)
    {
      hide EnterStage, CompareLine, LinePixels, Dots;
      events := [];
      var offset := vCycleCount % DOTS_PER_LINE;
      if offset <= 77 {
        var entered := SetLCDStage(2, ioMemory[STAT] / 0x20 % 2 == 1);
        if entered {
          CompareLineRegisters();
        }
      } else if offset <= 246 {
        ioMemory[STAT] := ioMemory[STAT] - ioMemory[STAT] % 4 + 3;
        assert Memory() == WithMode(old(Memory()), 3);
      } else {
        var entered := SetLCDStage(0, ioMemory[STAT] / 8 % 2 == 1);
        if entered && scheduled {
          RenderLine(frontend);
          events := [Line(ioMemory[LY], LinePixels(View(), Memory()), cycle)];
          SentOne(events[0]);
        }
      }
    }

    /** True when a frame has just been committed. */
    method UpdateLCD(frontend: Frontend, scheduled: bool, cycle: nat) returns (committed: bool, ghost events: seq<LcdEvent>)
      requires Valid()
      modifies this, ioMemory, frontend`shown
      ensures LcdUpdate(View(), Memory(), events) == UpdateLcd(old(View()), old(Memory()), scheduled, cycle)
      ensures committed == Picture.Committed(UpdateLcd(old(View()), old(Memory()), scheduled, cycle))
      ensures frontend.shown == old(frontend.shown) + Sent(events)
    {
      hide EnterStage, DrawingStage, Sent;
      SentOne(VBlank(cycle));
      SentOne(Commit(cycle));
      SentNothing();
      events := [];
      if ioMemory[LCDC] < 0x80 {
        vCycleCount := 0;
        ioMemory[LY] := 0;
        ioMemory[STAT] := ioMemory[STAT] - ioMemory[STAT] % 4;
        assert Memory() == WithMode(old(Memory())[LY := 0], 0);
        return false, events;
      }
      ioMemory[LY] := vCycleCount / DOTS_PER_LINE % 0x100;
      ghost var m := Memory();
      assert m == old(Memory())[LY := vCycleCount / DOTS_PER_LINE % 0x100];
      if vCycleCount < VISIBLE_DOTS {
        events := Draw(frontend, scheduled, cycle);
        DrawingNeverCommits(old(View()), m, scheduled, cycle);
      } else if vCycleCount < FRAME_DOTS {
        var entered := SetLCDStage(1, ioMemory[STAT] / 0x10 % 2 == 1);
        if entered {
          ioMemory[IF] := Or8(ioMemory[IF], 1);
          events := [VBlank(cycle)];
          assert Memory() == Request(EnterStage(m, 1, m[STAT] / 0x10 % 2 == 1), 1);
        }
      } else {
        frontend.CommitRender();
        ioMemory[LY] := 0;
        vCycleCount := 0;
        windowOffsetY := 0;
        events := [Commit(cycle)];
        assert Memory() == m[LY := 0];
        return true, events;
      }
      return false, events;
    }

    lemma DrawingNeverCommits(g: Gpu, m: IoMemory, scheduled: bool, cycle: nat)
      ensures !Picture.Committed(DrawingStage(g, m, scheduled, cycle))
    {
    }
  }

  lemma SentNothing()
    ensures Sent([]) == []
  {
  }
}
