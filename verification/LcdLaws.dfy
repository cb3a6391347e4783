/** What one update of the LCD leaves in the registers, bit by bit, and which interrupts an update requests. */
module LcdLaws {
  import opened Outcomes
  import opened Bits
  import opened Audio
  import opened Picture
  import opened IoBlock
  import opened Timers
  import opened AudioClocking
  import opened AluLaws

  // ----- the LCD alone -----

  /** The stage the display is in at this dot of the frame: OAM scan, drawing, horizontal and vertical blank. */
  function StageAt(dot: nat): nat {
    if dot >= 65664 then 1 else if dot % 456 < 78 then 2 else if dot % 456 < 247 then 3 else 0
  }

  /** The display is on, the frame is not over, and its stage is not the one in STAT. */
  predicate Enters(m: IoMemory, dot: nat, stage: nat) {
    m[0x40] >= 0x80 && dot < 70224 && StageAt(dot) == stage && m[0x41] % 4 != stage
  }

  /** The LCD interrupt: a stage is entered whose enable bit is set, or a line starts that is the one asked for. */
  predicate RequestsStat(m: IoMemory, dot: nat) {
    || (Enters(m, dot, 0) && Bit(m[0x41], 3))
    || (Enters(m, dot, 1) && Bit(m[0x41], 4))
    || (Enters(m, dot, 2) && Bit(m[0x41], 5))
    || (Enters(m, dot, 2) && dot / 456 == m[0x45] && Bit(m[0x41], 6))
  }

  predicate ShowsVBlank(events: seq<LcdEvent>) {
    |events| == 1 && events[0].VBlank?
  }

  /** Bit i of the masks 1 and 2. */
  lemma MaskBit(i: nat)
    ensures Bit(1, i) <==> i == 0
    ensures Bit(2, i) <==> i == 1
  {
    BitOfExp2(0, i);
    BitOfExp2(1, i);
    assert Exp2(1) == 2 * Exp2(0);
  }

  lemma RequestBits(m: IoMemory, mask: u8, i: nat)
    ensures Bit(Request(m, mask)[0x0F], i) <==> Bit(m[0x0F], i) || Bit(mask, i)
    ensures forall r: Reg :: r != 0x0F ==> Request(m, mask)[r] == m[r]
  {
    BitOfOr(m[0x0F], mask, i);
  }

  /** The register file of an update with the display on: IF, STAT and LY, and nothing else. */
  predicate OnlyLcdRegisters(m: IoMemory, m': IoMemory) {
    forall r: Reg :: r != 0x0F && r != 0x41 && r != 0x44 ==> m'[r] == m[r]
  }

  lemma EnterStageBits(m: IoMemory, stage: nat, interrupt: bool, i: nat)
    requires stage < 4
    ensures var m' := EnterStage(m, stage, interrupt);
      && m'[0x41] % 4 == stage && m'[0x41] / 4 == m[0x41] / 4 && m'[0x44] == m[0x44] && OnlyLcdRegisters(m, m')
      && (Bit(m'[0x0F], i) <==> Bit(m[0x0F], i) || (i == 1 && interrupt))
  {
    hide Request;
    RequestBits(m, 2, i);
    MaskBit(i);
    assert (m[0x41] - m[0x41] % 4 + stage) / 4 == m[0x41] / 4;
  }

  lemma CompareLineBits(m: IoMemory, i: nat)
    ensures var m' := CompareLine(m);
      && m'[0x41] % 4 == m[0x41] % 4 && m'[0x41] / 8 == m[0x41] / 8 && m'[0x41] / 4 % 2 == (if m[0x44] == m[0x45] then 1 else 0)
      && m'[0x44] == m[0x44] && OnlyLcdRegisters(m, m')
      && (Bit(m'[0x0F], i) <==> Bit(m[0x0F], i) || (i == 1 && m[0x44] == m[0x45] && m[0x41] / 0x40 % 2 == 1))
  {
    hide Request;
    var x := m[0x41];
    var y := x - x / 4 % 2 * 4 + (if m[0x44] == m[0x45] then 4 else 0);
    SplitStat(x);
    var m1 := m[STAT := y];
    RequestBits(m1, 2, i);
    MaskBit(i);
  }

  lemma SplitStat(x: nat)
    ensures var y := x - x / 4 % 2 * 4;
      && y % 4 == x % 4 && y / 8 == x / 8 && y / 4 % 2 == 0 && (y + 4) % 4 == x % 4 && (y + 4) / 8 == x / 8 && (y + 4) / 4 % 2 == 1
      && y / 0x40 == x / 0x40 && (y + 4) / 0x40 == x / 0x40
  {
    var q, b, r := x / 8, x / 4 % 2, x % 4;
    assert x / 4 == 2 * q + b by { ThreeDigits(q, b, r, x); }
    ThreeDigits(q, b, r, x);
    ThreeDigits(q, 0, r, x - b * 4);
    ThreeDigits(q, 1, r, x - b * 4 + 4);
    EighthOfEighth(x);
    EighthOfEighth(x - b * 4);
    EighthOfEighth(x - b * 4 + 4);
  }

  lemma ThreeDigits(q: nat, b: nat, r: nat, x: nat)
    requires b <= 1 && r < 4 && (x == 8 * q + 4 * b + r || (q == x / 8 && b == x / 4 % 2 && r == x % 4))
    ensures x == 8 * q + 4 * b + r && x / 8 == q && x / 4 % 2 == b && x % 4 == r && x / 4 == 2 * q + b
  {
  }

  lemma EighthOfEighth(x: nat)
    ensures x / 0x40 == x / 8 / 8
  {
  }

  predicate On(m: IoMemory) {
    m[0x40] >= 0x80
  }

  /** Bit 0 of IF is raised exactly with the VBlank event, when the vertical blank is entered; bit 1 exactly by
      the stages and lines that STAT asks for; no other bit is touched, and none is cleared. */
  lemma LcdRequests(g: Gpu, m: IoMemory, scheduled: bool, cycle: nat, i: nat)
    ensures var u := UpdateLcd(g, m, scheduled, cycle);
      && (ShowsVBlank(u.events) <==> Enters(m, g.dots, 1))
      && (Bit(u.memory[0x0F], i) <==>
            Bit(m[0x0F], i) || (i == 0 && ShowsVBlank(u.events)) || (i == 1 && RequestsStat(m, g.dots)))
  {
    hide EnterStage, CompareLine, Request, LinePixels, Bit;
    var line: nat := g.dots / 456;
    var n := m[LY := line % 0x100];
    if Enters(m, g.dots, 2) {
      ScanRequests(n, i);
    } else if Enters(m, g.dots, 1) {
      VBlankRequests(n, i);
    } else if Enters(m, g.dots, 0) {
      BlankRequests(n, i);
    }
  }

  lemma ScanRequests(m: IoMemory, i: nat)
    ensures Bit(CompareLine(EnterStage(m, 2, m[0x41] / 0x20 % 2 == 1))[0x0F], i) <==>
      Bit(m[0x0F], i) || (i == 1 && (Bit(m[0x41], 5) || (m[0x44] == m[0x45] && Bit(m[0x41], 6))))
  {
    hide EnterStage, CompareLine, Bit;
    BitDigits(m[0x41]);
    var enable := m[0x41] / 0x20 % 2 == 1;
    var e := EnterStage(m, 2, enable);
    EnterStageBits(m, 2, enable, i);
    StageKeepsHigh(m[0x41], e[0x41]);
    CompareLineBits(e, i);
  }

  lemma BlankRequests(m: IoMemory, i: nat)
    ensures Bit(EnterStage(m, 0, m[0x41] / 8 % 2 == 1)[0x0F], i) <==> Bit(m[0x0F], i) || (i == 1 && Bit(m[0x41], 3))
  {
    hide EnterStage, Bit;
    BitDigits(m[0x41]);
    EnterStageBits(m, 0, m[0x41] / 8 % 2 == 1, i);
  }

  lemma VBlankRequests(m: IoMemory, i: nat)
    ensures Bit(Request(EnterStage(m, 1, m[0x41] / 0x10 % 2 == 1), 1)[0x0F], i) <==>
      Bit(m[0x0F], i) || (i == 1 && Bit(m[0x41], 4)) || i == 0
  {
    hide EnterStage, Request, Bit;
    BitDigits(m[0x41]);
    var e := EnterStage(m, 1, m[0x41] / 0x10 % 2 == 1);
    EnterStageBits(m, 1, m[0x41] / 0x10 % 2 == 1, i);
    RequestBits(e, 1, i);
    MaskBit(i);
  }

  lemma StageKeepsHigh(x: nat, y: nat)
    requires x / 4 == y / 4
    ensures x / 0x40 == y / 0x40 && x / 8 == y / 8 && x / 4 % 2 == y / 4 % 2
  {
    assert x / 8 == x / 4 / 2 && y / 8 == y / 4 / 2;
    assert x / 0x40 == x / 4 / 0x10 && y / 0x40 == y / 4 / 0x10;
  }

  /** The rest of an update: LY is the line, STAT the stage with the coincidence flag of the last line start,
      and the events are the rendered line, the VBlank, or the end of the frame. */
  lemma LcdRegisters(g: Gpu, m: IoMemory, scheduled: bool, cycle: nat)
    ensures var u, dot := UpdateLcd(g, m, scheduled, cycle), g.dots;
      && OnlyLcdRegisters(m, u.memory) && u.gpu == g.(dots := u.gpu.dots, windowLine := u.gpu.windowLine)
      && u.memory[0x41] / 8 == m[0x41] / 8
      && u.memory[0x44] == (if On(m) && dot < 70224 then dot / 456 else 0)
      && u.memory[0x41] % 4 == (if !On(m) then 0 else if dot < 70224 then StageAt(dot) else m[0x41] % 4)
      && u.memory[0x41] / 4 % 2 == (if Enters(m, dot, 2) then (if dot / 456 == m[0x45] then 1 else 0) else m[0x41] / 4 % 2)
      && u.gpu.dots == (if On(m) && dot < 70224 then dot else 0)
      && u.gpu.windowLine ==
           (if On(m) && dot >= 70224 then 0
            else if Enters(m, dot, 0) && scheduled && (m[0x4B] <= 166 || m[0x40] / 0x20 % 2 == 1) then g.windowLine + 1
            else g.windowLine)
      && u.events ==
           (if Enters(m, dot, 0) && scheduled then [Line(dot / 456, LinePixels(u.gpu, u.memory), cycle)]
            else if Enters(m, dot, 1) then [VBlank(cycle)]
            else if On(m) && dot >= 70224 then [Commit(cycle)]
            else [])
  {
    hide EnterStage, CompareLine, Request, LinePixels, Bit;
    var line: nat := g.dots / 456;
    var n := m[LY := line % 0x100];
    StageKeepsHigh(m[0x41], m[0x41] - m[0x41] % 4);
    if On(m) && g.dots < 70224 {
      var stage := StageAt(g.dots);
      if stage == 3 {
        StageKeepsHigh(m[0x41], m[0x41] - m[0x41] % 4 + 3);
      } else {
        var enable := m[0x41] / (if stage == 0 then 8 else if stage == 1 then 0x10 else 0x20) % 2 == 1;
        EnterStageBits(n, stage, enable, 0);
        var e := EnterStage(n, stage, enable);
        StageKeepsHigh(m[0x41], e[0x41]);
        CompareLineBits(e, 0);
        RequestBits(e, 1, 0);
      }
    }
  }

  // ----- one whole update -----

  /** TIMA passes 0xFF within `total` pending cycles. */
  predicate TimerPasses(m: IoMemory, total: nat) {
    var tac, t := m[0x07] % 8, m[0x05];
    || (tac == 4 && t + total / 256 >= 0x100)
    || (tac == 5 && t + total / 4 >= 0x100)
    || (tac == 6 && t + total / 16 >= 0x100)
    || (tac == 7 && t + total / 64 >= 0x100)
  }

  lemma TimerRequests(io: Io, i: nat)
    requires i < 8
    ensures var late := UpdateTimers(io);
      Bit(late.memory[0x0F], i) <==> Bit(io.memory[0x0F], i) || (i == 2 && TimerPasses(io.memory, io.timerCycles + (io.cycle - io.lastCycle)))
  {
    hide UpdateTimers, CaughtUp, Bit, View;
    UpdateTimersEffect(io);
    CaughtUpInNumbers(io, UpdateTimers(io), 0);
  }

  /** A key is down that was up at the last frame; `inputs` has a 0 for each key that was down. */
  predicate NewlyPressed(inputs: u8, keys: u8) {
    exists j :: 0 <= j < 8 && Bit(keys, j) && Bit(inputs, j)
  }

  lemma PressedBits(inputs: u8, keys: u8)
    ensures Or8(keys, 0xFF - inputs) != 0xFF - inputs <==> NewlyPressed(inputs, keys)
  {
    hide Bit, BitOr, Exp2;
    var held := 0xFF - inputs;
    Exp2Eight();
    forall j | 0 <= j < 8
      ensures Bit(Or8(keys, held), j) <==> Bit(keys, j) || !Bit(inputs, j)
      ensures Bit(held, j) <==> !Bit(inputs, j)
    {
      BitOfOr(keys, held, j);
      Complement(inputs, 8, j);
    }
    if !NewlyPressed(inputs, keys) {
      forall j | 0 <= j < 8 ensures Bit(Or8(keys, held), j) == Bit(held, j) {
        assert !(Bit(keys, j) && Bit(inputs, j));
      }
      SameBits(Or8(keys, held), held, 8);
    }
  }

  lemma Exp2Eight()
    ensures Exp2(8) == 0x100
  {
    Powers();
    assert Exp2(8) == 2 * Exp2(7);
  }

  lemma KeyRequests(io: Io, keys: u8, i: nat)
    ensures var late := PollKeys(io, keys);
      && (Bit(late.memory[0x0F], i) <==> Bit(io.memory[0x0F], i) || (i == 4 && NewlyPressed(io.inputs, keys)))
      && late.inputs == 0xFF - keys
  {
    hide Bit, Request, Or8;
    PressedBits(io.inputs, keys);
    RequestBits(io.memory, 0x10, i);
    BitOfExp2(4, i);
    Powers();
  }

  /** Which interrupts an update requests: VBlank exactly with its event, the LCD exactly as STAT asks, the
      timer when TIMA passes 0xFF, and a key press at the end of a frame.  No request is withdrawn. */
  lemma UpdateRequests(io: Io, env: Env, i: nat)
    requires i < 8 && Update(io, env).Ok?
    ensures var (io', events) := Update(io, env).value;
      var passed := io.cycle - io.lastCycle;
      && (ShowsVBlank(events) <==> Enters(io.memory, io.gpu.dots + 4 * passed, 1))
      && (Bit(io'.memory[0x0F], i) <==>
            || Bit(io.memory[0x0F], i)
            || (i == 0 && ShowsVBlank(events))
            || (i == 1 && RequestsStat(io.memory, io.gpu.dots + 4 * passed))
            || (i == 2 && TimerPasses(io.memory, io.timerCycles + passed))
            || (i == 4 && |events| == 1 && events[0].Commit? && NewlyPressed(io.inputs, env.keys)))
  {
    hide UpdateTimers, UpdateLcd, PollKeys, CaughtUp, Bit, Sent, RequestsStat, Enters, NewlyPressed, TimerPasses;
    UpdateTimersEffect(io);
    TimerRequests(io, i);
    var late := UpdateTimers(io);
    LcdRequests(late.gpu, late.memory, env.scheduled, late.cycle, i);
    var u := UpdateLcd(late.gpu, late.memory, env.scheduled, late.cycle);
    SameStat(io.memory, late.memory, late.gpu.dots);
    var flushed := FlushAudio(late, env.flushed).value;
    KeyRequests(flushed.(gpu := u.gpu, memory := u.memory, shown := flushed.shown + Sent(u.events)), env.keys, i);
  }

  lemma SameStat(m: IoMemory, m': IoMemory, dot: nat)
    requires m'[0x40] == m[0x40] && m'[0x41] == m[0x41] && m'[0x45] == m[0x45]
    ensures RequestsStat(m', dot) == RequestsStat(m, dot) && Enters(m', dot, 1) == Enters(m, dot, 1)
  {
    hide Bit;
  }
}
