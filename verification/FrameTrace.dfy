/** Every frame shows lines 0 to 143 once and in order, then requests one VBlank interrupt, then commits. */
module FrameTrace {
  import opened Bits
  import opened AudioInvariants
  import opened Outcomes
  import opened Audio
  import opened Picture
  import opened IoBlock
  import opened LcdLaws
  import opened Timers
  import Cartridges
  import opened Evolution
  import opened Processor
  import opened ShadowStack
  import opened Console
  import opened Runs

  // ----- one frame -----

  const EVENTS_PER_FRAME := 146

  /** Is e the k-th event of a frame? */
  predicate Matches(e: LcdEvent, k: nat) {
    if k < 144 then e.Line? && e.y == k
    else if k == 144 then e.VBlank?
    else e.Commit?
  }

  /** After an update at dot v of the frame, with p events of it behind us. */
  predicate OnTrack(v: nat, mode: nat, p: nat) {
    || (v == 0 && mode <= 1 && p == 0)
    || (v < VISIBLE_DOTS && v % DOTS_PER_LINE <= 246 && 2 <= mode <= 3 && p == v / DOTS_PER_LINE)
    || (v < VISIBLE_DOTS && v % DOTS_PER_LINE > 246 && mode == 0 && p == v / DOTS_PER_LINE + 1)
    || (VISIBLE_DOTS <= v < FRAME_DOTS && mode == 1 && p == 145)
  }

  /** 52 cycles: the most that may pass between updates without jumping over the end of a line. */
  const LONGEST_UPDATE := 208

  lemma ModeOfStage(m: IoMemory, stage: nat, interrupt: bool)
    requires stage < 4
    ensures Mode(WithMode(m, stage)) == stage && Mode(EnterStage(m, stage, interrupt)) == stage
    ensures EnterStage(m, stage, interrupt)[LY] == m[LY]
  {
  }

  lemma CompareLineKeepsMode(m: IoMemory)
    ensures Mode(CompareLine(m)) == Mode(m)
  {
    hide Or8;
  }

  lemma DrawingOnTrack(g: Gpu, m: IoMemory, cycle: nat, v: nat, p: nat)
    requires OnTrack(v, Mode(m), p) && v <= g.dots <= v + LONGEST_UPDATE && g.dots < VISIBLE_DOTS
    requires m[LY] == g.dots / DOTS_PER_LINE
    ensures var u := DrawingStage(g, m, true, cycle);
      && u.gpu.dots == g.dots
      && |u.events| <= 1 && (u.events != [] ==> Matches(u.events[0], p) && !u.events[0].Commit?)
      && OnTrack(g.dots, Mode(u.memory), p + |u.events|)
  {
    hide EnterStage, CompareLine, LinePixels;
    ModeOfStage(m, 2, m[STAT] / 0x20 % 2 == 1);
    CompareLineKeepsMode(EnterStage(m, 2, m[STAT] / 0x20 % 2 == 1));
    ModeOfStage(m, 3, false);
    ModeOfStage(m, 0, m[STAT] / 8 % 2 == 1);
    var line, offset := g.dots / DOTS_PER_LINE, g.dots % DOTS_PER_LINE;
    var line', offset' := v / DOTS_PER_LINE, v % DOTS_PER_LINE;
    assert g.dots == DOTS_PER_LINE * line + offset && v == DOTS_PER_LINE * line' + offset';
    assert line == line' || (line == line' + 1 && offset <= 246 && offset' > 246);
  }

  /** The position after an update that showed these events. */
  function Advanced(p: nat, events: seq<LcdEvent>): nat {
    (p + |events|) % EVENTS_PER_FRAME
  }

  /** One picture update, at most 208 dots after the previous one, emits at most the next event due. */
  lemma UpdateOnTrack(g: Gpu, m: IoMemory, cycle: nat, v: nat, p: nat)
    requires LcdOn(m) && OnTrack(v, Mode(m), p) && v <= g.dots <= v + LONGEST_UPDATE
    ensures var u := UpdateLcd(g, m, true, cycle);
      && |u.events| <= 1
      && (u.events != [] ==> Matches(u.events[0], p))
      && OnTrack(u.gpu.dots, Mode(u.memory), Advanced(p, u.events))
      && (if Committed(u) then u.events[0].cycle == cycle && u.gpu.dots == 0 && v < FRAME_DOTS <= g.dots else u.gpu.dots == g.dots)
  {
    hide DrawingStage, EnterStage;
    var m' := m[LY := g.dots / DOTS_PER_LINE % 0x100];
    assert Mode(m') == Mode(m);
    if g.dots < VISIBLE_DOTS {
      DrawingOnTrack(g, m', cycle, v, p);
    } else if g.dots < FRAME_DOTS {
      ModeOfStage(m', 1, m'[STAT] / 0x10 % 2 == 1);
      assert v < VISIBLE_DOTS ==> v / DOTS_PER_LINE == 143 && v % DOTS_PER_LINE > 246;
    }
  }

  // ----- whole traces -----

  /** The events follow the frame pattern, starting with event p of a frame. */
  predicate InOrder(events: seq<LcdEvent>, p: nat) {
    forall i {:trigger events[i]} :: 0 <= i < |events| ==> Matches(events[i], (p + i) % EVENTS_PER_FRAME)
  }

  const FRAME_CYCLES := 17556

  /** Each frame takes 17556 cycles or up to `slack` - 1 more, counting from where the one before ended. */
  predicate OnTime(events: seq<LcdEvent>, start: nat, slack: nat) {
    events != [] ==>
      if events[0].Commit?
      then FRAME_CYCLES <= events[0].cycle - start < FRAME_CYCLES + slack && OnTime(events[1..], events[0].cycle, slack)
      else OnTime(events[1..], start, slack)
  }

  /** Before an update: the last one, at most `gap` cycles ago, was at dot v of a frame that began at cycle `start`. */
  predicate Tracking(io: Io, v: nat, p: nat, start: nat, gap: nat) {
    && OnTrack(v, Mode(io.memory), p)
    && io.gpu.dots + 4 * start == 4 * io.lastCycle
    && v + 4 * start <= 4 * io.cycle <= v + 4 * start + 4 * gap
  }

  lemma UpdateTracks(io: Io, env: Env, v: nat, p: nat, start: nat, gap: nat)
    requires 4 * gap <= LONGEST_UPDATE
    requires Tracking(io, v, p, start, gap) && LcdOn(io.memory) && env.scheduled && Update(io, env).Ok?
    ensures var (io', events) := Update(io, env).value;
      && |events| <= 1
      && (events != [] ==> Matches(events[0], p) && events[0].cycle == io.cycle)
      && OnTrack(io'.gpu.dots, Mode(io'.memory), Advanced(p, events))
      && (if events != [] && events[0].Commit? then io'.gpu.dots == 0 && v < FRAME_DOTS <= 4 * (io.cycle - start)
          else io'.gpu.dots + 4 * start == 4 * io.cycle)
  {
    hide UpdateTimers, UpdateLcd, OnTrack, CaughtUp, ApuInv, SequencerInStep, Sent;
    UpdateTimersEffect(io);
    var t := UpdateTimers(io);
    assert t.memory[STAT] == io.memory[STAT] && t.memory[LCDC] == io.memory[LCDC];
    UpdateOnTrack(t.gpu, t.memory, io.cycle, v, p);
    EventStamp(t.gpu, t.memory, io.cycle);
  }

  lemma EventStamp(g: Gpu, m: IoMemory, cycle: nat)
    ensures forall e :: e in UpdateLcd(g, m, true, cycle).events ==> e.cycle == cycle
  {
    hide EnterStage, CompareLine, LinePixels;
  }

  // ----- any sequence of updates -----

  /** What may happen between two updates: at most `gap` cycles pass, and whatever else is written, the
      LCD stage and its lag behind the clock stay. */
  predicate Leads(io: Io, next: Io, gap: nat) {
    && io.cycle <= next.cycle <= io.cycle + gap
    && Mode(next.memory) == Mode(io.memory)
    && next.gpu.dots - 4 * next.lastCycle == io.gpu.dots - 4 * io.lastCycle
  }

  /** Updates of these blocks, one after the other, with the LCD on and every frame wanted. */
  predicate Updates(befores: seq<Io>, envs: seq<Env>, gap: nat)
    decreases |envs|
  {
    && |befores| == |envs|
    && (envs != [] ==>
          && LcdOn(befores[0].memory) && envs[0].scheduled && Update(befores[0], envs[0]).Ok?
          && (|envs| > 1 ==> Leads(Update(befores[0], envs[0]).value.0, befores[1], gap))
          && Updates(befores[1..], envs[1..], gap))
  }

  /** Everything those updates send the screen. */
  function Screen(befores: seq<Io>, envs: seq<Env>): seq<LcdEvent>
    requires |befores| == |envs|
    decreases |envs|
  {
    if envs == [] then []
    else (match Update(befores[0], envs[0])
          case Ok((_, events)) => events
          case Err(_) => []) + Screen(befores[1..], envs[1..])
  }

  /** Every VBlank the screen is sent is an interrupt request: an update sets bit 0 of IF if and only if it
      shows a VBlank or finds the bit set. */
  predicate VBlanksRequested(befores: seq<Io>, envs: seq<Env>)
    requires |befores| == |envs|
  {
    forall k :: 0 <= k < |envs| && Update(befores[k], envs[k]).Ok? ==> VBlankRequested(befores[k], envs[k])
  }

  predicate VBlankRequested(io: Io, env: Env)
    requires Update(io, env).Ok?
  {
    var (io', events) := Update(io, env).value;
    Bit(io'.memory[0x0F], 0) <==> Bit(io.memory[0x0F], 0) || ShowsVBlank(events)
  }

  lemma AllVBlanksRequested(befores: seq<Io>, envs: seq<Env>)
    requires |befores| == |envs|
    ensures VBlanksRequested(befores, envs)
  {
    hide Update;
    forall k | 0 <= k < |envs| && Update(befores[k], envs[k]).Ok? ensures VBlankRequested(befores[k], envs[k]) {
      UpdateRequests(befores[k], envs[k], 0);
    }
  }

  /** Where the frame in progress began, after these events. */
  function FrameStart(events: seq<LcdEvent>, start: nat): nat {
    if events != [] && events[0].Commit? then events[0].cycle else start
  }

  lemma NextTracks(io: Io, env: Env, next: Io, v: nat, p: nat, start: nat, gap: nat)
    requires 4 * gap <= LONGEST_UPDATE
    requires Tracking(io, v, p, start, gap) && LcdOn(io.memory) && env.scheduled && Update(io, env).Ok?
    requires Leads(Update(io, env).value.0, next, gap)
    ensures var (io', events) := Update(io, env).value;
      Tracking(next, io'.gpu.dots, Advanced(p, events), FrameStart(events, start), gap)
  {
    hide Update, OnTrack, Mode;
    UpdateTracks(io, env, v, p, start, gap);
    UpdateKeeps(io, env);
  }

  lemma FrameLasts(io: Io, env: Env, v: nat, p: nat, start: nat, gap: nat)
    requires 4 * gap <= LONGEST_UPDATE
    requires Tracking(io, v, p, start, gap) && LcdOn(io.memory) && env.scheduled && Update(io, env).Ok?
    ensures var events := Update(io, env).value.1;
      && |events| <= 1
      && (events != [] ==> Matches(events[0], p))
      && (events != [] && events[0].Commit? ==> FRAME_CYCLES <= events[0].cycle - start < FRAME_CYCLES + gap)
  {
    hide Update, OnTrack, Mode;
    UpdateTracks(io, env, v, p, start, gap);
  }

  /** With the LCD on, frames wanted and at most 52 cycles (208 dots) between updates, what the screen is
      sent follows the frame pattern, and each frame is late by less than the longest gap. */
  lemma {:induction false} UpdatesFollowTheFrame(befores: seq<Io>, envs: seq<Env>, v: nat, p: nat, start: nat, gap: nat)
    requires 4 * gap <= LONGEST_UPDATE && p < EVENTS_PER_FRAME
    requires Updates(befores, envs, gap) && (envs != [] ==> Tracking(befores[0], v, p, start, gap))
    ensures InOrder(Screen(befores, envs), p) && OnTime(Screen(befores, envs), start, gap)
    ensures VBlanksRequested(befores, envs)
    decreases |envs|
  {
    hide Update, Tracking, InOrder, OnTime, Matches, Leads, VBlanksRequested;
    AllVBlanksRequested(befores, envs);
    if envs == [] {
      Nothing(p, start, gap);
    } else {
      var (io', events) := Update(befores[0], envs[0]).value;
      FrameLasts(befores[0], envs[0], v, p, start, gap);
      if |envs| > 1 {
        NextTracks(befores[0], envs[0], befores[1], v, p, start, gap);
      }
      UpdatesFollowTheFrame(befores[1..], envs[1..], io'.gpu.dots, Advanced(p, events), FrameStart(events, start), gap);
      Prepend(events, Screen(befores[1..], envs[1..]), p, start, gap);
    }
  }

  // ----- runs of the console -----

  /** The LCD is on whenever a step begins, and the front end wants every frame. */
  predicate LcdStaysOn(s: Machine, envs: seq<Env>)
    decreases |envs|
  {
    envs != [] ==>
      && LcdOn(s.bus.io.memory) && envs[0].scheduled
      && (Step(s, envs[0]).Ok? ==> LcdStaysOn(Step(s, envs[0]).value.0, envs[1..]))
  }

  /** The I/O block as each update of a run finds it. */
  function Befores(s: Machine, envs: seq<Env>): seq<Io>
    requires Run(s, envs).Ok?
    decreases |envs|
  {
    if envs == [] then [] else [s.bus.io] + Befores(Step(s, envs[0]).value.0, envs[1..])
  }

  lemma StepLeads(s: Machine, env: Env)
    requires Sound(s) && Step(s, env).Ok?
    ensures Update(s.bus.io, env).Ok? && Step(s, env).value.1 == Update(s.bus.io, env).value.1
    ensures Leads(Update(s.bus.io, env).value.0, Step(s, env).value.0.bus.io, LONGEST_CLOCK)
  {
    hide Update, Clock, Mirrors, ApuInv, BanksOk, SequencerInStep;
    UpdateKeeps(s.bus.io, env);
    var t := s.(bus := s.bus.(io := Update(s.bus.io, env).value.0));
    SameMemoryMirrors(s.bus, t.bus, s.pointers, s.expected);
    ClockKeeps(t);
  }

  /** The updates of a run are such a sequence, never more than 9 cycles apart. */
  lemma {:induction false} RunUpdates(s: Machine, envs: seq<Env>)
    requires Sound(s) && LcdStaysOn(s, envs) && Run(s, envs).Ok?
    ensures |Befores(s, envs)| == |envs| && (envs != [] ==> Befores(s, envs)[0] == s.bus.io)
    ensures Updates(Befores(s, envs), envs, LONGEST_CLOCK)
    ensures Screen(Befores(s, envs), envs) == Run(s, envs).value.1
    decreases |envs|
  {
    hide Step, Update, Sound, Leads;
    if envs != [] {
      var (t, first) := Step(s, envs[0]).value;
      StepLeads(s, envs[0]);
      StepKeeps(s, envs[0]);
      RunUpdates(t, envs[1..]);
      var befores := Befores(s, envs);
      assert befores[1..] == Befores(t, envs[1..]);
    }
  }

  lemma RunTracks(s: Machine, envs: seq<Env>, v: nat, p: nat, start: nat)
    requires Sound(s) && Tracking(s.bus.io, v, p, start, LONGEST_CLOCK) && p < EVENTS_PER_FRAME
    requires LcdStaysOn(s, envs) && Run(s, envs).Ok?
    ensures InOrder(Run(s, envs).value.1, p)
    ensures OnTime(Run(s, envs).value.1, start, LONGEST_CLOCK)
    ensures |Befores(s, envs)| == |envs| && VBlanksRequested(Befores(s, envs), envs)
  {
    hide Run, LcdStaysOn, Sound, Tracking, InOrder, OnTime, Befores, Updates, Screen, VBlanksRequested;
    RunUpdates(s, envs);
    UpdatesFollowTheFrame(Befores(s, envs), envs, v, p, start, LONGEST_CLOCK);
  }

  lemma Nothing(p: nat, start: nat, slack: nat)
    ensures InOrder([], p) && OnTime([], start, slack)
  {
  }

  lemma Prepend(first: seq<LcdEvent>, rest: seq<LcdEvent>, p: nat, start: nat, slack: nat)
    requires p < EVENTS_PER_FRAME && |first| <= 1 && (first != [] ==> Matches(first[0], p))
    requires first != [] && first[0].Commit? ==> FRAME_CYCLES <= first[0].cycle - start < FRAME_CYCLES + slack
    requires InOrder(rest, Advanced(p, first)) && OnTime(rest, FrameStart(first, start), slack)
    ensures InOrder(first + rest, p) && OnTime(first + rest, start, slack)
  {
    hide Matches, InOrder;
    if first == [] {
      assert first + rest == rest;
    } else {
      assert (first + rest)[1..] == rest;
      assert first + rest == [first[0]] + rest;
      PrependInOrder(first[0], rest, p);
    }
  }

  lemma NextPosition(p: nat, i: nat)
    ensures ((p + 1) % EVENTS_PER_FRAME + i) % EVENTS_PER_FRAME == (p + (i + 1)) % EVENTS_PER_FRAME
  {
  }

  lemma PrependInOrder(e: LcdEvent, rest: seq<LcdEvent>, p: nat)
    requires Matches(e, p) && p < EVENTS_PER_FRAME && InOrder(rest, (p + 1) % EVENTS_PER_FRAME)
    ensures InOrder([e] + rest, p)
  {
    hide Matches;
    var events := [e] + rest;
    forall i | 0 <= i < |events| ensures Matches(events[i], (p + i) % EVENTS_PER_FRAME) {
      if i > 0 {
        assert events[i] == rest[i - 1];
        NextPosition(p, i - 1);
      }
    }
  }

  /** From power-on, as long as the LCD stays on: the screen is sent line 0, 1, ..., 143, one VBlank
      request and one commit, over and over and nothing else, one frame every 17556 to 17564 cycles; and
      each VBlank is requested in IF. */
  lemma FramesFromPowerOn(cart: Cartridges.Cart, clocksPerSample: nat, envs: seq<Env>)
    requires BanksOk(cart)
    ensures PowerOn(cart, clocksPerSample).Ok?
    ensures var s := PowerOn(cart, clocksPerSample).value;
      LcdStaysOn(s, envs) && Run(s, envs).Ok? ==>
        && InOrder(Run(s, envs).value.1, 0) && OnTime(Run(s, envs).value.1, 0, LONGEST_CLOCK)
        && |Befores(s, envs)| == |envs| && VBlanksRequested(Befores(s, envs), envs)
  {
    hide Run, PowerOn, LcdStaysOn, InOrder, OnTime, Befores, VBlanksRequested;
    PowerOnSound(cart, clocksPerSample);
    var s := PowerOn(cart, clocksPerSample).value;
    assert Tracking(s.bus.io, 0, 0, 0, LONGEST_CLOCK);
    if LcdStaysOn(s, envs) && Run(s, envs).Ok? {
      RunTracks(s, envs, 0, 0, 0);
    }
  }
}
