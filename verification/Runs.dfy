/** Whole runs of the console from power-on: what never breaks, and what undefined data cannot change. */
module Runs {
  import opened Outcomes
  import opened Bits
  import opened CheckedInt
  import opened AudioInvariants
  import opened Audio
  import opened Picture
  import opened IoBlock
  import opened Timers
  import Cartridges
  import opened AddressBus
  import opened Evolution
  import opened Processor
  import opened Effects
  import opened ShadowStack
  import opened Console
  import opened Noninterference

  const LONGEST_CLOCK := 9

  /** What holds between any two steps of an error-free run. */
  predicate Sound(s: Machine) {
    && ShadowInv(s) && ApuInv(s.bus.io.apu) && BanksOk(s.bus.cart)
    && SequencerInStep(s.bus.io) && s.bus.io.cycle <= s.bus.io.lastCycle + LONGEST_CLOCK
  }

  lemma UpdateKeeps(io: Io, env: Env)
    requires Update(io, env).Ok?
    ensures var io' := Update(io, env).value.0;
      && io'.cycle == io.cycle == io'.lastCycle
      && (ApuInv(io.apu) ==> ApuInv(io'.apu))
      && (SequencerInStep(io) && io.cycle <= io.lastCycle + LONGEST_GAP ==> SequencerInStep(io'))
      && io'.gpu == io.gpu.(dots := io'.gpu.dots, windowLine := io'.gpu.windowLine)
  {
    hide UpdateTimers, UpdateLcd, ApuInv, CaughtUp, Sent;
    UpdateTimersEvolves(io);
    UpdateTimersEffect(io);
    var t := UpdateTimers(io);
    LcdKeepsVideo(t.gpu, t.memory, env.scheduled, io.cycle);
    if env.flushed.Some? && ApuInv(t.apu) {
      FlushInv(t.apu, env.flushed.value);
    }
  }

  lemma LcdKeepsVideo(g: Gpu, m: IoMemory, scheduled: bool, cycle: nat)
    ensures var h := UpdateLcd(g, m, scheduled, cycle).gpu; h == g.(dots := h.dots, windowLine := h.windowLine)
  {
    hide EnterStage, CompareLine, LinePixels;
  }

  /** One step keeps everything that is sound, and takes between 1 and 9 cycles. */
  lemma StepKeeps(s: Machine, env: Env)
    requires Sound(s) && Step(s, env).Ok?
    ensures Sound(Step(s, env).value.0)
    ensures s.bus.io.cycle + 1 <= Step(s, env).value.0.bus.io.cycle <= s.bus.io.cycle + LONGEST_CLOCK
  {
    hide Update, Clock, Mirrors, ApuInv, BanksOk, SequencerInStep;
    UpdateKeeps(s.bus.io, env);
    var t := s.(bus := s.bus.(io := Update(s.bus.io, env).value.0));
    SameMemoryMirrors(s.bus, t.bus, s.pointers, s.expected);
    ClockKeeps(t);
  }

  lemma SameMemoryMirrors(b: Bus, b': Bus, pointers: seq<u16>, expected: seq<u16>)
    requires Mirrors(b, pointers, expected) && b'.stack == b.stack && b'.wram == b.wram && SameTables(b.io.gpu, b'.io.gpu)
    ensures Mirrors(b', pointers, expected)
  {
    hide VideoByte;
    SameTablesPeek(b.io.gpu, b'.io.gpu);
    UntouchedMirrors(b, b', pointers, expected);
  }

  lemma {:induction false} RunKeeps(s: Machine, envs: seq<Env>)
    requires Sound(s) && Run(s, envs).Ok?
    ensures Sound(Run(s, envs).value.0)
    decreases |envs|
  {
    hide Step, Sound;
    if envs != [] {
      StepKeeps(s, envs[0]);
      RunKeeps(Step(s, envs[0]).value.0, envs[1..]);
    }
  }

  /** What the front end was sent is exactly the events of the run, in order. */
  lemma {:induction false} RunShows(s: Machine, envs: seq<Env>)
    requires Sound(s) && Run(s, envs).Ok?
    ensures var (t, events) := Run(s, envs).value; t.bus.io.shown == s.bus.io.shown + Sent(events)
    decreases |envs|
  {
    hide Step, Sound, Sent;
    if envs == [] {
      NothingSent();
    } else {
      var (t, first) := Step(s, envs[0]).value;
      StepShows(s, envs[0]);
      StepKeeps(s, envs[0]);
      RunShows(t, envs[1..]);
      SentConcat(first, Run(t, envs[1..]).value.1);
    }
  }

  lemma NothingSent()
    ensures Sent([]) == []
  {
  }

  lemma StepShows(s: Machine, env: Env)
    requires Sound(s) && Step(s, env).Ok?
    ensures var (t, events) := Step(s, env).value; t.bus.io.shown == s.bus.io.shown + Sent(events)
  {
    hide Clock, UpdateTimers, UpdateLcd, Mirrors, ApuInv, BanksOk, SequencerInStep, Sent;
    UpdateKeeps(s.bus.io, env);
    UpdateTimersEvolves(s.bus.io);
    var t := s.(bus := s.bus.(io := Update(s.bus.io, env).value.0));
    SameMemoryMirrors(s.bus, t.bus, s.pointers, s.expected);
    ClockKeeps(t);
  }

  /** The frame sequencer over any error-free run, register writes included: every edge up to the last
      catch-up has been counted once, and its events have run at cycle / 4096 (length), cycle / 8192 (sweep)
      and cycle / 16384 (envelope). */
  lemma EventsAtTheirRates(s: Machine, envs: seq<Env>)
    requires Sound(s) && Run(s, envs).Ok?
    ensures var io, io' := s.bus.io, Run(s, envs).value.0.bus.io;
      && io'.lastCycle <= io'.cycle <= io'.lastCycle + LONGEST_CLOCK
      && io'.apu.divCounter - io.apu.divCounter == io'.lastCycle / 2048 - io.lastCycle / 2048
      && io'.apu.fired == Tally(io'.lastCycle / 4096, io'.lastCycle / 8192, io'.lastCycle / 16384)
      && io'.apu.fired.lengths - io.apu.fired.lengths == io'.lastCycle / 4096 - io.lastCycle / 4096
      && io'.apu.fired.sweeps - io.apu.fired.sweeps == io'.lastCycle / 8192 - io.lastCycle / 8192
      && io'.apu.fired.envelopes - io.apu.fired.envelopes == io'.lastCycle / 16384 - io.lastCycle / 16384
  {
    hide Run, ShadowInv, ApuInv, BanksOk;
    RunKeeps(s, envs);
  }

  // ----- power-on -----

  /** A write that the power-up sequence may do: no DMA, no write to DIV or LY, no switching the LCD off. */
  predicate HarmlessPoke(p: Poke) {
    p.addr == 0xFFFF ||
    (0xFF00 <= p.addr < 0xFF80 && p.addr != 0xFF04 && p.addr != 0xFF44 && p.addr != DMA_REGISTER &&
     (p.addr == 0xFF40 ==> p.value >= 0x80))
  }

  lemma PokeSucceeds(b: Bus, p: Poke)
    requires HarmlessPoke(p)
    ensures var o := Write(b, p.addr, Known(p.value), false);
      o.Ok? && BusEvolves(b, o.value, []) && o.value.io.cycle == b.io.cycle
  {
    hide UpdateTimers, WriteApu, BusEvolves;
    WriteEvolves(b, p.addr, Known(p.value), []);
  }

  lemma {:induction false} PokesSucceed(b: Bus, pokes: seq<Poke>)
    requires forall i :: 0 <= i < |pokes| ==> HarmlessPoke(pokes[i])
    ensures var o := PokeAll(b, pokes); o.Ok? && BusEvolves(b, o.value, []) && o.value.io.cycle == b.io.cycle
    decreases |pokes|
  {
    hide Write, BusEvolves, HarmlessPoke;
    if pokes == [] {
      LaterItself(b, []);
      LaterEvolves(b, b);
    } else {
      PokeSucceeds(b, pokes[0]);
      var b' := Write(b, pokes[0].addr, Known(pokes[0].value), false).value;
      assert forall i :: 0 <= i < |pokes[1..]| ==> pokes[1..][i] == pokes[i + 1];
      PokesSucceed(b', pokes[1..]);
      BusEvolvesTransitively(b, b', PokeAll(b', pokes[1..]).value, []);
    }
  }

  lemma LaterEvolves(b: Bus, b': Bus)
    requires Later(b, b', [], 0)
    ensures BusEvolves(b, b', [])
  {
  }

  /** Construction succeeds for every cartridge, in a sound state at cycle 0 with the LCD idle. */
  lemma PowerOnSound(cart: Cartridges.Cart, clocksPerSample: nat)
    requires BanksOk(cart)
    ensures var o := PowerOn(cart, clocksPerSample);
      && o.Ok? && Sound(o.value) && o.value.bus.io.cycle == 0 && o.value.bus.io.gpu.dots == 0 && Mode(o.value.bus.io.memory) == 0
      && o.value.bus.io.shown == []
  {
    hide PokeAll;
    var b := Bus(seq(0x80, _ => UNDEFINED_BYTE), seq(0x2000, _ => UNDEFINED_BYTE), cart, InitialIo(clocksPerSample));
    assert forall i :: 0 <= i < |POWER_UP| ==> HarmlessPoke(POWER_UP[i]);
    PokesSucceed(b, POWER_UP);
    InitialSound(clocksPerSample);
  }

  lemma InitialSound(clocksPerSample: nat)
    ensures var io := InitialIo(clocksPerSample);
      ApuInv(io.apu) && SequencerInStep(io) && io.gpu.dots == 0 && Mode(io.memory) == 0
  {
  }

  /** Every error-free run from power-on stays sound: the audio ranges hold and every buffered sample
      lies in [-1, 1], the cartridge banks are in range, no sequencer edge is lost, every safe return
      address is intact in memory, and at most 32768 calls are pending. */
  lemma RunsAreSound(cart: Cartridges.Cart, clocksPerSample: nat, envs: seq<Env>)
    requires BanksOk(cart)
    ensures PowerOn(cart, clocksPerSample).Ok?
    ensures var o := Run(PowerOn(cart, clocksPerSample).value, envs);
      o.Ok? ==> Sound(o.value.0) && |o.value.0.expected| <= 0x8000
  {
    hide Run, PowerOn, Sound;
    PowerOnSound(cart, clocksPerSample);
    var s := PowerOn(cart, clocksPerSample).value;
    if Run(s, envs).Ok? {
      RunKeeps(s, envs);
      DepthOf(Run(s, envs).value.0);
    }
  }

  /** From power-on the front end is sent the events of the run and nothing else. */
  lemma RunShowsAll(cart: Cartridges.Cart, clocksPerSample: nat, envs: seq<Env>)
    requires BanksOk(cart)
    ensures PowerOn(cart, clocksPerSample).Ok?
    ensures var o := Run(PowerOn(cart, clocksPerSample).value, envs);
      o.Ok? ==> o.value.0.bus.io.shown == Sent(o.value.1)
  {
    hide Run, PowerOn, Sound, Sent;
    PowerOnSound(cart, clocksPerSample);
    var s := PowerOn(cart, clocksPerSample).value;
    if Run(s, envs).Ok? {
      RunShows(s, envs);
    }
  }

  lemma DepthOf(s: Machine)
    requires Sound(s)
    ensures |s.expected| <= 0x8000
  {
    DepthBound(s);
  }

  // ----- noninterference -----

  lemma StepAlike(s: Machine, t: Machine, env: Env)
    requires AlikeMachine(s, t)
    ensures AlikeFirst(Step(s, env), Step(t, env))
  {
    hide Update, Clock;
    var o := Update(s.bus.io, env);
    if o.Ok? {
      ClockAlike(s.(bus := s.bus.(io := o.value.0)), t.(bus := t.bus.(io := o.value.0)));
    }
  }

  /** The same error, or alike machines and exactly the same screen. */
  predicate AlikeFirst(o: Outcome<(Machine, seq<LcdEvent>)>, p: Outcome<(Machine, seq<LcdEvent>)>) {
    match o
    case Ok((s, events)) => p.Ok? && AlikeMachine(s, p.value.0) && p.value.1 == events
    case Err(e) => p == Err(e)
  }

  /** Over whole runs the payload of an undefined byte decides nothing: not the outcome, not the program
      counter, stack pointer, flags or any defined byte, not the cycle count or anything in the I/O
      block, and not what the screen is sent. */
  lemma {:induction false} RunAlike(s: Machine, t: Machine, envs: seq<Env>)
    requires AlikeMachine(s, t)
    ensures AlikeFirst(Run(s, envs), Run(t, envs))
    decreases |envs|
  {
    hide Step, AlikeMachine;
    if envs != [] {
      StepAlike(s, t, envs[0]);
      var o := Step(s, envs[0]);
      if o.Ok? {
        RunAlike(o.value.0, Step(t, envs[0]).value.0, envs[1..]);
      }
    }
  }
}
