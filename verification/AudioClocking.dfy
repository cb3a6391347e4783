/** Clocking in batches, the closed form of a pulse channel, and draining the sample buffer. */
module AudioClocking {
  import opened Bits
  import opened Audio
  import opened AudioInvariants

  // ----- the audio unit writes only its own registers -----

  predicate OnlyAudioRegisters(m: IoMemory, m': IoMemory) {
    forall r: Reg :: !(CHANNEL1_SWEEP <= r <= AUDIO_MASTER_CTL) ==> m'[r] == m[r]
  }

  lemma FrameSequencerRegisters(a: Apu, m: IoMemory)
    ensures OnlyAudioRegisters(m, FrameSequencer(a, m).1)
  {
    hide EnvelopeEvents, RearmSweep, SweepTarget, Lengthened;
  }

  lemma ClockToRegisters(a: Apu, m: IoMemory, target: nat)
    requires a.lastClock <= target
    ensures OnlyAudioRegisters(m, ClockTo(a, m, target).1)
  {
    hide FrameSequencer, Ticks;
    FrameSequencerRegisters(a.(lastDiv := m[DIV_TIMER], divCounter := a.divCounter + 1), m);
  }

  lemma WriteApuRegisters(a: Apu, m: IoMemory, reg: Reg, value: u8)
    requires CHANNEL1_SWEEP <= reg <= AUDIO_MASTER_CTL
    ensures OnlyAudioRegisters(m, WriteApu(a, m, reg, value).1)
  {
    hide WritePowered;
  }

  // ----- batches -----

  lemma {:induction false} TicksAdd(a: Apu, m: IoMemory, n: nat, k: nat)
    ensures Ticks(Ticks(a, m, n), m, k) == Ticks(a, m, n + k)
    decreases n
  {
    hide Tick;
    if n > 0 {
      TicksAdd(Tick(a, m), m, n - 1, k);
    }
  }

  /** Two clockings with no change of DIV in between are one: an edge is only ever seen once. */
  lemma ClockToBatch(a: Apu, m: IoMemory, t1: nat, t2: nat)
    requires a.lastClock <= t1 <= t2
    ensures var (a1, m1) := ClockTo(a, m, t1); ClockTo(a1, m1, t2) == ClockTo(a, m, t2)
  {
    hide FrameSequencer, Ticks, TickDiv;
    ClockToRegisters(a, m, t1);
    var (b, m1) := TickDiv(a, m);
    var a1 := ClockTo(a, m, t1).0;
    if a.lastClock < t1 < t2 {
      TicksAdd(b, m1, t1 - a.lastClock, t2 - t1);
      NoEdge(a1, m1);
    }
  }

  lemma NoEdge(a: Apu, m: IoMemory)
    requires a.lastDiv == m[DIV_TIMER]
    ensures TickDiv(a, m) == (a, m)
  {
  }

  // ----- a pulse channel in closed form -----

  function PulseTicks(c: Channel, regs: ChannelRegisters, m: IoMemory, n: nat): Channel {
    if n == 0 then c else TickPulse(PulseTicks(c, regs, m, n - 1), regs, m)
  }

  /** How often the counter has overflowed after n ticks. */
  function Overflows(c: Channel, period: nat, n: nat): int
    requires period < 0x800
  {
    if c.counter + n < 0x800 then 0 else 1 + (c.counter + n - 0x800) / (0x800 - period)
  }

  lemma DivSuccessor(x: nat, d: nat)
    requires d > 0
    ensures (x + 1) / d == (if x % d + 1 == d then x / d + 1 else x / d)
    ensures (x + 1) % d == (if x % d + 1 == d then 0 else x % d + 1)
  {
    var q, r := x / d, x % d;
    if r + 1 == d {
      assert d * (q + 1) == d * q + d;
      ModUnique(x + 1, d, q + 1, 0);
    } else {
      ModUnique(x + 1, d, q, r + 1);
    }
  }

  /** Where the counter stands after n ticks: it runs from the period to 0x7FF over and over. */
  function CounterAfter(c: Channel, period: nat, n: nat): int
    requires period < 0x800
  {
    if c.counter + n < 0x800 then c.counter + n else period + (c.counter + n - 0x800) % (0x800 - period)
  }

  lemma OneMoreTick(c: Channel, period: nat, n: nat)
    requires period < 0x800 && c.counter < 0x800
    ensures var overflow := CounterAfter(c, period, n) + 1 == 0x800;
      && 0 <= CounterAfter(c, period, n) < 0x800
      && CounterAfter(c, period, n + 1) == (if overflow then period else CounterAfter(c, period, n) + 1)
      && Overflows(c, period, n + 1) == Overflows(c, period, n) + (if overflow then 1 else 0)
  {
    if c.counter + n >= 0x800 {
      DivSuccessor(c.counter + n - 0x800, 0x800 - period);
    } else if c.counter + n + 1 == 0x800 {
      ModUnique(0, 0x800 - period, 0, 0);
    }
  }

  lemma NextPoint(start: nat, overflows: int)
    ensures ((start + overflows) % 8 + 1) % 8 == (start + (overflows + 1)) % 8
  {
  }

  /** An enabled channel advances its sample point once per overflow, and nothing else moves it. */
  lemma {:induction false} PulseClosedForm(c: Channel, regs: ChannelRegisters, m: IoMemory, n: nat)
    requires c.on && c.counter < 0x800 && c.samplePoint < 8
    ensures var p, r := Period(m, regs.frequency, regs.ctl), PulseTicks(c, regs, m, n);
      && r.on && r.counter == CounterAfter(c, p, n) < 0x800
      && r.samplePoint == (c.samplePoint + Overflows(c, p, n)) % 8
  {
    if n > 0 {
      hide Period, Duty, CounterAfter, Overflows;
      var p := Period(m, regs.frequency, regs.ctl);
      PulseClosedForm(c, regs, m, n - 1);
      OneMoreTick(c, p, n - 1);
      NextPoint(c.samplePoint, Overflows(c, p, n - 1));
    }
  }

  lemma QuarterStep(x: nat)
    ensures (x + 1) / 4 == (if (x + 1) % 4 == 0 then x / 4 + 1 else x / 4)
  {
  }

  /** Clocking the whole unit ticks each pulse channel once per four clocks, whatever the others do. */
  lemma {:induction false} TicksDrivePulses(a: Apu, m: IoMemory, n: nat)
    ensures (a.lastClock + n) / 4 >= a.lastClock / 4
    ensures Ticks(a, m, n).ch1 == PulseTicks(a.ch1, CHANNEL1, m, (a.lastClock + n) / 4 - a.lastClock / 4)
    ensures Ticks(a, m, n).ch2 == PulseTicks(a.ch2, CHANNEL2, m, (a.lastClock + n) / 4 - a.lastClock / 4)
  {
    hide Tick, TickPulse;
    if n > 0 {
      TicksDrivePulses(a, m, n - 1);
      TicksAdd(a, m, n - 1, 1);
      var b := Ticks(a, m, n - 1);
      TicksOne(b, m);
      QuarterStep(a.lastClock + n - 1);
      TickPulses(b, m);
    }
  }

  lemma TicksOne(a: Apu, m: IoMemory)
    ensures Ticks(a, m, 1) == Tick(a, m)
  {
    hide Tick;
    assert Ticks(Tick(a, m), m, 0) == Tick(a, m);
  }

  lemma TickPulses(a: Apu, m: IoMemory)
    ensures Tick(a, m).ch1 == if (a.lastClock + 1) % 4 == 0 then TickPulse(a.ch1, CHANNEL1, m) else a.ch1
    ensures Tick(a, m).ch2 == if (a.lastClock + 1) % 4 == 0 then TickPulse(a.ch2, CHANNEL2, m) else a.ch2
  {
    hide TickPulse, TickWave, TickNoise, MixedSample;
  }

  // ----- interleavings of clocking, register writes and draining -----

  datatype Operation = Advance(div: u8, clocks: nat) | Store(reg: Reg, value: u8) | Drain(count: nat)

  datatype Session = Session(apu: Apu, memory: IoMemory, drained: seq<Sample>)

  function Apply(s: Session, op: Operation): Session {
    match op
    case Advance(div, clocks) =>
      var (apu, m) := ClockTo(s.apu, s.memory[DIV_TIMER := div], s.apu.lastClock + clocks);
      Session(apu, m, s.drained)
    case Store(reg, value) =>
      var (apu, m) := WriteApu(s.apu, s.memory, reg, value);
      Session(apu, m, s.drained)
    case Drain(count) =>
      if count <= |s.apu.samples|
      then Session(Flush(s.apu, count), s.memory, s.drained + s.apu.samples[..count])
      else s
  }

  function ApplyAll(s: Session, ops: seq<Operation>): Session
    decreases |ops|
  {
    if ops == [] then s else ApplyAll(Apply(s, ops[0]), ops[1..])
  }

  /** The ranges hold after any interleaving, so every sample ever produced lies in [-1, 1]. */
  lemma {:induction false} SessionInv(s: Session, ops: seq<Operation>)
    requires ApuInv(s.apu) && SamplesOk(s.drained)
    ensures ApuInv(ApplyAll(s, ops).apu) && SamplesOk(ApplyAll(s, ops).drained)
    decreases |ops|
  {
    hide ClockTo, WriteApu;
    if ops != [] {
      match ops[0] {
        case Advance(div, clocks) => ClockToInv(s.apu, s.memory[DIV_TIMER := div], s.apu.lastClock + clocks);
        case Store(reg, value) => WriteApuInv(s.apu, s.memory, reg, value);
        case Drain(count) =>
      }
      SessionInv(Apply(s, ops[0]), ops[1..]);
    }
  }

  function WithoutDrains(ops: seq<Operation>): seq<Operation>
    decreases |ops|
  {
    if ops == [] then []
    else if ops[0].Drain? then WithoutDrains(ops[1..])
    else [ops[0]] + WithoutDrains(ops[1..])
  }

  function Prefixed(a: Apu, earlier: seq<Sample>): Apu {
    a.(samples := earlier + a.samples)
  }

  lemma {:induction false} TicksPrefixed(a: Apu, m: IoMemory, earlier: seq<Sample>, n: nat)
    ensures Ticks(Prefixed(a, earlier), m, n) == Prefixed(Ticks(a, m, n), earlier)
    decreases n
  {
    hide Tick;
    if n > 0 {
      TickPrefixed(a, m, earlier);
      TicksPrefixed(Tick(a, m), m, earlier, n - 1);
    }
  }

  lemma TickPrefixed(a: Apu, m: IoMemory, earlier: seq<Sample>)
    ensures Tick(Prefixed(a, earlier), m) == Prefixed(Tick(a, m), earlier)
  {
    hide TickAudio, MixedSample;
    var a1 := a.(lastClock := a.lastClock + 1);
    TickAudioPrefixed(a1, m, earlier);
    var b := TickAudio(a1, m);
    MixedPrefixed(b, m, earlier);
    assert earlier + (b.samples + [MixedSample(b, m)]) == (earlier + b.samples) + [MixedSample(b, m)];
  }

  lemma TickAudioPrefixed(a: Apu, m: IoMemory, earlier: seq<Sample>)
    ensures TickAudio(Prefixed(a, earlier), m) == Prefixed(TickAudio(a, m), earlier)
  {
    hide TickPulse, TickWave, TickNoise;
  }

  lemma MixedPrefixed(a: Apu, m: IoMemory, earlier: seq<Sample>)
    ensures MixedSample(Prefixed(a, earlier), m) == MixedSample(a, m)
  {
    hide MixOutputs, Dac;
  }

  lemma RearmPrefixed(a: Apu, m: IoMemory, earlier: seq<Sample>)
    ensures SweepCheck(Prefixed(a, earlier), m) == Prefixed(SweepCheck(a, m), earlier)
    ensures RearmSweep(Prefixed(a, earlier), m) == Prefixed(RearmSweep(a, m), earlier)
  {
    hide SweepTarget;
  }

  lemma SweepPrefixed(a: Apu, m: IoMemory, earlier: seq<Sample>)
    ensures Sweep(Prefixed(a, earlier), m) == (Prefixed(Sweep(a, m).0, earlier), Sweep(a, m).1)
  {
    hide SweepTarget, WithPeriod, SweepCheck, RearmSweep;
    var b := if a.sweepCountdown != 0 then a.(sweepCountdown := a.sweepCountdown - 1) else a;
    RearmPrefixed(b, m, earlier);
    var c := SweepCheck(b, m);
    var m' := if c.sweepActive && m[CHANNEL1_SWEEP] % 8 != 0
              then WithPeriod(m, CHANNEL1_PERIOD_LOW, CHANNEL1_CTL, SweepTarget(m)) else m;
    RearmPrefixed(c, m', earlier);
  }

  lemma SequencerPrefixed(a: Apu, m: IoMemory, earlier: seq<Sample>)
    ensures FrameSequencer(Prefixed(a, earlier), m) == (Prefixed(FrameSequencer(a, m).0, earlier), FrameSequencer(a, m).1)
  {
    hide EnvelopeEvent, LengthEvent, LengthEventWave, Sweep, RearmSweep;
    var b := if a.divCounter % 8 == 0 then EnvelopeEvents(a) else a;
    var (c, m') := if a.divCounter % 2 == 0 then LengthEvents(b, m) else (b, m);
    SweepPrefixed(c.(fired := c.fired.(sweeps := c.fired.sweeps + 1)), m', earlier);
  }

  lemma ClockToPrefixed(a: Apu, m: IoMemory, earlier: seq<Sample>, target: nat)
    requires a.lastClock <= target
    ensures ClockTo(Prefixed(a, earlier), m, target) == (Prefixed(ClockTo(a, m, target).0, earlier), ClockTo(a, m, target).1)
  {
    hide FrameSequencer, Ticks;
    SequencerPrefixed(a.(lastDiv := m[DIV_TIMER], divCounter := a.divCounter + 1), m, earlier);
    if a.lastClock < target {
      TicksPrefixed(TickDiv(a, m).0, TickDiv(a, m).1, earlier, target - a.lastClock);
    }
  }

  lemma WritePrefixed(a: Apu, m: IoMemory, earlier: seq<Sample>, reg: Reg, value: u8)
    ensures WriteApu(Prefixed(a, earlier), m, reg, value) ==
            (Prefixed(WriteApu(a, m, reg, value).0, earlier), WriteApu(a, m, reg, value).1)
  {
    hide RearmSweep, TriggerPwm, PowerDown;
    var m' := m[reg := value];
    RearmPrefixed(a, m', earlier);
    RearmPrefixed(a.(ch1 := Restart(a.ch1, PwmDac(m', CHANNEL1))), m', earlier);
  }

  /** The buffer a run would have had, had nothing ever been drained. */
  function Undrained(s: Session): Session {
    Session(Prefixed(s.apu, s.drained), s.memory, [])
  }

  lemma ApplyUndrained(s: Session, op: Operation)
    ensures Undrained(Apply(s, op)) == if op.Drain? then Undrained(s) else Apply(Undrained(s), op)
  {
    hide ClockTo, WriteApu;
    match op
    case Advance(div, clocks) =>
      ClockToPrefixed(s.apu, s.memory[DIV_TIMER := div], s.drained, s.apu.lastClock + clocks);
    case Store(reg, value) =>
      WritePrefixed(s.apu, s.memory, s.drained, reg, value);
    case Drain(count) =>
      if count <= |s.apu.samples| {
        assert s.apu.samples == s.apu.samples[..count] + s.apu.samples[count..];
        assert (s.drained + s.apu.samples[..count]) + s.apu.samples[count..] == s.drained + s.apu.samples;
      }
  }

  /** What was drained, followed by what is still buffered, is exactly what the same run without any
      draining would have buffered; and draining changes nothing else. */
  lemma {:induction false} DrainingLosesNothing(s: Session, ops: seq<Operation>)
    ensures Undrained(ApplyAll(s, ops)) == ApplyAll(Undrained(s), WithoutDrains(ops))
    decreases |ops|
  {
    hide Apply, Undrained;
    if ops != [] {
      ApplyUndrained(s, ops[0]);
      DrainingLosesNothing(Apply(s, ops[0]), ops[1..]);
      if !ops[0].Drain? {
        assert ([ops[0]] + WithoutDrains(ops[1..]))[1..] == WithoutDrains(ops[1..]);
      }
    }
  }
}
