/** What every register write and every clock keeps, and what follows for the mixed sound. */
module AudioInvariants {
  import opened Bits
  import opened Audio

  // ----- ranges -----

  predicate EnvelopeOk(c: Channel) {
    && c.peekLevel <= 15 && c.level <= 15 && c.lengthTimer < 64 && c.pace <= 7
    && (c.pace != 0 ==> 1 <= c.envelopeTimer <= c.pace)
  }

  predicate PulseOk(c: Channel) {
    EnvelopeOk(c) && c.counter < 0x800 && c.samplePoint < 8
  }

  predicate WaveOk(c: Channel) {
    c.counter < 0x800 && c.samplePoint < 32 && c.peekLevel <= 3 && c.level <= 15 && c.lengthTimer < 256
  }

  predicate SweepOk(a: Apu) {
    a.sweepCountdown <= 7 && (a.sweepActive ==> a.sweepCountdown >= 1)
  }

  predicate Normalised(s: Sample) {
    -1.0 <= s.left <= 1.0 && -1.0 <= s.right <= 1.0
  }

  predicate SamplesOk(samples: seq<Sample>) {
    forall i :: 0 <= i < |samples| ==> Normalised(samples[i])
  }

  predicate ApuInv(a: Apu) {
    PulseOk(a.ch1) && PulseOk(a.ch2) && WaveOk(a.ch3) && EnvelopeOk(a.ch4) && SweepOk(a) && SamplesOk(a.samples)
  }

  // ----- the mixer -----

  lemma NonNegativeProduct(x: real, y: real)
    requires 0.0 <= x && 0.0 <= y
    ensures 0.0 <= x * y
  {
  }

  lemma ScaleBound(x: real, scale: real)
    requires -1.0 <= x <= 1.0 && 0.0 <= scale <= 1.0
    ensures -1.0 <= x * scale <= 1.0
  {
    NonNegativeProduct(1.0 - x, scale);
    NonNegativeProduct(1.0 + x, scale);
    assert (1.0 - x) * scale == scale - x * scale;
    assert (1.0 + x) * scale == scale + x * scale;
  }

  lemma PannedBound(enabled: bool, c: Channel)
    requires c.level <= 15
    ensures -1.0 <= Panned(enabled, Dac(c)) <= 1.0
  {
  }

  lemma MixBound(a: Apu, pan: nat, volume: nat)
    requires a.ch1.level <= 15 && a.ch2.level <= 15 && a.ch3.level <= 15 && a.ch4.level <= 15 && volume <= 7
    ensures -1.0 <= Mix(a, pan, volume) <= 1.0
  {
    hide Panned, Dac;
    PannedBound(pan % 2 == 1, a.ch1);
    PannedBound(pan / 2 % 2 == 1, a.ch2);
    PannedBound(pan / 4 % 2 == 1, a.ch3);
    PannedBound(pan / 8 % 2 == 1, a.ch4);
    var sum := Panned(pan % 2 == 1, Dac(a.ch1)) + Panned(pan / 2 % 2 == 1, Dac(a.ch2)) +
               Panned(pan / 4 % 2 == 1, Dac(a.ch3)) + Panned(pan / 8 % 2 == 1, Dac(a.ch4));
    ScaleBound(0.25 * sum, (volume + 1) as real / 8.0);
  }

  lemma MixedSampleBound(a: Apu, m: IoMemory)
    requires a.ch1.level <= 15 && a.ch2.level <= 15 && a.ch3.level <= 15 && a.ch4.level <= 15
    ensures Normalised(MixedSample(a, m))
  {
    hide Mix;
    MixBound(a, m[SOUND_PANNING] / 16, m[MASTER_VOLUME] / 16 % 8);
    MixBound(a, m[SOUND_PANNING] % 16, m[MASTER_VOLUME] % 8);
  }

  // ----- clocking -----

  lemma TickPulseOk(c: Channel, regs: ChannelRegisters, m: IoMemory)
    requires PulseOk(c)
    ensures PulseOk(TickPulse(c, regs, m))
  {
    hide Period, Duty;
  }

  lemma TickWaveOk(c: Channel, m: IoMemory)
    requires WaveOk(c)
    ensures WaveOk(TickWave(c, m))
  {
    hide Period, WaveNibble;
  }

  lemma TickNoiseOk(c: Channel, lsr: u16, m: IoMemory)
    requires EnvelopeOk(c)
    ensures EnvelopeOk(TickNoise(c, lsr, m).0)
  {
    hide NoiseStep, Shl;
  }

  lemma TickAudioInv(a: Apu, m: IoMemory)
    requires ApuInv(a)
    ensures ApuInv(TickAudio(a, m))
  {
    hide TickPulse, TickWave, TickNoise, PulseOk, WaveOk, EnvelopeOk;
    TickPulseOk(a.ch1, CHANNEL1, m);
    TickPulseOk(a.ch2, CHANNEL2, m);
    TickWaveOk(a.ch3, m);
    TickNoiseOk(a.ch4, a.lsr, m);
  }

  lemma TickInv(a: Apu, m: IoMemory)
    requires ApuInv(a)
    ensures ApuInv(Tick(a, m))
  {
    hide TickAudio, MixedSample;
    var b := TickAudio(a.(lastClock := a.lastClock + 1), m);
    TickAudioInv(a.(lastClock := a.lastClock + 1), m);
    MixedSampleBound(b, m);
  }

  lemma {:induction false} TicksInv(a: Apu, m: IoMemory, n: nat)
    requires ApuInv(a)
    ensures ApuInv(Ticks(a, m, n))
    decreases n
  {
    hide Tick, ApuInv;
    if n > 0 {
      TickInv(a, m);
      TicksInv(Tick(a, m), m, n - 1);
    }
  }

  // ----- the frame sequencer -----

  lemma RearmSweepInv(a: Apu, m: IoMemory)
    requires ApuInv(a)
    ensures ApuInv(RearmSweep(a, m))
    ensures RearmSweep(a, m).ch1 == a.ch1 || RearmSweep(a, m).ch1 == a.ch1.(on := false)
  {
    hide SweepTarget;
  }

  lemma SweepEventInv(a: Apu, m: IoMemory)
    requires ApuInv(a)
    ensures ApuInv(SweepEvent(a, m).0)
  {
    hide Sweep;
    SweepInv(a.(fired := a.fired.(sweeps := a.fired.sweeps + 1)), m);
  }

  lemma SweepInv(a: Apu, m: IoMemory)
    requires ApuInv(a)
    ensures ApuInv(Sweep(a, m).0)
  {
    hide SweepTarget, WithPeriod, RearmSweep;
    if a.ch1.on {
      var b := if a.sweepCountdown != 0 then a.(sweepCountdown := a.sweepCountdown - 1) else a;
      if b.sweepCountdown == 0 && b.sweepActive {
        var c := SweepCheck(b, m);
        var m' := if c.sweepActive && m[CHANNEL1_SWEEP] % 8 != 0
                  then WithPeriod(m, CHANNEL1_PERIOD_LOW, CHANNEL1_CTL, SweepTarget(m)) else m;
        var d := c.(sweepCountdown := 1);
        assert RearmSweep(c, m') == RearmSweep(d, m') by { RearmIgnoresCountdown(c, d, m'); }
        RearmSweepInv(d, m');
      }
    }
  }

  lemma RearmIgnoresCountdown(a: Apu, b: Apu, m: IoMemory)
    requires b == a.(sweepCountdown := b.sweepCountdown)
    ensures RearmSweep(a, m) == RearmSweep(b, m)
  {
    hide SweepTarget;
  }

  lemma EnvelopeEventOk(c: Channel)
    requires EnvelopeOk(c)
    ensures EnvelopeOk(EnvelopeEvent(c)) && EnvelopeEvent(c) == c.(envelopeTimer := EnvelopeEvent(c).envelopeTimer,
                                                                  peekLevel := EnvelopeEvent(c).peekLevel)
  {
  }

  lemma LengthEventOk(c: Channel, regs: ChannelRegisters, m: IoMemory)
    requires c.lengthTimer < 64
    ensures var d := LengthEvent(c, regs, m).0;
      d.lengthTimer < 64 && d == c.(lengthTimer := d.lengthTimer, on := d.on)
  {
  }

  lemma EnvelopeEventsInv(a: Apu)
    requires ApuInv(a)
    ensures ApuInv(EnvelopeEvents(a))
  {
    hide EnvelopeEvent;
    EnvelopeEventOk(a.ch1);
    EnvelopeEventOk(a.ch2);
    EnvelopeEventOk(a.ch4);
  }

  lemma LengthEventsInv(a: Apu, m: IoMemory)
    requires ApuInv(a)
    ensures ApuInv(LengthEvents(a, m).0)
  {
    hide LengthEvent;
    LengthEventOk(a.ch1, CHANNEL1, m);
    var m1 := LengthEvent(a.ch1, CHANNEL1, m).1;
    LengthEventOk(a.ch2, CHANNEL2, m1);
    LengthEventOk(a.ch4, CHANNEL4, LengthEvent(a.ch2, CHANNEL2, m1).1);
  }

  lemma FrameSequencerInv(a: Apu, m: IoMemory)
    requires ApuInv(a)
    ensures ApuInv(FrameSequencer(a, m).0)
  {
    hide EnvelopeEvents, LengthEvents, SweepEvent, ApuInv;
    EnvelopeEventsInv(a);
    var b := if a.divCounter % 8 == 0 then EnvelopeEvents(a) else a;
    LengthEventsInv(b, m);
    var (c, m') := if a.divCounter % 2 == 0 then LengthEvents(b, m) else (b, m);
    SweepEventInv(c, m');
  }

  lemma ClockToInv(a: Apu, m: IoMemory, target: nat)
    requires ApuInv(a) && a.lastClock <= target
    ensures ApuInv(ClockTo(a, m, target).0)
  {
    hide FrameSequencer, Ticks;
    var b := a.(lastDiv := m[DIV_TIMER]);
    FrameSequencerInv(b.(divCounter := b.divCounter + 1), m);
    var (a', m') := TickDiv(a, m);
    if a.lastClock < target {
      TicksInv(a', m', target - a.lastClock);
    }
  }

  // ----- register writes -----

  lemma TriggerPwmOk(c: Channel, regs: ChannelRegisters, m: IoMemory)
    requires c.level <= 15
    ensures EnvelopeOk(TriggerPwm(c, regs, m))
    ensures TriggerPwm(c, regs, m).counter == c.counter && TriggerPwm(c, regs, m).samplePoint == c.samplePoint
  {
  }

  lemma TriggerPwmInv(a: Apu, m: IoMemory)
    requires ApuInv(a)
    ensures ApuInv(TriggerChannel1(a, m)) && ApuInv(TriggerChannel2(a, m)) && ApuInv(TriggerChannel4(a, m))
  {
    hide RearmSweep, TriggerPwm, PwmDac;
    var b := a.(ch1 := Restart(a.ch1, PwmDac(m, CHANNEL1)));
    RearmSweepInv(b, m);
    TriggerPwmOk(RearmSweep(b, m).ch1, CHANNEL1, m);
    TriggerPwmOk(Restart(a.ch2, PwmDac(m, CHANNEL2)), CHANNEL2, m);
    TriggerPwmOk(Restart(a.ch4, PwmDac(m, CHANNEL4)), CHANNEL4, m);
  }

  lemma TriggerWaveInv(a: Apu, m: IoMemory)
    requires ApuInv(a)
    ensures ApuInv(TriggerChannel3(a, m))
  {
  }

  /** Registers whose write can trigger a channel or rearm the sweep. */
  predicate IsControlRegister(reg: Reg) {
    reg in {CHANNEL1_SWEEP, CHANNEL1_CTL, CHANNEL2_CTL, CHANNEL3_CTL, CHANNEL4_CTL}
  }

  lemma WriteControlInv(a: Apu, m: IoMemory, reg: Reg, value: u8)
    requires ApuInv(a) && m[reg] == value && IsControlRegister(reg)
    ensures ApuInv(WritePowered(a, m, reg, value))
  {
    hide TriggerChannel1, TriggerChannel2, TriggerChannel3, TriggerChannel4, RearmSweep, PulseOk, WaveOk, EnvelopeOk, SamplesOk;
    TriggerPwmInv(a, m);
    TriggerWaveInv(a, m);
    RearmSweepInv(a, m);
  }

  lemma WriteLengthInv(a: Apu, m: IoMemory, reg: Reg, value: u8)
    requires ApuInv(a) && m[reg] == value && !IsControlRegister(reg)
    ensures ApuInv(WritePowered(a, m, reg, value))
  {
    hide TriggerChannel1, TriggerChannel2, TriggerChannel3, TriggerChannel4, RearmSweep, SamplesOk;
  }

  lemma WritePoweredInv(a: Apu, m: IoMemory, reg: Reg, value: u8)
    requires ApuInv(a) && m[reg] == value
    ensures ApuInv(WritePowered(a, m, reg, value))
  {
    hide WritePowered, ApuInv;
    if IsControlRegister(reg) {
      WriteControlInv(a, m, reg, value);
    } else {
      WriteLengthInv(a, m, reg, value);
    }
  }

  /** No write, in any order with the clocking, leaves the ranges. */
  lemma WriteApuInv(a: Apu, m: IoMemory, reg: Reg, value: u8)
    requires ApuInv(a)
    ensures ApuInv(WriteApu(a, m, reg, value).0)
  {
    hide WritePowered, PowerDown;
    if reg != AUDIO_MASTER_CTL && a.hasPower {
      WritePoweredInv(a, m[reg := value], reg, value);
    }
  }

  lemma FlushInv(a: Apu, count: nat)
    requires ApuInv(a) && count <= |a.samples|
    ensures ApuInv(Flush(a, count))
  {
  }
}
