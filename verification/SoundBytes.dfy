/** What the sound registers mean, by address and bit: waveforms, periods, noise, the mixer, triggering, and
    what reads back. */
module SoundBytes {
  import opened Bits
  import opened Audio
  import opened AudioClocking
  import opened AudioEvents

  // ----- pulse channels: registers 0xFF11-0xFF14 and 0xFF16-0xFF19 -----

  function PulseRegisters(second: bool): ChannelRegisters {
    if second then CHANNEL2 else CHANNEL1
  }

  function PulsePeriod(m: IoMemory, second: bool): (p: nat)
    ensures p < 0x800
  {
    if second then (m[0x18] as nat) + 0x100 * (m[0x19] % 8) as nat else (m[0x13] as nat) + 0x100 * (m[0x14] % 8) as nat
  }

  /** The four duty cycles, one level per sample point. */
  function Waveform(duty: nat): (w: seq<nat>)
    ensures |w| == 8
  {
    if duty == 0 then [1, 1, 1, 1, 1, 1, 1, 0]
    else if duty == 1 then [0, 1, 1, 1, 1, 1, 1, 0]
    else if duty == 2 then [0, 1, 1, 1, 1, 0, 0, 0]
    else [1, 0, 0, 0, 0, 0, 0, 1]
  }

  function PulseLevel(c: Channel, m: IoMemory, second: bool, point: nat): nat
    requires point < 8
  {
    Waveform(m[if second then 0x16 else 0x11] / 0x40)[point] * c.peekLevel
  }

  lemma PulsePeriodIs(m: IoMemory, second: bool)
    ensures var regs := PulseRegisters(second); Period(m, regs.frequency, regs.ctl) == PulsePeriod(m, second)
  {
  }

  lemma OnePulseTick(c: Channel, m: IoMemory, second: bool)
    requires c.on && c.counter < 0x800 && c.samplePoint < 8
    ensures var point := (c.samplePoint + 1) % 8;
      TickPulse(c, PulseRegisters(second), m) ==
        if c.counter == 0x7FF then c.(counter := PulsePeriod(m, second), samplePoint := point, level := PulseLevel(c, m, second, point))
        else c.(counter := c.counter + 1)
  {
  }

  /** After n ticks of a sounding channel: its counter has run from the period to 0x7FF over and over, its
      sample point has moved once per overflow, and its output is the waveform at that point. */
  lemma {:induction false} PulseSounds(c: Channel, m: IoMemory, second: bool, n: nat)
    requires c.on && c.counter < 0x800 && c.samplePoint < 8
    ensures var r, p := PulseTicks(c, PulseRegisters(second), m, n), PulsePeriod(m, second);
      var point := (c.samplePoint + Overflows(c, p, n)) % 8;
      r == c.(counter := CounterAfter(c, p, n), samplePoint := point,
              level := if Overflows(c, p, n) == 0 then c.level else PulseLevel(c, m, second, point))
  {
    hide TickPulse, CounterAfter, Overflows, PulsePeriod, PulseLevel;
    var p := PulsePeriod(m, second);
    if n == 0 {
      NoTicks(c, p);
    } else {
      PulseSounds(c, m, second, n - 1);
      OneMoreTick(c, p, n - 1);
      NextPoint(c.samplePoint, Overflows(c, p, n - 1));
      OverflowsCount(c, p, n - 1);
      OnePulseTick(PulseTicks(c, PulseRegisters(second), m, n - 1), m, second);
      SameLevel(c, PulseTicks(c, PulseRegisters(second), m, n - 1), m, second);
    }
  }

  lemma NoTicks(c: Channel, p: nat)
    requires p < 0x800 && c.counter < 0x800
    ensures CounterAfter(c, p, 0) == c.counter && Overflows(c, p, 0) == 0
  {
  }

  lemma OverflowsCount(c: Channel, p: nat, n: nat)
    requires p < 0x800
    ensures Overflows(c, p, n) >= 0
  {
    if c.counter + n >= 0x800 {
      DivAtLeast(c.counter + n - 0x800, 0x800 - p);
    }
  }

  lemma DivAtLeast(x: nat, d: nat)
    requires d > 0
    ensures x / d >= 0
  {
  }

  lemma SameLevel(c: Channel, d: Channel, m: IoMemory, second: bool)
    requires d.peekLevel == c.peekLevel
    ensures forall point :: 0 <= point < 8 ==> PulseLevel(d, m, second, point) == PulseLevel(c, m, second, point)
  {
  }

  // ----- the wave channel: registers 0xFF1A-0xFF1E, pattern at 0xFF30-0xFF3F -----

  function WavePeriod(m: IoMemory): (p: nat)
    ensures p < 0x800
  {
    (m[0x1D] as nat) + 0x100 * (m[0x1E] % 8) as nat
  }

  /** The 32 samples, the upper half of each byte first. */
  function WaveSample(m: IoMemory, point: nat): nat
    requires point < 32
  {
    var byte := m[0x30 + point / 2];
    if point % 2 == 0 then byte / 0x10 else byte % 0x10
  }

  /** The volume setting mutes, or shifts the sample down. */
  function WaveLevel(c: Channel, m: IoMemory, point: nat): nat
    requires point < 32
  {
    var sample := WaveSample(m, point);
    if c.peekLevel == 0 then 0 else if c.peekLevel == 1 then sample else if c.peekLevel == 2 then sample / 2 else sample / 4
  }

  function WaveTicks(c: Channel, m: IoMemory, n: nat): Channel {
    if n == 0 then c else TickWave(WaveTicks(c, m, n - 1), m)
  }

  lemma OneWaveTick(c: Channel, m: IoMemory)
    requires c.on && c.counter < 0x800 && c.samplePoint < 32
    ensures var point := (c.samplePoint + 1) % 32;
      TickWave(c, m) ==
        if c.counter == 0x7FF then c.(counter := WavePeriod(m), samplePoint := point, level := WaveLevel(c, m, point))
        else c.(counter := c.counter + 1)
  {
  }

  lemma NextWavePoint(start: nat, overflows: int)
    ensures ((start + overflows) % 32 + 1) % 32 == (start + (overflows + 1)) % 32
  {
  }

  lemma {:induction false} WaveSounds(c: Channel, m: IoMemory, n: nat)
    requires c.on && c.counter < 0x800 && c.samplePoint < 32
    ensures var r, p := WaveTicks(c, m, n), WavePeriod(m);
      var point := (c.samplePoint + Overflows(c, p, n)) % 32;
      r == c.(counter := CounterAfter(c, p, n), samplePoint := point,
              level := if Overflows(c, p, n) == 0 then c.level else WaveLevel(c, m, point))
  {
    hide TickWave, CounterAfter, Overflows, WavePeriod, WaveLevel;
    var p := WavePeriod(m);
    if n == 0 {
      NoTicks(c, p);
    } else {
      WaveSounds(c, m, n - 1);
      OneMoreTick(c, p, n - 1);
      NextWavePoint(c.samplePoint, Overflows(c, p, n - 1));
      OverflowsCount(c, p, n - 1);
      OneWaveTick(WaveTicks(c, m, n - 1), m);
      SameWaveLevel(c, WaveTicks(c, m, n - 1), m);
    }
  }

  lemma SameWaveLevel(c: Channel, d: Channel, m: IoMemory)
    requires d.peekLevel == c.peekLevel
    ensures forall point :: 0 <= point < 32 ==> WaveLevel(d, m, point) == WaveLevel(c, m, point)
  {
  }

  lemma TickDrives(a: Apu, m: IoMemory)
    ensures Tick(a, m).ch3 == if (a.lastClock + 1) % 2 == 0 then TickWave(a.ch3, m) else a.ch3
    ensures (Tick(a, m).ch4, Tick(a, m).lsr) == if (a.lastClock + 1) % 4 == 0 then TickNoise(a.ch4, a.lsr, m) else (a.ch4, a.lsr)
  {
    hide TickPulse, TickWave, TickNoise, MixedSample;
  }

  lemma HalfStep(x: nat)
    ensures (x + 1) / 2 == (if (x + 1) % 2 == 0 then x / 2 + 1 else x / 2)
  {
  }

  /** The wave channel ticks every second clock. */
  lemma {:induction false} TicksDriveWave(a: Apu, m: IoMemory, n: nat)
    ensures (a.lastClock + n) / 2 >= a.lastClock / 2
    ensures Ticks(a, m, n).ch3 == WaveTicks(a.ch3, m, (a.lastClock + n) / 2 - a.lastClock / 2)
  {
    hide Tick, TickWave;
    if n > 0 {
      TicksDriveWave(a, m, n - 1);
      TicksAdd(a, m, n - 1, 1);
      var b := Ticks(a, m, n - 1);
      TicksOne(b, m);
      HalfStep(a.lastClock + n - 1);
      TickDrives(b, m);
    }
  }

  // ----- noise: register 0xFF22 -----

  /** The shift register moves down; its new top bit is 0 exactly when both low bits were 1, and is also or-ed
      into bit 7 in short mode. */
  lemma NoiseBits(lsr: u16, short: bool, i: nat)
    requires i < 16
    ensures var r, top := NoiseStep(lsr, short), !(Bit(lsr, 0) && Bit(lsr, 1));
      Bit(r, i) == if i == 15 then top else if i == 7 && short then Bit(lsr, 8) || top else Bit(lsr, i + 1)
  {
    hide Bit, Exp2;
    BitDigits(lsr);
    Powers16();
    var half, top := lsr / 2, !(lsr % 2 == 1 && lsr / 2 % 2 == 1);
    var shifted := half + (if top then 0x8000 else 0);
    NextBit(lsr, i);
    NextBit(lsr, 7);
    TopBitClear(half, 15);
    AddedBit(half, 15, i);
    AddedBit(half, 15, 7);
    BitDigits(shifted);
    if !Bit(shifted, 7) {
      FreeBit(shifted, 7, i);
    }
  }

  lemma NextBit(x: nat, i: nat)
    ensures Bit(x, i + 1) == Bit(x / 2, i)
  {
  }

  lemma Powers16()
    ensures Exp2(7) == 0x80 && Exp2(15) == 0x8000
  {
    Powers();
    assert Exp2(15) == 2 * Exp2(14) == 4 * Exp2(13) == 8 * Exp2(12) == 0x10 * Exp2(11);
    assert Exp2(11) == 2 * Exp2(10) == 4 * Exp2(9) == 8 * Exp2(8) == 0x10 * Exp2(7);
  }

  /** Adding 2^n to a number below it sets exactly that bit. */
  lemma AddedBit(x: nat, n: nat, i: nat)
    requires x < Exp2(n)
    ensures Bit(x + Exp2(n), i) == (i == n || Bit(x, i))
  {
    hide Bit, Exp2;
    TopBitClear(x, n);
    FreeBit(x, n, i);
  }

  /** Adding 2^n where bit n is 0 sets exactly that bit. */
  lemma {:induction false} FreeBit(x: nat, n: nat, i: nat)
    requires !Bit(x, n)
    ensures Bit(x + Exp2(n), i) == (i == n || Bit(x, i))
    decreases n
  {
    if n == 0 {
      assert (x + 1) / 2 == x / 2;
    } else {
      assert (x + Exp2(n)) / 2 == x / 2 + Exp2(n - 1) && (x + Exp2(n)) % 2 == x % 2;
      if i > 0 {
        FreeBit(x / 2, n - 1, i - 1);
      }
    }
  }

  lemma {:induction false} TopBitClear(x: nat, n: nat)
    requires x < Exp2(n)
    ensures !Bit(x, n)
    decreases n
  {
    if n > 0 {
      TopBitClear(x / 2, n - 1);
    }
  }

  /** When its countdown ends, noise reloads (0xFF22 mod 8) * 2^(0xFF22 / 16 + 2) ticks, shifts once, and is
      heard while the new low bit is 1. */
  lemma NoiseSounds(c: Channel, lsr: u16, m: IoMemory)
    requires c.on && c.counter >= 1
    ensures var (d, next) := TickNoise(c, lsr, m);
      if c.counter > 1 then d == c.(counter := c.counter - 1) && next == lsr
      else
        && next == NoiseStep(lsr, Bit(m[0x22], 3))
        && d == c.(counter := m[0x22] % 8 * Exp2(m[0x22] / 0x10 + 2), level := if Bit(next, 0) then c.peekLevel else 0)
  {
    hide Bit, Exp2, NoiseStep, Shl;
    BitDigits(m[0x22]);
    var next := NoiseStep(lsr, Bit(m[0x22], 3));
    BitDigits(next);
    ShlIsProduct(m[0x22] % 8, m[0x22] / 0x10 + 2);
  }

  lemma {:induction false} ShlIsProduct(a: nat, n: nat)
    ensures Shl(a, n) == a * Exp2(n)
    decreases n
  {
    if n > 0 {
      ShlIsProduct(2 * a, n - 1);
      assert 2 * a * Exp2(n - 1) == a * (2 * Exp2(n - 1));
    }
  }

  // ----- the mixer: registers 0xFF24 and 0xFF25 -----

  /** A sounding channel puts out 1 at level 0 and -1 at level 15. */
  function Analogue(c: Channel): real {
    if c.on then 1.0 - 2.0 * c.level as real / 15.0 else 0.0
  }

  /** What a channel adds to a side whose panning bit it is given. */
  function Contribution(m: IoMemory, bit: nat, c: Channel): real {
    if Bit(m[0x25], bit) then Analogue(c) else 0.0
  }

  function Side(a: Apu, m: IoMemory, first: nat, volume: nat): real {
    (Contribution(m, first, a.ch1) + Contribution(m, first + 1, a.ch2) + Contribution(m, first + 2, a.ch3) + Contribution(m, first + 3, a.ch4))
    * (volume + 1) as real / 32.0
  }

  /** The left side takes panning bits 4-7 and volume bits 4-6, the right side panning bits 0-3 and volume bits 0-2. */
  lemma MixerSides(a: Apu, m: IoMemory)
    ensures MixedSample(a, m).left == Side(a, m, 4, m[0x24] / 0x10 % 8)
    ensures MixedSample(a, m).right == Side(a, m, 0, m[0x24] % 8)
  {
    hide Bit;
    var p := m[0x25];
    BitDigits(p);
    assert p / 0x10 / 2 == p / 0x20 && p / 0x10 / 4 == p / 0x40 && p / 0x10 / 8 == p / 0x80;
    LowNibbleDigits(p);
    AnalogueIs(a.ch1);
    AnalogueIs(a.ch2);
    AnalogueIs(a.ch3);
    AnalogueIs(a.ch4);
    SideIs(a, m, 4, p / 0x10, m[0x24] / 0x10 % 8);
    SideIs(a, m, 0, p % 0x10, m[0x24] % 8);
  }

  lemma LowNibbleDigits(p: nat)
    ensures p % 0x10 % 2 == p % 2 && p % 0x10 / 2 % 2 == p / 2 % 2 && p % 0x10 / 4 % 2 == p / 4 % 2 && p % 0x10 / 8 % 2 == p / 8 % 2
  {
    LowDigits(p / 0x10, p % 0x10);
  }

  lemma LowDigits(q: nat, r: nat)
    requires r < 0x10
    ensures var p := 0x10 * q + r; p % 2 == r % 2 && p / 2 % 2 == r / 2 % 2 && p / 4 % 2 == r / 4 % 2 && p / 8 % 2 == r / 8 % 2
  {
    OffsetDigits(8 * q, r, 2);
    OffsetDigits(4 * q, r, 4);
    OffsetDigits(2 * q, r, 8);
    OffsetDigits(4 * q, r / 2, 2);
    OffsetDigits(2 * q, r / 4, 2);
    OffsetDigits(q, r / 8, 2);
  }

  lemma OffsetDigits(k: nat, r: nat, d: nat)
    requires d > 0
    ensures (d * k + r) / d == k + r / d && (d * k + r) % d == r % d
  {
    assert d * (k + r / d) == d * k + d * (r / d);
    ModUnique(d * k + r, d, k + r / d, r % d);
  }

  lemma AnalogueIs(c: Channel)
    ensures Dac(c) == Analogue(c)
  {
  }

  lemma SideIs(a: Apu, m: IoMemory, first: nat, pan: nat, volume: nat)
    requires Dac(a.ch1) == Analogue(a.ch1) && Dac(a.ch2) == Analogue(a.ch2) && Dac(a.ch3) == Analogue(a.ch3) && Dac(a.ch4) == Analogue(a.ch4)
    requires pan % 2 == 1 <==> Bit(m[0x25], first)
    requires pan / 2 % 2 == 1 <==> Bit(m[0x25], first + 1)
    requires pan / 4 % 2 == 1 <==> Bit(m[0x25], first + 2)
    requires pan / 8 % 2 == 1 <==> Bit(m[0x25], first + 3)
    ensures Mix(a, pan, volume) == Side(a, m, first, volume)
  {
    hide Bit, Dac, Analogue;
    var sum := Contribution(m, first, a.ch1) + Contribution(m, first + 1, a.ch2) + Contribution(m, first + 2, a.ch3) + Contribution(m, first + 3, a.ch4);
    Quarters(sum, (volume + 1) as real);
  }

  lemma Quarters(sum: real, v: real)
    ensures 0.25 * sum * (v / 8.0) == sum * v / 32.0
  {
  }

  // ----- samples -----

  /** How many samples n clocks produce: one every clocksPerSample + 1. */
  function SamplesIn(a: Apu, n: nat): int {
    if n <= a.clocksTillSample then 0 else 1 + (n - a.clocksTillSample - 1) / (a.clocksPerSample + 1)
  }

  lemma {:induction false} SamplesOnTime(a: Apu, m: IoMemory, n: nat)
    ensures |Ticks(a, m, n).samples| == |a.samples| + SamplesIn(a, n)
    decreases n
  {
    hide Tick, SamplesIn;
    if n == 0 {
      NoSamples(a);
    } else {
      SamplesOnTime(Tick(a, m), m, n - 1);
      OneSampleTick(a, m, n);
    }
  }

  lemma NoSamples(a: Apu)
    ensures SamplesIn(a, 0) == 0
  {
  }

  lemma OneSampleTick(a: Apu, m: IoMemory, n: nat)
    requires n > 0
    ensures var b := Tick(a, m); |b.samples| + SamplesIn(b, n - 1) == |a.samples| + SamplesIn(a, n)
  {
    hide TickAudio, MixedSample;
    TickLeavesSamples(a.(lastClock := a.lastClock + 1), m);
    var period := a.clocksPerSample + 1;
    if a.clocksTillSample == 0 && n > period {
      var x := n - 1;
      assert x == period * 1 + (x - period);
      DivSuccessorWhole(x - period, period);
    } else if a.clocksTillSample == 0 {
      ModUnique(n - 1, period, 0, n - 1);
    }
  }

  lemma DivSuccessorWhole(x: nat, d: nat)
    requires d > 0
    ensures (x + d) / d == x / d + 1
  {
    assert d * (x / d + 1) == d * (x / d) + d;
    ModUnique(x + d, d, x / d + 1, x % d);
  }

  lemma TickLeavesSamples(a: Apu, m: IoMemory)
    ensures var b := TickAudio(a, m);
      b.samples == a.samples && b.clocksTillSample == a.clocksTillSample && b.clocksPerSample == a.clocksPerSample
  {
    hide TickPulse, TickWave, TickNoise;
  }

  // ----- register writes -----

  /** A pulse or noise channel as triggering leaves it: timer, volume and envelope come from its registers. */
  function Triggered(c: Channel, length: u8, envelope: u8, on: bool): Channel {
    Channel(length % 0x40, envelope / 0x10, envelope % 8, envelope % 8, 0, 0, c.level, Bit(envelope, 3), on && envelope >= 8)
  }

  /** The sweep as its register reloads it: countdown, activity, lock; then the look ahead may silence channel 1. */
  function Reloaded(a: Apu, m: IoMemory): Apu {
    var pace, step := SweepPace(m), SweepStep(m);
    var high := step != 0 && TooHigh(m);
    a.(sweepCountdown := pace, sweepActive := pace != 0 && !high, sweepLocked := pace != 0 || step == 0,
       ch1 := if high then a.ch1.(on := false) else a.ch1)
  }

  lemma ReloadedIs(a: Apu, m: IoMemory)
    ensures RearmSweep(a, m) == Reloaded(a, m)
  {
    hide SweepTarget, SweepRises, TooHigh, MovedPeriod;
    SweepTargetIs(m);
    BeyondIs(m);
  }

  lemma BeyondIs(m: IoMemory)
    ensures Beyond(m) == (SweepRises(m) && SweepTarget(m) >= 0x800)
  {
  }

  /** Bit 7 of 0xFF14, 0xFF19, 0xFF1E or 0xFF23 triggers a channel; its DAC decides whether it sounds. */
  lemma TriggerWrites(a: Apu, m: IoMemory, value: u8)
    requires a.hasPower
    ensures var n := m[0x14 := value];
      WriteApu(a, m, 0x14, value) ==
        (if value >= 0x80 then Reloaded(a.(ch1 := Triggered(a.ch1, m[0x11], m[0x12], true)), n) else a, n)
    ensures WriteApu(a, m, 0x19, value) ==
      (if value >= 0x80 then a.(ch2 := Triggered(a.ch2, m[0x16], m[0x17], true)) else a, m[0x19 := value])
    ensures WriteApu(a, m, 0x23, value) ==
      (if value >= 0x80 then a.(ch4 := Triggered(a.ch4, m[0x20], m[0x21], true), lsr := 0) else a, m[0x23 := value])
    ensures WriteApu(a, m, 0x1E, value) ==
      (if value >= 0x80
       then a.(ch3 := a.ch3.(on := m[0x1A] >= 0x80, samplePoint := 0, counter := 0, peekLevel := m[0x1C] / 0x20 % 4)) else a,
       m[0x1E := value])
  {
    hide RearmSweep, Reloaded, Bit;
    BitDigits(m[0x12]);
    BitDigits(m[0x17]);
    BitDigits(m[0x21]);
    var n := m[0x14 := value];
    var restarted := a.(ch1 := Restart(a.ch1, PwmDac(n, CHANNEL1)));
    ReloadedIs(restarted, n);
    TriggerCommutes(a, n);
  }

  lemma TriggerCommutes(a: Apu, m: IoMemory)
    ensures var b := Reloaded(a.(ch1 := Restart(a.ch1, PwmDac(m, CHANNEL1))), m);
      b.(ch1 := TriggerPwm(b.ch1, CHANNEL1, m)) == Reloaded(a.(ch1 := Triggered(a.ch1, m[0x11], m[0x12], true)), m)
  {
    hide Bit, TooHigh;
    BitDigits(m[0x12]);
  }

  /** Writing a length reloads its timer; writing a silent envelope or clearing the wave DAC switches off. */
  lemma PlainWrites(a: Apu, m: IoMemory, value: u8)
    requires a.hasPower
    ensures WriteApu(a, m, 0x11, value) == (a.(ch1 := a.ch1.(lengthTimer := value % 0x40)), m[0x11 := value])
    ensures WriteApu(a, m, 0x16, value) == (a.(ch2 := a.ch2.(lengthTimer := value % 0x40)), m[0x16 := value])
    ensures WriteApu(a, m, 0x1B, value) == (a.(ch3 := a.ch3.(lengthTimer := value)), m[0x1B := value])
    ensures WriteApu(a, m, 0x20, value) == (a.(ch4 := a.ch4.(lengthTimer := value % 0x40)), m[0x20 := value])
    ensures WriteApu(a, m, 0x12, value) == (if value < 8 then a.(ch1 := a.ch1.(on := false)) else a, m[0x12 := value])
    ensures WriteApu(a, m, 0x17, value) == (if value < 8 then a.(ch2 := a.ch2.(on := false)) else a, m[0x17 := value])
    ensures WriteApu(a, m, 0x21, value) == (if value < 8 then a.(ch4 := a.ch4.(on := false)) else a, m[0x21 := value])
    ensures WriteApu(a, m, 0x1A, value) == (if value < 0x80 then a.(ch3 := a.ch3.(on := false)) else a, m[0x1A := value])
  {
    hide RearmSweep;
  }

  /** 0xFF10 reloads an unlocked sweep; a locked one only notices that it is switched off. */
  lemma SweepWrites(a: Apu, m: IoMemory, value: u8)
    requires a.hasPower
    ensures WriteApu(a, m, 0x10, value) ==
      (var n := m[0x10 := value];
       (if !a.sweepLocked then Reloaded(a, n) else if SweepPace(n) == 0 then a.(sweepActive := false) else a, n))
  {
    hide RearmSweep, Reloaded;
    ReloadedIs(a, m[0x10 := value]);
  }

  /** 0xFF26 switches the power; off clears 0xFF10-0xFF25, and writes are then ignored. */
  lemma PowerWrites(a: Apu, m: IoMemory, value: u8, reg: Reg)
    ensures var (b, n) := WriteApu(a, m, 0x26, value);
      && b == a.(hasPower := value >= 0x80)
      && n[0x26] == m[0x26] % 0x80 + (if value >= 0x80 then 0x80 else 0)
      && forall r: Reg :: r != 0x26 ==> n[r] == if value < 0x80 && 0x10 <= r < 0x26 then 0 else m[r]
    ensures !a.hasPower && reg != 0x26 ==> WriteApu(a, m, reg, value) == (a, m)
  {
    hide WritePowered;
  }

  // ----- register reads -----

  /** The bits of a register that read as 1 whatever it holds; all of them where nothing is assigned. */
  function ReadMask(reg: Reg): u8 {
    if reg == 0x24 || reg == 0x25 || reg == 0x12 || reg == 0x17 || reg == 0x21 || reg == 0x22 || 0x30 <= reg <= 0x3F then 0
    else if reg == 0x11 || reg == 0x16 then 0x3F
    else if reg == 0x10 then 0x80
    else if reg == 0x14 || reg == 0x19 || reg == 0x1E || reg == 0x23 then 0xBF
    else if reg == 0x1A then 0x7F
    else if reg == 0x1C then 0x9F
    else 0xFF
  }

  /** A sound register reads as it is stored, masked; 0xFF26 reports power and the four channels. */
  lemma SoundReads(a: Apu, m: IoMemory, reg: Reg, i: nat)
    requires i < 8
    ensures reg != 0x26 ==> (Bit(ReadApu(a, m, reg), i) <==> Bit(m[reg], i) || Bit(ReadMask(reg), i))
    ensures ReadApu(a, m, 0x26) ==
      if a.hasPower then 0xF0 + 8 * Digit(a.ch4.on) + 4 * Digit(a.ch3.on) + 2 * Digit(a.ch2.on) + Digit(a.ch1.on) else 0x70
  {
    hide Bit;
    BitOfOr(m[reg], ReadMask(reg), i);
    BitOfZero(i);
    AllOnes(i);
  }

  lemma AllOnes(i: nat)
    requires i < 8
    ensures Bit(0xFF, i)
  {
    hide Bit;
    BitDigits(0xFF);
  }

  function Digit(b: bool): nat {
    if b then 1 else 0
  }
}
