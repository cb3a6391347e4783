/** The audio unit as a function of its state and of the shared I/O registers. */
module Audio {
  import opened Bits

  // I/O registers are indexed from 0xFF00.
  type IoMemory = m: seq<u8> | |m| == 0x80 witness seq(0x80, _ => 0)

  const DIV_TIMER := 0x04
  const CHANNEL1_SWEEP := 0x10
  const CHANNEL1_LENGTH_DUTY := 0x11
  const CHANNEL1_VOLUME_ENVELOPE := 0x12
  const CHANNEL1_PERIOD_LOW := 0x13
  const CHANNEL1_CTL := 0x14
  const CHANNEL2_LENGTH_DUTY := 0x16
  const CHANNEL2_VOLUME_ENVELOPE := 0x17
  const CHANNEL2_PERIOD_LOW := 0x18
  const CHANNEL2_CTL := 0x19
  const CHANNEL3_DAC := 0x1A
  const CHANNEL3_LENGTH_TIMER := 0x1B
  const CHANNEL3_VOLUME := 0x1C
  const CHANNEL3_PERIOD_LOW := 0x1D
  const CHANNEL3_CTL := 0x1E
  const CHANNEL4_LENGTH_TIMER := 0x20
  const CHANNEL4_VOLUME_ENVELOPE := 0x21
  const CHANNEL4_RANDOMNESS := 0x22
  const CHANNEL4_CTL := 0x23
  const MASTER_VOLUME := 0x24
  const SOUND_PANNING := 0x25
  const AUDIO_MASTER_CTL := 0x26
  const WAVE_PATTERN_START := 0x30

  type Reg = r: nat | r < 0x80

  /** Where a channel's registers live. */
  datatype ChannelRegisters = ChannelRegisters(length: Reg, volumeEnvelope: Reg, ctl: Reg, frequency: Reg)

  const CHANNEL1 := ChannelRegisters(CHANNEL1_LENGTH_DUTY, CHANNEL1_VOLUME_ENVELOPE, CHANNEL1_CTL, CHANNEL1_PERIOD_LOW)
  const CHANNEL2 := ChannelRegisters(CHANNEL2_LENGTH_DUTY, CHANNEL2_VOLUME_ENVELOPE, CHANNEL2_CTL, CHANNEL2_PERIOD_LOW)
  const CHANNEL3 := ChannelRegisters(CHANNEL3_LENGTH_TIMER, CHANNEL3_VOLUME, CHANNEL3_CTL, CHANNEL3_PERIOD_LOW)
  const CHANNEL4 := ChannelRegisters(CHANNEL4_LENGTH_TIMER, CHANNEL4_VOLUME_ENVELOPE, CHANNEL4_CTL, CHANNEL4_RANDOMNESS)

  datatype Channel = Channel(
    lengthTimer: nat, peekLevel: nat, pace: nat, envelopeTimer: nat,
    samplePoint: nat, counter: nat, level: nat, increases: bool, on: bool)

  const SILENT := Channel(0, 0, 0, 0, 0, 0, 0, false, false)

  datatype Sample = Sample(left: real, right: real)

  /** How many length, sweep and envelope events have run: a record that nothing in the unit reads. */
  datatype Tally = Tally(lengths: nat, sweeps: nat, envelopes: nat)

  datatype Apu = Apu(
    clocksPerSample: nat, clocksTillSample: nat,
    lastClock: nat, divCounter: nat, lastDiv: nat, hasPower: bool,
    ch1: Channel, ch2: Channel, ch3: Channel, ch4: Channel,
    sweepCountdown: nat, sweepActive: bool, sweepLocked: bool,
    lsr: u16, samples: seq<Sample>, fired: Tally)

  function InitialApu(clocksPerSample: nat): Apu {
    Apu(clocksPerSample, 0, 0, 0, 0, false, SILENT, SILENT, SILENT, SILENT, 0, false, false, 0, [], Tally(0, 0, 0))
  }

  /** Register writes leave the clocks, the sample buffer, the sequencer count and the tally alone. */
  predicate SameClocks(a: Apu, b: Apu) {
    && a.clocksPerSample == b.clocksPerSample && a.clocksTillSample == b.clocksTillSample
    && a.lastClock == b.lastClock && a.divCounter == b.divCounter && a.lastDiv == b.lastDiv
    && a.samples == b.samples && a.fired == b.fired
  }

  // ----- register fields -----

  /** The 11-bit period spread over a low byte and three bits of a control register. */
  function Period(m: IoMemory, low: Reg, ctl: Reg): (p: nat)
    ensures p < 0x800
  {
    (m[low] as nat) + (m[ctl] % 8) as nat * 0x100
  }

  function WithPeriod(m: IoMemory, low: Reg, ctl: Reg, value: nat): IoMemory
    requires value < 0x800
  {
    var m := m[low := value % 0x100];
    m[ctl := m[ctl] - m[ctl] % 8 + value / 0x100]
  }

  predicate Duty(duty: nat, point: nat) {
    match duty
    case 0 => point != 7
    case 1 => point != 0 && point != 7
    case 2 => 1 <= point <= 4
    case _ => point == 0 || point == 7
  }

  // ----- one tick of each channel -----

  function TickPulse(c: Channel, regs: ChannelRegisters, m: IoMemory): Channel {
    if !c.on then c
    else if c.counter + 1 != 0x800 then c.(counter := c.counter + 1)
    else
      var point := (c.samplePoint + 1) % 8;
      c.(counter := Period(m, regs.frequency, regs.ctl),
         samplePoint := point,
         level := if Duty(m[regs.length] / 64, point) then c.peekLevel else 0)
  }

  function WaveNibble(m: IoMemory, point: nat): (s: nat)
    requires point < 32
    ensures s <= 15
  {
    var byte := m[WAVE_PATTERN_START + point / 2];
    if point % 2 == 0 then byte / 16 else byte % 16
  }

  function TickWave(c: Channel, m: IoMemory): Channel {
    if !c.on then c
    else if c.counter + 1 != 0x800 then c.(counter := c.counter + 1)
    else
      var point := (c.samplePoint + 1) % 32;
      var sample := WaveNibble(m, point);
      c.(counter := Period(m, CHANNEL3.frequency, CHANNEL3.ctl),
         samplePoint := point,
         level := match c.peekLevel
                  case 0 => 0
                  case 1 => sample
                  case 2 => sample / 2
                  case _ => sample / 4)
  }

  function NoiseStep(lsr: u16, shortMode: bool): (r: u16) {
    var bit := !(lsr % 2 == 1 && lsr / 2 % 2 == 1);
    var shifted := lsr / 2 + (if bit then 0x8000 else 0);
    if shortMode && bit && shifted / 0x80 % 2 == 0 then shifted + 0x80 else shifted
  }

  /** Channel 4 together with its shift register; the counter is a size_t that may wrap. */
  function TickNoise(c: Channel, lsr: u16, m: IoMemory): (Channel, u16) {
    if !c.on then (c, lsr)
    else if Dec64(c.counter) != 0 then (c.(counter := Dec64(c.counter)), lsr)
    else
      var config := m[CHANNEL4_RANDOMNESS];
      var lsr := NoiseStep(lsr, config / 8 % 2 == 1);
      (c.(counter := Shl(config % 8, config / 16 + 2),
          level := if lsr % 2 == 0 then 0 else c.peekLevel), lsr)
  }

  function TickAudio(a: Apu, m: IoMemory): Apu {
    var a := if a.lastClock % 2 == 0 then a.(ch3 := TickWave(a.ch3, m)) else a;
    if a.lastClock % 4 == 0 then
      var (ch4, lsr) := TickNoise(a.ch4, a.lsr, m);
      a.(ch1 := TickPulse(a.ch1, CHANNEL1, m), ch2 := TickPulse(a.ch2, CHANNEL2, m), ch4 := ch4, lsr := lsr)
    else a
  }

  // ----- mixing -----

  function Dac(c: Channel): real {
    if c.on then (7.5 - c.level as real) / 7.5 else 0.0
  }

  function Panned(enabled: bool, dac: real): real {
    if enabled then dac else 0.0
  }

  /** One side of the mixer: `pan` holds that side's four panning bits. */
  function MixOutputs(dac1: real, dac2: real, dac3: real, dac4: real, pan: nat, volume: nat): real {
    0.25 * (Panned(pan % 2 == 1, dac1) + Panned(pan / 2 % 2 == 1, dac2) +
            Panned(pan / 4 % 2 == 1, dac3) + Panned(pan / 8 % 2 == 1, dac4))
         * ((volume + 1) as real / 8.0)
  }

  function Mix(a: Apu, pan: nat, volume: nat): real {
    MixOutputs(Dac(a.ch1), Dac(a.ch2), Dac(a.ch3), Dac(a.ch4), pan, volume)
  }

  function MixedSample(a: Apu, m: IoMemory): Sample {
    Sample(Mix(a, m[SOUND_PANNING] / 16, m[MASTER_VOLUME] / 16 % 8),
           Mix(a, m[SOUND_PANNING] % 16, m[MASTER_VOLUME] % 8))
  }

  function SampleAudio(a: Apu, m: IoMemory): Apu {
    if a.clocksTillSample != 0 then a.(clocksTillSample := a.clocksTillSample - 1)
    else a.(clocksTillSample := a.clocksPerSample, samples := a.samples + [MixedSample(a, m)])
  }

  // ----- frame sequencer -----

  function EnvelopeEvent(c: Channel): Channel {
    if c.pace == 0 then c
    else if Dec64(c.envelopeTimer) != 0 then c.(envelopeTimer := Dec64(c.envelopeTimer))
    else
      c.(envelopeTimer := c.pace,
         peekLevel := if c.increases then (if c.peekLevel + 1 <= 15 then c.peekLevel + 1 else 15)
                      else if c.peekLevel == 0 then 0 else c.peekLevel - 1)
  }

  function Lengthened(c: Channel, limit: nat): Channel {
    if c.lengthTimer + 1 == limit then c.(on := false, lengthTimer := 0)
    else c.(lengthTimer := c.lengthTimer + 1)
  }

  predicate LengthEnabled(m: IoMemory, regs: ChannelRegisters) {
    m[regs.ctl] / 64 % 2 == 1
  }

  function LengthEvent(c: Channel, regs: ChannelRegisters, m: IoMemory): (Channel, IoMemory) {
    if LengthEnabled(m, regs) then
      var c := Lengthened(c, 64);
      (c, m[regs.length := m[regs.length] / 64 * 64 + c.lengthTimer % 64])
    else (c, m)
  }

  function LengthEventWave(c: Channel, m: IoMemory): (Channel, IoMemory) {
    if LengthEnabled(m, CHANNEL3) then
      var c := Lengthened(c, 256);
      (c, m[CHANNEL3_LENGTH_TIMER := c.lengthTimer % 256])
    else (c, m)
  }

  /** The period the sweep would move to.  A rise past 11 bits also disables the channel. */
  function SweepTarget(m: IoMemory): (target: nat)
    ensures !SweepRises(m) ==> target < 0x800
  {
    var period := Period(m, CHANNEL1_PERIOD_LOW, CHANNEL1_CTL);
    var delta := Shr(period, m[CHANNEL1_SWEEP] % 8);
    if SweepRises(m) then period + delta else period - delta
  }

  predicate SweepRises(m: IoMemory) {
    m[CHANNEL1_SWEEP] / 8 % 2 == 0
  }

  function SweepCheck(a: Apu, m: IoMemory): (b: Apu)
    ensures SameClocks(a, b)
    ensures b.sweepActive ==> SweepTarget(m) < 0x800
  {
    if SweepRises(m) && SweepTarget(m) >= 0x800
    then a.(ch1 := a.ch1.(on := false), sweepActive := false)
    else a
  }

  function RearmSweep(a: Apu, m: IoMemory): (b: Apu)
    ensures SameClocks(a, b)
  {
    var pace := m[CHANNEL1_SWEEP] / 16 % 8;
    var step := m[CHANNEL1_SWEEP] % 8;
    var a := a.(sweepCountdown := pace, sweepActive := pace != 0, sweepLocked := pace != 0 || step == 0);
    if step != 0 then SweepCheck(a, m) else a
  }

  function SweepEvent(a: Apu, m: IoMemory): (r: (Apu, IoMemory))
    ensures SameClocks(a.(fired := a.fired.(sweeps := a.fired.sweeps + 1)), r.0)
  {
    Sweep(a.(fired := a.fired.(sweeps := a.fired.sweeps + 1)), m)
  }

  function Sweep(a: Apu, m: IoMemory): (r: (Apu, IoMemory))
    ensures SameClocks(a, r.0)
  {
    if !a.ch1.on then (a, m)
    else
      var a := if a.sweepCountdown != 0 then a.(sweepCountdown := a.sweepCountdown - 1) else a;
      if a.sweepCountdown == 0 && a.sweepActive then
        var step := m[CHANNEL1_SWEEP] % 8;
        var target := SweepTarget(m);
        var a := SweepCheck(a, m);
        var m := if a.sweepActive && step != 0
                 then WithPeriod(m, CHANNEL1_PERIOD_LOW, CHANNEL1_CTL, target) else m;
        (RearmSweep(a, m), m)
      else (a, m)
  }

  function EnvelopeEvents(a: Apu): (b: Apu)
    ensures SameClocks(a.(fired := a.fired.(envelopes := a.fired.envelopes + 1)), b)
  {
    a.(fired := a.fired.(envelopes := a.fired.envelopes + 1),
       ch1 := EnvelopeEvent(a.ch1), ch2 := EnvelopeEvent(a.ch2), ch4 := EnvelopeEvent(a.ch4))
  }

  function LengthEvents(a: Apu, m: IoMemory): (r: (Apu, IoMemory))
    ensures SameClocks(a.(fired := a.fired.(lengths := a.fired.lengths + 1)), r.0)
  {
    var a := a.(fired := a.fired.(lengths := a.fired.lengths + 1));
    var (ch1, m) := LengthEvent(a.ch1, CHANNEL1, m);
    var (ch2, m) := LengthEvent(a.ch2, CHANNEL2, m);
    var (ch4, m) := LengthEvent(a.ch4, CHANNEL4, m);
    var (ch3, m) := LengthEventWave(a.ch3, m);
    (a.(ch1 := ch1, ch2 := ch2, ch3 := ch3, ch4 := ch4), m)
  }

  /** A falling edge of bit 4 of DIV since the last look. */
  predicate DivEdge(last: nat, now: nat) {
    last / 16 % 2 == 1 && now / 16 % 2 == 0
  }

  /** The tally after edge n: a length event every second edge, a sweep every fourth, an envelope every eighth. */
  function Counted(t: Tally, n: nat): Tally {
    Tally(if n % 2 == 0 then t.lengths + 1 else t.lengths,
          if n % 4 == 0 then t.sweeps + 1 else t.sweeps,
          if n % 8 == 0 then t.envelopes + 1 else t.envelopes)
  }

  /** The events that the n-th edge fires. */
  function FrameSequencer(a: Apu, m: IoMemory): (r: (Apu, IoMemory))
    ensures SameClocks(a.(fired := Counted(a.fired, a.divCounter)), r.0)
  {
    var a := if a.divCounter % 8 == 0 then EnvelopeEvents(a) else a;
    var (a, m) := if a.divCounter % 2 == 0 then LengthEvents(a, m) else (a, m);
    if a.divCounter % 4 == 0 then SweepEvent(a, m) else (a, m)
  }

  function TickDiv(a: Apu, m: IoMemory): (r: (Apu, IoMemory))
    ensures r.0.lastClock == a.lastClock && r.0.lastDiv == m[DIV_TIMER]
    ensures r.0.divCounter == a.divCounter + (if DivEdge(a.lastDiv, m[DIV_TIMER]) then 1 else 0)
    ensures r.0.fired == if DivEdge(a.lastDiv, m[DIV_TIMER]) then Counted(a.fired, a.divCounter + 1) else a.fired
  {
    var edge := DivEdge(a.lastDiv, m[DIV_TIMER]);
    var a := a.(lastDiv := m[DIV_TIMER]);
    if edge then FrameSequencer(a.(divCounter := a.divCounter + 1), m) else (a, m)
  }

  // ----- clocking -----

  function Tick(a: Apu, m: IoMemory): (b: Apu)
    ensures b.lastClock == a.lastClock + 1 && b.divCounter == a.divCounter && b.lastDiv == a.lastDiv && b.fired == a.fired
  {
    SampleAudio(TickAudio(a.(lastClock := a.lastClock + 1), m), m)
  }

  function Ticks(a: Apu, m: IoMemory, n: nat): (b: Apu)
    ensures b.lastClock == a.lastClock + n && b.divCounter == a.divCounter && b.lastDiv == a.lastDiv && b.fired == a.fired
    decreases n
  {
    if n == 0 then a else Ticks(Tick(a, m), m, n - 1)
  }

  /** The C++ loop counts up until it meets the target, so it needs one that is not behind. */
  function ClockTo(a: Apu, m: IoMemory, target: nat): (r: (Apu, IoMemory))
    requires a.lastClock <= target
    ensures r.0.lastClock == target
  {
    if a.lastClock < target then
      var (a', m') := TickDiv(a, m);
      (Ticks(a', m', target - a.lastClock), m')
    else (a, m)
  }

  // ----- register access -----

  function RearmLength(c: Channel, regs: ChannelRegisters, m: IoMemory): Channel {
    c.(lengthTimer := m[regs.length] % 64)
  }

  function RearmEnvelope(c: Channel, regs: ChannelRegisters, m: IoMemory): Channel {
    var config := m[regs.volumeEnvelope];
    c.(pace := config % 8, envelopeTimer := config % 8, increases := config / 8 % 2 == 1, peekLevel := config / 16)
  }

  /** Common part of triggering channels 1, 2 and 4, before the channel-specific part. */
  function Restart(c: Channel, dac: bool): Channel {
    c.(on := dac, samplePoint := 0, counter := 0)
  }

  predicate PwmDac(m: IoMemory, regs: ChannelRegisters) {
    m[regs.volumeEnvelope] / 8 != 0
  }

  function TriggerPwm(c: Channel, regs: ChannelRegisters, m: IoMemory): Channel {
    RearmLength(RearmEnvelope(c, regs, m), regs, m)
  }

  function TriggerChannel1(a: Apu, m: IoMemory): (b: Apu)
    ensures SameClocks(a, b)
  {
    var a := RearmSweep(a.(ch1 := Restart(a.ch1, PwmDac(m, CHANNEL1))), m);
    a.(ch1 := TriggerPwm(a.ch1, CHANNEL1, m))
  }

  function TriggerChannel2(a: Apu, m: IoMemory): (b: Apu)
    ensures SameClocks(a, b)
  {
    a.(ch2 := TriggerPwm(Restart(a.ch2, PwmDac(m, CHANNEL2)), CHANNEL2, m))
  }

  function TriggerChannel4(a: Apu, m: IoMemory): (b: Apu)
    ensures SameClocks(a, b)
  {
    a.(ch4 := TriggerPwm(Restart(a.ch4, PwmDac(m, CHANNEL4)), CHANNEL4, m), lsr := 0)
  }

  function TriggerChannel3(a: Apu, m: IoMemory): (b: Apu)
    ensures SameClocks(a, b)
  {
    a.(ch3 := Restart(a.ch3, m[CHANNEL3_DAC] / 128 == 1).(peekLevel := m[CHANNEL3_VOLUME] / 32 % 4))
  }

  function PowerDown(m: IoMemory): IoMemory {
    var m := m[AUDIO_MASTER_CTL := m[AUDIO_MASTER_CTL] % 128];
    m[..CHANNEL1_SWEEP] + seq(AUDIO_MASTER_CTL - CHANNEL1_SWEEP, _ => 0) + m[AUDIO_MASTER_CTL..]
  }

  /** A write to a register while the unit has power. */
  function WritePowered(a: Apu, m: IoMemory, reg: Reg, value: u8): (b: Apu)
    requires m[reg] == value
    ensures SameClocks(a, b)
  {
    if reg == CHANNEL1_SWEEP then
      if a.sweepLocked then (if value / 16 % 8 == 0 then a.(sweepActive := false) else a)
      else RearmSweep(a, m)
    else if reg == CHANNEL1_CTL then (if value >= 0x80 then TriggerChannel1(a, m) else a)
    else if reg == CHANNEL2_CTL then (if value >= 0x80 then TriggerChannel2(a, m) else a)
    else if reg == CHANNEL4_CTL then (if value >= 0x80 then TriggerChannel4(a, m) else a)
    else if reg == CHANNEL3_CTL then (if value >= 0x80 then TriggerChannel3(a, m) else a)
    else if reg == CHANNEL1_LENGTH_DUTY then a.(ch1 := RearmLength(a.ch1, CHANNEL1, m))
    else if reg == CHANNEL2_LENGTH_DUTY then a.(ch2 := RearmLength(a.ch2, CHANNEL2, m))
    else if reg == CHANNEL4_LENGTH_TIMER then a.(ch4 := RearmLength(a.ch4, CHANNEL4, m))
    else if reg == CHANNEL3_LENGTH_TIMER then a.(ch3 := a.ch3.(lengthTimer := m[CHANNEL3_LENGTH_TIMER]))
    else if reg == CHANNEL1_VOLUME_ENVELOPE then (if value / 8 == 0 then a.(ch1 := a.ch1.(on := false)) else a)
    else if reg == CHANNEL2_VOLUME_ENVELOPE then (if value / 8 == 0 then a.(ch2 := a.ch2.(on := false)) else a)
    else if reg == CHANNEL4_VOLUME_ENVELOPE then (if value / 8 == 0 then a.(ch4 := a.ch4.(on := false)) else a)
    else if reg == CHANNEL3_DAC then (if value < 0x80 then a.(ch3 := a.ch3.(on := false)) else a)
    else a
  }

  function WriteApu(a: Apu, m: IoMemory, reg: Reg, value: u8): (r: (Apu, IoMemory))
    ensures SameClocks(a, r.0)
  {
    if reg == AUDIO_MASTER_CTL then
      if value >= 0x80
      then (a.(hasPower := true), m[AUDIO_MASTER_CTL := m[AUDIO_MASTER_CTL] % 128 + 128])
      else (a.(hasPower := false), PowerDown(m))
    else if !a.hasPower then (a, m)
    else
      var m := m[reg := value];
      (WritePowered(a, m, reg, value), m)
  }

  function OnBit(c: Channel): nat {
    if c.on then 1 else 0
  }

  /** A register as it reads: the bits that cannot be read are 1. */
  function Readable(x: u8, reg: Reg): u8 {
    if reg in {SOUND_PANNING, MASTER_VOLUME, CHANNEL1_VOLUME_ENVELOPE, CHANNEL2_VOLUME_ENVELOPE,
               CHANNEL4_VOLUME_ENVELOPE, CHANNEL4_RANDOMNESS} || 0x30 <= reg <= 0x3F then x
    else if reg == CHANNEL1_LENGTH_DUTY || reg == CHANNEL2_LENGTH_DUTY then Or8(x, 0x3F)
    else if reg == CHANNEL1_SWEEP then Or8(x, 0x80)
    else if reg in {CHANNEL1_CTL, CHANNEL2_CTL, CHANNEL3_CTL, CHANNEL4_CTL} then Or8(x, 0xBF)
    else if reg == CHANNEL3_DAC then Or8(x, 0x7F)
    else if reg == CHANNEL3_VOLUME then Or8(x, 0x9F)
    else 0xFF
  }

  function ReadApu(a: Apu, m: IoMemory, reg: Reg): u8 {
    if reg == AUDIO_MASTER_CTL then
      if !a.hasPower then 0x70
      else 0xF0 + 8 * OnBit(a.ch4) + 4 * OnBit(a.ch3) + 2 * OnBit(a.ch2) + OnBit(a.ch1)
    else Readable(m[reg], reg)
  }

  function Flush(a: Apu, count: nat): Apu
    requires count <= |a.samples|
  {
    a.(samples := a.samples[count..])
  }
}
