/** The audio unit as the object it is: channels that change in place, over registers it shares with the
    rest of the I/O block.  Every method computes the function of the same name in Audio, and the
    assertions of the C++ code hold wherever they stand. */
module AudioDevice {
  import opened Bits
  import opened Audio
  import opened AudioInvariants

  class BasicChannel {
    const regs: ChannelRegisters
    var lengthTimer: nat
    var peekLevel: nat
    var pace: nat
    var envelopeTimer: nat
    var samplePoint: nat
    var counter: nat
    var level: nat
    var increases: bool
    var on: bool

    constructor (regs: ChannelRegisters)
      ensures this.regs == regs && View() == SILENT
    {
      this.regs := regs;
      lengthTimer, peekLevel, pace, envelopeTimer := 0, 0, 0, 0;
      samplePoint, counter, level, increases, on := 0, 0, 0, false, false;
    }

    function View(): Channel
      reads this
    {
      Channel(lengthTimer, peekLevel, pace, envelopeTimer, samplePoint, counter, level, increases, on)
    }

    method Restart(dac: bool)
      modifies this
      ensures View() == Audio.Restart(old(View()), dac)
    {
      on, samplePoint, counter := dac, 0, 0;
    }

    method EnvelopeSweepEvent()
      modifies this
      ensures View() == EnvelopeEvent(old(View()))
    {
      if pace != 0 {
        envelopeTimer := Dec64(envelopeTimer);
        if envelopeTimer == 0 {
          envelopeTimer := pace;
          if increases {
            peekLevel := if peekLevel + 1 <= 15 then peekLevel + 1 else 15;
          } else {
            peekLevel := if peekLevel == 0 then 0 else peekLevel - 1;
          }
        }
      }
    }
  }

  class APU {
    const ioMemory: array<u8>
    const clocksPerSample: nat
    const channel1: BasicChannel
    const channel2: BasicChannel
    const channel3: BasicChannel
    const channel4: BasicChannel
    var clocksTillSample: nat
    var lastClock: nat
    var divCounter: nat
    var lastDiv: nat
    var hasPower: bool
    var sweepCountdown: nat
    var sweepActive: bool
    var sweepLocked: bool
    var lsr: u16
    var samples: seq<Sample>
    ghost var fired: Tally

    constructor (ioMemory: array<u8>, clocksPerSample: nat)
      requires ioMemory.Length == 0x80
      ensures Valid() && this.ioMemory == ioMemory && View() == InitialApu(clocksPerSample)
      ensures fresh(channel1) && fresh(channel2) && fresh(channel3) && fresh(channel4)
    {
      this.ioMemory := ioMemory;
      this.clocksPerSample := clocksPerSample;
      channel1 := new BasicChannel(CHANNEL1);
      channel2 := new BasicChannel(CHANNEL2);
      channel3 := new BasicChannel(CHANNEL3);
      channel4 := new BasicChannel(CHANNEL4);
      clocksTillSample, lastClock, divCounter, lastDiv, hasPower := 0, 0, 0, 0, false;
      sweepCountdown, sweepActive, sweepLocked, lsr, samples := 0, false, false, 0, [];
      fired := Tally(0, 0, 0);
    }

    ghost predicate Valid() {
      && ioMemory.Length == 0x80
      && channel1 != channel2 && channel1 != channel3 && channel1 != channel4
      && channel2 != channel3 && channel2 != channel4 && channel3 != channel4
      && channel1.regs == CHANNEL1 && channel2.regs == CHANNEL2 && channel3.regs == CHANNEL3 && channel4.regs == CHANNEL4
    }

    ghost function View(): Apu
      reads this, channel1, channel2, channel3, channel4
    {
      Apu(clocksPerSample, clocksTillSample, lastClock, divCounter, lastDiv, hasPower,
          channel1.View(), channel2.View(), channel3.View(), channel4.View(),
          sweepCountdown, sweepActive, sweepLocked, lsr, samples, fired)
    }

    function Memory(): IoMemory
      requires Valid()
      reads ioMemory
    {
      ioMemory[..]
    }

    // ----- ticks -----

    method TickPulseChannel(channel: BasicChannel)
      requires Valid() && channel in {channel1, channel2} && PulseOk(channel.View())
      modifies channel
      ensures channel.View() == TickPulse(old(channel.View()), channel.regs, Memory())
    {
      if !channel.on {
        return;
      }
      channel.counter := channel.counter + 1;
      if channel.counter == 0x800 {
        channel.counter := Period(Memory(), channel.regs.frequency, channel.regs.ctl);
        channel.samplePoint := (channel.samplePoint + 1) % 8;
        var duty := ioMemory[channel.regs.length] / 64;
        assert duty < 4;
        channel.level := if Duty(duty, channel.samplePoint) then channel.peekLevel else 0;
      }
    }

    method TickChannel3()
      requires Valid() && WaveOk(channel3.View())
      modifies channel3
      ensures channel3.View() == TickWave(old(channel3.View()), Memory())
    {
      if !channel3.on {
        return;
      }
      channel3.counter := channel3.counter + 1;
      if channel3.counter == 0x800 {
        channel3.counter := Period(Memory(), CHANNEL3.frequency, CHANNEL3.ctl);
        channel3.samplePoint := (channel3.samplePoint + 1) % 32;
        var sample := WaveNibble(Memory(), channel3.samplePoint);
        match channel3.peekLevel {
          case 0 => channel3.level := 0;
          case 1 => channel3.level := sample;
          case 2 => channel3.level := sample / 2;
          case 3 => channel3.level := sample / 4;
          case _ => assert false;
        }
      }
    }

    method TickChannel4()
      requires Valid() && EnvelopeOk(channel4.View())
      modifies channel4, this`lsr
      ensures (channel4.View(), lsr) == TickNoise(old(channel4.View()), old(lsr), Memory())
    {
      if !channel4.on {
        return;
      }
      channel4.counter := Dec64(channel4.counter);
      if channel4.counter == 0 {
        var config := ioMemory[CHANNEL4_RANDOMNESS];
        channel4.counter := Shl(config % 8, config / 16 + 2);
        lsr := NoiseStep(lsr, config / 8 % 2 == 1);
        assert channel4.peekLevel <= 0x0F;
        channel4.level := if lsr % 2 == 0 then 0 else channel4.peekLevel;
      }
    }

    method TickAudio()
      requires Valid() && ApuInv(View())
      modifies channel1, channel2, channel3, channel4, this`lsr
      ensures View() == Audio.TickAudio(old(View()), Memory())
    {
      if lastClock % 2 == 0 {
        TickChannel3();
      }
      if lastClock % 4 == 0 {
        TickPulseChannel(channel1);
        TickPulseChannel(channel2);
        TickChannel4();
      }
    }

    /** Every stored sample lies between -1 and 1. */
    method SampleAudio()
      requires Valid() && ApuInv(View())
      modifies this`clocksTillSample, this`samples
      ensures View() == Audio.SampleAudio(old(View()), Memory())
      ensures |samples| == |old(samples)| || (samples == old(samples) + [samples[|samples| - 1]] && Normalised(samples[|samples| - 1]))
    {
      if clocksTillSample != 0 {
        clocksTillSample := clocksTillSample - 1;
        return;
      }
      clocksTillSample := clocksPerSample;
      var panning, volume := ioMemory[SOUND_PANNING], ioMemory[MASTER_VOLUME];
      var dac1, dac2, dac3, dac4 := Dac(channel1.View()), Dac(channel2.View()), Dac(channel3.View()), Dac(channel4.View());
      var left := MixOutputs(dac1, dac2, dac3, dac4, panning / 16, volume / 16 % 8);
      var right := MixOutputs(dac1, dac2, dac3, dac4, panning % 16, volume % 8);
      MixBound(View(), panning / 16, volume / 16 % 8);
      MixBound(View(), panning % 16, volume % 8);
      samples := samples + [Sample(left, right)];
    }

    // ----- frame sequencer events -----

    method SoundLengthEvent(channel: BasicChannel)
      requires Valid() && channel in {channel1, channel2, channel4}
      modifies channel, ioMemory
      ensures (channel.View(), Memory()) == LengthEvent(old(channel.View()), channel.regs, old(Memory()))
    {
      if ioMemory[channel.regs.ctl] / 64 % 2 == 1 {
        channel.lengthTimer := channel.lengthTimer + 1;
        if channel.lengthTimer == 64 {
          channel.on := false;
          channel.lengthTimer := 0;
        }
        ioMemory[channel.regs.length] := ioMemory[channel.regs.length] / 64 * 64 + channel.lengthTimer % 64;
      }
    }

    method SoundLengthEventChannel3()
      requires Valid()
      modifies channel3, ioMemory
      ensures (channel3.View(), Memory()) == LengthEventWave(old(channel3.View()), old(Memory()))
    {
      if ioMemory[CHANNEL3_CTL] / 64 % 2 == 1 {
        channel3.lengthTimer := channel3.lengthTimer + 1;
        if channel3.lengthTimer == 256 {
          channel3.on := false;
          channel3.lengthTimer := 0;
        }
        ioMemory[CHANNEL3_LENGTH_TIMER] := channel3.lengthTimer % 256;
      }
    }

    method Channel1SweepCalculateOrOverflow() returns (target: nat)
      requires Valid()
      modifies channel1`on, this`sweepActive
      ensures View() == SweepCheck(old(View()), Memory()) && target == SweepTarget(Memory())
    {
      var period := Period(Memory(), CHANNEL1_PERIOD_LOW, CHANNEL1_CTL);
      var delta := Shr(period, ioMemory[CHANNEL1_SWEEP] % 8);
      if ioMemory[CHANNEL1_SWEEP] / 8 % 2 == 0 {
        if period + delta >= 0x800 {
          channel1.on := false;
          sweepActive := false;
        }
        return period + delta;
      }
      return period - delta;
    }

    method RearmChannel1Sweep()
      requires Valid()
      modifies channel1`on, this`sweepCountdown, this`sweepActive, this`sweepLocked
      ensures View() == RearmSweep(old(View()), Memory())
    {
      var config := ioMemory[CHANNEL1_SWEEP];
      sweepCountdown := config / 16 % 8;
      sweepActive := sweepCountdown != 0;
      sweepLocked := sweepActive || (!sweepActive && config % 8 == 0);
      if config % 8 != 0 {
        var _ := Channel1SweepCalculateOrOverflow();
      }
    }

    method WriteChannelPeriod(low: Reg, ctl: Reg, value: nat)
      requires Valid() && low != ctl && value < 0x800
      modifies ioMemory
      ensures Memory() == WithPeriod(old(Memory()), low, ctl, value)
    {
      ioMemory[low] := value % 0x100;
      ioMemory[ctl] := ioMemory[ctl] - ioMemory[ctl] % 8 + value / 0x100;
    }

    method Ch1FreqSweepEvent()
      requires Valid()
      modifies channel1`on, this`sweepCountdown, this`sweepActive, this`sweepLocked, this`fired, ioMemory
      ensures (View(), Memory()) == SweepEvent(old(View()), old(Memory()))
    {
      fired := fired.(sweeps := fired.sweeps + 1);
      var config := ioMemory[CHANNEL1_SWEEP];
      if !channel1.on {
        return;
      }
      if sweepCountdown != 0 {
        sweepCountdown := sweepCountdown - 1;
      }
      if sweepCountdown == 0 && sweepActive {
        var target := Channel1SweepCalculateOrOverflow();
        if sweepActive && config % 8 != 0 {
          WriteChannelPeriod(CHANNEL1_PERIOD_LOW, CHANNEL1_CTL, target);
        }
        RearmChannel1Sweep();
      }
    }

    method EnvelopeEvents()
      requires Valid()
      modifies channel1, channel2, channel4, this`fired
      ensures View() == Audio.EnvelopeEvents(old(View()))
    {
      hide EnvelopeEvent;
      fired := fired.(envelopes := fired.envelopes + 1);
      channel1.EnvelopeSweepEvent();
      channel2.EnvelopeSweepEvent();
      channel4.EnvelopeSweepEvent();
    }

    method LengthEvents()
      requires Valid()
      modifies channel1, channel2, channel3, channel4, this`fired, ioMemory
      ensures (View(), Memory()) == Audio.LengthEvents(old(View()), old(Memory()))
    {
      hide LengthEvent, LengthEventWave;
      fired := fired.(lengths := fired.lengths + 1);
      SoundLengthEvent(channel1);
      SoundLengthEvent(channel2);
      SoundLengthEvent(channel4);
      SoundLengthEventChannel3();
    }

    /** The events of the edge just counted. */
    method FireEvents()
      requires Valid()
      modifies this`fired, this`sweepCountdown, this`sweepActive, this`sweepLocked, channel1, channel2, channel3, channel4, ioMemory
      ensures (View(), Memory()) == FrameSequencer(old(View()), old(Memory()))
    {
      hide Audio.EnvelopeEvents, Audio.LengthEvents, SweepEvent;
      if divCounter % 8 == 0 {
        EnvelopeEvents();
      }
      if divCounter % 2 == 0 {
        LengthEvents();
      }
      if divCounter % 4 == 0 {
        Ch1FreqSweepEvent();
      }
    }

    method TickDivApu()
      requires Valid()
      modifies this, channel1, channel2, channel3, channel4, ioMemory
      ensures (View(), Memory()) == TickDiv(old(View()), old(Memory()))
    {
      hide FrameSequencer;
      var div := ioMemory[DIV_TIMER];
      var edge := lastDiv / 16 % 2 == 1 && div / 16 % 2 == 0;
      lastDiv := div;
      if edge {
        divCounter := divCounter + 1;
        FireEvents();
      }
    }

    method ClockOnce()
      requires Valid() && ApuInv(View())
      modifies this, channel1, channel2, channel3, channel4
      ensures ApuInv(View()) && View() == Tick(old(View()), Memory())
    {
      hide Audio.TickAudio, Audio.SampleAudio, ApuInv;
      TickInv(View(), Memory());
      ClockIgnored(View(), lastClock + 1);
      TickAudioInv(View().(lastClock := lastClock + 1), Memory());
      lastClock := lastClock + 1;
      TickAudio();
      SampleAudio();
    }

    method ClockTo(target: nat)
      requires Valid() && ApuInv(View()) && lastClock <= target
      modifies this, channel1, channel2, channel3, channel4, ioMemory
      ensures ApuInv(View())
      ensures (View(), Memory()) == Audio.ClockTo(old(View()), old(Memory()), target)
    {
      hide TickDiv, Tick, ApuInv;
      if lastClock != target {
        TickDivInv(View(), Memory());
        TickDivApu();
      }
      ghost var start, m := View(), Memory();
      while lastClock != target
        invariant lastClock <= target && Memory() == m && ApuInv(View())
        invariant Ticks(View(), m, target - lastClock) == Ticks(start, m, target - start.lastClock)
        decreases target - lastClock
      {
        ClockOnce();
      }
    }

    // ----- triggering and rearming -----

    method RearmPwmChannelLength(channel: BasicChannel)
      requires Valid() && channel in {channel1, channel2, channel4}
      modifies channel
      ensures channel.View() == RearmLength(old(channel.View()), channel.regs, Memory())
    {
      channel.lengthTimer := ioMemory[channel.regs.length] % 64;
    }

    method RearmPwmChannelVolumeEnvelope(channel: BasicChannel)
      requires Valid() && channel in {channel1, channel2, channel4}
      modifies channel
      ensures channel.View() == RearmEnvelope(old(channel.View()), channel.regs, Memory())
    {
      var config := ioMemory[channel.regs.volumeEnvelope];
      channel.pace := config % 8;
      channel.envelopeTimer := channel.pace;
      channel.increases := config / 8 % 2 == 1;
      channel.peekLevel := config / 16;
    }

    /** What triggering channels 1, 2 and 4 has to do, told apart by identity as there. */
    function Triggered(channel: BasicChannel, a: Apu, m: IoMemory): Apu {
      if channel == channel1 then TriggerChannel1(a, m)
      else if channel == channel2 then TriggerChannel2(a, m)
      else TriggerChannel4(a, m)
    }

    method TriggerPwmChannel(channel: BasicChannel)
      requires Valid() && channel in {channel1, channel2, channel4}
      modifies this, channel
      ensures View() == Triggered(channel, old(View()), Memory())
    {
      hide RearmSweep, RearmLength, RearmEnvelope, Restart;
      channel.Restart(ioMemory[channel.regs.volumeEnvelope] / 8 != 0);
      if channel == channel1 {
        RearmChannel1Sweep();
      }
      if channel == channel4 {
        lsr := 0;
      }
      RearmPwmChannelVolumeEnvelope(channel);
      RearmPwmChannelLength(channel);
    }

    method TriggerWaveChannel()
      requires Valid()
      modifies channel3
      ensures View() == TriggerChannel3(old(View()), Memory())
    {
      channel3.Restart(ioMemory[CHANNEL3_DAC] / 128 == 1);
      channel3.peekLevel := ioMemory[CHANNEL3_VOLUME] / 32 % 4;
    }

    // ----- register access -----

    method PowerUp()
      requires Valid()
      modifies this`hasPower, ioMemory
      ensures View() == old(View()).(hasPower := true)
      ensures Memory() == old(Memory())[AUDIO_MASTER_CTL := old(ioMemory[AUDIO_MASTER_CTL]) % 128 + 128]
    {
      hasPower := true;
      ioMemory[AUDIO_MASTER_CTL] := ioMemory[AUDIO_MASTER_CTL] % 128 + 128;
    }

    method SwitchOff()
      requires Valid()
      modifies this`hasPower, ioMemory
      ensures View() == old(View()).(hasPower := false) && Memory() == PowerDown(old(Memory()))
    {
      hasPower := false;
      ioMemory[AUDIO_MASTER_CTL] := ioMemory[AUDIO_MASTER_CTL] % 128;
      ghost var m := Memory();
      for reg := CHANNEL1_SWEEP to AUDIO_MASTER_CTL
        invariant View() == old(View()).(hasPower := false)
        invariant forall r: Reg :: ioMemory[r] == if CHANNEL1_SWEEP <= r < reg then 0 else m[r]
      {
        ioMemory[reg] := 0;
      }
      assert Memory() == m[..CHANNEL1_SWEEP] + seq(AUDIO_MASTER_CTL - CHANNEL1_SWEEP, _ => 0) + m[AUDIO_MASTER_CTL..];
    }

    /** The channel whose register block contains reg; channel 3 shares its block with channel 4. */
    function ChannelOf(reg: Reg): (c: BasicChannel?)
      ensures c == null || c in {channel1, channel2, channel4}
    {
      if CHANNEL1_SWEEP <= reg <= CHANNEL1_CTL then channel1
      else if CHANNEL2_LENGTH_DUTY <= reg <= CHANNEL2_CTL then channel2
      else if CHANNEL3_DAC <= reg <= CHANNEL4_CTL then channel4
      else null
    }

    method Read(reg: Reg) returns (v: u8)
      requires Valid()
      ensures v == ReadApu(View(), Memory(), reg)
    {
      if reg == AUDIO_MASTER_CTL {
        if !hasPower {
          return 0x70;
        }
        return 0xF0 + 8 * OnBit(channel4.View()) + 4 * OnBit(channel3.View()) + 2 * OnBit(channel2.View()) + OnBit(channel1.View());
      }
      v := Readable(ioMemory[reg], reg);
    }

    method Write(reg: Reg, value: u8)
      requires Valid()
      modifies this, channel1, channel2, channel3, channel4, ioMemory
      ensures (View(), Memory()) == WriteApu(old(View()), old(Memory()), reg, value)
    {
      if reg == AUDIO_MASTER_CTL {
        if value >= 0x80 {
          PowerUp();
        } else {
          SwitchOff();
        }
        return;
      }
      if !hasPower {
        return;
      }
      ioMemory[reg] := value;
      assert Memory() == old(Memory())[reg := value];
      WriteEffect(reg, value);
    }

    method WriteEffect(reg: Reg, value: u8)
      requires Valid() && ioMemory[reg] == value && reg != AUDIO_MASTER_CTL
      modifies this, channel1, channel2, channel3, channel4
      ensures View() == WritePowered(old(View()), Memory(), reg, value)
    {
      hide RearmSweep, TriggerChannel1, TriggerChannel2, TriggerChannel3, TriggerChannel4;
      var channel := ChannelOf(reg);
      if reg == CHANNEL1_SWEEP {
        if sweepLocked {
          if value / 16 % 8 == 0 {
            sweepActive := false;
          }
        } else {
          RearmChannel1Sweep();
        }
      } else if reg == CHANNEL1_CTL || reg == CHANNEL2_CTL || reg == CHANNEL4_CTL {
        if value >= 0x80 {
          assert channel != null;
          TriggerPwmChannel(channel);
        }
      } else if reg == CHANNEL3_CTL {
        if value >= 0x80 {
          TriggerWaveChannel();
        }
      } else if reg == CHANNEL1_LENGTH_DUTY || reg == CHANNEL2_LENGTH_DUTY || reg == CHANNEL4_LENGTH_TIMER {
        assert channel != null;
        RearmPwmChannelLength(channel);
      } else if reg == CHANNEL3_LENGTH_TIMER {
        channel3.lengthTimer := ioMemory[CHANNEL3_LENGTH_TIMER];
      } else if reg == CHANNEL1_VOLUME_ENVELOPE || reg == CHANNEL2_VOLUME_ENVELOPE || reg == CHANNEL4_VOLUME_ENVELOPE {
        if value / 8 == 0 {
          assert channel != null;
          channel.on := false;
        }
      } else if reg == CHANNEL3_DAC {
        if value < 0x80 {
          channel3.on := false;
        }
      }
    }

    method FlushSamples(count: nat)
      requires count <= |samples|
      modifies this`samples
      ensures View() == Flush(old(View()), count)
    {
      samples := samples[count..];
    }
  }

  lemma TickDivInv(a: Apu, m: IoMemory)
    requires ApuInv(a)
    ensures ApuInv(TickDiv(a, m).0)
  {
    hide FrameSequencer;
    var b := a.(lastDiv := m[DIV_TIMER]);
    FrameSequencerInv(b.(divCounter := b.divCounter + 1), m);
  }

  lemma ClockIgnored(a: Apu, clock: nat)
    requires ApuInv(a)
    ensures ApuInv(a.(lastClock := clock))
  {
  }
}
