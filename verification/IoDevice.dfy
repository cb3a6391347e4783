/** The I/O block as the object it is: one register array shared with the picture and audio units. */
module IoDevice {
  import opened Outcomes
  import opened Bits
  import opened Audio
  import opened AudioInvariants
  import opened AudioDevice
  import opened Picture
  import opened PictureDevice
  import opened IoBlock

  class IO {
    const memory: array<u8>
    const gpu: GPU
    const apu: APU
    const frontend: Frontend
    var inputs: u8
    var lastCycle: nat
    var tCycleCount: nat
    var dmaStartTime: nat
    var cycle: nat

    constructor (frontend: Frontend, clocksPerSample: nat)
      requires frontend.received == [] && frontend.shown == []
      ensures Valid() && this.frontend == frontend && fresh(Repr() - {frontend})
      ensures View() == InitialIo(clocksPerSample)
    {
      var registers := new u8[0x80](_ => 0);
      memory := registers;
      gpu := new GPU(registers);
      apu := new APU(registers, clocksPerSample);
      this.frontend := frontend;
      inputs := 0xFF;
      lastCycle, tCycleCount, dmaStartTime, cycle := 0, 0, 0, 0;
      new;
      assert memory[..] == seq<u8>(0x80, _ => 0);
    }

    /** Everything the block owns; the set never changes. */
    ghost function Repr(): set<object> {
      {this, memory, gpu, apu, apu.channel1, apu.channel2, apu.channel3, apu.channel4, frontend}
    }

    ghost predicate Valid()
      reads Repr()
    {
      && memory.Length == 0x80 && gpu.ioMemory == memory && apu.ioMemory == memory
      && gpu.Valid() && apu.Valid() && ApuInv(apu.View())
      && lastCycle <= cycle && apu.lastClock == 4 * lastCycle
    }

    ghost function View(): Io
      requires Valid()
      reads Repr()
    {
      IoState(memory[..], gpu.View(), apu.View(), inputs, lastCycle, tCycleCount, dmaStartTime, cycle, frontend.received, frontend.shown)
    }

    method Tick(cycles: nat)
      requires Valid()
      modifies this`cycle
      ensures Valid() && View() == old(View()).(cycle := old(View()).cycle + cycles)
    {
      cycle := cycle + cycles;
    }

    method IsInDMA() returns (busy: bool)
      requires Valid()
      ensures busy == InDma(View())
    {
      busy := dmaStartTime != 0 && dmaStartTime + 160 > cycle;
    }

    method StartDMA()
      requires Valid()
      modifies this`dmaStartTime
      ensures Valid() && View() == old(View()).(dmaStart := old(View()).cycle)
    {
      dmaStartTime := cycle;
    }

    // ----- timers -----

    /** The catch-up loop: one TIMA tick for every threshold in the accumulated cycles. */
    method ReduceTimer(threshold: nat)
      requires memory.Length == 0x80 && threshold > 0
      modifies memory, this`tCycleCount
      ensures (memory[..], tCycleCount) == IoBlock.ReduceTimer(old(memory[..]), old(tCycleCount), threshold)
    {
      hide Or8;
      while tCycleCount >= threshold
        invariant IoBlock.ReduceTimer(memory[..], tCycleCount, threshold) == IoBlock.ReduceTimer(old(memory[..]), old(tCycleCount), threshold)
      {
        ghost var m := memory[..];
        tCycleCount := tCycleCount - threshold;
        memory[T_COUNTER] := Wrap8(memory[T_COUNTER] as int + 1);
        if memory[T_COUNTER] == 0 {
          memory[T_COUNTER] := memory[T_MODULO];
          memory[IF] := Or8(memory[IF], TIMER_INTERRUPT);
        }
        assert memory[..] == TickTimer(m);
      }
    }

    method RunTimer()
      requires memory.Length == 0x80
      modifies memory, this`tCycleCount
      ensures (memory[..], tCycleCount) == IoBlock.RunTimer(old(memory[..]), old(tCycleCount))
    {
      match memory[T_CONTROL] % 8 {
        case 4 => ReduceTimer(256);
        case 5 => ReduceTimer(4);
        case 6 => ReduceTimer(16);
        case 7 => ReduceTimer(64);
        case _ =>
      }
    }

    /** The first half of a catch-up: the dots, DIV and the timer's cycles. */
    method Lapse()
      requires Valid()
      modifies memory, gpu, this`lastCycle, this`tCycleCount
      ensures lastCycle == cycle && tCycleCount == old(tCycleCount) + (cycle - old(lastCycle))
      ensures gpu.View() == old(gpu.View()).(dots := old(gpu.View()).dots + 4 * (cycle - old(lastCycle)))
      ensures memory[..] == old(memory[..])[DIV_TIMER := cycle / 64 % 0x100]
    {
      hide ApuInv;
      var dt := cycle - lastCycle;
      lastCycle := cycle;
      gpu.UpdateTimers(dt);
      tCycleCount := tCycleCount + dt;
      memory[DIV_TIMER] := cycle / 64 % 0x100;
    }

    method UpdateTimers()
      requires Valid()
      modifies Repr()
      ensures Valid() && View() == IoBlock.UpdateTimers(old(View()))
    {
      hide IoBlock.RunTimer, Audio.ClockTo, ApuInv;
      Lapse();
      apu.ClockTo(4 * cycle);
      RunTimer();
    }

    // ----- registers -----

    method VideoRead(addr: u16, isDma: bool) returns (o: Outcome<u8>)
      requires Valid() && IsVideoAddress(addr)
      ensures o == ReadVideo(View().gpu, View().memory, addr, isDma)
    {
      o := gpu.ReadU8(addr, isDma);
    }

    method VideoWrite(addr: u16, value: u8, isDma: bool) returns (o: Outcome<()>)
      requires Valid() && IsVideoAddress(addr)
      modifies Repr()
      ensures Valid()
      ensures match Picture.WriteVideo(old(View()).gpu, old(View()).memory, addr, value, isDma)
              case Ok(g) => o == Ok(()) && View() == old(View()).(gpu := g)
              case Err(e) => o == Err(e)
    {
      hide Picture.WriteVideo, ApuInv;
      o := gpu.WriteU8(addr, value, isDma);
    }

    method IoRead(reg: Reg) returns (o: Outcome<u8>)
      requires Valid()
      modifies Repr()
      ensures Valid()
      ensures match ReadRegister(old(View()), reg)
              case Ok((v, io)) => o == Ok(v) && View() == io
              case Err(e) => o == Err(e)
    {
      hide IoBlock.UpdateTimers, ReadApu, ApuInv, And8;
      if reg == 0 {
        var value: u8 := 0xFF;
        if memory[0] / 0x10 % 2 == 0 {
          value := And8(value, 0xE0 + inputs % 16);
        }
        if memory[0] / 0x20 % 2 == 0 {
          value := And8(value, 0xD0 + inputs / 16);
        }
        return Ok(value);
      } else if reg == 0x46 {
        return Err(IllegalMemoryAddress);
      } else if IsApuRegister(reg) {
        UpdateTimers();
        var v := apu.Read(reg);
        return Ok(v);
      } else if 0x27 <= reg <= 0x2F {
        return Ok(0xFF);
      } else if reg == DIV_TIMER || reg == T_COUNTER {
        UpdateTimers();
      }
      return Ok(memory[reg]);
    }

    method WriteSerial(value: u8)
      requires Valid()
      modifies memory, frontend
      ensures Valid() && View() == WriteSerialControl(old(View()), value)
    {
      hide Or8, ApuInv;
      if value >= 0x80 && value % 2 == 1 {
        frontend.SendSerial(memory[SERIAL_DATA]);
        memory[SERIAL_CTL] := value % 0x80;
        memory[SERIAL_DATA] := 0xFF;
        memory[IF] := Or8(memory[IF], SERIAL_INTERRUPT);
      } else {
        memory[SERIAL_DATA] := Or8(value, 0x7E);
      }
    }

    method Store(reg: Reg, value: u8)
      requires Valid()
      modifies memory
      ensures Valid() && View() == old(View()).(memory := old(View()).memory[reg := value])
    {
      hide ApuInv;
      memory[reg] := value;
    }

    method WriteSound(reg: Reg, value: u8)
      requires Valid()
      modifies Repr()
      ensures Valid()
      ensures var (a, m) := WriteApu(old(View()).apu, old(View()).memory, reg, value);
        View() == old(View()).(apu := a, memory := m)
    {
      hide WriteApu, ApuInv;
      WriteApuInv(apu.View(), memory[..], reg, value);
      apu.Write(reg, value);
    }

    method IoWrite(reg: Reg, value: u8) returns (o: Outcome<()>)
      requires Valid()
      modifies Repr()
      ensures Valid()
      ensures match WriteRegister(old(View()), reg, value)
              case Ok(io) => o == Ok(()) && View() == io
              case Err(e) => o == Err(e)
    {
      hide IoBlock.UpdateTimers, WriteApu, ApuInv, WriteSerialControl;
      if reg == 0 {
        Store(0, 0xC0 + value / 0x10 % 4 * 0x10);
      } else if reg == SERIAL_CTL {
        WriteSerial(value);
      } else if reg == DIV_TIMER || reg == LY {
        return Err(UnsupportedWrite);
      } else if reg == T_COUNTER {
        UpdateTimers();
        Store(T_COUNTER, value);
      } else if reg == LCDC {
        if value < 0x80 && memory[LCDC] >= 0x80 && memory[STAT] % 4 != 1 {
          return Err(LcdDisableViolation);
        }
        Store(LCDC, value);
      } else if reg == STAT {
        Store(STAT, 0x80 + memory[STAT] % 8 + value / 8 % 16 * 8);
      } else if IsApuRegister(reg) {
        UpdateTimers();
        WriteSound(reg, value);
      } else {
        Store(reg, value);
      }
      o := Ok(());
    }

    // ----- the update before each CPU clock -----

    method Poll(keys: u8)
      requires Valid()
      modifies memory, this`inputs
      ensures Valid() && View() == PollKeys(old(View()), keys)
    {
      hide Or8, ApuInv;
      var held := 0xFF - inputs;
      if Or8(keys, held) != held {
        memory[IF] := Or8(memory[IF], INPUT_INTERRUPT);
      }
      inputs := 0xFF - keys;
    }

    method Flush(flushed: Option<nat>) returns (o: Outcome<()>)
      requires Valid()
      modifies apu
      ensures Valid()
      ensures match FlushAudio(old(View()), flushed)
              case Ok(io) => o == Ok(()) && View() == io
              case Err(e) => o == Err(e)
    {
      if flushed.Some? {
        if flushed.value > |apu.samples| {
          return Err(AssertionFailure);
        }
        FlushInv(apu.View(), flushed.value);
        apu.FlushSamples(flushed.value);
      }
      o := Ok(());
    }

    method Refresh(scheduled: bool) returns (committed: bool, ghost events: seq<LcdEvent>)
      requires Valid()
      modifies gpu, memory, frontend`shown
      ensures Valid()
      ensures var u := UpdateLcd(old(View()).gpu, old(View()).memory, scheduled, cycle);
        View() == old(View()).(gpu := u.gpu, memory := u.memory, shown := old(View()).shown + Sent(u.events)) &&
        events == u.events && committed == Committed(u)
    {
      hide UpdateLcd, ApuInv, Sent;
      committed, events := gpu.UpdateLCD(frontend, scheduled, cycle);
    }

    method Update(env: Env) returns (o: Outcome<()>, ghost events: seq<LcdEvent>)
      requires Valid()
      modifies Repr()
      ensures Valid()
      ensures match IoBlock.Update(old(View()), env)
              case Ok((io, shown)) => o == Ok(()) && View() == io && events == shown
              case Err(e) => o == Err(e)
    {
      hide IoBlock.UpdateTimers, FlushAudio, UpdateLcd, PollKeys, ApuInv, Sent;
      events := [];
      UpdateTimers();
      o := Flush(env.flushed);
      if o.Err? {
        return;
      }
      var committed: bool;
      committed, events := Refresh(env.scheduled);
      if committed {
        Poll(env.keys);
      }
    }
  }
}
