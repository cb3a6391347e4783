/** The I/O block: registers, lazily updated timers, and the picture and audio units behind them. */
module IoBlock {
  import opened Outcomes
  import opened Bits
  import opened Audio
  import opened Picture

  const SERIAL_DATA := 0x01
  const SERIAL_CTL := 0x02
  const T_COUNTER := 0x05
  const T_MODULO := 0x06
  const T_CONTROL := 0x07

  const TIMER_INTERRUPT := 0x04
  const SERIAL_INTERRUPT := 0x08
  const INPUT_INTERRUPT := 0x10

  /** `sent` and `shown` are what the front end has received over the serial port and for the screen. */
  datatype IoState = IoState(
    memory: IoMemory, gpu: Gpu, apu: Apu, inputs: u8,
    lastCycle: nat, timerCycles: nat, dmaStart: nat, cycle: nat, sent: seq<u8>, shown: seq<Shown>)

  /** The timers never run ahead of the cycle counter, and the audio clock is where they left it. */
  predicate Synchronised(io: IoState) {
    io.lastCycle <= io.cycle && io.apu.lastClock == 4 * io.lastCycle
  }

  type Io = io: IoState | Synchronised(io) witness InitialIo(0)

  function InitialIo(clocksPerSample: nat): IoState {
    IoState(seq<u8>(0x80, _ => 0), InitialGpu(), InitialApu(clocksPerSample), 0xFF, 0, 0, 0, 0, [], [])
  }

  /** What the front end answers during one update. */
  datatype Env = Env(scheduled: bool, keys: u8, flushed: Option<nat>)

  // ----- timers -----

  function TickTimer(m: IoMemory): IoMemory {
    if m[T_COUNTER] == 0xFF then Request(m[T_COUNTER := m[T_MODULO]], TIMER_INTERRUPT)
    else m[T_COUNTER := m[T_COUNTER] + 1]
  }

  /** Ticks TIMA once for every whole threshold in the accumulated cycles. */
  function ReduceTimer(m: IoMemory, cycles: nat, threshold: nat): (IoMemory, nat)
    requires threshold > 0
    decreases cycles
  {
    if cycles < threshold then (m, cycles) else ReduceTimer(TickTimer(m), cycles - threshold, threshold)
  }

  /** Cycles per TIMA tick, or None when TAC disables the timer. */
  function Threshold(control: u8): Option<nat> {
    match control % 8
    case 4 => Some(256)
    case 5 => Some(4)
    case 6 => Some(16)
    case 7 => Some(64)
    case _ => None
  }

  function RunTimer(m: IoMemory, cycles: nat): (IoMemory, nat) {
    match Threshold(m[T_CONTROL])
    case Some(threshold) => ReduceTimer(m, cycles, threshold)
    case None => (m, cycles)
  }

  function UpdateTimers(io: Io): Io {
    var dt := io.cycle - io.lastCycle;
    var gpu := io.gpu.(dots := io.gpu.dots + 4 * dt);
    var m := io.memory[DIV_TIMER := io.cycle / 64 % 0x100];
    var (apu, m) := ClockTo(io.apu, m, 4 * io.cycle);
    var (m, timerCycles) := RunTimer(m, io.timerCycles + dt);
    io.(memory := m, gpu := gpu, apu := apu, lastCycle := io.cycle, timerCycles := timerCycles)
  }

  predicate InDma(io: Io) {
    io.dmaStart != 0 && io.dmaStart + 160 > io.cycle
  }

  // ----- registers -----

  function Joypad(selected: u8, inputs: u8): u8 {
    var directions := if selected / 0x10 % 2 == 0 then And8(0xFF, 0xE0 + inputs % 16) else 0xFF;
    if selected / 0x20 % 2 == 0 then And8(directions, 0xD0 + inputs / 16) else directions
  }

  predicate IsApuRegister(reg: Reg) {
    CHANNEL1_SWEEP <= reg <= AUDIO_MASTER_CTL
  }

  function ReadRegister(io: Io, reg: Reg): Outcome<(u8, Io)> {
    if reg == 0 then Ok((Joypad(io.memory[0], io.inputs), io))
    else if reg == 0x46 then Err(IllegalMemoryAddress)
    else if IsApuRegister(reg) then
      var io := UpdateTimers(io);
      Ok((ReadApu(io.apu, io.memory, reg), io))
    else if 0x27 <= reg <= 0x2F then Ok((0xFF, io))
    else if reg == DIV_TIMER || reg == T_COUNTER then
      var io := UpdateTimers(io);
      Ok((io.memory[reg], io))
    else Ok((io.memory[reg], io))
  }

  function WriteSerialControl(io: Io, value: u8): Io {
    if value >= 0x80 && value % 2 == 1 then
      io.(sent := io.sent + [io.memory[SERIAL_DATA]],
          memory := Request(io.memory[SERIAL_CTL := value % 0x80][SERIAL_DATA := 0xFF], SERIAL_INTERRUPT))
    else io.(memory := io.memory[SERIAL_DATA := Or8(value, 0x7E)])
  }

  /** A write to any register but 0xFF46, which starts a DMA instead. */
  function WriteRegister(io: Io, reg: Reg, value: u8): Outcome<Io> {
    if reg == 0 then Ok(io.(memory := io.memory[0 := 0xC0 + value / 0x10 % 4 * 0x10]))
    else if reg == SERIAL_CTL then Ok(WriteSerialControl(io, value))
    else if reg == DIV_TIMER || reg == LY then Err(UnsupportedWrite)
    else if reg == T_COUNTER then
      var io := UpdateTimers(io);
      Ok(io.(memory := io.memory[T_COUNTER := value]))
    else if reg == LCDC && value < 0x80 && LcdOn(io.memory) && Mode(io.memory) != 1 then Err(LcdDisableViolation)
    else if reg == STAT then
      Ok(io.(memory := io.memory[STAT := 0x80 + io.memory[STAT] % 8 + value / 8 % 16 * 8]))
    else if IsApuRegister(reg) then
      var io := UpdateTimers(io);
      var (apu, m) := WriteApu(io.apu, io.memory, reg, value);
      Ok(io.(apu := apu, memory := m))
    else Ok(io.(memory := io.memory[reg := value]))
  }

  // ----- one update per CPU clock -----

  function FlushAudio(io: Io, flushed: Option<nat>): Outcome<Io> {
    match flushed
    case None => Ok(io)
    case Some(count) => if count <= |io.apu.samples| then Ok(io.(apu := Flush(io.apu, count))) else Err(AssertionFailure)
  }

  function PollKeys(io: Io, keys: u8): Io {
    var held := 0xFF - io.inputs;
    var m := if Or8(keys, held) != held then Request(io.memory, INPUT_INTERRUPT) else io.memory;
    io.(memory := m, inputs := 0xFF - keys)
  }

  function Update(io: Io, env: Env): Outcome<(Io, seq<LcdEvent>)> {
    var io := UpdateTimers(io);
    var io :- FlushAudio(io, env.flushed);
    var u := UpdateLcd(io.gpu, io.memory, env.scheduled, io.cycle);
    var io := io.(gpu := u.gpu, memory := u.memory, shown := io.shown + Sent(u.events));
    Ok((if Committed(u) then PollKeys(io, env.keys) else io, u.events))
  }
}
