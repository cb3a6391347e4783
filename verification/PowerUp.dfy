/** The machine that construction leaves behind, byte by byte. */
module PowerUp {
  import opened Outcomes
  import opened Bits
  import opened CheckedInt
  import opened Audio
  import opened Picture
  import opened IoBlock
  import Cartridges
  import opened AddressBus
  import opened Registers
  import opened Processor
  import opened Console

  /** Every I/O register once the power-up writes are done. */
  function PoweredRegister(r: Reg): u8 {
    if r == 0x26 then 0x80
    else if r == 0x40 then 0x91
    else if r == 0x47 then 0xFC
    else if r == 0x48 || r == 0x49 then 0xFF
    else 0
  }

  predicate IsSound(p: Poke) {
    0xFF10 <= p.addr < 0xFF26
  }

  /** A write that leaves its register at its final value; the sound unit ignores its own as long as it is off. */
  predicate Lands(p: Poke) {
    || p == Poke(0xFFFF, 0)
    || IsSound(p)
    || p == Poke(0xFF26, 0xF1)
    || (0xFF00 < p.addr < 0xFF80 && !(0xFF10 <= p.addr <= 0xFF26) && p.addr !in {0xFF02, 0xFF04, 0xFF41, 0xFF44, 0xFF46}
        && p.value == PoweredRegister(p.addr - 0xFF00) && (p.addr == 0xFF40 ==> p.value >= 0x80))
  }

  /** No time has passed and nothing has been heard. */
  predicate Unheard(io: Io, clocksPerSample: nat) {
    && io == InitialIo(clocksPerSample).(memory := io.memory, apu := io.apu)
    && io.apu == InitialApu(clocksPerSample).(hasPower := io.apu.hasPower)
    && io.memory[0x04] == 0 && io.memory[0x26] % 0x80 == 0
  }

  lemma NothingToCatchUp(io: Io, clocksPerSample: nat)
    requires Unheard(io, clocksPerSample)
    ensures UpdateTimers(io) == io
  {
    assert io.memory[0x04 := 0] == io.memory;
  }

  /** One power-up write: what it leaves alone and what it sets. */
  lemma PokeLands(b: Bus, p: Poke, clocksPerSample: nat)
    requires Unheard(b.io, clocksPerSample) && Lands(p) && (IsSound(p) ==> !b.io.apu.hasPower)
    ensures var o := Write(b, p.addr, Known(p.value), false);
      && o.Ok? && var b' := o.value;
      && b' == b.(stack := b'.stack, io := b'.io) && Unheard(b'.io, clocksPerSample)
      && b'.stack == (if p.addr == 0xFFFF then b.stack[0x7F := Known(0)] else b.stack)
      && (b'.io.apu.hasPower <==> b.io.apu.hasPower || p.addr == 0xFF26)
      && (forall r: Reg :: b'.io.memory[r] ==
            if p.addr == 0xFF00 + r && !IsSound(p) then PoweredRegister(r) else b.io.memory[r])
  {
    hide UpdateTimers, WritePowered, PowerDown, InitialApu, InitialGpu;
    NothingToCatchUp(b.io, clocksPerSample);
  }

  /** All of them in turn, the sound unit switched on by number `on`. */
  lemma {:induction false} PokesLand(b: Bus, pokes: seq<Poke>, on: int, clocksPerSample: nat)
    requires Unheard(b.io, clocksPerSample) && (b.io.apu.hasPower ==> on < 0)
    requires forall i :: 0 <= i < |pokes| ==> Lands(pokes[i])
    requires forall i :: 0 <= i < |pokes| ==> (pokes[i].addr == 0xFF26 <==> i == on) && (i > on ==> !IsSound(pokes[i]))
    ensures var o := PokeAll(b, pokes);
      && o.Ok? && var b' := o.value;
      && b' == b.(stack := b'.stack, io := b'.io) && Unheard(b'.io, clocksPerSample)
      && (b'.stack == b.stack || b'.stack == b.stack[0x7F := Known(0)])
      && ((exists i :: 0 <= i < |pokes| && pokes[i].addr == 0xFFFF) ==> b'.stack == b.stack[0x7F := Known(0)])
      && (b'.io.apu.hasPower <==> b.io.apu.hasPower || 0 <= on < |pokes|)
      && (forall r: Reg :: b'.io.memory[r] == b.io.memory[r] || b'.io.memory[r] == PoweredRegister(r))
      && (forall i :: 0 <= i < |pokes| && 0xFF00 <= pokes[i].addr < 0xFF80 && !IsSound(pokes[i]) ==>
            b'.io.memory[pokes[i].addr - 0xFF00] == PoweredRegister(pokes[i].addr - 0xFF00))
    decreases |pokes|
  {
    hide Write, Lands, PoweredRegister, Unheard;
    if pokes != [] {
      PokeLands(b, pokes[0], clocksPerSample);
      var c := Write(b, pokes[0].addr, Known(pokes[0].value), false).value;
      assert forall i :: 0 <= i < |pokes[1..]| ==> pokes[1..][i] == pokes[i + 1];
      PokesLand(c, pokes[1..], on - 1, clocksPerSample);
    }
  }

  /** Construction: the processor at 0x0100 with its initial registers; every byte of RAM undefined and the
      interrupt-enable register 0; the display on and the palettes set, every other I/O register 0.  The sound
      unit has power but none of its registers are set, since it is switched on after the writes to them. */
  lemma PoweredOn(cart: Cartridges.Cart, clocksPerSample: nat)
    ensures var o := PowerOn(cart, clocksPerSample);
      && o.Ok? && var s := o.value;
      && s.regs == CpuRegisters(Known(0x01), Flags(true, false, true, true), Known(0x00), Known(0x13), Known(0x00), Known(0xD8),
                                Known(0x01), Known(0x4D), 0xFFFE, 0x0100, false, Ime(true, true, true))
      && s.pointers == [] && s.expected == [] && s.bus.cart == cart
      && s.bus.wram == seq(0x2000, _ => UNDEFINED_BYTE)
      && s.bus.stack == seq(0x7F, _ => UNDEFINED_BYTE) + [Known(0)]
      && s.bus.io == IoState(s.bus.io.memory, InitialGpu(), InitialApu(clocksPerSample).(hasPower := true), 0xFF, 0, 0, 0, 0, [], [])
      && forall r: Reg :: s.bus.io.memory[r] == PoweredRegister(r)
  {
    hide PokeAll, InitialGpu;
    var b := Bus(seq(0x80, _ => UNDEFINED_BYTE), seq(0x2000, _ => UNDEFINED_BYTE), cart, InitialIo(clocksPerSample));
    PokesAreFit();
    InitiallyUnheard(clocksPerSample);
    PokesLand(b, POWER_UP, 20, clocksPerSample);
    assert POWER_UP[20].addr == 0xFF26 && POWER_UP[21].addr == 0xFF40 && POWER_UP[25].addr == 0xFF47
      && POWER_UP[26].addr == 0xFF48 && POWER_UP[27].addr == 0xFF49 && POWER_UP[30].addr == 0xFFFF;
    assert b.stack[0x7F := Known(0)] == seq(0x7F, _ => UNDEFINED_BYTE) + [Known(0)];
  }

  lemma PokesAreFit()
    ensures |POWER_UP| == 32 && forall i :: 0 <= i < 32 ==> Lands(POWER_UP[i])
    ensures forall i :: 0 <= i < 32 ==> (POWER_UP[i].addr == 0xFF26 <==> i == 20) && (i > 20 ==> !IsSound(POWER_UP[i]))
  {
  }

  lemma InitiallyUnheard(clocksPerSample: nat)
    ensures Unheard(InitialIo(clocksPerSample), clocksPerSample) && !InitialApu(clocksPerSample).hasPower
  {
  }

  /** So a program that reads RAM it has not written, as anything but a load that may be undefined, stops. */
  lemma RamStartsUndefined(cart: Cartridges.Cart, clocksPerSample: nat, addr: u16)
    requires 0xC000 <= addr < 0xFE00 || 0xFF80 <= addr < 0xFFFF
    ensures PowerOn(cart, clocksPerSample).Ok?
    ensures ReadU8(PowerOn(cart, clocksPerSample).value, addr, false) == Err(UndefinedData)
  {
    hide PowerOn, InitialApu, InitialGpu;
    PoweredOn(cart, clocksPerSample);
  }
}
