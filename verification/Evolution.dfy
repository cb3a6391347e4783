/** What every bus access keeps: the invariants of the devices, the bookkeeping of the timers, and the
    contents of memory that only writes to its own address reach, except at the address written. */
module Evolution {
  import opened Bits
  import opened CheckedInt
  import opened Audio
  import opened AudioInvariants
  import opened AudioClocking
  import opened Picture
  import opened VideoMemory
  import opened IoBlock
  import opened Timers
  import Cartridges
  import opened AddressBus

  // ----- the I/O block -----

  /** From one state of the I/O block to a later one, between two picture updates. */
  predicate IoEvolves(io: Io, io': Io) {
    && io.lastCycle <= io'.lastCycle && io.cycle <= io'.cycle
    && io'.gpu.dots - 4 * io'.lastCycle == io.gpu.dots - 4 * io.lastCycle
    && Mode(io'.memory) == Mode(io.memory) && io'.shown == io.shown
    && (ApuInv(io.apu) ==> ApuInv(io'.apu))
    && (SequencerInStep(io) && io'.cycle <= io.lastCycle + LONGEST_GAP ==> SequencerInStep(io'))
  }

  lemma IoEvolvesTransitively(a: Io, b: Io, c: Io)
    requires IoEvolves(a, b) && IoEvolves(b, c)
    ensures IoEvolves(a, c)
  {
    hide ApuInv, SequencerInStep;
  }

  lemma UpdateTimersEvolves(io: Io)
    ensures IoEvolves(io, UpdateTimers(io))
  {
    hide ClockTo, RunTimer, ApuInv, SequencerInStep, CaughtUp;
    UpdateTimersEffect(io);
    if ApuInv(io.apu) {
      ClockToInv(io.apu, io.memory[DIV_TIMER := io.cycle / 64 % 0x100], 4 * io.cycle);
    }
    if SequencerInStep(io) && io.cycle <= io.lastCycle + LONGEST_GAP {
      CatchUpInStep(io);
    }
  }

  /** Nothing but writes to their addresses changes the tiles and the maps. */
  predicate SameTables(g: Gpu, h: Gpu) {
    h.patterns == g.patterns && h.backgrounds == g.backgrounds
  }

  lemma ReadRegisterEvolves(io: Io, reg: Reg)
    ensures var o := ReadRegister(io, reg);
      o.Ok? ==> IoEvolves(io, o.value.1) && o.value.1.cycle == io.cycle && o.value.1.gpu == io.gpu.(dots := o.value.1.gpu.dots)
  {
    hide UpdateTimers, ApuInv, SequencerInStep;
    UpdateTimersEvolves(io);
    UpdateTimersEffect(io);
  }

  lemma SoundWriteEvolves(io: Io, reg: Reg, value: u8)
    requires IsApuRegister(reg)
    ensures var io' := UpdateTimers(io); var (apu, m) := WriteApu(io'.apu, io'.memory, reg, value);
      IoEvolves(io, io'.(apu := apu, memory := m)) && io'.gpu == io.gpu.(dots := io'.gpu.dots)
  {
    hide UpdateTimers, ApuInv, WriteApu;
    UpdateTimersEvolves(io);
    UpdateTimersEffect(io);
    var io' := UpdateTimers(io);
    WriteApuRegisters(io'.apu, io'.memory, reg, value);
    if ApuInv(io'.apu) {
      WriteApuInv(io'.apu, io'.memory, reg, value);
    }
  }

  /** A register write that moves no device, apart from what it sends over the serial port. */
  predicate PlainStore(io: Io, io': Io) {
    io' == io.(memory := io'.memory, sent := io'.sent) && Mode(io'.memory) == Mode(io.memory)
  }

  lemma PlainStoreEvolves(io: Io, late: Io, io': Io)
    requires IoEvolves(io, late) && PlainStore(late, io')
    ensures IoEvolves(io, io') && io'.cycle == late.cycle && io'.gpu == late.gpu
  {
    hide ApuInv;
  }

  lemma WriteRegisterEvolves(io: Io, reg: Reg, value: u8)
    ensures var o := WriteRegister(io, reg, value);
      o.Ok? ==> IoEvolves(io, o.value) && o.value.cycle == io.cycle && o.value.gpu == io.gpu.(dots := o.value.gpu.dots)
  {
    hide UpdateTimers, WriteApu, IoEvolves;
    UpdateTimersEvolves(io);
    UpdateTimersEffect(io);
    IoEvolvesItself(io);
    var o := WriteRegister(io, reg, value);
    if IsApuRegister(reg) {
      SoundWriteEvolves(io, reg, value);
    } else if o.Ok? {
      PlainStoreEvolves(io, if reg == T_COUNTER then UpdateTimers(io) else io, o.value);
    }
  }

  // ----- the cartridge -----

  /** The banks stay inside the largest MBC1 image, and never select ROM bank 0, 32, 64 or 96. */
  predicate BanksOk(c: Cartridges.Cart) {
    c.Mbc1? ==> c.romBank <= 127 && c.romBank % 32 != 0 && c.ramBank <= 3
  }

  lemma NewCartridgesOk(rom: seq<u8>)
    ensures BanksOk(Cartridges.NewMbc1(rom)) && BanksOk(Cartridges.RomOnly(rom))
  {
  }

  lemma OrDisjoint(high: nat, low: nat)
    requires high < 4 && low < 32
    ensures BitOr(32 * high, low) == 32 * high + low
  {
    hide BitOr;
    BitOrZero(high);
    BitOrDoubled(high, low / 16);
    BitOrDoubled(2 * high, low / 8);
    BitOrDoubled(4 * high, low / 4);
    BitOrDoubled(8 * high, low / 2);
    BitOrDoubled(16 * high, low);
  }

  lemma ShlFive(a: nat)
    ensures Shl(a, 5) == 32 * a
  {
    assert Shl(a, 5) == Shl(2 * a, 4) == Shl(4 * a, 3) == Shl(8 * a, 2) == Shl(16 * a, 1) == Shl(32 * a, 0);
  }

  lemma SelectRomBankOk(c: Cartridges.Cart, value: Byte)
    requires BanksOk(c) && c.Mbc1?
    ensures var o := Cartridges.SelectRomBank(c, value); o.Ok? ==> BanksOk(o.value)
  {
    hide BitAnd;
  }

  lemma SelectUpperBankOk(c: Cartridges.Cart, value: Byte)
    requires BanksOk(c) && c.Mbc1?
    ensures var o := Cartridges.SelectUpperBank(c, value); o.Ok? ==> BanksOk(o.value)
  {
    hide BitAnd, BitOr, Shl;
    assert Exp2(5) - 1 == 0x1F;
    AndLowMask(c.romBank, 5);
    var bits := BitAnd(value.data, 3);
    ShlFive(bits);
    OrDisjoint(bits, c.romBank % 32);
  }

  lemma CartWriteKeepsBanks(c: Cartridges.Cart, addr: u16, value: Byte)
    requires BanksOk(c)
    ensures var o := Cartridges.Write(c, addr, value); o.Ok? ==> BanksOk(o.value)
  {
    hide Cartridges.SelectRomBank, Cartridges.SelectUpperBank, BitAnd;
    if c.Mbc1? {
      SelectRomBankOk(c, value);
      SelectUpperBankOk(c, value);
    }
  }

  // ----- the bus -----

  predicate IsTable(addr: u16) {
    0x8000 <= addr < 0xA000
  }

  /** Memory that only writes to its own address change: tiles and maps, work RAM beyond the echo, and high RAM. */
  predicate Unaliased(addr: u16) {
    IsTable(addr) || 0xDE00 <= addr < 0xE000 || 0xFF80 <= addr
  }

  function Peek(b: Bus, addr: u16): Byte
    requires Unaliased(addr)
  {
    if IsTable(addr) then Known(VideoByte(b.io.gpu, addr))
    else if addr < 0xE000 then b.wram[addr - 0xC000] else b.stack[addr - 0xFF80]
  }

  lemma SameTablesPeek(g: Gpu, h: Gpu)
    requires SameTables(g, h)
    ensures forall a: u16 :: IsTable(a) ==> VideoByte(h, a) == VideoByte(g, a)
  {
    hide PatternByte, MapByte;
  }

  predicate Untouched(b: Bus, b': Bus, guarded: seq<u16>) {
    forall a: u16 :: a in guarded && Unaliased(a) ==> Peek(b', a) == Peek(b, a)
  }

  /** From one bus state to a later one, with the guarded addresses left alone. */
  predicate BusEvolves(b: Bus, b': Bus, guarded: seq<u16>) {
    IoEvolves(b.io, b'.io) && (BanksOk(b.cart) ==> BanksOk(b'.cart)) && Untouched(b, b', guarded)
  }

  lemma ReadEvolves(b: Bus, addr: u16, isDma: bool, guarded: seq<u16>)
    ensures var o := Read(b, addr, isDma);
      o.Ok? ==>
        && BusEvolves(b, o.value.1, guarded) && o.value.1 == b.(io := o.value.1.io) && o.value.1.io.cycle == b.io.cycle
        && o.value.1.io.gpu == b.io.gpu.(dots := o.value.1.io.gpu.dots)
  {
    hide ReadRegister, ReadVideo, Cartridges.Read, IoEvolves, VideoByte;
    if IsIo(addr) {
      ReadRegisterEvolves(b.io, addr - 0xFF00);
      var o := ReadRegister(b.io, addr - 0xFF00);
      if o.Ok? {
        SameTablesPeek(b.io.gpu, o.value.1.gpu);
      }
    }
    IoEvolvesItself(b.io);
  }

  lemma IoEvolvesItself(io: Io)
    ensures IoEvolves(io, io)
  {
  }

  lemma WriteVideoEvolves(b: Bus, addr: u16, v: Byte, isDma: bool)
    requires IsVideoAddress(addr)
    ensures var o := AddressBus.WriteVideo(b, addr, v, isDma);
      o.Ok? ==>
        && IoEvolves(b.io, o.value.io) && o.value == b.(io := b.io.(gpu := o.value.io.gpu))
        && (IsOamAddress(addr) ==> SameTables(b.io.gpu, o.value.io.gpu))
        && (forall a: u16 :: IsTable(a) && a != addr ==> VideoByte(o.value.io.gpu, a) == VideoByte(b.io.gpu, a))
        && (IsTable(addr) ==> Known(VideoByte(o.value.io.gpu, addr)) == v)
  {
    hide ApuInv, WithVideoByte, VideoByte, Accessible;
    if !v.undefined && (isDma || Accessible(b.io.memory, addr)) {
      WithVideoByteKeepsClock(b.io.gpu, addr, v.data);
      forall a: u16 | IsTable(a) ensures VideoByte(WithVideoByte(b.io.gpu, addr, v.data), a) == if a == addr then v.data else VideoByte(b.io.gpu, a) {
        VideoReadOverWrite(b.io.gpu, addr, a, v.data);
      }
    }
  }

  lemma WithVideoByteKeepsClock(g: Gpu, addr: u16, v: u8)
    requires IsVideoAddress(addr)
    ensures WithVideoByte(g, addr, v).dots == g.dots && WithVideoByte(g, addr, v).windowLine == g.windowLine
    ensures IsOamAddress(addr) ==> SameTables(g, WithVideoByte(g, addr, v))
  {
    hide WithPatternByte, WithMapByte, WithOamByte;
  }

  lemma {:induction false} CopyEvolves(b: Bus, page: u8, offset: nat)
    requires page <= 0xF1 && offset <= 0xA0
    ensures var o := Copy(b, page, offset);
      o.Ok? ==>
        && IoEvolves(b.io, o.value.io) && o.value == b.(io := o.value.io) && o.value.io.cycle == b.io.cycle
        && SameTables(b.io.gpu, o.value.io.gpu)
    decreases 0xA0 - offset
  {
    hide Read, AddressBus.WriteVideo, IoEvolves, BusEvolves;
    IoEvolvesItself(b.io);
    if offset < 0xA0 {
      var r := Read(b, page * 0x100 + offset, true);
      ReadEvolves(b, page * 0x100 + offset, true, []);
      if r.Ok? {
        BusEvolvesIo(b, r.value.1, []);
        var w := AddressBus.WriteVideo(r.value.1, 0xFE00 + offset, r.value.0, true);
        WriteVideoEvolves(r.value.1, 0xFE00 + offset, r.value.0, true);
        if w.Ok? {
          CopyEvolves(w.value, page, offset + 1);
          IoEvolvesTransitively(b.io, r.value.1.io, w.value.io);
          var o := Copy(w.value, page, offset + 1);
          if o.Ok? {
            IoEvolvesTransitively(b.io, w.value.io, o.value.io);
          }
        }
      }
    }
  }

  lemma BusEvolvesIo(b: Bus, b': Bus, guarded: seq<u16>)
    requires BusEvolves(b, b', guarded)
    ensures IoEvolves(b.io, b'.io)
  {
  }

  lemma DmaEvolves(b: Bus, page: u8)
    ensures var o := Dma(b, page);
      o.Ok? ==>
        && IoEvolves(b.io, o.value.io) && o.value == b.(io := o.value.io) && o.value.io.cycle == b.io.cycle
        && SameTables(b.io.gpu, o.value.io.gpu)
  {
    hide Copy, ApuInv;
    if page <= 0xF1 {
      CopyEvolves(b.(io := b.io.(dmaStart := b.io.cycle)), page, 0);
    }
  }

  /** A write changes no unaliased byte but the one addressed, directly or through a DMA. */
  lemma WriteEvolves(b: Bus, addr: u16, v: Byte, guarded: seq<u16>)
    requires addr !in guarded
    ensures var o := Write(b, addr, v, false);
      o.Ok? ==> BusEvolves(b, o.value, guarded) && o.value.io.cycle == b.io.cycle
  {
    hide Dma, AddressBus.WriteVideo, WriteRegister, Cartridges.Write, IoEvolves, BanksOk, VideoByte;
    IoEvolvesItself(b.io);
    if IsCartridge(addr) {
      if BanksOk(b.cart) {
        CartWriteKeepsBanks(b.cart, addr, v);
      }
    } else if IsVideoAddress(addr) {
      WriteVideoEvolves(b, addr, v, false);
    } else if IsIo(addr) && !v.undefined {
      if addr == DMA_REGISTER {
        DmaEvolves(b, v.data);
      } else {
        WriteRegisterEvolves(b.io, addr - 0xFF00, v.data);
      }
      var o := Write(b, addr, v, false);
      if o.Ok? {
        SameTablesPeek(b.io.gpu, o.value.io.gpu);
      }
    }
  }

  /** An unaliased byte holds what was last written to it. */
  lemma WriteStores(b: Bus, addr: u16, v: Byte)
    requires Unaliased(addr)
    ensures var o := Write(b, addr, v, false);
      (o.Ok? ==> Peek(o.value, addr) == v) && (!IsTable(addr) ==> o.Ok?)
  {
    hide AddressBus.WriteVideo, VideoByte, IoEvolves, SameTables;
    if IsTable(addr) {
      WriteVideoEvolves(b, addr, v, false);
    }
  }

  lemma BusEvolvesTransitively(a: Bus, b: Bus, c: Bus, guarded: seq<u16>)
    requires BusEvolves(a, b, guarded) && BusEvolves(b, c, guarded)
    ensures BusEvolves(a, c, guarded)
  {
    hide IoEvolves, BanksOk;
    IoEvolvesTransitively(a.io, b.io, c.io);
  }
}
