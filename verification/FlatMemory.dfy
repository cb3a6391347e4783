/** The decoded memories as one flat store: a write is read back at every alias of its address and
    nowhere else, and a DMA moves exactly one page fragment into sprite memory. */
module FlatMemory {
  import opened Outcomes
  import opened Bits
  import opened CheckedInt
  import opened Picture
  import opened VideoMemory
  import opened IoBlock
  import Cartridges
  import opened AddressBus
  import opened Evolution

  // ----- the whole bus -----

  predicate IsCartridgeRam(addr: u16) {
    0xA000 <= addr < 0xC000
  }

  /** Addresses that are plain storage for this cartridge. */
  predicate IsStorage(b: Bus, addr: u16) {
    || IsWorkRam(addr) || IsHighRam(addr) || IsVideoAddress(addr)
    || (IsCartridgeRam(addr) && b.cart.Mbc1? && BanksOk(b.cart))
  }

  /** The byte stored behind an address. */
  function Stored(b: Bus, addr: u16): Byte
    requires IsStorage(b, addr)
  {
    if IsWorkRam(addr) then b.wram[WorkRamIndex(addr)]
    else if IsHighRam(addr) then b.stack[addr - 0xFF80]
    else if IsVideoAddress(addr) then Known(VideoByte(b.io.gpu, addr))
    else b.cart.ram[Cartridges.RamIndex(b.cart, addr)]
  }

  /** Two addresses of one cell: equal, or a work RAM address and its echo. */
  predicate Alias(a: u16, b: u16) {
    a == b || (IsWorkRam(a) && IsWorkRam(b) && WorkRamIndex(a) == WorkRamIndex(b))
  }

  /** Reading storage returns what is stored and changes nothing, unless the picture unit is busy. */
  lemma ReadIsStored(b: Bus, addr: u16, isDma: bool)
    requires IsStorage(b, addr)
    ensures var o := Read(b, addr, isDma); o == Ok((Stored(b, addr), b)) || (o == Err(PpuViolation) && IsVideoAddress(addr) && !isDma)
  {
    hide VideoByte, ReadRegister;
  }

  /** A successful write to storage changes exactly the cells that alias its address. */
  lemma WriteIsStored(b: Bus, addr: u16, v: Byte, other: u16)
    requires IsStorage(b, addr) && IsStorage(b, other)
    ensures var o := Write(b, addr, v, false);
      o.Ok? ==> IsStorage(o.value, other) && Stored(o.value, other) == if Alias(addr, other) then v else Stored(b, other)
  {
    hide VideoByte, WithVideoByte, Accessible, Dma, WriteRegister;
    if IsVideoAddress(addr) && IsVideoAddress(other) && !v.undefined {
      VideoReadOverWrite(b.io.gpu, addr, other, v.data);
    }
  }

  /** The same devices, clocks and bank registers; only memory contents may differ. */
  predicate SameDevices(b: Bus, b': Bus) {
    && b'.io.(gpu := b.io.gpu) == b.io && b'.io.gpu.dots == b.io.gpu.dots && b'.io.gpu.windowLine == b.io.gpu.windowLine
    && (if b.cart.RomOnly? then b'.cart == b.cart else b'.cart.Mbc1? && b'.cart.(ram := b.cart.ram) == b.cart)
  }

  /** ... and nothing that is not storage, cartridge RAM in other banks included. */
  lemma WriteLeavesDevices(b: Bus, addr: u16, v: Byte)
    requires IsStorage(b, addr)
    ensures var o := Write(b, addr, v, false);
      o.Ok? ==>
        && SameDevices(b, o.value)
        && (b.cart.Mbc1? ==> forall k :: 0 <= k < 0x8000 && !(IsCartridgeRam(addr) && k == Cartridges.RamIndex(b.cart, addr)) ==>
              o.value.cart.ram[k] == b.cart.ram[k])
  {
    hide WithVideoByte, Accessible, Dma, WriteRegister;
    if IsVideoAddress(addr) && !v.undefined {
      WithVideoByteKeepsClock(b.io.gpu, addr, v.data);
    }
  }

  // ----- DMA -----

  /** What a DMA reads for byte i. */
  function SourceByte(b: Bus, page: u8, i: nat): Outcome<Byte>
    requires page <= 0xF1 && i < 0xA0
  {
    var (v, _) :- Read(b, page * 0x100 + i, true);
    Ok(v)
  }

  /** Byte i of sprite memory. */
  function Oam(b: Bus, i: nat): u8
    requires i < 0xA0
  {
    OamByte(b.io.gpu.sprites, 0xFE00 + i)
  }

  /** Same contents except for sprite memory and the start time of the DMA. */
  predicate SameButOam(b: Bus, b': Bus) {
    b' == b.(io := b.io.(dmaStart := b'.io.dmaStart, gpu := b.io.gpu.(sprites := b'.io.gpu.sprites)))
  }

  lemma SourceIgnoresOam(b: Bus, b': Bus, page: u8, i: nat)
    requires page <= 0xF1 && i < 0xA0 && SameButOam(b, b')
    ensures SourceByte(b', page, i) == SourceByte(b, page, i)
    ensures SourceByte(b, page, i).Ok? ==> Read(b, page * 0x100 + i, true).value.1 == b
  {
    hide PatternByte, MapByte, ReadRegister;
  }

  lemma {:induction false} CopyCopies(b: Bus, page: u8, offset: nat)
    requires page <= 0xF1 && offset <= 0xA0 && Copy(b, page, offset).Ok?
    ensures var b' := Copy(b, page, offset).value;
      && SameButOam(b, b') && b'.io.dmaStart == b.io.dmaStart
      && (forall i :: 0 <= i < offset ==> Oam(b', i) == Oam(b, i))
      && (forall i :: offset <= i < 0xA0 ==> SourceByte(b, page, i) == Ok(Known(Oam(b', i))))
    decreases 0xA0 - offset
  {
    hide Read, OamByte, WithOamByte;
    if offset < 0xA0 {
      SourceIgnoresOam(b, b, page, offset);
      var v := SourceByte(b, page, offset).value;
      assert v == Known(v.data);
      var c := AddressBus.WriteVideo(b, 0xFE00 + offset, v, true).value;
      assert c == b.(io := b.io.(gpu := b.io.gpu.(sprites := WithOamByte(b.io.gpu.sprites, 0xFE00 + offset, v.data))));
      CopyCopies(c, page, offset + 1);
      var b' := Copy(c, page, offset + 1).value;
      forall i | 0 <= i < 0xA0
        ensures i < offset ==> Oam(b', i) == Oam(b, i)
        ensures i >= offset ==> SourceByte(b, page, i) == Ok(Known(Oam(b', i)))
      {
        OamReadOverWrite(b.io.gpu.sprites, 0xFE00 + offset, 0xFE00 + i, v.data);
        assert Oam(c, i) == if i == offset then v.data else Oam(b, i);
        SourceIgnoresOam(b, c, page, i);
      }
    }
  }

  /** A DMA that succeeds fills sprite memory with the 160 bytes its page held before, starts the bus
      lock, and changes nothing else. */
  lemma DmaCopies(b: Bus, page: u8)
    requires Dma(b, page).Ok?
    ensures page <= 0xF1
    ensures var b' := Dma(b, page).value;
      && SameButOam(b, b') && b'.io.dmaStart == b.io.cycle
      && forall i :: 0 <= i < 0xA0 ==> SourceByte(b, page, i) == Ok(Known(Oam(b', i)))
  {
    hide Copy, OamByte, SourceByte;
    var c := b.(io := b.io.(dmaStart := b.io.cycle));
    CopyCopies(c, page, 0);
    forall i | 0 <= i < 0xA0 ensures SourceByte(b, page, i) == SourceByte(c, page, i) {
      SourceIgnoresOam(b, c, page, i);
    }
  }

  // ----- any write -----

  predicate SelectsRamBank(c: Cartridges.Cart, addr: u16) {
    c.Mbc1? && c.bankedRam && 0x4000 <= addr < 0x6000
  }

  /** A write of v to any address leaves x in cell a: v if the addresses are aliases, the copied byte if it
      starts a DMA into the cell, the byte of the new bank if it switches the cell's bank, and otherwise
      what was there. */
  predicate Leaves(b: Bus, addr: u16, v: Byte, a: u16, x: Byte)
    requires IsStorage(b, a)
  {
    if Alias(addr, a) then x == v
    else if addr == DMA_REGISTER && IsOamAddress(a) then
      !v.undefined && v.data <= 0xF1 && SourceByte(b, v.data, a - 0xFE00) == Ok(x)
    else if IsCartridgeRam(a) && SelectsRamBank(b.cart, addr) then x == b.cart.ram[0x2000 * (v.data % 4) + (a - 0xA000)]
    else x == Stored(b, a)
  }

  /** What every storage cell holds after any successful write anywhere. */
  lemma WriteChanges(b: Bus, addr: u16, v: Byte, a: u16)
    requires IsStorage(b, a) && Write(b, addr, v, false).Ok?
    ensures var b' := Write(b, addr, v, false).value;
      IsStorage(b', a) && forall x :: Stored(b', a) == x <==> Leaves(b, addr, v, a, x)
  {
    hide VideoByte, WithVideoByte, Accessible, Dma, SourceByte, WriteRegister, Cartridges.Write, BanksOk;
    if IsCartridge(addr) {
      CartridgeWriteChanges(b, addr, v, a);
    } else if IsStorage(b, addr) {
      WriteIsStored(b, addr, v, a);
    } else if addr == DMA_REGISTER {
      DmaChanges(b, v, a);
    } else if IsIo(addr) {
      RegisterWriteChanges(b, addr, v, a);
    }
  }

  lemma CartridgeWriteChanges(b: Bus, addr: u16, v: Byte, a: u16)
    requires IsStorage(b, a) && IsCartridge(addr) && Write(b, addr, v, false).Ok?
    ensures var b' := Write(b, addr, v, false).value;
      IsStorage(b', a) && forall x :: Stored(b', a) == x <==> Leaves(b, addr, v, a, x)
  {
    hide VideoByte, BitAnd, Or8, SourceByte;
    if BanksOk(b.cart) {
      CartWriteKeepsBanks(b.cart, addr, v);
    }
    assert Exp2(2) - 1 == 3;
    AndLowMask(v.data, 2);
  }

  lemma DmaChanges(b: Bus, v: Byte, a: u16)
    requires IsStorage(b, a) && Write(b, DMA_REGISTER, v, false).Ok?
    ensures var b' := Write(b, DMA_REGISTER, v, false).value;
      IsStorage(b', a) && forall x :: Stored(b', a) == x <==> Leaves(b, DMA_REGISTER, v, a, x)
  {
    hide Dma, PatternByte, MapByte, OamByte, SourceByte;
    DmaCopies(b, v.data);
    var b' := Dma(b, v.data).value;
    if IsOamAddress(a) {
      assert Stored(b', a) == Known(Oam(b', a - 0xFE00));
    }
  }

  lemma RegisterWriteChanges(b: Bus, addr: u16, v: Byte, a: u16)
    requires IsStorage(b, a) && IsIo(addr) && addr != DMA_REGISTER && Write(b, addr, v, false).Ok?
    ensures var b' := Write(b, addr, v, false).value;
      IsStorage(b', a) && forall x :: Stored(b', a) == x <==> Leaves(b, addr, v, a, x)
  {
    hide WriteRegister, PatternByte, MapByte, OamByte, SourceByte, IoEvolves;
    WriteRegisterEvolves(b.io, addr - 0xFF00, v.data);
  }

  // ----- the cartridge -----

  /** With sound banks every cartridge access is inside a full-size image, and the switchable window never
      shows bank 0. */
  lemma BanksInRange(c: Cartridges.Cart, addr: u16)
    requires c.Mbc1? && BanksOk(c)
    ensures addr < 0x8000 ==> Cartridges.RomIndex(c, addr) < 0x200000
    ensures 0x4000 <= addr < 0x8000 ==> Cartridges.RomIndex(c, addr) >= 0x4000
    ensures IsCartridgeRam(addr) ==> Cartridges.RamIndex(c, addr) < 0x8000
    ensures |c.rom| >= 0x200000 ==> Cartridges.Read(c, addr) != Err(OutOfRange)
  {
  }
}
