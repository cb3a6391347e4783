/** The memory map by address: what each range is, what the cartridge banks select, and what the I/O
    registers store, mask and refuse. */
module MemoryBytes {
  import opened Outcomes
  import opened Bits
  import opened CheckedInt
  import opened Audio
  import opened Picture
  import opened IoBlock
  import Cartridges
  import opened AddressBus
  import opened AluLaws
  import opened SoundBytes

  // ----- reads -----

  /** ROM and cartridge RAM: a bare ROM reads 0 behind its end; MBC1 reads its banks, or stops outside the image. */
  function CartridgeByte(c: Cartridges.Cart, addr: u16): Outcome<Byte>
    requires addr < 0x8000 || 0xA000 <= addr < 0xC000
  {
    match c
    case RomOnly(rom) => Ok(Known(if addr < |rom| then rom[addr] else 0))
    case Mbc1(rom, _, _, romBank, ramBank, ram) =>
      var i: int := if addr < 0x4000 then addr else if addr < 0x8000 then 0x4000 * (romBank as int) + (addr - 0x4000)
        else 0x2000 * (ramBank as int) + (addr - 0xA000);
      if addr < 0x8000 then (if i < |rom| then Ok(Known(rom[i])) else Err(OutOfRange))
      else if i < 0x8000 then Ok(ram[i]) else Err(OutOfRange)
  }

  lemma CartridgeReads(c: Cartridges.Cart, addr: u16)
    requires addr < 0x8000 || 0xA000 <= addr < 0xC000
    ensures Cartridges.Read(c, addr) == CartridgeByte(c, addr)
  {
  }

  /** What the CPU reads at each address; tiles and maps are refused in mode 3, sprites in modes 2 and 3. */
  lemma ReadsByAddress(b: Bus, addr: u16)
    ensures var o, mode := Read(b, addr, false), b.io.memory[0x41] % 4;
      && (addr < 0x8000 || 0xA000 <= addr < 0xC000 ==>
            (match CartridgeByte(b.cart, addr) case Ok(v) => o == Ok((v, b)) case Err(e) => o == Err(e)))
      && (0x8000 <= addr < 0xA000 ==> o == if mode == 3 then Err(PpuViolation) else Ok((Known(VideoByte(b.io.gpu, addr)), b)))
      && (0xC000 <= addr < 0xE000 ==> o == Ok((b.wram[addr - 0xC000], b)))
      && (0xE000 <= addr < 0xFE00 ==> o == Ok((b.wram[addr - 0xE000], b)))
      && (0xFE00 <= addr < 0xFEA0 ==> o == if mode >= 2 then Err(PpuViolation) else Ok((Known(VideoByte(b.io.gpu, addr)), b)))
      && (0xFEA0 <= addr < 0xFF00 ==> o == Err(IllegalMemoryAddress))
      && (0xFF00 <= addr < 0xFF80 ==>
            (match ReadRegister(b.io, addr - 0xFF00) case Ok((v, io)) => o == Ok((Known(v), b.(io := io))) case Err(e) => o == Err(e)))
      && (0xFF80 <= addr ==> o == Ok((b.stack[addr - 0xFF80], b)))
  {
    hide VideoByte, ReadRegister, Cartridges.Read;
    if addr < 0x8000 || 0xA000 <= addr < 0xC000 {
      CartridgeReads(b.cart, addr);
    }
  }

  // ----- writes -----

  /** What the CPU writes at each address; devices that hold plain numbers stop on an undefined byte. */
  lemma WritesByAddress(b: Bus, addr: u16, v: Byte)
    ensures var o, mode := Write(b, addr, v, false), b.io.memory[0x41] % 4;
      && (addr < 0x8000 || 0xA000 <= addr < 0xC000 ==>
            (match Cartridges.Write(b.cart, addr, v) case Ok(c) => o == Ok(b.(cart := c)) case Err(e) => o == Err(e)))
      && (0x8000 <= addr < 0xA000 || 0xFE00 <= addr < 0xFEA0 ==>
            o == if v.undefined then Err(UndefinedData)
                 else if mode == 3 || (mode == 2 && addr >= 0xFE00) then Err(PpuViolation)
                 else Ok(b.(io := b.io.(gpu := WithVideoByte(b.io.gpu, addr, v.data)))))
      && (0xC000 <= addr < 0xE000 ==> o == Ok(b.(wram := b.wram[addr - 0xC000 := v])))
      && (0xE000 <= addr < 0xFE00 ==> o == Ok(b.(wram := b.wram[addr - 0xE000 := v])))
      && (0xFEA0 <= addr < 0xFF00 ==> o == Ok(b))
      && (addr == 0xFF46 ==> o == if v.undefined then Err(UndefinedData) else Dma(b, v.data))
      && (0xFF00 <= addr < 0xFF80 && addr != 0xFF46 ==>
            (if v.undefined then o == Err(UndefinedData)
             else match WriteRegister(b.io, addr - 0xFF00, v.data) case Ok(io) => o == Ok(b.(io := io)) case Err(e) => o == Err(e)))
      && (0xFF80 <= addr ==> o == Ok(b.(stack := b.stack[addr - 0xFF80 := v])))
  {
    hide WithVideoByte, WriteRegister, Cartridges.Write, Dma;
  }

  // ----- the bank machine -----

  lemma BankNumber(high: u8, low: u8)
    requires high < 4 && low < 0x20
    ensures Or8(Shl8(high, 5), low) == 0x20 * high + low
  {
    hide BitOr, Shl;
    ShlIsExp2(high, 5);
    Powers();
    BitOrZero(high);
    BitOrDoubled(high, low / 0x10);
    BitOrDoubled(2 * high, low / 8);
    BitOrDoubled(4 * high, low / 4);
    BitOrDoubled(8 * high, low / 2);
    BitOrDoubled(0x10 * high, low);
  }

  lemma SmallMasks(v: u8)
    ensures And8(v, 3) == v % 4 && And8(v, 0x1F) == v % 0x20 && And8(v, 1) == v % 2
    ensures And8(v, 0x0A) == 0x0A <==> Bit(v, 1) && Bit(v, 3)
  {
    hide BitAnd, Bit, Exp2;
    Powers();
    assert Exp2(5) - 1 == 0x1F && Exp2(2) - 1 == 3 && Exp2(1) - 1 == 1;
    AndLowMask(v, 2);
    AndLowMask(v, 5);
    AndLowMask(v, 1);
    TenMask(v);
  }

  lemma TenMask(v: u8)
    ensures And8(v, 0x0A) == 0x0A <==> Bit(v, 1) && Bit(v, 3)
  {
    hide BitAnd;
    AndDoubled(v, 5);
    AndOdd(v / 2, 2);
    AndDoubled(v / 2 / 2, 1);
    AndOne(v / 2 / 2 / 2);
    assert Bit(v, 1) == (v / 2 % 2 == 1);
    assert Bit(v, 3) == Bit(v / 2, 2) == Bit(v / 2 / 2, 1) == (v / 2 / 2 / 2 % 2 == 1);
  }

  /** MBC1: RAM enable in banked mode; the low five ROM bank bits, 0 read as 1, clearing the upper ones; the
      RAM bank or the upper ROM bank bits by mode; the mode; and banked RAM. */
  lemma BankWrites(c: Cartridges.Cart, addr: u16, v: u8)
    requires c.Mbc1?
    ensures var o := Cartridges.Write(c, addr, Known(v));
      && (addr < 0x2000 ==> o == Ok(if c.bankedRam then c.(ramEnabled := Bit(v, 1) && Bit(v, 3)) else c))
      && (0x2000 <= addr < 0x4000 ==> o == Ok(c.(romBank := if v % 0x20 == 0 then 1 else v % 0x20)))
      && (0x4000 <= addr < 0x6000 ==>
            o == Ok(if c.bankedRam then c.(ramBank := v % 4) else c.(romBank := 0x20 * (v % 4) + c.romBank % 0x20)))
      && (0x6000 <= addr < 0x8000 ==> o == Ok(c.(bankedRam := v % 2 == 1)))
      && (0xA000 <= addr < 0xC000 ==>
            var i := 0x2000 * (c.ramBank as nat) + (addr - 0xA000);
            o == if i < 0x8000 then Ok(c.(ram := c.ram[i := Known(v)])) else Err(OutOfRange))
      && (0x8000 <= addr < 0xA000 || addr >= 0xC000 ==> o == Err(IllegalMemoryAddress))
  {
    hide And8, Bit, Cartridges.SelectRomBank, Cartridges.SelectUpperBank;
    SmallMasks(v);
    SelectsRomBank(c, v);
    SelectsUpperBank(c, v);
  }

  lemma SelectsRomBank(c: Cartridges.Cart, v: u8)
    requires c.Mbc1?
    ensures Cartridges.SelectRomBank(c, Known(v)) == Ok(c.(romBank := if v % 0x20 == 0 then 1 else v % 0x20))
  {
    hide And8, Bit;
    SmallMasks(v);
  }

  lemma SelectsUpperBank(c: Cartridges.Cart, v: u8)
    requires c.Mbc1?
    ensures Cartridges.SelectUpperBank(c, Known(v)) ==
      Ok(if c.bankedRam then c.(ramBank := v % 4) else c.(romBank := 0x20 * (v % 4) + c.romBank % 0x20))
  {
    hide And8, Or8, Shl8, Bit;
    SmallMasks(v);
    SmallMasks(c.romBank);
    BankNumber(v % 4, c.romBank % 0x20);
  }

  /** An undefined byte may be stored in RAM and is ignored where the write is; it cannot select anything. */
  lemma UndefinedBankWrites(c: Cartridges.Cart, addr: u16, v: Byte)
    requires v.undefined
    ensures c.RomOnly? ==> Cartridges.Write(c, addr, v) == Err(UndefinedData)
    ensures c.Mbc1? && addr < 0x8000 ==>
      Cartridges.Write(c, addr, v) == if addr < 0x2000 && !c.bankedRam then Ok(c) else Err(UndefinedData)
  {
  }

  // ----- I/O registers -----

  /** Joypad lines, 0 when pressed: directions show unless bit 4 deselects them, buttons unless bit 5 does. */
  lemma JoypadBits(selected: u8, inputs: u8, i: nat)
    requires i < 4
    ensures var v := Joypad(selected, inputs);
      && (Bit(v, i) <==> (Bit(selected, 4) || Bit(inputs, i)) && (Bit(selected, 5) || Bit(inputs, i + 4)))
      && (Bit(v, 4) <==> Bit(selected, 4)) && (Bit(v, 5) <==> Bit(selected, 5)) && Bit(v, 6) && Bit(v, 7)
  {
    forall j | 0 <= j < 8
      ensures Bit(Joypad(selected, inputs), j) <==>
        (Bit(selected, 4) || Bit(0xE0 + inputs % 0x10, j)) && (Bit(selected, 5) || Bit(0xD0 + inputs / 0x10, j))
    {
      JoypadBit(selected, inputs, j);
    }
    Lines(inputs, i);
  }

  lemma JoypadBit(selected: u8, inputs: u8, j: nat)
    requires j < 8
    ensures Bit(Joypad(selected, inputs), j) <==>
      (Bit(selected, 4) || Bit(0xE0 + inputs % 0x10, j)) && (Bit(selected, 5) || Bit(0xD0 + inputs / 0x10, j))
  {
    hide Bit, BitAnd;
    BitDigits(selected);
    BitDigits(0xFF);
    var directions := if selected / 0x10 % 2 == 0 then And8(0xFF, 0xE0 + inputs % 0x10) else 0xFF;
    BitOfAnd(0xFF, 0xE0 + inputs % 0x10, j);
    BitOfAnd(directions, 0xD0 + inputs / 0x10, j);
  }

  lemma Lines(inputs: u8, i: nat)
    requires i < 4
    ensures Bit(0xE0 + inputs % 0x10, i) == Bit(inputs, i) && Bit(0xD0 + inputs / 0x10, i) == Bit(inputs, i + 4)
    ensures var x := 0xE0 + inputs % 0x10; !Bit(x, 4) && Bit(x, 5) && Bit(x, 6) && Bit(x, 7)
    ensures var x := 0xD0 + inputs / 0x10; Bit(x, 4) && !Bit(x, 5) && Bit(x, 6) && Bit(x, 7)
  {
    hide Bit;
    LowBits(0xE0, inputs % 0x10);
    LowBits(0xD0, inputs / 0x10);
    NibbleBits(inputs, i);
    BitDigits(0xE0 + inputs % 0x10);
    BitDigits(0xD0 + inputs / 0x10);
    BitDigits(inputs % 0x10);
    BitDigits(inputs / 0x10);
  }

  lemma LowBits(high: nat, low: nat)
    requires low < 0x10 && (high == 0xE0 || high == 0xD0)
    ensures var x := high + low;
      x % 2 == low % 2 && x / 2 % 2 == low / 2 % 2 && x / 4 % 2 == low / 4 % 2 && x / 8 % 2 == low / 8 % 2
      && x / 0x10 == high / 0x10 && x / 0x20 == high / 0x20 && x / 0x40 == high / 0x40 && x / 0x80 == high / 0x80
  {
    LowDigits(high / 0x10, low);
    HighDigits(high, low);
  }

  lemma HighDigits(high: nat, low: nat)
    requires low < 0x10 && (high == 0xE0 || high == 0xD0)
    ensures var x := high + low; x / 0x10 == high / 0x10 && x / 0x20 == high / 0x20 && x / 0x40 == high / 0x40 && x / 0x80 == high / 0x80
  {
  }

  lemma NibbleBits(x: u8, i: nat)
    requires i < 4
    ensures Bit(x % 0x10, i) == Bit(x, i) && Bit(x / 0x10, i) == Bit(x, i + 4)
  {
    hide Bit;
    BitDigits(x);
    BitDigits(x % 0x10);
    BitDigits(x / 0x10);
    LowNibbleDigits(x);
    assert x / 0x10 / 2 == x / 0x20 && x / 0x10 / 4 == x / 0x40 && x / 0x10 / 8 == x / 0x80;
  }

  /** Register reads: the timers and the sound unit catch up first, the joypad and the unassigned registers are
      computed, 0xFF46 is refused, and everything else reads as stored. */
  lemma RegisterReads(io: Io, reg: Reg)
    ensures var o, late := ReadRegister(io, reg), UpdateTimers(io);
      && (reg == 0x00 ==> o == Ok((Joypad(io.memory[0], io.inputs), io)))
      && (reg == 0x04 ==> o == Ok((late.memory[0x04], late)))
      && (reg == 0x05 ==> o == Ok((late.memory[0x05], late)))
      && (0x10 <= reg <= 0x26 ==> o == Ok((ReadApu(late.apu, late.memory, reg), late)))
      && (0x27 <= reg <= 0x2F ==> o == Ok((0xFF, io)))
      && (reg == 0x46 ==> o == Err(IllegalMemoryAddress))
      && (reg != 0x00 && reg != 0x04 && reg != 0x05 && !(0x10 <= reg <= 0x2F) && reg != 0x46 ==> o == Ok((io.memory[reg], io)))
  {
    hide UpdateTimers, ReadApu, Joypad;
  }

  /** Register writes that only store: 0xFF00 keeps bits 4 and 5, STAT keeps its low three bits and takes bits
      3-6, 0xFF05 and the sound registers catch up first; DIV and LY are refused, and switching the display
      off outside the vertical blank. */
  lemma RegisterWrites(io: Io, reg: Reg, v: u8)
    ensures var o, late := WriteRegister(io, reg, v), UpdateTimers(io);
      && (reg == 0x00 ==> o == Ok(io.(memory := io.memory[0x00 := 0xC0 + 0x10 * (v / 0x10 % 4)])))
      && (reg == 0x04 || reg == 0x44 ==> o == Err(UnsupportedWrite))
      && (reg == 0x05 ==> o == Ok(late.(memory := late.memory[0x05 := v])))
      && (0x10 <= reg <= 0x26 ==>
            var (apu, m) := WriteApu(late.apu, late.memory, reg, v); o == Ok(late.(apu := apu, memory := m)))
      && (reg == 0x40 ==>
            o == if v < 0x80 && io.memory[0x40] >= 0x80 && io.memory[0x41] % 4 != 1 then Err(LcdDisableViolation)
                 else Ok(io.(memory := io.memory[0x40 := v])))
      && (reg == 0x41 ==> o == Ok(io.(memory := io.memory[0x41 := 0x80 + 8 * (v / 8 % 0x10) + io.memory[0x41] % 8])))
      && (reg !in {0x00, 0x02, 0x04, 0x05, 0x40, 0x41, 0x44} && !(0x10 <= reg <= 0x26) ==>
            o == Ok(io.(memory := io.memory[reg := v])))
  {
    hide UpdateTimers, WriteApu;
  }

  lemma SerialControl(io: Io, v: u8)
    ensures WriteRegister(io, 0x02, v) == Ok(WriteSerialControl(io, v))
  {
    hide WriteSerialControl, UpdateTimers, WriteApu;
  }

  /** 0xFF02 with bits 7 and 0 sends the data register at once, reads back without bit 7 and requests the
      serial interrupt. */
  lemma SerialSends(io: Io, v: u8, i: nat)
    requires i < 8 && Bit(v, 7) && Bit(v, 0)
    ensures var io' := WriteSerialControl(io, v);
      && io' == io.(sent := io.sent + [io.memory[0x01]], memory := io'.memory)
      && io'.memory[0x02] == v - 0x80 && io'.memory[0x01] == 0xFF
      && (Bit(io'.memory[0x0F], i) <==> Bit(io.memory[0x0F], i) || i == 3)
      && (forall r: Reg :: r != 0x01 && r != 0x02 && r != 0x0F ==> io'.memory[r] == io.memory[r])
  {
    hide Bit, BitOr;
    BitDigits(v);
    BitOfOr(io.memory[0x0F], 8, i);
    SerialMasks(i);
  }

  /** Any other value lands in the data register, its bits 1-6 set. */
  lemma SerialStores(io: Io, v: u8, i: nat)
    requires i < 8 && !(Bit(v, 7) && Bit(v, 0))
    ensures var io' := WriteSerialControl(io, v);
      && io' == io.(memory := io.memory[0x01 := io'.memory[0x01]])
      && (Bit(io'.memory[0x01], i) <==> Bit(v, i) || 1 <= i <= 6)
  {
    hide Bit, BitOr;
    BitDigits(v);
    BitOfOr(v, 0x7E, i);
    SerialMasks(i);
  }

  lemma SerialMasks(i: nat)
    requires i < 8
    ensures Bit(8, i) <==> i == 3
    ensures Bit(0x7E, i) <==> 1 <= i <= 6
  {
    hide Bit;
    BitDigits(8);
    BitDigits(0x7E);
  }
}
