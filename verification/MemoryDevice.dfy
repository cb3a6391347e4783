/** The cartridge and the address decoder as objects over arrays. */
module MemoryDevice {
  import opened Outcomes
  import opened Bits
  import opened CheckedInt
  import opened AudioInvariants
  import Picture
  import opened IoBlock
  import opened IoDevice
  import Cartridges
  import opened AddressBus

  /** The MBC1 bank machine. */
  class MBC1 {
    const rom: seq<u8>
    const ram: array<Byte>
    var bankedRamMode: bool
    var ramEnabled: bool
    var romBank: u8
    var ramBank: u8

    constructor (rom: seq<u8>)
      ensures Valid() && fresh(ram) && View() == Cartridges.NewMbc1(rom)
    {
      this.rom := rom;
      ram := new Byte[0x8000](_ => UNDEFINED_BYTE);
      bankedRamMode, ramEnabled, romBank, ramBank := false, true, 1, 0;
      new;
      assert ram[..] == seq(0x8000, _ => UNDEFINED_BYTE);
    }

    ghost predicate Valid() {
      ram.Length == 0x8000
    }

    ghost function View(): Cartridges.Cart
      requires Valid()
      reads this, ram
    {
      Cartridges.Mbc1(rom, bankedRamMode, ramEnabled, romBank, ramBank, ram[..])
    }

    method Read(addr: u16) returns (o: Outcome<Byte>)
      requires Valid()
      ensures o == Cartridges.Read(View(), addr)
    {
      if addr < 0x8000 {
        var i: int := if addr < 0x4000 then addr else 0x4000 * romBank as int + (addr - 0x4000);
        if i >= |rom| {
          return Err(OutOfRange);
        }
        return Ok(Known(rom[i]));
      }
      if 0xA000 <= addr < 0xC000 {
        var i: int := 0x2000 * ramBank as int + (addr - 0xA000);
        if i >= 0x8000 {
          return Err(OutOfRange);
        }
        return Ok(ram[i]);
      }
      return Err(IllegalMemoryAddress);
    }

    method SelectRomBank(value: Byte) returns (o: Outcome<()>)
      requires Valid()
      modifies this`romBank
      ensures match Cartridges.SelectRomBank(old(View()), value)
              case Ok(c) => o == Ok(()) && View() == c
              case Err(e) => o == Err(e)
    {
      var low :- And(value, Known(0x1F));
      romBank := if low.data != 0 then low.data else 1;
      o := Ok(());
    }

    method SelectUpperBank(value: Byte) returns (o: Outcome<()>)
      requires Valid()
      modifies this`romBank, this`ramBank
      ensures match Cartridges.SelectUpperBank(old(View()), value)
              case Ok(c) => o == Ok(()) && View() == c
              case Err(e) => o == Err(e)
    {
      var bits :- And(value, Known(0x03));
      if bankedRamMode {
        ramBank := bits.data;
      } else {
        romBank := Or8(Shl8(bits.data, 5), And8(romBank, 0x1F));
      }
      o := Ok(());
    }

    method Write(addr: u16, value: Byte) returns (o: Outcome<()>)
      requires Valid()
      modifies this, ram
      ensures match Cartridges.Write(old(View()), addr, value)
              case Ok(c) => o == Ok(()) && View() == c
              case Err(e) => o == Err(e)
    {
      hide Cartridges.SelectRomBank, Cartridges.SelectUpperBank, BitAnd;
      if addr < 0x2000 {
        if bankedRamMode {
          var bits :- And(value, Known(0x0A));
          ramEnabled := bits.data == 0x0A;
        }
      } else if addr < 0x4000 {
        var _ :- SelectRomBank(value);
      } else if addr < 0x6000 {
        var _ :- SelectUpperBank(value);
      } else if addr < 0x8000 {
        var bit :- And(value, Known(1));
        bankedRamMode := bit.data != 0;
      } else if 0xA000 <= addr < 0xC000 {
        var i: int := 0x2000 * ramBank as int + (addr - 0xA000);
        if i >= 0x8000 {
          return Err(OutOfRange);
        }
        ram[i] := value;
      } else {
        return Err(IllegalMemoryAddress);
      }
      o := Ok(());
    }
  }

  /** A cartridge: a bare ROM when there is no bank controller. */
  class Cartridge {
    const rom: seq<u8>
    const mbc1: MBC1?

    constructor (rom: seq<u8>, mbc1: MBC1?)
      requires mbc1 != null ==> mbc1.Valid()
      ensures Valid() && this.rom == rom && this.mbc1 == mbc1
    {
      this.rom := rom;
      this.mbc1 := mbc1;
    }

    ghost function Repr(): set<object> {
      if mbc1 == null then {} else {mbc1, mbc1.ram}
    }

    ghost predicate Valid() {
      mbc1 != null ==> mbc1.Valid()
    }

    ghost function View(): Cartridges.Cart
      requires Valid()
      reads Repr()
    {
      if mbc1 == null then Cartridges.RomOnly(rom) else mbc1.View()
    }

    method Read(addr: u16) returns (o: Outcome<Byte>)
      requires Valid()
      ensures o == Cartridges.Read(View(), addr)
    {
      if mbc1 != null {
        o := mbc1.Read(addr);
      } else {
        o := Ok(Known(if addr < |rom| then rom[addr] else 0));
      }
    }

    method Write(addr: u16, value: Byte) returns (o: Outcome<()>)
      requires Valid()
      modifies Repr()
      ensures match Cartridges.Write(old(View()), addr, value)
              case Ok(c) => o == Ok(()) && View() == c
              case Err(e) => o == Err(e)
    {
      if mbc1 != null {
        o := mbc1.Write(addr, value);
      } else {
        o := Err(if value.undefined then UndefinedData else IllegalMemoryWrite);
      }
    }
  }

  class MemoryMap {
    const cartridge: Cartridge
    const io: IO
    const stack: array<Byte>
    const workingRam: array<Byte>

    constructor (cartridge: Cartridge, io: IO)
      requires cartridge.Valid() && io.Valid() && cartridge.Repr() !! io.Repr()
      ensures Valid() && this.cartridge == cartridge && this.io == io && fresh(Repr() - cartridge.Repr() - io.Repr())
      ensures View() == Bus(seq(0x80, _ => UNDEFINED_BYTE), seq(0x2000, _ => UNDEFINED_BYTE), cartridge.View(), io.View())
    {
      this.cartridge := cartridge;
      this.io := io;
      var high := new Byte[0x80](_ => UNDEFINED_BYTE);
      var work := new Byte[0x2000](_ => UNDEFINED_BYTE);
      stack, workingRam := high, work;
      new;
      assert stack[..] == seq(0x80, _ => UNDEFINED_BYTE) && workingRam[..] == seq(0x2000, _ => UNDEFINED_BYTE);
    }

    ghost function Repr(): set<object> {
      {stack, workingRam} + cartridge.Repr() + io.Repr()
    }

    /** The parts do not overlap, so writing one leaves the others alone. */
    ghost predicate Valid()
      reads Repr()
    {
      && stack.Length == 0x80 && workingRam.Length == 0x2000 && stack != workingRam
      && cartridge.Valid() && io.Valid()
      && stack !in cartridge.Repr() && workingRam !in cartridge.Repr() && cartridge.Repr() !! io.Repr()
    }

    ghost function View(): Bus
      requires Valid()
      reads Repr()
    {
      Bus(stack[..], workingRam[..], cartridge.View(), io.View())
    }

    method Read(addr: u16, isDma: bool) returns (o: Outcome<Byte>)
      requires Valid()
      modifies io.Repr()
      ensures Valid()
      ensures match AddressBus.Read(old(View()), addr, isDma)
              case Ok((v, b)) => o == Ok(v) && View() == b
              case Err(e) => o == Err(e)
    {
      hide Cartridges.Read, Picture.ReadVideo, ReadRegister, ApuInv;
      if IsCartridge(addr) {
        o := cartridge.Read(addr);
      } else if Picture.IsVideoAddress(addr) {
        var v :- io.VideoRead(addr, isDma);
        o := Ok(Known(v));
      } else if IsWorkRam(addr) {
        o := Ok(workingRam[WorkRamIndex(addr)]);
      } else if IsHighRam(addr) {
        o := Ok(stack[addr - 0xFF80]);
      } else if IsIo(addr) {
        var v :- io.IoRead(addr - 0xFF00);
        o := Ok(Known(v));
      } else {
        o := Err(IllegalMemoryAddress);
      }
    }

    method WriteVideo(addr: u16, value: Byte, isDma: bool) returns (o: Outcome<()>)
      requires Valid() && Picture.IsVideoAddress(addr)
      modifies io.Repr()
      ensures Valid()
      ensures match AddressBus.WriteVideo(old(View()), addr, value, isDma)
              case Ok(b) => o == Ok(()) && View() == b
              case Err(e) => o == Err(e)
    {
      hide Picture.WriteVideo, ApuInv;
      var v :- Decay(value);
      o := io.VideoWrite(addr, v, isDma);
    }

    /** One byte of the copy. */
    method CopyByte(page: u8, offset: nat) returns (o: Outcome<()>)
      requires Valid() && page <= 0xF1 && offset < 0xA0
      modifies io.Repr()
      ensures Valid()
      ensures match Copy(old(View()), page, offset)
              case Ok(b) => o == Ok(()) && Copy(View(), page, offset + 1) == Ok(b)
              case Err(e) => o == Err(e) || (o == Ok(()) && Copy(View(), page, offset + 1) == Err(e))
    {
      hide AddressBus.Read, AddressBus.WriteVideo, View, Valid;
      var v :- Read(page * 0x100 + offset, true);
      var _ :- WriteVideo(0xFE00 + offset, v, true);
      o := Ok(());
    }

    /** The copy loop, one OAM byte at a time. */
    method DMA(page: u8) returns (o: Outcome<()>)
      requires Valid()
      modifies io.Repr()
      ensures Valid()
      ensures match Dma(old(View()), page)
              case Ok(b) => o == Ok(()) && View() == b
              case Err(e) => o == Err(e)
    {
      hide Copy, ApuInv;
      if page > 0xF1 {
        return Err(IllegalMemoryAddress);
      }
      io.StartDMA();
      o := CopyAll(page);
    }

    method CopyAll(page: u8) returns (o: Outcome<()>)
      requires Valid() && page <= 0xF1
      modifies io.Repr()
      ensures Valid()
      ensures match Copy(old(View()), page, 0)
              case Ok(b) => o == Ok(()) && View() == b
              case Err(e) => o == Err(e)
    {
      hide AddressBus.Read, AddressBus.WriteVideo, View, Valid;
      for offset := 0 to 0xA0
        invariant Valid() && Copy(View(), page, offset) == Copy(old(View()), page, 0)
      {
        var _ :- CopyByte(page, offset);
      }
      o := Ok(());
    }

    method StoreWork(i: nat, value: Byte)
      requires Valid() && i < 0x2000
      modifies workingRam
      ensures Valid() && View() == old(View()).(wram := old(View()).wram[i := value])
    {
      workingRam[i] := value;
    }

    method StoreHigh(i: nat, value: Byte)
      requires Valid() && i < 0x80
      modifies stack
      ensures Valid() && View() == old(View()).(stack := old(View()).stack[i := value])
    {
      stack[i] := value;
    }

    method Write(addr: u16, value: Byte, isDma: bool) returns (o: Outcome<()>)
      requires Valid()
      modifies Repr()
      ensures Valid()
      ensures match AddressBus.Write(old(View()), addr, value, isDma)
              case Ok(b) => o == Ok(()) && View() == b
              case Err(e) => o == Err(e)
    {
      hide Cartridges.Write, AddressBus.WriteVideo, WriteRegister, Dma, ApuInv;
      if IsCartridge(addr) {
        o := cartridge.Write(addr, value);
      } else if Picture.IsVideoAddress(addr) {
        o := WriteVideo(addr, value, isDma);
      } else if IsWorkRam(addr) {
        StoreWork(WorkRamIndex(addr), value);
        o := Ok(());
      } else if IsHighRam(addr) {
        StoreHigh(addr - 0xFF80, value);
        o := Ok(());
      } else if addr == DMA_REGISTER {
        var page :- Decay(value);
        o := DMA(page);
      } else if IsIo(addr) {
        var v :- Decay(value);
        o := io.IoWrite(addr - 0xFF00, v);
      } else {
        o := Ok(());
      }
    }

    /** The writes that construction ends with. */
    method Reset() returns (o: Outcome<()>)
      requires Valid()
      modifies Repr()
      ensures Valid()
      ensures match PokeAll(old(View()), POWER_UP)
              case Ok(b) => o == Ok(()) && View() == b
              case Err(e) => o == Err(e)
    {
      hide PokeAll, View, Valid;
      o := WriteAll(POWER_UP);
    }

    method WriteAll(pokes: seq<Poke>) returns (o: Outcome<()>)
      requires Valid()
      modifies Repr()
      ensures Valid()
      ensures match PokeAll(old(View()), pokes)
              case Ok(b) => o == Ok(()) && View() == b
              case Err(e) => o == Err(e)
    {
      hide AddressBus.Write, View, Valid;
      assert pokes[0..] == pokes;
      for i := 0 to |pokes|
        invariant Valid() && PokeAll(View(), pokes[i..]) == PokeAll(old(View()), pokes)
      {
        assert pokes[i..][1..] == pokes[i + 1..];
        var _ :- Write(pokes[i].addr, Known(pokes[i].value), false);
      }
      o := Ok(());
    }

    /** An update of the I/O block, seen from the bus. */
    method UpdateIo(env: Env) returns (o: Outcome<()>, ghost events: seq<Picture.LcdEvent>)
      requires Valid()
      modifies io.Repr()
      ensures Valid()
      ensures match IoBlock.Update(old(View()).io, env)
              case Ok((io', shown)) => o == Ok(()) && events == shown && View() == old(View()).(io := io')
              case Err(e) => o == Err(e)
    {
      hide IoBlock.Update, ApuInv;
      o, events := io.Update(env);
    }
  }
}
