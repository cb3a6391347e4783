/** Cartridges: a bare ROM, or the MBC1 bank machine. */
module Cartridges {
  import opened Outcomes
  import opened Bits
  import opened CheckedInt

  type Ram = s: seq<Byte> | |s| == 0x8000 witness seq(0x8000, _ => UNDEFINED_BYTE)

  datatype Cart =
    | RomOnly(rom: seq<u8>)
    | Mbc1(rom: seq<u8>, bankedRam: bool, ramEnabled: bool, romBank: u8, ramBank: u8, ram: Ram)

  function NewMbc1(rom: seq<u8>): Cart {
    Mbc1(rom, false, true, 1, 0, seq(0x8000, _ => UNDEFINED_BYTE))
  }

  /** The index into the ROM image that an address below 0x8000 selects. */
  function RomIndex(c: Cart, addr: u16): nat
    requires c.Mbc1? && addr < 0x8000
  {
    if addr < 0x4000 then addr else 0x4000 * c.romBank + (addr - 0x4000)
  }

  function RamIndex(c: Cart, addr: u16): nat
    requires c.Mbc1? && 0xA000 <= addr < 0xC000
  {
    0x2000 * c.ramBank + (addr - 0xA000)
  }

  function Read(c: Cart, addr: u16): Outcome<Byte> {
    match c
    case RomOnly(rom) => Ok(Known(if addr < |rom| then rom[addr] else 0))
    case Mbc1(rom, _, _, _, _, ram) =>
      if addr < 0x8000 then
        var i := RomIndex(c, addr);
        if i < |rom| then Ok(Known(rom[i])) else Err(OutOfRange)
      else if 0xA000 <= addr < 0xC000 then
        var i := RamIndex(c, addr);
        if i < 0x8000 then Ok(ram[i]) else Err(OutOfRange)
      else Err(IllegalMemoryAddress)
  }

  function SelectRomBank(c: Cart, value: Byte): Outcome<Cart>
    requires c.Mbc1?
  {
    var low :- And(value, Known(0x1F));
    Ok(c.(romBank := if low.data != 0 then low.data else 1))
  }

  function SelectUpperBank(c: Cart, value: Byte): Outcome<Cart>
    requires c.Mbc1?
  {
    var bits :- And(value, Known(0x03));
    if c.bankedRam then Ok(c.(ramBank := bits.data))
    else
      var high :- ShiftLeft(bits, 5);
      var low :- And(Known(c.romBank), Known(0x1F));
      var bank :- Or(high, low);
      Ok(c.(romBank := bank.data))
  }

  function Write(c: Cart, addr: u16, value: Byte): Outcome<Cart> {
    match c
    case RomOnly(_) => Err(if value.undefined then UndefinedData else IllegalMemoryWrite)
    case Mbc1(_, bankedRam, _, _, _, ram) =>
      if addr < 0x2000 then
        if !bankedRam then Ok(c)
        else
          var bits :- And(value, Known(0x0A));
          Ok(c.(ramEnabled := bits.data == 0x0A))
      else if addr < 0x4000 then SelectRomBank(c, value)
      else if addr < 0x6000 then SelectUpperBank(c, value)
      else if addr < 0x8000 then
        var bit :- And(value, Known(1));
        Ok(c.(bankedRam := bit.data != 0))
      else if 0xA000 <= addr < 0xC000 then
        var i := RamIndex(c, addr);
        if i < 0x8000 then Ok(c.(ram := ram[i := value])) else Err(OutOfRange)
      else Err(IllegalMemoryAddress)
  }
}
