/** The address decoder in front of memory, cartridge and I/O. */
module AddressBus {
  import opened Outcomes
  import opened Bits
  import opened CheckedInt
  import opened IoBlock
  import Picture
  import Cartridges

  type HighRam = s: seq<Byte> | |s| == 0x80 witness seq(0x80, _ => UNDEFINED_BYTE)
  type WorkRam = s: seq<Byte> | |s| == 0x2000 witness seq(0x2000, _ => UNDEFINED_BYTE)

  /** Everything behind the address bus.  The last byte of `stack` is the interrupt-enable register. */
  datatype Bus = Bus(stack: HighRam, wram: WorkRam, cart: Cartridges.Cart, io: Io)

  const DMA_REGISTER := 0xFF46

  predicate IsCartridge(addr: u16) {
    addr < 0x8000 || 0xA000 <= addr < 0xC000
  }

  predicate IsWorkRam(addr: u16) {
    0xC000 <= addr < 0xFE00
  }

  /** Work RAM with its echo folded back. */
  function WorkRamIndex(addr: u16): (i: nat)
    requires IsWorkRam(addr)
    ensures i < 0x2000
  {
    if addr < 0xE000 then addr - 0xC000 else addr - 0xE000
  }

  predicate IsHighRam(addr: u16) {
    0xFF80 <= addr
  }

  predicate IsIo(addr: u16) {
    0xFF00 <= addr < 0xFF80
  }

  /** Reads may update the timers behind the I/O registers. */
  function Read(b: Bus, addr: u16, isDma: bool): Outcome<(Byte, Bus)> {
    if IsCartridge(addr) then
      var v :- Cartridges.Read(b.cart, addr);
      Ok((v, b))
    else if Picture.IsVideoAddress(addr) then
      var v :- Picture.ReadVideo(b.io.gpu, b.io.memory, addr, isDma);
      Ok((Known(v), b))
    else if IsWorkRam(addr) then Ok((b.wram[WorkRamIndex(addr)], b))
    else if IsHighRam(addr) then Ok((b.stack[addr - 0xFF80], b))
    else if IsIo(addr) then
      var (v, io) :- ReadRegister(b.io, addr - 0xFF00);
      Ok((Known(v), b.(io := io)))
    else Err(IllegalMemoryAddress)
  }

  function WriteVideo(b: Bus, addr: u16, value: Byte, isDma: bool): Outcome<Bus>
    requires Picture.IsVideoAddress(addr)
  {
    var v :- Decay(value);
    var gpu :- Picture.WriteVideo(b.io.gpu, b.io.memory, addr, v, isDma);
    Ok(b.(io := b.io.(gpu := gpu)))
  }

  /** Copies OAM bytes offset, offset + 1, ..., 0x9F from page `page`. */
  function Copy(b: Bus, page: u8, offset: nat): Outcome<Bus>
    requires page <= 0xF1 && offset <= 0xA0
    decreases 0xA0 - offset
  {
    if offset == 0xA0 then Ok(b)
    else
      var (v, b) :- Read(b, page * 0x100 + offset, true);
      var b :- WriteVideo(b, 0xFE00 + offset, v, true);
      Copy(b, page, offset + 1)
  }

  function Dma(b: Bus, page: u8): Outcome<Bus> {
    if page > 0xF1 then Err(IllegalMemoryAddress)
    else Copy(b.(io := b.io.(dmaStart := b.io.cycle)), page, 0)
  }

  function Write(b: Bus, addr: u16, value: Byte, isDma: bool): Outcome<Bus> {
    if IsCartridge(addr) then
      var cart :- Cartridges.Write(b.cart, addr, value);
      Ok(b.(cart := cart))
    else if Picture.IsVideoAddress(addr) then WriteVideo(b, addr, value, isDma)
    else if IsWorkRam(addr) then Ok(b.(wram := b.wram[WorkRamIndex(addr) := value]))
    else if IsHighRam(addr) then Ok(b.(stack := b.stack[addr - 0xFF80 := value]))
    else if addr == DMA_REGISTER then
      var page :- Decay(value);
      Dma(b, page)
    else if IsIo(addr) then
      var v :- Decay(value);
      var io :- WriteRegister(b.io, addr - 0xFF00, v);
      Ok(b.(io := io))
    else Ok(b)  // 0xFEA0-0xFEFF swallows writes
  }

  // ----- power-up -----

  datatype Poke = Poke(addr: u16, value: u8)

  const POWER_UP: seq<Poke> := [
    Poke(0xFF05, 0x00), Poke(0xFF06, 0x00), Poke(0xFF07, 0x00), Poke(0xFF10, 0x80),
    Poke(0xFF11, 0xBF), Poke(0xFF12, 0xF3), Poke(0xFF14, 0xBF), Poke(0xFF16, 0x3F),
    Poke(0xFF17, 0x00), Poke(0xFF19, 0xBF), Poke(0xFF1A, 0x7F), Poke(0xFF1B, 0xFF),
    Poke(0xFF1C, 0x9F), Poke(0xFF1E, 0xBF), Poke(0xFF20, 0xFF), Poke(0xFF21, 0x00),
    Poke(0xFF22, 0x00), Poke(0xFF23, 0xBF), Poke(0xFF24, 0x77), Poke(0xFF25, 0xF3),
    Poke(0xFF26, 0xF1), Poke(0xFF40, 0x91), Poke(0xFF42, 0x00), Poke(0xFF43, 0x00),
    Poke(0xFF45, 0x00), Poke(0xFF47, 0xFC), Poke(0xFF48, 0xFF), Poke(0xFF49, 0xFF),
    Poke(0xFF4A, 0x00), Poke(0xFF4B, 0x00), Poke(0xFFFF, 0x00), Poke(0xFF0F, 0x00)]

  function PokeAll(b: Bus, pokes: seq<Poke>): Outcome<Bus>
    decreases |pokes|
  {
    if pokes == [] then Ok(b)
    else
      var b :- Write(b, pokes[0].addr, Known(pokes[0].value), false);
      PokeAll(b, pokes[1..])
  }

  /** The bus just after construction. */
  function PoweredUp(cart: Cartridges.Cart, clocksPerSample: nat): Outcome<Bus> {
    PokeAll(Bus(seq(0x80, _ => UNDEFINED_BYTE), seq(0x2000, _ => UNDEFINED_BYTE), cart, InitialIo(clocksPerSample)), POWER_UP)
  }
}
