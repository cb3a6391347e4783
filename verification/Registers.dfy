/** The register file. */
module Registers {
  import opened Outcomes
  import opened Bits
  import opened CheckedInt

  /** F as its four flags: its low nibble is zero at construction and every assignment masks it. */
  datatype Flags = Flags(z: bool, n: bool, h: bool, c: bool) {
    function ToByte(): u8 {
      (if z then 0x80 else 0) + (if n then 0x40 else 0) + (if h then 0x20 else 0) + (if c then 0x10 else 0)
    }

    /** The flags of a byte, dropping its low nibble. */
    static function FromByte(b: u8): Flags {
      Flags(b / 0x80 % 2 == 1, b / 0x40 % 2 == 1, b / 0x20 % 2 == 1, b / 0x10 % 2 == 1)
    }
  }

  datatype R8 = A | B | C | D | E | H | L | HL_ptr | BC_ptr | DE_ptr
  datatype R16 = AF | BC | DE | HL | SP | PC

  /** Three queued interrupt-enable values; `now` is the one that counts. */
  datatype Ime = Ime(now: bool, next: bool, queued: bool)

  datatype CpuRegisters = CpuRegisters(
    a: Byte, f: Flags, b: Byte, c: Byte, d: Byte, e: Byte, h: Byte, l: Byte,
    sp: u16, pc: u16, halt: bool, ime: Ime)

  const INITIAL_REGISTERS := CpuRegisters(
    Known(0x01), Flags.FromByte(0xB0), Known(0x00), Known(0x13), Known(0x00), Known(0xD8), Known(0x01), Known(0x4D),
    0xFFFE, 0x0100, false, Ime(true, true, true))

  /** Code may only run from ROM and from high RAM. */
  predicate ValidPc(pc: int) {
    0 <= pc <= 0x7FFF || 0xFF80 <= pc <= 0xFFFE
  }

  function GetWord(r: CpuRegisters, which: R16): Word {
    match which
    case AF => Word(r.a, Known(r.f.ToByte()))
    case BC => Word(r.b, r.c)
    case DE => Word(r.d, r.e)
    case HL => Word(r.h, r.l)
    case SP => KnownWord(r.sp)
    case PC => KnownWord(r.pc)
  }

  function SetPc(r: CpuRegisters, value: u16): Outcome<CpuRegisters> {
    if ValidPc(value) then Ok(r.(pc := value)) else Err(PcOutsideProgramMemory)
  }

  function SetWord(r: CpuRegisters, which: R16, w: Word): Outcome<CpuRegisters> {
    match which
    case AF =>
      var f :- And(w.lower, Known(0xF0));
      Ok(r.(a := w.upper, f := Flags.FromByte(f.data)))
    case BC => Ok(r.(b := w.upper, c := w.lower))
    case DE => Ok(r.(d := w.upper, e := w.lower))
    case HL => Ok(r.(h := w.upper, l := w.lower))
    case SP =>
      var sp :- DecayWord(w);
      Ok(r.(sp := sp))
    case PC =>
      var pc :- DecayWord(w);
      SetPc(r, pc)
  }
}
