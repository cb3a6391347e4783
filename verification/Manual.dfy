/** The instruction set as a programmer's manual gives it: what each opcode byte does, in numbers, with the
    opcode's own bit fields for operands.  Nothing here uses the decoder or the arithmetic unit. */
module Manual {
  import opened Outcomes
  import opened Bits
  import opened CheckedInt
  import opened Registers
  import opened Processor

  // ----- operand fields -----

  /** Registers by their field: B, C, D, E, H, L, (HL), A. */
  function Held(r: CpuRegisters, k: nat): Byte
    requires k < 8 && k != 6
  {
    if k == 0 then r.b else if k == 1 then r.c else if k == 2 then r.d else if k == 3 then r.e
    else if k == 4 then r.h else if k == 5 then r.l else r.a
  }

  function Holding(r: CpuRegisters, k: nat, v: Byte): CpuRegisters
    requires k < 8 && k != 6
  {
    if k == 0 then r.(b := v) else if k == 1 then r.(c := v) else if k == 2 then r.(d := v) else if k == 3 then r.(e := v)
    else if k == 4 then r.(h := v) else if k == 5 then r.(l := v) else r.(a := v)
  }

  /** The number in a pair of bytes, which must both be defined. */
  function Number(high: Byte, low: Byte): Outcome<u16> {
    if high.undefined || low.undefined then Err(UndefinedData) else Ok(0x100 * high.data + low.data)
  }

  function Operand8(t: Machine, k: nat): Outcome<(Byte, Machine)>
    requires k < 8
  {
    if k != 6 then Ok((Held(t.regs, k), t))
    else
      var hl :- Number(t.regs.h, t.regs.l);
      ReadU8(t, hl, false)
  }

  function Result8(t: Machine, k: nat, v: Byte): Outcome<Machine>
    requires k < 8
  {
    if k != 6 then Ok(WithRegs(t, Holding(t.regs, k, v)))
    else
      var hl :- Number(t.regs.h, t.regs.l);
      WriteU8(t, hl, v, false)
  }

  /** BC, DE, HL, SP by their field. */
  function Pair16(r: CpuRegisters, p: nat): Outcome<u16>
    requires p < 4
  {
    if p == 0 then Number(r.b, r.c) else if p == 1 then Number(r.d, r.e) else if p == 2 then Number(r.h, r.l) else Ok(r.sp)
  }

  function WithPair16(r: CpuRegisters, p: nat, n: u16): CpuRegisters
    requires p < 4
  {
    var high, low := Known(n / 0x100), Known(n % 0x100);
    if p == 0 then r.(b := high, c := low) else if p == 1 then r.(d := high, e := low)
    else if p == 2 then r.(h := high, l := low) else r.(sp := n)
  }

  /** NZ, Z, NC, C by their field. */
  predicate Met(cc: nat, f: Flags)
    requires cc < 4
  {
    if cc == 0 then !f.z else if cc == 1 then f.z else if cc == 2 then !f.c else f.c
  }

  /** Code runs from 0x0000-0x7FFF and 0xFF80-0xFFFE. */
  function GoTo(t: Machine, nn: int): Outcome<Machine> {
    if 0 <= nn <= 0x7FFF || 0xFF80 <= nn <= 0xFFFE then Ok(t.(regs := t.regs.(pc := nn))) else Err(PcOutsideProgramMemory)
  }

  /** The byte at the program counter, which then stands behind it. */
  function Next8(t: Machine): Outcome<(u8, Machine)> {
    var u :- GoTo(t, (t.regs.pc + 1) % 0x10000);
    var (v, u) :- ReadU8(u, t.regs.pc, false);
    Ok((v.data, u))
  }

  /** The two bytes at the program counter, low one first; the high one is read first. */
  function Next16(t: Machine): Outcome<(u16, Machine)> {
    var (high, u) :- ReadU8(t, (t.regs.pc + 1) % 0x10000, false);
    var (low, u) :- ReadU8(u, t.regs.pc, false);
    var u :- GoTo(u, (t.regs.pc + 2) % 0x10000);
    Ok((0x100 * high.data + low.data, u))
  }

  function Bit01(b: bool): nat {
    if b then 1 else 0
  }

  // ----- 8-bit arithmetic -----

  /** Rows ADD, ADC, SUB, SBC, AND, XOR, OR, CP. */
  function Accumulated(row: nat, a: u8, v: u8, carry: bool): (u8, Flags)
    requires row < 8
  {
    var c := if row == 1 || row == 3 then Bit01(carry) else 0;
    if row <= 1 then
      var r := (a + v + c) % 0x100;
      (r, Flags(r == 0, false, a % 0x10 + v % 0x10 + c >= 0x10, a + v + c >= 0x100))
    else if row == 4 then (And8(a, v), Flags(And8(a, v) == 0, false, true, false))
    else if row == 5 then (Xor8(a, v), Flags(Xor8(a, v) == 0, false, false, false))
    else if row == 6 then (Or8(a, v), Flags(Or8(a, v) == 0, false, false, false))
    else
      var r := (a - v - c) % 0x100;
      (if row == 7 then a else r, Flags(r == 0, true, a % 0x10 < v % 0x10 + c, a < v + c))
  }

  /** An operation on an undefined byte stops, except that anything AND a defined 0 is 0. */
  function Combine(t: Machine, row: nat, v: Byte): Outcome<Machine>
    requires row < 8
  {
    var a := t.regs.a;
    if (a.undefined || v.undefined) && !(row == 4 && (a == Known(0) || v == Known(0))) then Err(UndefinedData)
    else
      var (r, f) := Accumulated(row, a.data, v.data, t.regs.f.c);
      Ok(WithRegs(t, t.regs.(a := Known(r), f := f)))
  }

  /** INC and DEC leave the carry alone. */
  function Count(t: Machine, k: nat, up: bool): Outcome<Machine>
    requires k < 8
  {
    var (v, t) :- Operand8(t, k);
    if v.undefined then Err(UndefinedData)
    else
      var r := (v.data + (if up then 1 else -1)) % 0x100;
      var f := Flags(r == 0, !up, r % 0x10 == (if up then 0 else 0x0F), t.regs.f.c);
      var t :- Result8(t, k, Known(r));
      Ok(t.(regs := t.regs.(f := f)))
  }

  /** Rows RLC, RRC, RL, RR, SLA, SRA, SWAP, SRL: the byte and the bit that falls out. */
  function Shifted(row: nat, v: u8, carry: bool): (u8, bool)
    requires row < 8
  {
    var top, low := v / 0x80, v % 2;
    if row == 0 then (2 * v % 0x100 + top, top == 1)
    else if row == 1 then (v / 2 + 0x80 * low, low == 1)
    else if row == 2 then (2 * v % 0x100 + Bit01(carry), top == 1)
    else if row == 3 then (v / 2 + 0x80 * Bit01(carry), low == 1)
    else if row == 4 then (2 * v % 0x100, top == 1)
    else if row == 5 then (v / 2 + 0x80 * top, low == 1)
    else if row == 6 then (0x10 * (v % 0x10) + v / 0x10, false)
    else (v / 2, low == 1)
  }

  /** RLCA, RRCA, RLA, RRA: as on the CB page, but Z is cleared. */
  function RotateAccumulator(t: Machine, row: nat): Outcome<Machine>
    requires row < 4
  {
    if t.regs.a.undefined then Err(UndefinedData)
    else
      var (r, out) := Shifted(row, t.regs.a.data, t.regs.f.c);
      Ok(WithRegs(t, t.regs.(a := Known(r), f := Flags(false, false, false, out))))
  }

  /** DAA: 6 for a low digit that is too large or carried, 0x60 for a high one; after a subtraction they are taken off. */
  function Adjust(t: Machine): Outcome<Machine> {
    var a, f := t.regs.a, t.regs.f;
    if a.undefined then Err(UndefinedData)
    else
      var upper := f.c || (!f.n && a.data > 0x99);
      var lower := f.h || (!f.n && a.data % 0x10 > 9);
      var fix := (if upper then 0x60 else 0) + (if lower then 6 else 0);
      var r := (if f.n then a.data - fix else a.data + fix) % 0x100;
      Ok(WithRegs(t, t.regs.(a := Known(r), f := Flags(r == 0, f.n, false, upper))))
  }

  /** DAA, CPL, SCF, CCF. */
  function Settle(t: Machine, y: nat): Outcome<Machine> {
    var f := t.regs.f;
    if y == 4 then Adjust(t)
    else if y == 5 then
      if t.regs.a.undefined then Err(UndefinedData)
      else Ok(WithRegs(t, t.regs.(a := Known(0xFF - t.regs.a.data), f := Flags(f.z, true, true, f.c))))
    else Ok(WithRegs(t, t.regs.(f := Flags(f.z, false, false, if y == 6 then true else !f.c))))
  }

  // ----- 16-bit arithmetic -----

  function Stepped(n: u16, up: bool): u16 {
    (if up then n + 1 else n - 1) % 0x10000
  }

  function AddPair(t: Machine, p: nat): Outcome<Machine>
    requires p < 4
  {
    var t := Spend(t, 1);
    var hl :- Number(t.regs.h, t.regs.l);
    var n :- Pair16(t.regs, p);
    var f := Flags(t.regs.f.z, false, hl % 0x1000 + n % 0x1000 >= 0x1000, hl + n >= 0x10000);
    Ok(WithRegs(t, WithPair16(t.regs, 2, (hl + n) % 0x10000).(f := f)))
  }

  function CountPair(t: Machine, p: nat, up: bool): Outcome<Machine>
    requires p < 4
  {
    var t := Spend(t, 1);
    var n :- Pair16(t.regs, p);
    Ok(WithRegs(t, WithPair16(t.regs, p, Stepped(n, up))))
  }

  /** SP plus a signed byte, into SP or HL. */
  function Offset(t: Machine, p: nat): Outcome<Machine>
    requires p == 2 || p == 3
  {
    var (n, t) :- Next8(t);
    var t := Spend(t, if p == 3 then 2 else 1);
    var signed := if n < 0x80 then n else n - 0x100;
    var sp := t.regs.sp;
    var f := Flags(false, false, sp % 0x10 + n % 0x10 >= 0x10, sp % 0x100 + n >= 0x100);
    Ok(WithRegs(t, WithPair16(t.regs, p, (sp + signed) % 0x10000).(f := f)))
  }

  // ----- loads -----

  /** Between A and a computed address. */
  function AFrom(t: Machine, addr: u16): Outcome<Machine> {
    var (v, t) :- ReadU8(t, addr, false);
    Ok(WithRegs(t, t.regs.(a := v)))
  }

  function ATo(t: Machine, addr: u16): Outcome<Machine> {
    WriteU8(t, addr, t.regs.a, false)
  }

  function Access(t: Machine, load: bool, addr: u16): Outcome<Machine> {
    if load then AFrom(t, addr) else ATo(t, addr)
  }

  /** (BC), (DE), (HL+), (HL-). */
  function Indirect(t: Machine, p: nat, load: bool): Outcome<Machine>
    requires p < 4
  {
    if p < 2 then
      var addr :- Pair16(t.regs, p);
      Access(t, load, addr)
    else
      var hl :- Pair16(t.regs, 2);
      var t :- Access(t, load, hl);
      Ok(WithRegs(t, WithPair16(t.regs, 2, Stepped(hl, p == 2))))
  }

  /** Port access through C, which must be defined. */
  function Port(t: Machine, load: bool): Outcome<Machine> {
    if t.regs.c.undefined then Err(UndefinedData) else Access(t, load, 0xFF00 + t.regs.c.data)
  }

  function HighPage(t: Machine, load: bool): Outcome<Machine> {
    var (n, t) :- Next8(t);
    Access(t, load, 0xFF00 + n)
  }

  function Direct(t: Machine, load: bool): Outcome<Machine> {
    var (nn, t) :- Next16(t);
    Access(t, load, nn)
  }

  function StoreSp(t: Machine): Outcome<Machine> {
    var (nn, t) :- Next16(t);
    var t :- WriteU8(t, nn, Known(t.regs.sp % 0x100), false);
    WriteU8(t, (nn + 1) % 0x10000, Known(t.regs.sp / 0x100), false)
  }

  /** The bytes of BC, DE, HL or AF. */
  function Halves(r: CpuRegisters, p: nat): (Byte, Byte)
    requires p < 4
  {
    if p == 0 then (r.b, r.c) else if p == 1 then (r.d, r.e) else if p == 2 then (r.h, r.l)
    else (r.a, Known(0x80 * Bit01(r.f.z) + 0x40 * Bit01(r.f.n) + 0x20 * Bit01(r.f.h) + 0x10 * Bit01(r.f.c)))
  }

  /** PUSH: half an undefined pair may be pushed, a whole one not. */
  function PushHalves(t: Machine, p: nat): Outcome<Machine>
    requires p < 4
  {
    var sp := (t.regs.sp - 2) % 0x10000;
    var t := WithRegs(Spend(t, 1), t.regs.(sp := sp));
    var (high, low) := Halves(t.regs, p);
    if high.undefined && low.undefined then Err(UndefinedData)
    else
      var t :- WriteU8(t, sp, low, true);
      WriteU8(t, (sp + 1) % 0x10000, high, true)
  }

  /** A pair with new bytes; F takes the upper four bits of a defined byte. */
  function WithHalves(r: CpuRegisters, p: nat, high: Byte, low: Byte): Outcome<CpuRegisters>
    requires p < 4
  {
    if p == 0 then Ok(r.(b := high, c := low)) else if p == 1 then Ok(r.(d := high, e := low))
    else if p == 2 then Ok(r.(h := high, l := low))
    else if low.undefined then Err(UndefinedData)
    else
      var n := low.data;
      Ok(r.(a := high, f := Flags(n / 0x80 % 2 == 1, n / 0x40 % 2 == 1, n / 0x20 % 2 == 1, n / 0x10 % 2 == 1)))
  }

  /** POP: the high byte is read first; a wholly undefined pair stops. */
  function PopHalves(t: Machine, p: nat): Outcome<Machine>
    requires p < 4
  {
    var sp := t.regs.sp;
    var (high, t) :- ReadU8(t, (sp + 1) % 0x10000, true);
    var (low, t) :- ReadU8(t, sp, true);
    if high.undefined && low.undefined then Err(UndefinedData)
    else
      var r :- WithHalves(t.regs, p, high, low);
      Ok(WithRegs(t, r.(sp := (sp + 2) % 0x10000)))
  }

  // ----- the CB page -----

  function OnBitPage(t: Machine): Outcome<Machine> {
    var (arg, t) :- Next8(t);
    var (v, t) :- Operand8(t, arg % 8);
    if v.undefined then Err(UndefinedData)
    else
      var y := arg / 8 % 8;
      if arg < 0x40 then
        var (r, out) := Shifted(y, v.data, t.regs.f.c);
        Result8(t.(regs := t.regs.(f := Flags(r == 0, false, false, out))), arg % 8, Known(r))
      else if arg < 0x80 then Ok(WithRegs(t, t.regs.(f := Flags(!Bit(v.data, y), false, true, t.regs.f.c))))
      else Result8(t, arg % 8, Known(if arg < 0xC0 then Cleared(v.data, y) else Raised(v.data, y)))
  }

  /** v with bit y 0, and with bit y 1. */
  function Cleared(v: u8, y: nat): u8 {
    if Bit(v, y) then Wrap8(v - Exp2(y)) else v
  }

  function Raised(v: u8, y: nat): u8 {
    if Bit(v, y) then v else Wrap8(v + Exp2(y))
  }

  // ----- control -----

  function JumpAbsolute(t: Machine, when: bool): Outcome<Machine> {
    var (nn, t) :- Next16(t);
    if when then GoTo(Spend(t, 1), nn) else Ok(t)
  }

  function JumpAhead(t: Machine, when: bool): Outcome<Machine> {
    var (n, t) :- Next8(t);
    if when then GoTo(Spend(t, 1), (t.regs.pc + (if n < 0x80 then n else n - 0x100)) % 0x10000) else Ok(t)
  }

  /** A call: the return address goes below SP, low byte first, and with both its addresses onto the shadow stack. */
  function CallNumber(t: Machine, nn: u16): Outcome<Machine> {
    var pc, sp := t.regs.pc, (t.regs.sp - 2) % 0x10000;
    var t := WithRegs(Spend(t, 1), t.regs.(sp := sp));
    var t :- WriteU8(t, sp, Known(pc % 0x100), true);
    var t :- WriteU8(t, (sp + 1) % 0x10000, Known(pc / 0x100), true);
    GoTo(t.(pointers := t.pointers + [(sp + 1) % 0x10000, sp], expected := t.expected + [pc]), nn)
  }

  /** The k-th number from the end of a shadow stack, 0 where there is none. */
  function FromEnd(v: seq<u16>, k: nat): u16 {
    if k < |v| then v[|v| - 1 - k] else 0
  }

  function Without(v: seq<u16>, k: nat): seq<u16> {
    if k <= |v| then v[..|v| - k] else []
  }

  /** A return: the frame on the shadow stack must be the two addresses at SP (or there is none and SP is 0),
      and the address in memory the one that was recorded. */
  function ReturnNumber(t: Machine): Outcome<Machine> {
    var sp, low, high := t.regs.sp, FromEnd(t.pointers, 0), FromEnd(t.pointers, 1);
    if high != low + 1 && !(low == 0 && high == 0) then Err(AssertionFailure)
    else if low != sp then Err(CallFrameViolation)
    else
      var expected := FromEnd(t.expected, 0);
      var t := t.(pointers := Without(t.pointers, 2), expected := Without(t.expected, 1));
      var (h, t) :- ReadU8(t, (sp + 1) % 0x10000, false);
      var (l, t) :- ReadU8(t, sp, false);
      if 0x100 * h.data + l.data != expected then Err(ClobberedReturnAddress)
      else GoTo(Spend(t, 1).(regs := t.regs.(sp := (sp + 2) % 0x10000)), expected)
  }

  function CallAbsolute(t: Machine, when: bool): Outcome<Machine> {
    var (nn, t) :- Next16(t);
    if when then CallNumber(t, nn) else Ok(t)
  }

  // ----- opcodes -----

  function Low(t: Machine, op: u8): Outcome<Machine>
    requires op < 0x40
  {
    var y, p := op / 8, op / 0x10;
    if op % 8 == 0 then
      if op == 0x00 || op == 0x10 then Ok(t)
      else if op == 0x08 then StoreSp(t)
      else JumpAhead(t, op == 0x18 || Met(y % 4, t.regs.f))
    else if op % 8 == 1 then
      if y % 2 == 1 then AddPair(t, p)
      else
        var (nn, t) :- Next16(t);
        Ok(WithRegs(t, WithPair16(t.regs, p, nn)))
    else if op % 8 == 2 then Indirect(t, p, y % 2 == 1)
    else if op % 8 == 3 then CountPair(t, p, y % 2 == 0)
    else if op % 8 == 4 then Count(t, y, true)
    else if op % 8 == 5 then Count(t, y, false)
    else if op % 8 == 6 then
      var (n, t) :- Next8(t);
      Result8(t, y, Known(n))
    else if y < 4 then RotateAccumulator(t, y)
    else Settle(t, y)
  }

  function High(t: Machine, op: u8): Outcome<Machine>
    requires op >= 0xC0
  {
    var y, p := op / 8 % 8, op / 0x10 % 4;
    if op % 8 == 0 then
      if op == 0xE0 || op == 0xF0 then HighPage(t, op == 0xF0)
      else if op == 0xE8 || op == 0xF8 then Offset(t, if op == 0xE8 then 3 else 2)
      else if Met(y % 4, t.regs.f) then ReturnNumber(Spend(t, 1)) else Ok(Spend(t, 1))
    else if op % 8 == 1 then
      if y % 2 == 0 then PopHalves(t, p)
      else if op == 0xC9 then ReturnNumber(t)
      else if op == 0xD9 then ReturnNumber(t.(regs := t.regs.(ime := Ime(true, true, true))))
      else if op == 0xE9 then
        var hl :- Number(t.regs.h, t.regs.l);
        GoTo(t, hl)
      else
        var t := Spend(t, 1);
        var hl :- Number(t.regs.h, t.regs.l);
        Ok(WithRegs(t, t.regs.(sp := hl)))
    else if op % 8 == 2 then
      if op == 0xE2 || op == 0xF2 then Port(t, op == 0xF2)
      else if op == 0xEA || op == 0xFA then Direct(t, op == 0xFA)
      else JumpAbsolute(t, Met(y % 4, t.regs.f))
    else if op % 8 == 3 then
      if op == 0xC3 then JumpAbsolute(t, true)
      else if op == 0xCB then OnBitPage(t)
      else if op == 0xF3 || op == 0xFB then Ok(t.(regs := t.regs.(ime := t.regs.ime.(queued := op == 0xFB))))
      else Err(if op == 0xD3 then Trap else if op == 0xE3 then DebugTrap else BadOpcode)
    else if op % 8 == 4 then
      if op < 0xE0 then CallAbsolute(t, Met(y, t.regs.f)) else Err(BadOpcode)
    else if op % 8 == 5 then
      if y % 2 == 0 then PushHalves(t, p) else if op == 0xCD then CallAbsolute(t, true) else Err(BadOpcode)
    else if op % 8 == 6 then
      var (n, t) :- Next8(t);
      Combine(t, y, Known(n))
    else CallNumber(t, 8 * y)
  }

  /** What opcode `op` does to the machine whose program counter stands behind it. */
  function Does(t: Machine, op: u8): Outcome<Machine> {
    if op < 0x40 then Low(t, op)
    else if op == 0x76 then Ok(WithRegs(t, t.regs.(halt := true)))
    else if op < 0x80 then
      var (v, t) :- Operand8(t, op % 8);
      Result8(t, op / 8 % 8, v)
    else if op < 0xC0 then
      var (v, t) :- Operand8(t, op % 8);
      Combine(t, op / 8 % 8, v)
    else High(t, op)
  }

  /** The next instruction. */
  function Step(s: Machine): Outcome<Machine> {
    var (op, t) :- Next8(s);
    Does(t, op)
  }
}
