/** The processor with its sanitiser: every instruction as a function from machine to outcome. */
module Processor {
  import opened Outcomes
  import opened Bits
  import opened CheckedInt
  import opened Registers
  import opened Alu
  import opened AddressBus
  import opened IoBlock

  /** `pointers` holds both addresses of every pushed return address, `expected` the addresses themselves. */
  datatype Machine = Machine(regs: CpuRegisters, bus: Bus, pointers: seq<u16>, expected: seq<u16>)

  function Spend(s: Machine, cycles: nat): Machine {
    s.(bus := s.bus.(io := s.bus.io.(cycle := s.bus.io.cycle + cycles)))
  }

  function WithRegs(s: Machine, regs: CpuRegisters): Machine {
    s.(regs := regs)
  }

  function WithFlags(s: Machine, f: Flags): Machine {
    s.(regs := s.regs.(f := f))
  }

  // ----- checked memory accesses -----

  predicate DmaBlocks(s: Machine, addr: u16) {
    !(0xFF80 <= addr <= 0xFFFE) && InDma(s.bus.io)
  }

  function ReadU8(s: Machine, addr: u16, allowUndefined: bool): Outcome<(Byte, Machine)> {
    var s := Spend(s, 1);
    if DmaBlocks(s, addr) then Err(DmaBusConflict)
    else
      var (v, bus) :- Read(s.bus, addr, false);
      if !allowUndefined && v.undefined then Err(UndefinedData)
      else if addr in s.pointers then Err(ReadingReturnAddress)
      else Ok((v, s.(bus := bus)))
  }

  function ReadU16(s: Machine, addr: u16, allowPartial: bool): Outcome<(Word, Machine)> {
    var (upper, s) :- ReadU8(s, Wrap16(addr + 1), allowPartial);
    var (lower, s) :- ReadU8(s, addr, allowPartial);
    var w := Word(upper, lower);
    if Unusable(w, allowPartial) then Err(UndefinedData) else Ok((w, s))
  }

  /** A word with no defined half is never usable; a half-defined one only where that is allowed. */
  predicate Unusable(w: Word, allowPartial: bool) {
    if allowPartial then w.lower.undefined && w.upper.undefined else w.Undefined()
  }

  function WriteU8(s: Machine, addr: u16, v: Byte, allowUndefined: bool): Outcome<Machine> {
    var s := Spend(s, 1);
    if DmaBlocks(s, addr) then Err(DmaBusConflict)
    else if !allowUndefined && v.undefined then Err(UndefinedData)
    else if addr in s.pointers then Err(ClobberedReturnAddress)
    else
      var bus :- Write(s.bus, addr, v, false);
      Ok(s.(bus := bus))
  }

  function WriteU16(s: Machine, addr: u16, w: Word, allowPartial: bool): Outcome<Machine> {
    if Unusable(w, allowPartial) then Err(UndefinedData)
    else
      var s :- WriteU8(s, addr, w.lower, allowPartial);
      WriteU8(s, Wrap16(addr + 1), w.upper, allowPartial)
  }

  function Fetch8(s: Machine): Outcome<(u8, Machine)> {
    var pc := s.regs.pc;
    var regs :- SetPc(s.regs, Wrap16(pc + 1));
    var (v, s) :- ReadU8(WithRegs(s, regs), pc, false);
    var n :- Decay(v);
    Ok((n, s))
  }

  function Fetch16(s: Machine): Outcome<(u16, Machine)> {
    var (w, s) :- ReadU16(s, s.regs.pc, false);
    var regs :- SetPc(s.regs, Wrap16(s.regs.pc + 2));
    var n :- DecayWord(w);
    Ok((n, WithRegs(s, regs)))
  }

  // ----- register operands, where (HL), (BC) and (DE) go to memory -----

  function ReadPointer(s: Machine, which: R16): Outcome<(Byte, Machine)> {
    var addr :- DecayWord(GetWord(s.regs, which));
    ReadU8(s, addr, false)
  }

  function WritePointer(s: Machine, which: R16, v: Byte): Outcome<Machine> {
    var addr :- DecayWord(GetWord(s.regs, which));
    WriteU8(s, addr, v, false)
  }

  function GetReg(s: Machine, r: R8): Outcome<(Byte, Machine)> {
    match r
    case A => Ok((s.regs.a, s))
    case B => Ok((s.regs.b, s))
    case C => Ok((s.regs.c, s))
    case D => Ok((s.regs.d, s))
    case E => Ok((s.regs.e, s))
    case H => Ok((s.regs.h, s))
    case L => Ok((s.regs.l, s))
    case HL_ptr => ReadPointer(s, HL)
    case BC_ptr => ReadPointer(s, BC)
    case DE_ptr => ReadPointer(s, DE)
  }

  function SetReg(s: Machine, r: R8, v: Byte): Outcome<Machine> {
    match r
    case A => Ok(WithRegs(s, s.regs.(a := v)))
    case B => Ok(WithRegs(s, s.regs.(b := v)))
    case C => Ok(WithRegs(s, s.regs.(c := v)))
    case D => Ok(WithRegs(s, s.regs.(d := v)))
    case E => Ok(WithRegs(s, s.regs.(e := v)))
    case H => Ok(WithRegs(s, s.regs.(h := v)))
    case L => Ok(WithRegs(s, s.regs.(l := v)))
    case HL_ptr => WritePointer(s, HL, v)
    case BC_ptr => WritePointer(s, BC, v)
    case DE_ptr => WritePointer(s, DE, v)
  }

  function SetReg16(s: Machine, r: R16, w: Word): Outcome<Machine> {
    var regs :- SetWord(s.regs, r, w);
    Ok(WithRegs(s, regs))
  }

  // ----- the instruction set -----

  datatype Condition = Condition(carry: bool, wanted: bool) {
    predicate Holds(f: Flags) {
      (if carry then f.c else f.z) == wanted
    }
  }

  datatype Instruction =
    | LD_r_n(r: R8)
    | LD_r_nn(r: R8)
    | LD_r1_r2(dst: R8, src: R8)
    | LD_r_A(r: R8)
    | LD_nn_A
    | LD_A_C
    | LD_C_A
    | LDD_A_HL
    | LDD_HL_A
    | LDI_A_HL
    | LDI_HL_A
    | LDH_n_A
    | LDH_A_n
    | LD16_n_nn(rr: R16)
    | LD16_SP_HL
    | LDHL_SP_n
    | LD_nn_SP
    | PUSH(rr: R16)
    | POP(rr: R16)
    | ALU_r(op: AluOp, r: R8)
    | ALU_n(op: AluOp)
    | INC_r(r: R8)
    | DEC_r(r: R8)
    | ADD16_HL_n(rr: R16)
    | ADD16_SP_n
    | INC16_nn(rr: R16)
    | DEC16_nn(rr: R16)
    | DAA
    | CPL
    | CCF
    | SCF
    | NOP
    | HALT
    | STOP
    | DI
    | EI
    | PREFIX
    | ROT_A(shift: ShiftOp)
    | JP_nn
    | JP_cc_nn(cc: Condition)
    | JP_HL
    | JR_n
    | JR_cc_n(cc: Condition)
    | CALL_nn
    | CALL_cc_nn(cc: Condition)
    | RST_n(n: u8)
    | RET
    | RET_cc(cc: Condition)
    | RETI
    | TRAP
    | DEBUG_TRAP
    | BAD

  datatype BitInstruction =
    | SHIFT(shift: ShiftOp, r: R8)
    | BIT_b_r(b: nat, r: R8)
    | RES_b_r(b: nat, r: R8)
    | SET_b_r(b: nat, r: R8)

  function Operand(i: int): R8 {
    match i % 8
    case 0 => B
    case 1 => C
    case 2 => D
    case 3 => E
    case 4 => H
    case 5 => L
    case 6 => HL_ptr
    case _ => A
  }

  function Pair(i: int): R16 {
    match i % 4
    case 0 => BC
    case 1 => DE
    case 2 => HL
    case _ => SP
  }

  function PushPair(i: int): R16 {
    match i % 4
    case 0 => BC
    case 1 => DE
    case 2 => HL
    case _ => AF
  }

  function AluOperation(i: int): AluOp {
    match i % 8
    case 0 => ADD
    case 1 => ADC
    case 2 => SUB
    case 3 => SBC
    case 4 => AND
    case 5 => XOR
    case 6 => OR
    case _ => CP
  }

  function ShiftOperation(i: int): ShiftOp {
    match i % 8
    case 0 => RLC
    case 1 => RRC
    case 2 => RL
    case 3 => RR
    case 4 => SLA
    case 5 => SRA
    case 6 => SWAP
    case _ => SRL
  }

  function ConditionCode(i: int): Condition {
    match i % 4
    case 0 => Condition(false, false)
    case 1 => Condition(false, true)
    case 2 => Condition(true, false)
    case _ => Condition(true, true)
  }

  /** Opcodes 0x00-0x3F. */
  function DecodeLow(op: u8): Instruction
    requires op < 0x40
  {
    match op % 8
    case 0 =>
      (match op
       case 0x00 => NOP
       case 0x08 => LD_nn_SP
       case 0x10 => STOP
       case 0x18 => JR_n
       case _ => JR_cc_n(ConditionCode(op / 8)))
    case 1 => if op / 8 % 2 == 0 then LD16_n_nn(Pair(op / 0x10)) else ADD16_HL_n(Pair(op / 0x10))
    case 2 =>
      (match op
       case 0x02 => LD_r_A(BC_ptr)
       case 0x0A => LD_r1_r2(A, BC_ptr)
       case 0x12 => LD_r_A(DE_ptr)
       case 0x1A => LD_r1_r2(A, DE_ptr)
       case 0x22 => LDI_HL_A
       case 0x2A => LDI_A_HL
       case 0x32 => LDD_HL_A
       case _ => LDD_A_HL)
    case 3 => if op / 8 % 2 == 0 then INC16_nn(Pair(op / 0x10)) else DEC16_nn(Pair(op / 0x10))
    case 4 => INC_r(Operand(op / 8))
    case 5 => DEC_r(Operand(op / 8))
    case 6 => LD_r_n(Operand(op / 8))
    case _ =>
      (match op
       case 0x27 => DAA
       case 0x2F => CPL
       case 0x37 => SCF
       case 0x3F => CCF
       case _ => ROT_A(ShiftOperation(op / 8)))
  }

  /** Opcodes 0xC0-0xFF. */
  function DecodeHigh(op: u8): Instruction
    requires op >= 0xC0
  {
    match op % 8
    case 0 =>
      (match op
       case 0xE0 => LDH_n_A
       case 0xE8 => ADD16_SP_n
       case 0xF0 => LDH_A_n
       case 0xF8 => LDHL_SP_n
       case _ => RET_cc(ConditionCode(op / 8)))
    case 1 =>
      (match op
       case 0xC9 => RET
       case 0xD9 => RETI
       case 0xE9 => JP_HL
       case 0xF9 => LD16_SP_HL
       case _ => POP(PushPair(op / 0x10)))
    case 2 =>
      (match op
       case 0xE2 => LD_C_A
       case 0xEA => LD_nn_A
       case 0xF2 => LD_A_C
       case 0xFA => LD_r_nn(A)
       case _ => JP_cc_nn(ConditionCode(op / 8)))
    case 3 =>
      (match op
       case 0xC3 => JP_nn
       case 0xCB => PREFIX
       case 0xF3 => DI
       case 0xFB => EI
       case 0xD3 => TRAP
       case 0xE3 => DEBUG_TRAP
       case _ => BAD)
    case 4 => if op < 0xE0 then CALL_cc_nn(ConditionCode(op / 8)) else BAD
    case 5 => if op == 0xCD then CALL_nn else if op / 8 % 2 == 0 then PUSH(PushPair(op / 0x10)) else BAD
    case 6 => ALU_n(AluOperation(op / 8))
    case _ => RST_n(op - 0xC7)
  }

  function Decode(op: u8): Instruction {
    if op < 0x40 then DecodeLow(op)
    else if op == 0x76 then HALT
    else if op < 0x80 then
      if op % 8 == 7 && op != 0x7F then LD_r_A(Operand(op / 8)) else LD_r1_r2(Operand(op / 8), Operand(op))
    else if op < 0xC0 then ALU_r(AluOperation(op / 8), Operand(op))
    else DecodeHigh(op)
  }

  function DecodeBit(arg: u8): BitInstruction {
    if arg < 0x40 then SHIFT(ShiftOperation(arg / 8), Operand(arg))
    else if arg < 0x80 then BIT_b_r((arg - 0x40) / 8, Operand(arg))
    else if arg < 0xC0 then RES_b_r((arg - 0x80) / 8, Operand(arg))
    else SET_b_r((arg - 0xC0) / 8, Operand(arg))
  }

  // ----- loads -----

  function LoadImmediate(s: Machine, r: R8): Outcome<Machine> {
    var (n, s) :- Fetch8(s);
    SetReg(s, r, Known(n))
  }

  function LoadAbsolute(s: Machine, r: R8): Outcome<Machine> {
    var (nn, s) :- Fetch16(s);
    var (v, s) :- ReadU8(s, nn, false);
    SetReg(s, r, v)
  }

  function LoadRegister(s: Machine, dst: R8, src: R8): Outcome<Machine> {
    var (v, s) :- GetReg(s, src);
    SetReg(s, dst, v)
  }

  function StoreAbsolute(s: Machine): Outcome<Machine> {
    var (nn, s) :- Fetch16(s);
    WriteU8(s, nn, s.regs.a, false)
  }

  function LoadA(s: Machine, addr: u16): Outcome<Machine> {
    var (v, s) :- ReadU8(s, addr, false);
    SetReg(s, A, v)
  }

  function LoadFromPort(s: Machine): Outcome<Machine> {
    var addr :- DecayWord(Word(Known(0xFF), s.regs.c));
    LoadA(s, addr)
  }

  function StoreToPort(s: Machine): Outcome<Machine> {
    var addr :- DecayWord(Word(Known(0xFF), s.regs.c));
    WriteU8(s, addr, s.regs.a, false)
  }

  /** HL moved by one, free of charge. */
  function Moved(hl: Word, up: bool): Outcome<Word> {
    if up then AddWord(hl, KnownWord(1)) else SubWord(hl, KnownWord(1))
  }

  function LoadAndMove(s: Machine, up: bool): Outcome<Machine> {
    var hl := GetWord(s.regs, HL);
    var addr :- DecayWord(hl);
    var s :- LoadA(s, addr);
    var hl' :- Moved(hl, up);
    SetReg16(s, HL, hl')
  }

  function StoreAndMove(s: Machine, up: bool): Outcome<Machine> {
    var hl := GetWord(s.regs, HL);
    var addr :- DecayWord(hl);
    var s :- WriteU8(s, addr, s.regs.a, false);
    var hl' :- Moved(hl, up);
    SetReg16(s, HL, hl')
  }

  function StoreHighPage(s: Machine): Outcome<Machine> {
    var (n, s) :- Fetch8(s);
    WriteU8(s, 0xFF00 + n, s.regs.a, false)
  }

  function LoadHighPage(s: Machine): Outcome<Machine> {
    var (n, s) :- Fetch8(s);
    LoadA(s, 0xFF00 + n)
  }

  function LoadPair(s: Machine, rr: R16): Outcome<Machine> {
    var (nn, s) :- Fetch16(s);
    SetReg16(s, rr, KnownWord(nn))
  }

  function LoadSp(s: Machine): Outcome<Machine> {
    var s := Spend(s, 1);
    SetReg16(s, SP, GetWord(s.regs, HL))
  }

  function StoreSp(s: Machine): Outcome<Machine> {
    var (nn, s) :- Fetch16(s);
    WriteU16(s, nn, GetWord(s.regs, SP), false)
  }

  /** SP plus a signed immediate. */
  function OffsetSp(s: Machine, n: u8): Outcome<(Word, Machine)> {
    var s := Spend(s, 1);
    var r :- AddSigned(GetWord(s.regs, SP), Known(n));
    Ok((r.value, WithFlags(s, r.f)))
  }

  function LoadHlFromSp(s: Machine): Outcome<Machine> {
    var (n, s) :- Fetch8(s);
    var (w, s) :- OffsetSp(s, n);
    SetReg16(s, HL, w)
  }

  function AddToSp(s: Machine): Outcome<Machine> {
    var (n, s) :- Fetch8(s);
    var (w, s) :- OffsetSp(Spend(s, 1), n);
    SetReg16(s, SP, w)
  }

  function Push(s: Machine, rr: R16): Outcome<Machine> {
    var s := Spend(s, 1);
    var s := WithRegs(s, s.regs.(sp := Wrap16(s.regs.sp - 2)));
    WriteU16(s, s.regs.sp, GetWord(s.regs, rr), true)
  }

  function Pop(s: Machine, rr: R16): Outcome<Machine> {
    var (w, s) :- ReadU16(s, s.regs.sp, true);
    var s :- SetReg16(s, rr, w);
    Ok(WithRegs(s, s.regs.(sp := Wrap16(s.regs.sp + 2))))
  }

  // ----- arithmetic -----

  function Accumulate(s: Machine, op: AluOp, n: Byte): Outcome<Machine> {
    var r :- Operate(op, s.regs.a, n, s.regs.f.c);
    Ok(WithRegs(s, s.regs.(a := r.value, f := r.f)))
  }

  function AccumulateRegister(s: Machine, op: AluOp, r: R8): Outcome<Machine> {
    var (n, s) :- GetReg(s, r);
    Accumulate(s, op, n)
  }

  function AccumulateImmediate(s: Machine, op: AluOp): Outcome<Machine> {
    var (n, s) :- Fetch8(s);
    Accumulate(s, op, Known(n))
  }

  function Bump(s: Machine, r: R8, up: bool): Outcome<Machine> {
    var (v, s) :- GetReg(s, r);
    var result :- if up then Increment(v, s.regs.f) else Decrement(v, s.regs.f);
    var s :- SetReg(s, r, result.value);
    Ok(WithFlags(s, result.f))
  }

  function AddToHl(s: Machine, rr: R16): Outcome<Machine> {
    var s := Spend(s, 1);
    var r :- AddWords(GetWord(s.regs, HL), GetWord(s.regs, rr), s.regs.f);
    SetReg16(WithFlags(s, r.f), HL, r.value)
  }

  function BumpPair(s: Machine, rr: R16, up: bool): Outcome<Machine> {
    var s := Spend(s, 1);
    var w :- Moved(GetWord(s.regs, rr), up);
    SetReg16(s, rr, w)
  }

  function AdjustA(s: Machine): Outcome<Machine> {
    var r :- DecimalAdjust(s.regs.a, s.regs.f);
    Ok(WithRegs(s, s.regs.(a := r.value, f := r.f)))
  }

  function ComplementA(s: Machine): Outcome<Machine> {
    var a :- Not(s.regs.a);
    Ok(WithRegs(s, s.regs.(a := a, f := s.regs.f.(n := true, h := true))))
  }

  function RotateA(s: Machine, op: ShiftOp): Outcome<Machine> {
    var r :- RotateAccumulator(op, s.regs.a, s.regs.f);
    Ok(WithRegs(s, s.regs.(a := r.value, f := r.f)))
  }

  // ----- the CB page -----

  function ShiftRegister(s: Machine, op: ShiftOp, r: R8): Outcome<Machine> {
    var (v, s) :- GetReg(s, r);
    var result :- Shift(op, v, s.regs.f);
    SetReg(WithFlags(s, result.f), r, result.value)
  }

  function ProbeBit(s: Machine, b: nat, r: R8): Outcome<Machine> {
    var (v, s) :- GetReg(s, r);
    var f :- TestBit(v, b, s.regs.f);
    Ok(WithFlags(s, f))
  }

  function AssignBit(s: Machine, b: nat, r: R8, on: bool): Outcome<Machine> {
    var (v, s) :- GetReg(s, r);
    var v' :- if on then SetBit(v, b) else ResetBit(v, b);
    SetReg(s, r, v')
  }

  function ExecuteBit(s: Machine, i: BitInstruction): Outcome<Machine> {
    match i
    case SHIFT(op, r) => ShiftRegister(s, op, r)
    case BIT_b_r(b, r) => ProbeBit(s, b, r)
    case RES_b_r(b, r) => AssignBit(s, b, r, false)
    case SET_b_r(b, r) => AssignBit(s, b, r, true)
  }

  function ExecutePrefixed(s: Machine): Outcome<Machine> {
    var (arg, s) :- Fetch8(s);
    ExecuteBit(s, DecodeBit(arg))
  }

  // ----- control flow -----

  function JumpTo(s: Machine, nn: u16): Outcome<Machine> {
    var s := Spend(s, 1);
    var regs :- SetPc(s.regs, nn);
    Ok(WithRegs(s, regs))
  }

  function Jump(s: Machine, cc: Option<Condition>): Outcome<Machine> {
    var (nn, s) :- Fetch16(s);
    if cc.Some? && !cc.value.Holds(s.regs.f) then Ok(s) else JumpTo(s, nn)
  }

  function JumpRelative(s: Machine, cc: Option<Condition>): Outcome<Machine> {
    var (n, s) :- Fetch8(s);
    if cc.Some? && !cc.value.Holds(s.regs.f) then Ok(s) else JumpTo(s, Wrap16(s.regs.pc + Signed8(n)))
  }

  function JumpHl(s: Machine): Outcome<Machine> {
    SetReg16(s, PC, GetWord(s.regs, HL))
  }

  /** Pushes the return address, records it on the shadow stack, and jumps. */
  function CallTo(s: Machine, nn: u16): Outcome<Machine> {
    var s :- Push(s, PC);
    var s := s.(expected := s.expected + [s.regs.pc],
                pointers := s.pointers + [Wrap16(s.regs.sp + 1), s.regs.sp]);
    var regs :- SetPc(s.regs, nn);
    Ok(WithRegs(s, regs))
  }

  function Call(s: Machine, cc: Option<Condition>): Outcome<Machine> {
    var (nn, s) :- Fetch16(s);
    if cc.Some? && !cc.value.Holds(s.regs.f) then Ok(s) else CallTo(s, nn)
  }

  function Last(v: seq<u16>): u16 {
    if v == [] then 0 else v[|v| - 1]
  }

  function DropLast(v: seq<u16>): seq<u16> {
    if v == [] then [] else v[..|v| - 1]
  }

  function Return(s: Machine): Outcome<Machine> {
    var low := Last(s.pointers);
    var s := s.(pointers := DropLast(s.pointers));
    var high := Last(s.pointers);
    var s := s.(pointers := DropLast(s.pointers));
    if !(high == low + 1 || (low == 0 && high == 0)) then Err(AssertionFailure)
    else if low != s.regs.sp then Err(CallFrameViolation)
    else
      var expected := Last(s.expected);
      var s := s.(expected := DropLast(s.expected));
      var (w, s) :- ReadU16(s, s.regs.sp, false);
      var actual :- DecayWord(w);
      if expected != actual then Err(ClobberedReturnAddress)
      else JumpTo(WithRegs(s, s.regs.(sp := Wrap16(s.regs.sp + 2))), actual)
  }

  function ReturnIf(s: Machine, cc: Condition): Outcome<Machine> {
    var s := Spend(s, 1);
    if cc.Holds(s.regs.f) then Return(s) else Ok(s)
  }

  function WithIme(s: Machine, ime: Ime): Machine {
    s.(regs := s.regs.(ime := ime))
  }

  function ReturnFromInterrupt(s: Machine): Outcome<Machine> {
    Return(WithIme(s, Ime(true, true, true)))
  }

  // ----- families of instructions -----

  predicate IsLoad(i: Instruction) {
    i.LD_r_n? || i.LD_r_nn? || i.LD_r1_r2? || i.LD_r_A? || i.LD_nn_A? || i.LD_A_C? || i.LD_C_A? ||
    i.LDD_A_HL? || i.LDD_HL_A? || i.LDI_A_HL? || i.LDI_HL_A? || i.LDH_n_A? || i.LDH_A_n?
  }

  predicate IsStackOrPair(i: Instruction) {
    i.LD16_n_nn? || i.LD16_SP_HL? || i.LDHL_SP_n? || i.LD_nn_SP? || i.PUSH? || i.POP? ||
    i.ADD16_HL_n? || i.ADD16_SP_n? || i.INC16_nn? || i.DEC16_nn?
  }

  predicate IsOperation(i: Instruction) {
    i.ALU_r? || i.ALU_n? || i.INC_r? || i.DEC_r?
  }

  predicate IsRegisterOnly(i: Instruction) {
    i.DAA? || i.CPL? || i.CCF? || i.SCF? || i.ROT_A? || i.NOP? || i.STOP? || i.HALT?
  }

  predicate IsJump(i: Instruction) {
    i.JP_nn? || i.JP_cc_nn? || i.JP_HL? || i.JR_n? || i.JR_cc_n?
  }

  /** Calls and returns, which have lemmas of their own, and the interrupt switches. */
  predicate IsControl(i: Instruction) {
    i.CALL_nn? || i.CALL_cc_nn? || i.RST_n? || i.RET? || i.RET_cc? || i.RETI? || i.DI? || i.EI?
  }

  /** Instructions that leave the shadow stack and the interrupt-enable line alone. */
  function ExecutePlain(s: Machine, i: Instruction): Outcome<Machine> {
    match i
    case LD_r_n(r) => LoadImmediate(s, r)
    case LD_r_nn(r) => LoadAbsolute(s, r)
    case LD_r1_r2(dst, src) => LoadRegister(s, dst, src)
    case LD_r_A(r) => SetReg(s, r, s.regs.a)
    case LD_nn_A => StoreAbsolute(s)
    case LD_A_C => LoadFromPort(s)
    case LD_C_A => StoreToPort(s)
    case LDD_A_HL => LoadAndMove(s, false)
    case LDD_HL_A => StoreAndMove(s, false)
    case LDI_A_HL => LoadAndMove(s, true)
    case LDI_HL_A => StoreAndMove(s, true)
    case LDH_n_A => StoreHighPage(s)
    case LDH_A_n => LoadHighPage(s)
    case LD16_n_nn(rr) => LoadPair(s, rr)
    case LD16_SP_HL => LoadSp(s)
    case LDHL_SP_n => LoadHlFromSp(s)
    case LD_nn_SP => StoreSp(s)
    case PUSH(rr) => Push(s, rr)
    case POP(rr) => Pop(s, rr)
    case ALU_r(op, r) => AccumulateRegister(s, op, r)
    case ALU_n(op) => AccumulateImmediate(s, op)
    case INC_r(r) => Bump(s, r, true)
    case DEC_r(r) => Bump(s, r, false)
    case ADD16_HL_n(rr) => AddToHl(s, rr)
    case ADD16_SP_n => AddToSp(s)
    case INC16_nn(rr) => BumpPair(s, rr, true)
    case DEC16_nn(rr) => BumpPair(s, rr, false)
    case DAA => AdjustA(s)
    case CPL => ComplementA(s)
    case CCF => Ok(WithFlags(s, s.regs.f.(n := false, h := false, c := !s.regs.f.c)))
    case SCF => Ok(WithFlags(s, s.regs.f.(n := false, h := false, c := true)))
    case HALT => Ok(WithRegs(s, s.regs.(halt := true)))
    case PREFIX => ExecutePrefixed(s)
    case ROT_A(op) => RotateA(s, op)
    case JP_nn => Jump(s, None)
    case JP_cc_nn(cc) => Jump(s, Some(cc))
    case JP_HL => JumpHl(s)
    case JR_n => JumpRelative(s, None)
    case JR_cc_n(cc) => JumpRelative(s, Some(cc))
    case TRAP => Err(Trap)
    case DEBUG_TRAP => Err(DebugTrap)
    case BAD => Err(BadOpcode)
    case _ => Ok(s)  // NOP and STOP
  }

  function Execute(s: Machine, i: Instruction): Outcome<Machine> {
    match i
    case DI => Ok(WithIme(s, s.regs.ime.(queued := false)))
    case EI => Ok(WithIme(s, s.regs.ime.(queued := true)))
    case CALL_nn => Call(s, None)
    case CALL_cc_nn(cc) => Call(s, Some(cc))
    case RST_n(n) => CallTo(s, n)
    case RET => Return(s)
    case RET_cc(cc) => ReturnIf(s, cc)
    case RETI => ReturnFromInterrupt(s)
    case _ => ExecutePlain(s, i)
  }

  function ProcessNextInstruction(s: Machine): Outcome<Machine> {
    var (op, s) :- Fetch8(s);
    Execute(s, Decode(op))
  }

  // ----- interrupts and the clock -----

  /** What reading 0xFFFF returns. */
  function Enabled(b: Bus): Byte {
    b.stack[0x7F]
  }

  /** What reading 0xFF0F returns. */
  function Requested(b: Bus): Byte {
    Known(b.io.memory[0x0F])
  }

  lemma InterruptRegisters(b: Bus)
    ensures Read(b, 0xFFFF, false) == Ok((Enabled(b), b))
    ensures Read(b, 0xFF0F, false) == Ok((Requested(b), b))
  {
  }

  /** The enabled and requested interrupts. */
  function Triggered(s: Machine): (r: Outcome<u8>)
    ensures r.Ok? ==> r.value <= 0x1F
  {
    var both :- And(Enabled(s.bus), Requested(s.bus));
    var masked :- And(both, Known(0x1F));
    Decay(masked)
  }

  function LowestBit(t: nat): nat
    requires t > 0
  {
    if t % 2 == 1 then 0 else 1 + LowestBit(t / 2)
  }

  /** Acknowledges interrupt `bit` and calls its handler. */
  function Dispatch(s: Machine, bit: nat): Outcome<Machine>
    requires bit < 5
  {
    var s := WithIme(s, Ime(false, false, false));
    var remaining :- Xor(Requested(s.bus), Known(Shl8(1, bit)));
    var bus :- Write(s.bus, 0xFF0F, remaining, false);
    CallTo(s.(bus := bus), 0x40 + 8 * bit)
  }

  lemma {:induction false} LowestBitBound(t: nat, n: nat)
    requires 0 < t < Exp2(n)
    ensures LowestBit(t) < n
    decreases n
  {
    if t % 2 == 0 {
      LowestBitBound(t / 2, n - 1);
    }
  }

  function HandleInterrupts(s: Machine): Outcome<Machine> {
    var triggered :- Triggered(s);
    if triggered == 0 then Ok(s)
    else
      var s := WithRegs(s, s.regs.(halt := false));
      if !s.regs.ime.now then Ok(s)
      else
        LowestBitBound(triggered, 5);
        Dispatch(s, LowestBit(triggered))
  }

  function ShiftIme(s: Machine): Machine {
    WithIme(s, Ime(s.regs.ime.next, s.regs.ime.queued, s.regs.ime.queued))
  }

  function Clock(s: Machine): Outcome<Machine> {
    var s :- HandleInterrupts(s);
    if s.regs.halt then Ok(Spend(s, 1))
    else
      var s :- ProcessNextInstruction(s);
      Ok(ShiftIme(s))
  }
}
