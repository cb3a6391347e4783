/** Strict mode never lets an undefined payload decide anything: machines that differ only in the
    payloads of undefined bytes stay that way, and stop with the same error if they stop. */
module Noninterference {
  import opened Outcomes
  import opened Bits
  import opened CheckedInt
  import opened Registers
  import opened Alu
  import opened AddressBus
  import opened IoBlock
  import Picture
  import Cartridges
  import opened Processor

  // ----- machines that agree on everything defined -----

  predicate Alike(a: Byte, b: Byte) {
    a.undefined == b.undefined && (!a.undefined ==> a.data == b.data)
  }

  predicate AlikeWord(a: Word, b: Word) {
    Alike(a.upper, b.upper) && Alike(a.lower, b.lower)
  }

  predicate AlikeBytes(s: seq<Byte>, t: seq<Byte>) {
    |s| == |t| && forall i :: 0 <= i < |s| ==> Alike(s[i], t[i])
  }

  predicate AlikeRegs(r: CpuRegisters, q: CpuRegisters) {
    && Alike(r.a, q.a) && Alike(r.b, q.b) && Alike(r.c, q.c) && Alike(r.d, q.d)
    && Alike(r.e, q.e) && Alike(r.h, q.h) && Alike(r.l, q.l)
    && r.f == q.f && r.sp == q.sp && r.pc == q.pc && r.halt == q.halt && r.ime == q.ime
  }

  predicate AlikeCart(c: Cartridges.Cart, d: Cartridges.Cart) {
    if c.RomOnly? then c == d
    else d.Mbc1? && AlikeBytes(c.ram, d.ram) && c == d.(ram := c.ram)
  }

  predicate AlikeBus(b: Bus, d: Bus) {
    AlikeBytes(b.stack, d.stack) && AlikeBytes(b.wram, d.wram) && AlikeCart(b.cart, d.cart) && b.io == d.io
  }

  predicate AlikeMachine(s: Machine, t: Machine) {
    AlikeRegs(s.regs, t.regs) && AlikeBus(s.bus, t.bus) && s.pointers == t.pointers && s.expected == t.expected
  }

  predicate AlikeCartOutcome(o: Outcome<Cartridges.Cart>, p: Outcome<Cartridges.Cart>) {
    match o
    case Ok(c) => p.Ok? && AlikeCart(c, p.value)
    case Err(_) => o == p
  }

  predicate AlikeBusOutcome(o: Outcome<Bus>, p: Outcome<Bus>) {
    match o
    case Ok(b) => p.Ok? && AlikeBus(b, p.value)
    case Err(_) => o == p
  }

  predicate AlikeOutcome(o: Outcome<Machine>, p: Outcome<Machine>) {
    match o
    case Ok(s) => p.Ok? && AlikeMachine(s, p.value)
    case Err(_) => o == p
  }

  predicate AlikeBusRead(o: Outcome<(Byte, Bus)>, p: Outcome<(Byte, Bus)>) {
    match o
    case Ok((v, b)) => p.Ok? && Alike(v, p.value.0) && AlikeBus(b, p.value.1)
    case Err(e) => p == Err(e)
  }

  predicate AlikeRead(o: Outcome<(Byte, Machine)>, p: Outcome<(Byte, Machine)>) {
    match o
    case Ok((v, s)) => p.Ok? && Alike(v, p.value.0) && AlikeMachine(s, p.value.1)
    case Err(e) => p == Err(e)
  }

  predicate AlikeWordRead(o: Outcome<(Word, Machine)>, p: Outcome<(Word, Machine)>) {
    match o
    case Ok((v, s)) => p.Ok? && AlikeWord(v, p.value.0) && AlikeMachine(s, p.value.1)
    case Err(e) => p == Err(e)
  }

  /** A fetched number is defined, so it is the same number. */
  predicate AlikeFetch<T(==)>(o: Outcome<(T, Machine)>, p: Outcome<(T, Machine)>) {
    match o
    case Ok((v, s)) => p.Ok? && v == p.value.0 && AlikeMachine(s, p.value.1)
    case Err(e) => p == Err(e)
  }

  // ----- the arithmetic unit: alike operands give identical results -----

  lemma OperateAlike(op: AluOp, a: Byte, n: Byte, a': Byte, n': Byte, carry: bool)
    requires Alike(a, a') && Alike(n, n')
    ensures Operate(op, a, n, carry) == Operate(op, a', n', carry)
  {
    match op
    case ADD =>
    case ADC =>
    case SUB =>
    case SBC =>
    case AND =>
    case OR =>
    case XOR =>
    case CP =>
  }

  lemma ShiftAlike(op: ShiftOp, v: Byte, v': Byte, f: Flags)
    requires Alike(v, v')
    ensures Shift(op, v, f) == Shift(op, v', f)
    ensures RotateAccumulator(op, v, f) == RotateAccumulator(op, v', f)
  {
    match op
    case RLC =>
    case RRC =>
    case RL =>
    case RR =>
    case SLA =>
    case SRA =>
    case SWAP =>
    case SRL =>
  }

  lemma UnaryAlike(v: Byte, v': Byte, f: Flags, b: nat)
    requires Alike(v, v')
    ensures Increment(v, f) == Increment(v', f) && Decrement(v, f) == Decrement(v', f)
    ensures DecimalAdjust(v, f) == DecimalAdjust(v', f)
    ensures TestBit(v, b, f) == TestBit(v', b, f)
    ensures SetBit(v, b) == SetBit(v', b) && ResetBit(v, b) == ResetBit(v', b)
  {
  }

  lemma WordsAlike(v: Word, w: Word, v': Word, w': Word, f: Flags)
    requires AlikeWord(v, v') && AlikeWord(w, w')
    ensures AddWords(v, w, f) == AddWords(v', w', f)
    ensures DecayWord(v) == DecayWord(v')
    ensures AddWord(v, w) == AddWord(v', w') && SubWord(v, w) == SubWord(v', w')
  {
  }

  // ----- the bus -----

  lemma CartReadAlike(c: Cartridges.Cart, d: Cartridges.Cart, addr: u16)
    requires AlikeCart(c, d)
    ensures var o, p := Cartridges.Read(c, addr), Cartridges.Read(d, addr);
      if o.Ok? then p.Ok? && Alike(o.value, p.value) else o == p
  {
  }

  lemma CartWriteAlike(c: Cartridges.Cart, d: Cartridges.Cart, addr: u16, v: Byte, w: Byte)
    requires AlikeCart(c, d) && Alike(v, w)
    ensures AlikeCartOutcome(Cartridges.Write(c, addr, v), Cartridges.Write(d, addr, w))
  {
  }

  lemma BusReadAlike(b: Bus, d: Bus, addr: u16, isDma: bool)
    requires AlikeBus(b, d)
    ensures AlikeBusRead(Read(b, addr, isDma), Read(d, addr, isDma))
  {
    hide ReadRegister, Picture.ReadVideo, Cartridges.Read;
    CartReadAlike(b.cart, d.cart, addr);
  }

  lemma WriteVideoAlike(b: Bus, d: Bus, addr: u16, v: Byte, w: Byte, isDma: bool)
    requires AlikeBus(b, d) && Alike(v, w) && Picture.IsVideoAddress(addr)
    ensures AlikeBusOutcome(WriteVideo(b, addr, v, isDma), WriteVideo(d, addr, w, isDma))
  {
  }

  lemma {:induction false} CopyAlike(b: Bus, d: Bus, page: u8, offset: nat)
    requires AlikeBus(b, d) && page <= 0xF1 && offset <= 0xA0
    ensures AlikeBusOutcome(Copy(b, page, offset), Copy(d, page, offset))
    decreases 0xA0 - offset
  {
    hide Read, WriteVideo;
    if offset < 0xA0 {
      BusReadAlike(b, d, page * 0x100 + offset, true);
      var o, p := Read(b, page * 0x100 + offset, true), Read(d, page * 0x100 + offset, true);
      if o.Ok? {
        WriteVideoAlike(o.value.1, p.value.1, 0xFE00 + offset, o.value.0, p.value.0, true);
        var q := WriteVideo(o.value.1, 0xFE00 + offset, o.value.0, true);
        var r := WriteVideo(p.value.1, 0xFE00 + offset, p.value.0, true);
        if q.Ok? {
          CopyAlike(q.value, r.value, page, offset + 1);
        }
      }
    }
  }

  lemma BusWriteAlike(b: Bus, d: Bus, addr: u16, v: Byte, w: Byte, isDma: bool)
    requires AlikeBus(b, d) && Alike(v, w)
    ensures AlikeBusOutcome(Write(b, addr, v, isDma), Write(d, addr, w, isDma))
  {
    hide Copy, WriteVideo, WriteRegister, Cartridges.Write;
    CartWriteAlike(b.cart, d.cart, addr, v, w);
    if Picture.IsVideoAddress(addr) {
      WriteVideoAlike(b, d, addr, v, w, isDma);
    } else if addr == DMA_REGISTER && !v.undefined && v.data <= 0xF1 {
      CopyAlike(b.(io := b.io.(dmaStart := b.io.cycle)), d.(io := d.io.(dmaStart := d.io.cycle)), v.data, 0);
    }
  }

  // ----- checked accesses -----

  lemma ReadU8Alike(s: Machine, t: Machine, addr: u16, allow: bool)
    requires AlikeMachine(s, t)
    ensures AlikeRead(ReadU8(s, addr, allow), ReadU8(t, addr, allow))
  {
    hide Read;
    BusReadAlike(Spend(s, 1).bus, Spend(t, 1).bus, addr, false);
  }

  lemma WriteU8Alike(s: Machine, t: Machine, addr: u16, v: Byte, w: Byte, allow: bool)
    requires AlikeMachine(s, t) && Alike(v, w)
    ensures AlikeOutcome(WriteU8(s, addr, v, allow), WriteU8(t, addr, w, allow))
  {
    hide Write;
    BusWriteAlike(Spend(s, 1).bus, Spend(t, 1).bus, addr, v, w, false);
  }

  lemma ReadU16Alike(s: Machine, t: Machine, addr: u16, allow: bool)
    requires AlikeMachine(s, t)
    ensures AlikeWordRead(ReadU16(s, addr, allow), ReadU16(t, addr, allow))
  {
    hide ReadU8, AlikeBus;
    var o, p := ReadU8(s, Wrap16(addr + 1), allow), ReadU8(t, Wrap16(addr + 1), allow);
    ReadU8Alike(s, t, Wrap16(addr + 1), allow);
    if o.Ok? {
      ReadU8Alike(o.value.1, p.value.1, addr, allow);
      var q, r := ReadU8(o.value.1, addr, allow), ReadU8(p.value.1, addr, allow);
    }
  }

  lemma WriteU16Alike(s: Machine, t: Machine, addr: u16, v: Word, w: Word, allow: bool)
    requires AlikeMachine(s, t) && AlikeWord(v, w)
    ensures AlikeOutcome(WriteU16(s, addr, v, allow), WriteU16(t, addr, w, allow))
  {
    hide WriteU8, AlikeBus;
    var o, p := WriteU8(s, addr, v.lower, allow), WriteU8(t, addr, w.lower, allow);
    WriteU8Alike(s, t, addr, v.lower, w.lower, allow);
    if o.Ok? {
      WriteU8Alike(o.value, p.value, Wrap16(addr + 1), v.upper, w.upper, allow);
    }
  }

  lemma Fetch8Alike(s: Machine, t: Machine)
    requires AlikeMachine(s, t)
    ensures AlikeFetch(Fetch8(s), Fetch8(t))
  {
    hide ReadU8, AlikeBus;
    var pc := Wrap16(s.regs.pc + 1);
    if ValidPc(pc) {
      ReadU8Alike(WithRegs(s, s.regs.(pc := pc)), WithRegs(t, t.regs.(pc := pc)), s.regs.pc, false);
    }
  }

  lemma Fetch16Alike(s: Machine, t: Machine)
    requires AlikeMachine(s, t)
    ensures AlikeFetch(Fetch16(s), Fetch16(t))
  {
    hide ReadU16, AlikeBus;
    ReadU16Alike(s, t, s.regs.pc, false);
    var o, p := ReadU16(s, s.regs.pc, false), ReadU16(t, t.regs.pc, false);
    if o.Ok? {
      WordsAlike(o.value.0, o.value.0, p.value.0, p.value.0, s.regs.f);
    }
  }

  lemma GetWordAlike(r: CpuRegisters, q: CpuRegisters, rr: R16)
    requires AlikeRegs(r, q)
    ensures AlikeWord(GetWord(r, rr), GetWord(q, rr))
    ensures DecayWord(GetWord(r, rr)) == DecayWord(GetWord(q, rr))
  {
    WordsAlike(GetWord(r, rr), KnownWord(0), GetWord(q, rr), KnownWord(0), r.f);
  }

  lemma PointerAlike(s: Machine, t: Machine, rr: R16, v: Byte, w: Byte)
    requires AlikeMachine(s, t) && Alike(v, w)
    ensures AlikeRead(ReadPointer(s, rr), ReadPointer(t, rr))
    ensures AlikeOutcome(WritePointer(s, rr, v), WritePointer(t, rr, w))
  {
    hide ReadU8, WriteU8, AlikeBus;
    GetWordAlike(s.regs, t.regs, rr);
    var addr := DecayWord(GetWord(s.regs, rr));
    if addr.Ok? {
      ReadU8Alike(s, t, addr.value, false);
      WriteU8Alike(s, t, addr.value, v, w, false);
    }
  }

  lemma GetRegAlike(s: Machine, t: Machine, r: R8)
    requires AlikeMachine(s, t)
    ensures AlikeRead(GetReg(s, r), GetReg(t, r))
  {
    hide ReadPointer, AlikeBus;
    PointerAlike(s, t, HL, s.regs.a, t.regs.a);
    PointerAlike(s, t, BC, s.regs.a, t.regs.a);
    PointerAlike(s, t, DE, s.regs.a, t.regs.a);
  }

  lemma SetRegAlike(s: Machine, t: Machine, r: R8, v: Byte, w: Byte)
    requires AlikeMachine(s, t) && Alike(v, w)
    ensures AlikeOutcome(SetReg(s, r, v), SetReg(t, r, w))
  {
    hide WritePointer, AlikeBus;
    if r.HL_ptr? {
      PointerAlike(s, t, HL, v, w);
    } else if r.BC_ptr? {
      PointerAlike(s, t, BC, v, w);
    } else if r.DE_ptr? {
      PointerAlike(s, t, DE, v, w);
    }
  }

  lemma SetReg16Alike(s: Machine, t: Machine, rr: R16, v: Word, w: Word)
    requires AlikeMachine(s, t) && AlikeWord(v, w)
    ensures AlikeOutcome(SetReg16(s, rr, v), SetReg16(t, rr, w))
  {
    hide AlikeBus;
    WordsAlike(v, v, w, w, s.regs.f);
  }

  // ----- instructions -----

  // Each of these follows the instruction's own sequence of accesses.

  lemma LoadImmediateAlike(s: Machine, t: Machine, r: R8)
    requires AlikeMachine(s, t)
    ensures AlikeOutcome(LoadImmediate(s, r), LoadImmediate(t, r))
  {
    hide Fetch8, SetReg, AlikeMachine;
    Fetch8Alike(s, t);
    var o, p := Fetch8(s), Fetch8(t);
    if o.Ok? {
      SetRegAlike(o.value.1, p.value.1, r, Known(o.value.0), Known(p.value.0));
    }
  }

  lemma LoadRegisterAlike(s: Machine, t: Machine, dst: R8, src: R8)
    requires AlikeMachine(s, t)
    ensures AlikeOutcome(LoadRegister(s, dst, src), LoadRegister(t, dst, src))
  {
    hide GetReg, SetReg, AlikeMachine;
    GetRegAlike(s, t, src);
    var o, p := GetReg(s, src), GetReg(t, src);
    if o.Ok? {
      SetRegAlike(o.value.1, p.value.1, dst, o.value.0, p.value.0);
    }
  }

  lemma LoadAbsoluteAlike(s: Machine, t: Machine, r: R8)
    requires AlikeMachine(s, t)
    ensures AlikeOutcome(LoadAbsolute(s, r), LoadAbsolute(t, r))
  {
    hide Fetch16, ReadU8, SetReg, AlikeMachine;
    Fetch16Alike(s, t);
    var o, p := Fetch16(s), Fetch16(t);
    if o.Ok? {
      ReadU8Alike(o.value.1, p.value.1, o.value.0, false);
      var q, u := ReadU8(o.value.1, o.value.0, false), ReadU8(p.value.1, p.value.0, false);
      if q.Ok? {
        SetRegAlike(q.value.1, u.value.1, r, q.value.0, u.value.0);
      }
    }
  }

  lemma StoreAbsoluteAlike(s: Machine, t: Machine)
    requires AlikeMachine(s, t)
    ensures AlikeOutcome(StoreAbsolute(s), StoreAbsolute(t))
  {
    hide Fetch16, WriteU8, AlikeBus;
    Fetch16Alike(s, t);
    var o, p := Fetch16(s), Fetch16(t);
    if o.Ok? {
      WriteU8Alike(o.value.1, p.value.1, o.value.0, o.value.1.regs.a, p.value.1.regs.a, false);
    }
  }

  lemma LoadAAlike(s: Machine, t: Machine, addr: u16)
    requires AlikeMachine(s, t)
    ensures AlikeOutcome(LoadA(s, addr), LoadA(t, addr))
  {
    hide ReadU8, SetReg, AlikeMachine;
    ReadU8Alike(s, t, addr, false);
    var o, p := ReadU8(s, addr, false), ReadU8(t, addr, false);
    if o.Ok? {
      SetRegAlike(o.value.1, p.value.1, A, o.value.0, p.value.0);
    }
  }

  lemma PortAlike(s: Machine, t: Machine)
    requires AlikeMachine(s, t)
    ensures AlikeOutcome(LoadFromPort(s), LoadFromPort(t))
    ensures AlikeOutcome(StoreToPort(s), StoreToPort(t))
  {
    hide LoadA, WriteU8, AlikeBus;
    var addr := DecayWord(Word(Known(0xFF), s.regs.c));
    if addr.Ok? {
      LoadAAlike(s, t, addr.value);
      WriteU8Alike(s, t, addr.value, s.regs.a, t.regs.a, false);
    }
  }

  lemma MoveAlike(s: Machine, t: Machine, up: bool)
    requires AlikeMachine(s, t)
    ensures AlikeOutcome(LoadAndMove(s, up), LoadAndMove(t, up))
    ensures AlikeOutcome(StoreAndMove(s, up), StoreAndMove(t, up))
  {
    hide LoadA, WriteU8, SetReg16, GetWord, DecayWord, AddWord, SubWord, AddWords, AlikeBus;
    GetWordAlike(s.regs, t.regs, HL);
    var addr, hl := DecayWord(GetWord(s.regs, HL)), Moved(GetWord(s.regs, HL), up);
    WordsAlike(GetWord(s.regs, HL), KnownWord(1), GetWord(t.regs, HL), KnownWord(1), s.regs.f);
    if addr.Ok? {
      LoadAAlike(s, t, addr.value);
      var o, p := LoadA(s, addr.value), LoadA(t, addr.value);
      if o.Ok? && hl.Ok? {
        SetReg16Alike(o.value, p.value, HL, hl.value, hl.value);
      }
      WriteU8Alike(s, t, addr.value, s.regs.a, t.regs.a, false);
      var q, r := WriteU8(s, addr.value, s.regs.a, false), WriteU8(t, addr.value, t.regs.a, false);
      if q.Ok? && hl.Ok? {
        SetReg16Alike(q.value, r.value, HL, hl.value, hl.value);
      }
    }
  }

  lemma HighPageAlike(s: Machine, t: Machine)
    requires AlikeMachine(s, t)
    ensures AlikeOutcome(LoadHighPage(s), LoadHighPage(t))
    ensures AlikeOutcome(StoreHighPage(s), StoreHighPage(t))
  {
    hide Fetch8, LoadA, WriteU8, AlikeBus;
    Fetch8Alike(s, t);
    var o, p := Fetch8(s), Fetch8(t);
    if o.Ok? {
      var n: int := o.value.0;
      LoadAAlike(o.value.1, p.value.1, 0xFF00 + n);
      WriteU8Alike(o.value.1, p.value.1, 0xFF00 + n, o.value.1.regs.a, p.value.1.regs.a, false);
    }
  }

  lemma LoadPairAlike(s: Machine, t: Machine, rr: R16)
    requires AlikeMachine(s, t)
    ensures AlikeOutcome(LoadPair(s, rr), LoadPair(t, rr))
  {
    hide Fetch16, SetReg16, AlikeMachine;
    Fetch16Alike(s, t);
    var o, p := Fetch16(s), Fetch16(t);
    if o.Ok? {
      SetReg16Alike(o.value.1, p.value.1, rr, KnownWord(o.value.0), KnownWord(p.value.0));
    }
  }

  lemma StackPointerAlike(s: Machine, t: Machine)
    requires AlikeMachine(s, t)
    ensures AlikeOutcome(LoadSp(s), LoadSp(t))
    ensures AlikeOutcome(StoreSp(s), StoreSp(t))
  {
    hide Fetch16, WriteU16, SetReg16;
    SetReg16Alike(Spend(s, 1), Spend(t, 1), SP, GetWord(s.regs, HL), GetWord(t.regs, HL));
    Fetch16Alike(s, t);
    var o, p := Fetch16(s), Fetch16(t);
    if o.Ok? {
      WriteU16Alike(o.value.1, p.value.1, o.value.0, GetWord(o.value.1.regs, SP), GetWord(p.value.1.regs, SP), false);
    }
  }

  lemma OffsetSpAlike(s: Machine, t: Machine, n: u8)
    requires AlikeMachine(s, t)
    ensures AlikeWordRead(OffsetSp(s, n), OffsetSp(t, n))
  {
  }

  lemma SpArithmeticAlike(s: Machine, t: Machine)
    requires AlikeMachine(s, t)
    ensures AlikeOutcome(LoadHlFromSp(s), LoadHlFromSp(t))
    ensures AlikeOutcome(AddToSp(s), AddToSp(t))
  {
    hide Fetch8, OffsetSp, SetReg16;
    Fetch8Alike(s, t);
    var o, p := Fetch8(s), Fetch8(t);
    if o.Ok? {
      OffsetSpAlike(o.value.1, p.value.1, o.value.0);
      var q, r := OffsetSp(o.value.1, o.value.0), OffsetSp(p.value.1, p.value.0);
      if q.Ok? {
        SetReg16Alike(q.value.1, r.value.1, HL, q.value.0, r.value.0);
      }
      var s', t' := Spend(o.value.1, 1), Spend(p.value.1, 1);
      OffsetSpAlike(s', t', o.value.0);
      var q', r' := OffsetSp(s', o.value.0), OffsetSp(t', p.value.0);
      if q'.Ok? {
        SetReg16Alike(q'.value.1, r'.value.1, SP, q'.value.0, r'.value.0);
      }
    }
  }

  lemma PushAlike(s: Machine, t: Machine, rr: R16)
    requires AlikeMachine(s, t)
    ensures AlikeOutcome(Push(s, rr), Push(t, rr))
  {
    hide WriteU16;
    var s', t' := Spend(s, 1), Spend(t, 1);
    var s'' := WithRegs(s', s'.regs.(sp := Wrap16(s.regs.sp - 2)));
    var t'' := WithRegs(t', t'.regs.(sp := Wrap16(t.regs.sp - 2)));
    WriteU16Alike(s'', t'', s''.regs.sp, GetWord(s''.regs, rr), GetWord(t''.regs, rr), true);
  }

  lemma PopAlike(s: Machine, t: Machine, rr: R16)
    requires AlikeMachine(s, t)
    ensures AlikeOutcome(Pop(s, rr), Pop(t, rr))
  {
    hide ReadU16, SetReg16, AlikeBus;
    ReadU16Alike(s, t, s.regs.sp, true);
    var o, p := ReadU16(s, s.regs.sp, true), ReadU16(t, t.regs.sp, true);
    if o.Ok? {
      SetReg16Alike(o.value.1, p.value.1, rr, o.value.0, p.value.0);
    }
  }

  lemma AccumulateAlike(s: Machine, t: Machine, op: AluOp, n: Byte, n': Byte)
    requires AlikeMachine(s, t) && Alike(n, n')
    ensures AlikeOutcome(Accumulate(s, op, n), Accumulate(t, op, n'))
  {
    hide Operate, AlikeBus;
    OperateAlike(op, s.regs.a, n, t.regs.a, n', s.regs.f.c);
  }

  lemma AccumulateOperandAlike(s: Machine, t: Machine, op: AluOp, r: R8)
    requires AlikeMachine(s, t)
    ensures AlikeOutcome(AccumulateRegister(s, op, r), AccumulateRegister(t, op, r))
    ensures AlikeOutcome(AccumulateImmediate(s, op), AccumulateImmediate(t, op))
  {
    hide GetReg, Fetch8, Accumulate, AlikeMachine;
    GetRegAlike(s, t, r);
    var o, p := GetReg(s, r), GetReg(t, r);
    if o.Ok? {
      AccumulateAlike(o.value.1, p.value.1, op, o.value.0, p.value.0);
    }
    Fetch8Alike(s, t);
    var q, u := Fetch8(s), Fetch8(t);
    if q.Ok? {
      AccumulateAlike(q.value.1, u.value.1, op, Known(q.value.0), Known(u.value.0));
    }
  }

  lemma FlagsAlike(s: Machine, t: Machine, f: Flags)
    requires AlikeMachine(s, t)
    ensures s.regs.f == t.regs.f && AlikeMachine(WithFlags(s, f), WithFlags(t, f))
  {
    hide AlikeBus;
  }

  lemma BumpAlike(s: Machine, t: Machine, r: R8, up: bool)
    requires AlikeMachine(s, t)
    ensures AlikeOutcome(Bump(s, r, up), Bump(t, r, up))
  {
    hide GetReg, SetReg, Increment, Decrement, AlikeMachine, WithFlags;
    GetRegAlike(s, t, r);
    var o, p := GetReg(s, r), GetReg(t, r);
    if o.Ok? {
      var f := o.value.1.regs.f;
      FlagsAlike(o.value.1, p.value.1, f);
      UnaryAlike(o.value.0, p.value.0, f, 0);
      var q := if up then Increment(o.value.0, f) else Decrement(o.value.0, f);
      if q.Ok? {
        SetRegAlike(o.value.1, p.value.1, r, q.value.value, q.value.value);
        var u, v := SetReg(o.value.1, r, q.value.value), SetReg(p.value.1, r, q.value.value);
        if u.Ok? {
          FlagsAlike(u.value, v.value, q.value.f);
        }
      }
    }
  }

  lemma AddToHlAlike(s: Machine, t: Machine, rr: R16)
    requires AlikeMachine(s, t)
    ensures AlikeOutcome(AddToHl(s, rr), AddToHl(t, rr))
  {
    hide AddWords, SetReg16;
    GetWordAlike(s.regs, t.regs, HL);
    GetWordAlike(s.regs, t.regs, rr);
    var s', t' := Spend(s, 1), Spend(t, 1);
    var hl, w := GetWord(s.regs, HL), GetWord(s.regs, rr);
    WordsAlike(hl, w, GetWord(t.regs, HL), GetWord(t.regs, rr), s.regs.f);
    var o := AddWords(hl, w, s.regs.f);
    if o.Ok? {
      SetReg16Alike(WithFlags(s', o.value.f), WithFlags(t', o.value.f), HL, o.value.value, o.value.value);
    }
  }

  lemma BumpPairAlike(s: Machine, t: Machine, rr: R16, up: bool)
    requires AlikeMachine(s, t)
    ensures AlikeOutcome(BumpPair(s, rr, up), BumpPair(t, rr, up))
  {
    hide SetReg16, AddWord, SubWord;
    GetWordAlike(s.regs, t.regs, rr);
    WordsAlike(GetWord(s.regs, rr), KnownWord(1), GetWord(t.regs, rr), KnownWord(1), s.regs.f);
    var w := Moved(GetWord(s.regs, rr), up);
    if w.Ok? {
      SetReg16Alike(Spend(s, 1), Spend(t, 1), rr, w.value, w.value);
    }
  }

  lemma AccumulatorAlike(s: Machine, t: Machine, op: ShiftOp)
    requires AlikeMachine(s, t)
    ensures AlikeOutcome(AdjustA(s), AdjustA(t))
    ensures AlikeOutcome(RotateA(s, op), RotateA(t, op))
  {
    hide DecimalAdjust, RotateAccumulator, Shift, Increment, Decrement, TestBit, SetBit, ResetBit, AlikeBus;
    UnaryAlike(s.regs.a, t.regs.a, s.regs.f, 0);
    ShiftAlike(op, s.regs.a, t.regs.a, s.regs.f);
  }

  lemma ComplementAlike(s: Machine, t: Machine)
    requires AlikeMachine(s, t)
    ensures AlikeOutcome(ComplementA(s), ComplementA(t))
  {
    hide AlikeBus;
  }

  lemma BitPageAlike(s: Machine, t: Machine, i: BitInstruction)
    requires AlikeMachine(s, t)
    ensures AlikeOutcome(ExecuteBit(s, i), ExecuteBit(t, i))
  {
    hide GetReg, SetReg, Shift, TestBit, SetBit, ResetBit, AlikeBus;
    GetRegAlike(s, t, i.r);
    var o, p := GetReg(s, i.r), GetReg(t, i.r);
    if o.Ok? {
      var v, f := o.value.0, o.value.1.regs.f;
      match i
      case SHIFT(op, r) =>
        ShiftAlike(op, v, p.value.0, f);
        var q := Shift(op, v, f);
        if q.Ok? {
          SetRegAlike(WithFlags(o.value.1, q.value.f), WithFlags(p.value.1, q.value.f), r, q.value.value, q.value.value);
        }
      case BIT_b_r(b, r) =>
        UnaryAlike(v, p.value.0, f, b);
      case RES_b_r(b, r) =>
        UnaryAlike(v, p.value.0, f, b);
        var q := ResetBit(v, b);
        if q.Ok? {
          SetRegAlike(o.value.1, p.value.1, r, q.value, q.value);
        }
      case SET_b_r(b, r) =>
        UnaryAlike(v, p.value.0, f, b);
        var q := SetBit(v, b);
        if q.Ok? {
          SetRegAlike(o.value.1, p.value.1, r, q.value, q.value);
        }
    }
  }

  lemma PrefixedAlike(s: Machine, t: Machine)
    requires AlikeMachine(s, t)
    ensures AlikeOutcome(ExecutePrefixed(s), ExecutePrefixed(t))
  {
    hide Fetch8, ExecuteBit, DecodeBit, AlikeMachine;
    Fetch8Alike(s, t);
    var o, p := Fetch8(s), Fetch8(t);
    if o.Ok? {
      BitPageAlike(o.value.1, p.value.1, DecodeBit(o.value.0));
    }
  }

  lemma JumpToAlike(s: Machine, t: Machine, nn: u16)
    requires AlikeMachine(s, t)
    ensures AlikeOutcome(JumpTo(s, nn), JumpTo(t, nn))
  {
  }

  lemma JumpsAlike(s: Machine, t: Machine, cc: Option<Condition>)
    requires AlikeMachine(s, t)
    ensures AlikeOutcome(Jump(s, cc), Jump(t, cc))
    ensures AlikeOutcome(JumpRelative(s, cc), JumpRelative(t, cc))
    ensures AlikeOutcome(JumpHl(s), JumpHl(t))
  {
    hide Fetch8, Fetch16, JumpTo, SetReg16, AlikeBus;
    Fetch16Alike(s, t);
    var o, p := Fetch16(s), Fetch16(t);
    if o.Ok? {
      JumpToAlike(o.value.1, p.value.1, o.value.0);
    }
    Fetch8Alike(s, t);
    var q, r := Fetch8(s), Fetch8(t);
    if q.Ok? {
      JumpToAlike(q.value.1, r.value.1, Wrap16(q.value.1.regs.pc + Signed8(q.value.0)));
    }
    GetWordAlike(s.regs, t.regs, HL);
    SetReg16Alike(s, t, PC, GetWord(s.regs, HL), GetWord(t.regs, HL));
  }

  lemma CallToAlike(s: Machine, t: Machine, nn: u16)
    requires AlikeMachine(s, t)
    ensures AlikeOutcome(CallTo(s, nn), CallTo(t, nn))
  {
    hide Push, AlikeBus;
    PushAlike(s, t, PC);
  }

  lemma CallAlike(s: Machine, t: Machine, cc: Option<Condition>)
    requires AlikeMachine(s, t)
    ensures AlikeOutcome(Call(s, cc), Call(t, cc))
  {
    hide Fetch16, CallTo, AlikeBus;
    Fetch16Alike(s, t);
    var o, p := Fetch16(s), Fetch16(t);
    if o.Ok? {
      CallToAlike(o.value.1, p.value.1, o.value.0);
    }
  }

  lemma ReturnAlike(s: Machine, t: Machine)
    requires AlikeMachine(s, t)
    ensures AlikeOutcome(Return(s), Return(t))
  {
    hide ReadU16, JumpTo, AddWords, AddWord, SubWord, AlikeBus;
    var rest := DropLast(DropLast(s.pointers));
    var s' := s.(pointers := rest, expected := DropLast(s.expected));
    var t' := t.(pointers := rest, expected := DropLast(t.expected));
    ReadU16Alike(s', t', s.regs.sp, false);
    var o, p := ReadU16(s', s'.regs.sp, false), ReadU16(t', t'.regs.sp, false);
    if o.Ok? {
      WordsAlike(o.value.0, o.value.0, p.value.0, p.value.0, s.regs.f);
      var actual := DecayWord(o.value.0);
      if actual.Ok? {
        var sp := Wrap16(o.value.1.regs.sp + 2);
        JumpToAlike(WithRegs(o.value.1, o.value.1.regs.(sp := sp)), WithRegs(p.value.1, p.value.1.regs.(sp := sp)), actual.value);
      }
    }
  }

  lemma ReturnsAlike(s: Machine, t: Machine, cc: Condition)
    requires AlikeMachine(s, t)
    ensures AlikeOutcome(ReturnIf(s, cc), ReturnIf(t, cc))
    ensures AlikeOutcome(ReturnFromInterrupt(s), ReturnFromInterrupt(t))
  {
    hide Return;
    ReturnAlike(Spend(s, 1), Spend(t, 1));
    ReturnAlike(WithIme(s, Ime(true, true, true)), WithIme(t, Ime(true, true, true)));
  }

  lemma LoadAlike(s: Machine, t: Machine, i: Instruction)
    requires AlikeMachine(s, t) && IsLoad(i)
    ensures AlikeOutcome(ExecutePlain(s, i), ExecutePlain(t, i))
  {
    hide LoadImmediate, LoadAbsolute, LoadRegister, SetReg, StoreAbsolute, LoadFromPort, StoreToPort, LoadAndMove,
      StoreAndMove, StoreHighPage, LoadHighPage, LoadPair, LoadSp, LoadHlFromSp, StoreSp, Push, Pop,
      AccumulateRegister, AccumulateImmediate, Bump, AddToHl, AddToSp, BumpPair, AdjustA, ComplementA,
      ExecutePrefixed, RotateA, Jump, JumpHl, JumpRelative, AlikeBus;
    match i
    case LD_r_n(r) => LoadImmediateAlike(s, t, r);
    case LD_r_nn(r) => LoadAbsoluteAlike(s, t, r);
    case LD_r1_r2(dst, src) => LoadRegisterAlike(s, t, dst, src);
    case LD_r_A(r) => SetRegAlike(s, t, r, s.regs.a, t.regs.a);
    case LD_nn_A => StoreAbsoluteAlike(s, t);
    case LD_A_C => PortAlike(s, t);
    case LD_C_A => PortAlike(s, t);
    case LDD_A_HL => MoveAlike(s, t, false);
    case LDD_HL_A => MoveAlike(s, t, false);
    case LDI_A_HL => MoveAlike(s, t, true);
    case LDI_HL_A => MoveAlike(s, t, true);
    case LDH_n_A => HighPageAlike(s, t);
    case LDH_A_n => HighPageAlike(s, t);
  }

  lemma StackOrPairAlike(s: Machine, t: Machine, i: Instruction)
    requires AlikeMachine(s, t) && IsStackOrPair(i)
    ensures AlikeOutcome(ExecutePlain(s, i), ExecutePlain(t, i))
  {
    hide LoadImmediate, LoadAbsolute, LoadRegister, SetReg, StoreAbsolute, LoadFromPort, StoreToPort, LoadAndMove,
      StoreAndMove, StoreHighPage, LoadHighPage, LoadPair, LoadSp, LoadHlFromSp, StoreSp, Push, Pop,
      AccumulateRegister, AccumulateImmediate, Bump, AddToHl, AddToSp, BumpPair, AdjustA, ComplementA,
      ExecutePrefixed, RotateA, Jump, JumpHl, JumpRelative, AlikeMachine;
    match i
    case LD16_n_nn(rr) => LoadPairAlike(s, t, rr);
    case LD16_SP_HL => StackPointerAlike(s, t);
    case LDHL_SP_n => SpArithmeticAlike(s, t);
    case LD_nn_SP => StackPointerAlike(s, t);
    case PUSH(rr) => PushAlike(s, t, rr);
    case POP(rr) => PopAlike(s, t, rr);
    case ADD16_HL_n(rr) => AddToHlAlike(s, t, rr);
    case ADD16_SP_n => SpArithmeticAlike(s, t);
    case INC16_nn(rr) => BumpPairAlike(s, t, rr, true);
    case DEC16_nn(rr) => BumpPairAlike(s, t, rr, false);
  }

  lemma OperationAlike(s: Machine, t: Machine, i: Instruction)
    requires AlikeMachine(s, t) && IsOperation(i)
    ensures AlikeOutcome(ExecutePlain(s, i), ExecutePlain(t, i))
  {
    hide LoadImmediate, LoadAbsolute, LoadRegister, SetReg, StoreAbsolute, LoadFromPort, StoreToPort, LoadAndMove,
      StoreAndMove, StoreHighPage, LoadHighPage, LoadPair, LoadSp, LoadHlFromSp, StoreSp, Push, Pop,
      AccumulateRegister, AccumulateImmediate, Bump, AddToHl, AddToSp, BumpPair, AdjustA, ComplementA,
      ExecutePrefixed, RotateA, Jump, JumpHl, JumpRelative, AlikeMachine;
    match i
    case ALU_r(op, r) => AccumulateOperandAlike(s, t, op, r);
    case ALU_n(op) => AccumulateOperandAlike(s, t, op, A);
    case INC_r(r) => BumpAlike(s, t, r, true);
    case DEC_r(r) => BumpAlike(s, t, r, false);
  }

  lemma RegisterOnlyAlike(s: Machine, t: Machine, i: Instruction)
    requires AlikeMachine(s, t) && IsRegisterOnly(i)
    ensures AlikeOutcome(ExecutePlain(s, i), ExecutePlain(t, i))
  {
    hide LoadImmediate, LoadAbsolute, LoadRegister, SetReg, StoreAbsolute, LoadFromPort, StoreToPort, LoadAndMove,
      StoreAndMove, StoreHighPage, LoadHighPage, LoadPair, LoadSp, LoadHlFromSp, StoreSp, Push, Pop,
      AccumulateRegister, AccumulateImmediate, Bump, AddToHl, AddToSp, BumpPair, AdjustA, ComplementA,
      ExecutePrefixed, RotateA, Jump, JumpHl, JumpRelative, AlikeBus;
    match i
    case DAA => AccumulatorAlike(s, t, RLC);
    case CPL => ComplementAlike(s, t);
    case ROT_A(op) => AccumulatorAlike(s, t, op);
    case CCF =>
    case SCF =>
    case NOP =>
    case STOP =>
    case HALT =>
  }

  lemma JumpAlike(s: Machine, t: Machine, i: Instruction)
    requires AlikeMachine(s, t) && IsJump(i)
    ensures AlikeOutcome(ExecutePlain(s, i), ExecutePlain(t, i))
  {
    hide LoadImmediate, LoadAbsolute, LoadRegister, SetReg, StoreAbsolute, LoadFromPort, StoreToPort, LoadAndMove,
      StoreAndMove, StoreHighPage, LoadHighPage, LoadPair, LoadSp, LoadHlFromSp, StoreSp, Push, Pop,
      AccumulateRegister, AccumulateImmediate, Bump, AddToHl, AddToSp, BumpPair, AdjustA, ComplementA,
      ExecutePrefixed, RotateA, Jump, JumpHl, JumpRelative, AlikeMachine;
    match i
    case JP_nn => JumpsAlike(s, t, None);
    case JP_cc_nn(cc) => JumpsAlike(s, t, Some(cc));
    case JP_HL => JumpsAlike(s, t, None);
    case JR_n => JumpsAlike(s, t, None);
    case JR_cc_n(cc) => JumpsAlike(s, t, Some(cc));
  }

  lemma PlainAlike(s: Machine, t: Machine, i: Instruction)
    requires AlikeMachine(s, t)
    ensures AlikeOutcome(ExecutePlain(s, i), ExecutePlain(t, i))
  {
    hide LoadImmediate, LoadAbsolute, LoadRegister, SetReg, StoreAbsolute, LoadFromPort, StoreToPort, LoadAndMove,
      StoreAndMove, StoreHighPage, LoadHighPage, LoadPair, LoadSp, LoadHlFromSp, StoreSp, Push, Pop,
      AccumulateRegister, AccumulateImmediate, Bump, AddToHl, AddToSp, BumpPair, AdjustA, ComplementA,
      ExecutePrefixed, RotateA, Jump, JumpHl, JumpRelative, AlikeMachine;
    if IsLoad(i) {
      LoadAlike(s, t, i);
    } else if IsStackOrPair(i) {
      StackOrPairAlike(s, t, i);
    } else if IsOperation(i) {
      OperationAlike(s, t, i);
    } else if IsRegisterOnly(i) {
      RegisterOnlyAlike(s, t, i);
    } else if IsJump(i) {
      JumpAlike(s, t, i);
    } else if i.PREFIX? {
      PrefixedAlike(s, t);
    }
  }

  lemma ImeAlike(s: Machine, t: Machine, ime: Ime)
    requires AlikeMachine(s, t)
    ensures s.regs.ime == t.regs.ime && AlikeMachine(WithIme(s, ime), WithIme(t, ime))
  {
    hide AlikeBus;
  }

  lemma ExecuteAlike(s: Machine, t: Machine, i: Instruction)
    requires AlikeMachine(s, t)
    ensures AlikeOutcome(Execute(s, i), Execute(t, i))
  {
    hide Call, CallTo, Return, ReturnIf, ReturnFromInterrupt, ExecutePlain, WithIme, AlikeMachine;
    match i
    case DI => ImeAlike(s, t, s.regs.ime.(queued := false));
    case EI => ImeAlike(s, t, s.regs.ime.(queued := true));
    case CALL_nn => CallAlike(s, t, None);
    case CALL_cc_nn(cc) => CallAlike(s, t, Some(cc));
    case RST_n(n) => CallToAlike(s, t, n);
    case RET => ReturnAlike(s, t);
    case RET_cc(cc) => ReturnsAlike(s, t, cc);
    case RETI => ReturnsAlike(s, t, Condition(true, true));
    case _ => PlainAlike(s, t, i);
  }

  lemma NextInstructionAlike(s: Machine, t: Machine)
    requires AlikeMachine(s, t)
    ensures AlikeOutcome(ProcessNextInstruction(s), ProcessNextInstruction(t))
  {
    hide Fetch8, Decode, Execute, AlikeMachine;
    Fetch8Alike(s, t);
    var o, p := Fetch8(s), Fetch8(t);
    if o.Ok? {
      ExecuteAlike(o.value.1, p.value.1, Decode(o.value.0));
    }
  }

  // ----- the clock -----

  lemma DispatchAlike(s: Machine, t: Machine, bit: nat)
    requires AlikeMachine(s, t) && bit < 5
    ensures AlikeOutcome(Dispatch(s, bit), Dispatch(t, bit))
  {
    hide Write, CallTo;
    var off := Ime(false, false, false);
    var s', t' := WithIme(s, off), WithIme(t, off);
    var remaining := Xor(Requested(s.bus), Known(Shl8(1, bit)));
    BusWriteAlike(s'.bus, t'.bus, 0xFF0F, remaining.value, remaining.value, false);
    var o, p := Write(s'.bus, 0xFF0F, remaining.value, false), Write(t'.bus, 0xFF0F, remaining.value, false);
    if o.Ok? {
      CallToAlike(s'.(bus := o.value), t'.(bus := p.value), 0x40 + 8 * bit);
    }
  }

  lemma HandleInterruptsAlike(s: Machine, t: Machine)
    requires AlikeMachine(s, t)
    ensures AlikeOutcome(HandleInterrupts(s), HandleInterrupts(t))
  {
    hide Dispatch;
    assert Triggered(s) == Triggered(t);
    var triggered := Triggered(s);
    if triggered.Ok? && triggered.value != 0 && s.regs.ime.now {
      LowestBitBound(triggered.value, 5);
      DispatchAlike(WithRegs(s, s.regs.(halt := false)), WithRegs(t, t.regs.(halt := false)), LowestBit(triggered.value));
    }
  }

  /** One CPU clock. */
  lemma ClockAlike(s: Machine, t: Machine)
    requires AlikeMachine(s, t)
    ensures AlikeOutcome(Clock(s), Clock(t))
  {
    hide HandleInterrupts, ProcessNextInstruction;
    HandleInterruptsAlike(s, t);
    var o, p := HandleInterrupts(s), HandleInterrupts(t);
    if o.Ok? && !o.value.regs.halt {
      NextInstructionAlike(o.value, p.value);
    }
  }
}
