/** The processor does what the manual says, for every opcode byte in every state. */
module Conformance {
  import opened Outcomes
  import opened Bits
  import opened CheckedInt
  import opened Registers
  import opened Alu
  import opened Arithmetic
  import opened AluLaws
  import AddressBus
  import opened Processor
  import Manual

  // ----- fetches and operands -----

  lemma GoToIs(t: Machine, nn: u16)
    ensures Manual.GoTo(t, nn) == (var o := SetPc(t.regs, nn); if o.Ok? then Ok(WithRegs(t, o.value)) else Err(o.error))
  {
  }

  lemma WordNumber(w: Word)
    ensures DecayWord(w) == Manual.Number(w.upper, w.lower)
  {
  }

  lemma DefinedReads(t: Machine, addr: u16)
    ensures var o := ReadU8(t, addr, false); o.Ok? ==> !o.value.0.undefined
  {
  }

  lemma Next8Is(t: Machine)
    ensures Fetch8(t) == Manual.Next8(t)
  {
    hide ReadU8;
    GoToIs(t, Wrap16(t.regs.pc + 1));
    DefinedReads(t.(regs := t.regs.(pc := Wrap16(t.regs.pc + 1))), t.regs.pc);
  }

  lemma ReadKeepsRegisters(t: Machine, addr: u16, allow: bool)
    ensures var o := ReadU8(t, addr, allow); o.Ok? ==> o.value.1.regs == t.regs
  {
  }

  lemma Next16Is(t: Machine)
    ensures Fetch16(t) == Manual.Next16(t)
  {
    hide ReadU8, SetPc, Manual.GoTo;
    var high := ReadU8(t, Wrap16(t.regs.pc + 1), false);
    DefinedReads(t, Wrap16(t.regs.pc + 1));
    ReadKeepsRegisters(t, Wrap16(t.regs.pc + 1), false);
    if high.Ok? {
      var low := ReadU8(high.value.1, t.regs.pc, false);
      DefinedReads(high.value.1, t.regs.pc);
      ReadKeepsRegisters(high.value.1, t.regs.pc, false);
      if low.Ok? {
        GoToIs(low.value.1, Wrap16(t.regs.pc + 2));
      }
    }
  }

  lemma OperandIs(t: Machine, i: nat)
    ensures GetReg(t, Operand(i)) == Manual.Operand8(t, i % 8)
  {
    hide ReadU8;
  }

  lemma ResultIs(t: Machine, i: nat, v: Byte)
    ensures SetReg(t, Operand(i), v) == Manual.Result8(t, i % 8, v)
  {
    hide WriteU8;
  }

  lemma PairIs(r: CpuRegisters, i: nat, n: u16)
    ensures DecayWord(GetWord(r, Pair(i))) == Manual.Pair16(r, i % 4)
    ensures SetWord(r, Pair(i), KnownWord(n)) == Ok(Manual.WithPair16(r, i % 4, n))
  {
  }

  lemma ConditionIs(i: nat, f: Flags)
    ensures ConditionCode(i).Holds(f) == Manual.Met(i % 4, f)
  {
  }

  // ----- 8-bit arithmetic -----

  lemma AddIs(a: u8, v: u8, c: bool)
    ensures Operate(ADD, Known(a), Known(v), c) == (var (r, f) := Manual.Accumulated(0, a, v, c); Ok(Result(Known(r), f)))
    ensures Operate(ADC, Known(a), Known(v), c) == (var (r, f) := Manual.Accumulated(1, a, v, c); Ok(Result(Known(r), f)))
  {
    hide AddN;
    AdcAdds(a, v, c);
    AdcWithoutCarry(a, v);
  }

  lemma SubIs(a: u8, v: u8, c: bool)
    ensures Operate(SUB, Known(a), Known(v), c) == (var (r, f) := Manual.Accumulated(2, a, v, c); Ok(Result(Known(r), f)))
    ensures Operate(SBC, Known(a), Known(v), c) == (var (r, f) := Manual.Accumulated(3, a, v, c); Ok(Result(Known(r), f)))
    ensures Operate(CP, Known(a), Known(v), c) == (var (r, f) := Manual.Accumulated(7, a, v, c); Ok(Result(Known(r), f)))
  {
    hide SubN, CpN;
    SbcSubtracts(a, v, c);
    SbcSubtracts(a, v, false);
    assert Operate(SUB, Known(a), Known(v), c) == Operate(SBC, Known(a), Known(v), false);
    CompareSubtracts(a, v, c);
  }

  lemma LogicIs(a: u8, v: u8, c: bool)
    ensures Operate(AND, Known(a), Known(v), c) == (var (r, f) := Manual.Accumulated(4, a, v, c); Ok(Result(Known(r), f)))
    ensures Operate(XOR, Known(a), Known(v), c) == (var (r, f) := Manual.Accumulated(5, a, v, c); Ok(Result(Known(r), f)))
    ensures Operate(OR, Known(a), Known(v), c) == (var (r, f) := Manual.Accumulated(6, a, v, c); Ok(Result(Known(r), f)))
  {
    hide And8, Or8, Xor8;
  }

  lemma AccumulatedIs(a: u8, v: u8, row: nat, c: bool)
    ensures Operate(AluOperation(row), Known(a), Known(v), c) ==
      (var (r, f) := Manual.Accumulated(row % 8, a, v, c); Ok(Result(Known(r), f)))
  {
    hide Operate, Manual.Accumulated;
    AddIs(a, v, c);
    SubIs(a, v, c);
    LogicIs(a, v, c);
  }

  lemma UndefinedStops(a: Byte, v: Byte, row: nat, c: bool)
    requires a.undefined || v.undefined
    ensures var o := Operate(AluOperation(row), a, v, c);
      if row % 8 == 4 && (a == Known(0) || v == Known(0)) then o == Ok(Result(Known(0), Flags(true, false, true, false)))
      else o == Err(UndefinedData)
  {
    hide Xor8, Or8;
  }

  lemma CombineIs(t: Machine, row: nat, v: Byte)
    ensures Accumulate(t, AluOperation(row), v) == Manual.Combine(t, row % 8, v)
  {
    hide Operate, AluOperation;
    var a := t.regs.a;
    if a.undefined || v.undefined {
      UndefinedStops(a, v, row, t.regs.f.c);
    } else {
      AccumulatedIs(a.data, v.data, row, t.regs.f.c);
      assert a == Known(a.data) && v == Known(v.data);
    }
  }

  lemma CountedIs(v: u8, f: Flags)
    ensures Increment(Known(v), f) == Ok(Result(Known((v + 1) % 0x100), Flags((v + 1) % 0x100 == 0, false, (v + 1) % 0x100 % 0x10 == 0, f.c)))
    ensures Decrement(Known(v), f) == Ok(Result(Known((v - 1) % 0x100), Flags((v - 1) % 0x100 == 0, true, (v - 1) % 0x100 % 0x10 == 0x0F, f.c)))
  {
    hide BitAnd;
    LowNibble((v + 1) % 0x100);
    LowNibble((v - 1) % 0x100);
  }

  lemma UndefinedCountStops(v: Byte, f: Flags)
    requires v.undefined
    ensures Increment(v, f) == Err(UndefinedData) && Decrement(v, f) == Err(UndefinedData)
  {
  }

  lemma CountIs(t: Machine, i: nat, up: bool)
    ensures Bump(t, Operand(i), up) == Manual.Count(t, i % 8, up)
  {
    hide GetReg, SetReg, Manual.Operand8, Manual.Result8, Increment, Decrement, Operand;
    OperandIs(t, i);
    var o := GetReg(t, Operand(i));
    if o.Ok? {
      var (v, u) := o.value;
      if v.undefined {
        UndefinedCountStops(v, u.regs.f);
      } else {
        CountedIs(v.data, u.regs.f);
        assert v == Known(v.data);
        ResultIs(u, i, Known((v.data + (if up then 1 else -1)) % 0x100));
      }
    }
  }

  // ----- rotates and shifts -----

  lemma ShiftedIs(row: nat, v: u8, c: bool)
    ensures Manual.Shifted(row % 8, v, c) == (AluLaws.Moved(ShiftOperation(row), v, c), FallsOut(ShiftOperation(row), v))
  {
  }

  lemma UndefinedShiftStops(op: ShiftOp, v: Byte, f: Flags)
    requires v.undefined
    ensures Shift(op, v, f) == Err(UndefinedData) && RotateAccumulator(op, v, f) == Err(UndefinedData)
  {
  }

  lemma RotateAccumulatorIs(t: Machine, row: nat)
    requires row < 4
    ensures RotateA(t, ShiftOperation(row)) == Manual.RotateAccumulator(t, row)
  {
    hide Manual.Shifted, RotateLeftCircular, RotateLeft, RotateRightCircular, RotateRight, AluLaws.Moved;
    var a, f := t.regs.a, t.regs.f;
    if a.undefined {
      UndefinedShiftStops(ShiftOperation(row), a, f);
    } else {
      assert a == Known(a.data);
      ShiftedIs(row, a.data, f.c);
      RotatesLeft(a.data, f.(z := false));
      RotatesRight(a.data, f.(z := false));
    }
  }

  lemma AdjustIs(t: Machine)
    ensures AdjustA(t) == Manual.Adjust(t)
  {
    var a, f := t.regs.a, t.regs.f;
    if a.undefined {
      UndefinedAdjustStops(a, f);
    } else {
      hide DecimalAdjust;
      assert a == Known(a.data);
      if f.n {
        DaaTakesBack(a.data, f);
      } else {
        DaaAdjusts(a.data, f);
      }
    }
  }

  lemma UndefinedAdjustStops(a: Byte, f: Flags)
    requires a.undefined
    ensures DecimalAdjust(a, f) == Err(UndefinedData)
  {
  }

  // ----- 16 bits -----

  lemma SumOfWords(x: Word, y: Word, f: Flags)
    ensures var o := AddWords(x, y, f);
      if x.Undefined() || y.Undefined() then o == Err(UndefinedData)
      else o == Ok(WordResult(KnownWord((x.Data() + y.Data()) % 0x10000),
                              Flags(f.z, false, x.Data() % 0x1000 + y.Data() % 0x1000 >= 0x1000, x.Data() + y.Data() >= 0x10000)))
  {
    hide AddWords;
    if x.Undefined() || y.Undefined() {
      UndefinedWordsStop(x, y, f);
    } else {
      AddWordsAdds(x, y, f);
    }
  }

  lemma AddPairIs(t: Machine, i: nat)
    ensures AddToHl(t, Pair(i)) == Manual.AddPair(t, i % 4)
  {
    hide AddWords, GetWord, SetWord, Pair, KnownWord, Manual.Pair16, Manual.WithPair16, Manual.Number;
    var hl, n := GetWord(t.regs, HL), GetWord(t.regs, Pair(i));
    HlIs(t.regs);
    PairIs(t.regs, i, 0);
    SumOfWords(hl, n, t.regs.f);
    if !hl.Undefined() && !n.Undefined() {
      var f := Flags(t.regs.f.z, false, hl.Data() % 0x1000 + n.Data() % 0x1000 >= 0x1000, hl.Data() + n.Data() >= 0x10000);
      SetHl(t.regs, f, (hl.Data() + n.Data()) % 0x10000);
    }
  }

  lemma HlIs(r: CpuRegisters)
    ensures DecayWord(GetWord(r, HL)) == Manual.Number(r.h, r.l) == Manual.Pair16(r, 2)
  {
  }

  lemma SetHl(r: CpuRegisters, f: Flags, n: u16)
    ensures SetWord(r.(f := f), HL, KnownWord(n)) == Ok(Manual.WithPair16(r, 2, n).(f := f))
  {
  }

  lemma UndefinedWordsStop(x: Word, y: Word, f: Flags)
    requires x.Undefined() || y.Undefined()
    ensures AddWords(x, y, f) == Err(UndefinedData) && AddWord(x, y) == Err(UndefinedData) && SubWord(x, y) == Err(UndefinedData)
  {
  }

  lemma CountPairIs(t: Machine, i: nat, up: bool)
    ensures BumpPair(t, Pair(i), up) == Manual.CountPair(t, i % 4, up)
  {
    hide GetWord, SetWord, Pair, Manual.Pair16, Manual.WithPair16;
    var n := GetWord(t.regs, Pair(i));
    PairIs(t.regs, i, Manual.Stepped(n.Data(), up));
  }

  lemma OffsetIs(t: Machine)
    ensures LoadHlFromSp(t) == Manual.Offset(t, 2)
    ensures AddToSp(t) == Manual.Offset(t, 3)
  {
    hide Fetch8, AddSigned, Manual.Next8;
    Next8Is(t);
    var o := Fetch8(t);
    if o.Ok? {
      var (n, u) := o.value;
      AddSignedAdds(u.regs.sp, n);
    }
  }

  // ----- loads -----

  lemma StoreIndirectIs(t: Machine, p: nat)
    requires p < 2
    ensures SetReg(t, if p == 0 then BC_ptr else DE_ptr, t.regs.a) == Manual.Indirect(t, p, false)
  {
    hide ReadU8, WriteU8;
  }

  lemma LoadIndirectIs(t: Machine, p: nat)
    requires p < 2
    ensures LoadRegister(t, A, if p == 0 then BC_ptr else DE_ptr) == Manual.Indirect(t, p, true)
  {
    hide ReadU8, WriteU8;
  }

  lemma MovedIs(r: CpuRegisters, hl: Word, up: bool)
    requires !hl.Undefined()
    ensures Processor.Moved(hl, up) == Ok(KnownWord(Manual.Stepped(hl.Data(), up)))
    ensures SetWord(r, HL, KnownWord(Manual.Stepped(hl.Data(), up))) ==
      Ok(Manual.WithPair16(r, 2, Manual.Stepped(hl.Data(), up)))
  {
  }

  lemma AccessIs(t: Machine, addr: u16)
    ensures LoadA(t, addr) == Manual.Access(t, true, addr)
    ensures WriteU8(t, addr, t.regs.a, false) == Manual.Access(t, false, addr)
    ensures forall load :: Manual.Access(t, load, addr).Ok? ==>
      Manual.Access(t, load, addr).value.regs == t.regs.(a := Manual.Access(t, load, addr).value.regs.a)
  {
    hide ReadU8, WriteU8;
    ReadKeepsRegisters(t, addr, false);
    WriteKeepsRegisters(t, addr, t.regs.a, false);
  }

  lemma MovedPairIs(r: CpuRegisters, hl: Word, up: bool)
    requires !hl.Undefined()
    ensures var o := Processor.Moved(hl, up);
      o.Ok? && SetWord(r, HL, o.value) == Ok(Manual.WithPair16(r, 2, Manual.Stepped(hl.Data(), up)))
  {
    hide SetWord, Processor.Moved, Manual.WithPair16, Manual.Stepped;
    MovedIs(r, hl, up);
  }

  lemma MovingIs(t: Machine, up: bool)
    ensures StoreAndMove(t, up) == Manual.Indirect(t, if up then 2 else 3, false)
    ensures LoadAndMove(t, up) == Manual.Indirect(t, if up then 2 else 3, true)
  {
    hide LoadA, WriteU8, SetWord, GetWord, DecayWord, Processor.Moved, Manual.WithPair16, Manual.Pair16, Manual.Access, Manual.Stepped;
    var hl := GetWord(t.regs, HL);
    HlIs(t.regs);
    HlDecays(hl);
    if !hl.Undefined() {
      AccessIs(t, hl.Data());
      var o, p := Manual.Access(t, true, hl.Data()), Manual.Access(t, false, hl.Data());
      if o.Ok? {
        MovedPairIs(o.value.regs, hl, up);
      }
      if p.Ok? {
        MovedPairIs(p.value.regs, hl, up);
      }
    }
  }

  lemma HlDecays(hl: Word)
    ensures DecayWord(hl) == if hl.Undefined() then Err(UndefinedData) else Ok(hl.Data())
  {
  }

  lemma WriteKeepsRegisters(t: Machine, addr: u16, v: Byte, allow: bool)
    ensures var o := WriteU8(t, addr, v, allow); o.Ok? ==> o.value.regs == t.regs
  {
    hide AddressBus.Write;
  }

  lemma PortIs(t: Machine)
    ensures LoadFromPort(t) == Manual.Port(t, true) && StoreToPort(t) == Manual.Port(t, false)
  {
    hide ReadU8, WriteU8;
  }

  lemma HighPageIs(t: Machine)
    ensures LoadHighPage(t) == Manual.HighPage(t, true) && StoreHighPage(t) == Manual.HighPage(t, false)
  {
    hide ReadU8, WriteU8, Fetch8, Manual.Next8;
    Next8Is(t);
  }

  lemma DirectIs(t: Machine)
    ensures LoadAbsolute(t, A) == Manual.Direct(t, true) && StoreAbsolute(t) == Manual.Direct(t, false)
  {
    hide ReadU8, WriteU8, Fetch16, Manual.Next16;
    Next16Is(t);
  }

  lemma StoreSpIs(t: Machine)
    ensures Processor.StoreSp(t) == Manual.StoreSp(t)
  {
    hide WriteU8, Fetch16, Manual.Next16;
    Next16Is(t);
    var o := Fetch16(t);
    if o.Ok? {
      WriteKeepsRegisters(o.value.1, o.value.0, Known(o.value.1.regs.sp % 0x100), false);
    }
  }

  lemma PushIs(t: Machine, i: nat)
    ensures Push(t, PushPair(i)) == Manual.PushHalves(t, i % 4)
  {
    hide WriteU8;
  }

  lemma FlagBits(n: u8)
    ensures Flags.FromByte(And8(n, 0xF0)) == Flags(n / 0x80 % 2 == 1, n / 0x40 % 2 == 1, n / 0x20 % 2 == 1, n / 0x10 % 2 == 1)
  {
    hide BitAnd;
    HighNibble(n);
    var m := 0x10 * (n / 0x10);
    assert m / 0x10 == n / 0x10;
    assert m / 0x20 == m / 0x10 / 2 && n / 0x20 == n / 0x10 / 2;
    assert m / 0x40 == m / 0x10 / 4 && n / 0x40 == n / 0x10 / 4;
    assert m / 0x80 == m / 0x10 / 8 && n / 0x80 == n / 0x10 / 8;
  }

  lemma WithHalvesIs(r: CpuRegisters, i: nat, high: Byte, low: Byte)
    ensures SetWord(r, PushPair(i), Word(high, low)) == Manual.WithHalves(r, i % 4, high, low)
    ensures var o := SetWord(r, PushPair(i), Word(high, low)); o.Ok? ==> o.value.sp == r.sp
  {
    hide BitAnd;
    FlagBits(low.data);
  }

  lemma PopIs(t: Machine, i: nat)
    ensures Pop(t, PushPair(i)) == Manual.PopHalves(t, i % 4)
  {
    hide ReadU8, SetWord, PushPair, Manual.WithHalves;
    var sp := t.regs.sp;
    var high := ReadU8(t, Wrap16(sp as int + 1), true);
    ReadKeepsRegisters(t, Wrap16(sp as int + 1), true);
    if high.Ok? {
      var low := ReadU8(high.value.1, sp, true);
      ReadKeepsRegisters(high.value.1, sp, true);
      if low.Ok? {
        WithHalvesIs(low.value.1.regs, i, high.value.0, low.value.0);
      }
    }
  }

  // ----- the CB page -----

  lemma {:induction false} OrBit(v: nat, y: nat)
    ensures BitOr(v, Exp2(y)) == if Bit(v, y) then v else v + Exp2(y)
    decreases y
  {
    if y == 0 {
      BitOrZero(v / 2);
    } else {
      OrBit(v / 2, y - 1);
    }
  }

  lemma ClearLowest(v: nat, n: nat)
    requires v < 2 * Exp2(n)
    ensures BitAnd(v, 2 * Exp2(n) - 2) == v - v % 2
  {
    hide BitAnd, Exp2;
    var half := Exp2(n);
    AndDoubled(v, half - 1);
    AndLowMask(v / 2, n);
    ModUnique(v / 2, half, 0, v / 2);
  }

  lemma ClearHigher(v: nat, half: nat, e: nat, on: bool)
    requires e < half && BitAnd(v / 2, half - 1 - e) == if on then v / 2 - e else v / 2
    ensures BitAnd(v, 2 * half - 1 - 2 * e) == if on then v - 2 * e else v
  {
    hide BitAnd;
    AndOdd(v, half - 1 - e);
    assert 2 * half - 1 - 2 * e == 2 * (half - 1 - e) + 1;
  }

  lemma {:induction false} AndOthers(v: nat, n: nat, y: nat)
    requires y < n && v < Exp2(n)
    ensures Exp2(y) < Exp2(n)
    ensures BitAnd(v, Exp2(n) - 1 - Exp2(y)) == if Bit(v, y) then v - Exp2(y) else v
    decreases y
  {
    hide BitAnd;
    Exp2Grows(y, n - 1);
    if y == 0 {
      ClearLowest(v, n - 1);
    } else {
      AndOthers(v / 2, n - 1, y - 1);
      ClearHigher(v, Exp2(n - 1), Exp2(y - 1), Bit(v / 2, y - 1));
    }
  }

  lemma {:induction false} BitInside(v: nat, y: nat)
    requires Bit(v, y)
    ensures v >= Exp2(y)
    decreases y
  {
    if y > 0 {
      BitInside(v / 2, y - 1);
    }
  }

  lemma BitsPutIs(v: u8, y: nat)
    requires y < 8
    ensures SetBit(Known(v), y) == Ok(Known(Manual.Raised(v, y)))
    ensures ResetBit(Known(v), y) == Ok(Known(Manual.Cleared(v, y)))
  {
    hide BitAnd, BitOr, Bit, Shl, Exp2;
    ByteMask(y);
    EightBits();
    OrBit(v, y);
    AndOthers(v, 8, y);
    if Bit(v, y) {
      BitInside(v, y);
    } else {
      OrBound(v, Exp2(y), 8);
    }
  }

  lemma UndefinedBitStops(v: Byte, y: nat, f: Flags)
    requires v.undefined && y < 8
    ensures TestBit(v, y, f) == Err(UndefinedData) && SetBit(v, y) == Err(UndefinedData) && ResetBit(v, y) == Err(UndefinedData)
  {
    hide BitAnd, BitOr, Shl;
    ByteMask(y);
    Exp2Grows(y, 7);
    assert Exp2(7) == 0x80;
  }

  lemma ShiftRegisterIs(t: Machine, row: nat, i: nat)
    ensures ShiftRegister(t, ShiftOperation(row), Operand(i)) ==
      (var (v, u) :- Manual.Operand8(t, i % 8);
       if v.undefined then Err(UndefinedData)
       else
         var (r, out) := Manual.Shifted(row % 8, v.data, u.regs.f.c);
         Manual.Result8(u.(regs := u.regs.(f := Flags(r == 0, false, false, out))), i % 8, Known(r)))
  {
    hide GetReg, SetReg, Manual.Operand8, Manual.Result8, Shift, Manual.Shifted, AluLaws.Moved, FallsOut, Operand, ShiftOperation;
    OperandIs(t, i);
    var o := GetReg(t, Operand(i));
    if o.Ok? {
      var (v, u) := o.value;
      if v.undefined {
        UndefinedShiftStops(ShiftOperation(row), v, u.regs.f);
      } else {
        assert v == Known(v.data);
        ShiftMeans(ShiftOperation(row), v.data, u.regs.f);
        ShiftedIs(row, v.data, u.regs.f.c);
        var (r, out) := Manual.Shifted(row % 8, v.data, u.regs.f.c);
        ResultIs(u.(regs := u.regs.(f := Flags(r == 0, false, false, out))), i, Known(r));
      }
    }
  }

  lemma ProbeBitIs(t: Machine, y: nat, i: nat)
    requires y < 8
    ensures ProbeBit(t, y, Operand(i)) ==
      (var (v, u) :- Manual.Operand8(t, i % 8);
       if v.undefined then Err(UndefinedData)
       else Ok(u.(regs := u.regs.(f := Flags(!Bit(v.data, y), false, true, u.regs.f.c)))))
  {
    hide GetReg, Manual.Operand8, TestBit, Bit, Operand;
    OperandIs(t, i);
    var o := GetReg(t, Operand(i));
    if o.Ok? {
      var (v, u) := o.value;
      if v.undefined {
        UndefinedBitStops(v, y, u.regs.f);
      } else {
        assert v == Known(v.data);
        BitInstructions(v.data, y, 0, u.regs.f);
      }
    }
  }

  lemma AssignBitIs(t: Machine, y: nat, i: nat, on: bool)
    requires y < 8
    ensures AssignBit(t, y, Operand(i), on) ==
      (var (v, u) :- Manual.Operand8(t, i % 8);
       if v.undefined then Err(UndefinedData)
       else Manual.Result8(u, i % 8, Known(if on then Manual.Raised(v.data, y) else Manual.Cleared(v.data, y))))
  {
    hide GetReg, SetReg, Manual.Operand8, Manual.Result8, SetBit, ResetBit, Manual.Raised, Manual.Cleared, Operand;
    OperandIs(t, i);
    var o := GetReg(t, Operand(i));
    if o.Ok? {
      var (v, u) := o.value;
      if v.undefined {
        UndefinedBitStops(v, y, u.regs.f);
      } else {
        assert v == Known(v.data);
        BitsPutIs(v.data, y);
        ResultIs(u, i, Known(if on then Manual.Raised(v.data, y) else Manual.Cleared(v.data, y)));
      }
    }
  }

  lemma BitFields(arg: u8)
    ensures arg / 8 % 8 == (if arg < 0x40 then arg / 8 else if arg < 0x80 then (arg - 0x40) / 8 else if arg < 0xC0 then (arg - 0x80) / 8 else (arg - 0xC0) / 8)
  {
  }

  lemma BitPageIs(t: Machine)
    ensures ExecutePrefixed(t) == Manual.OnBitPage(t)
  {
    hide Fetch8, Manual.Next8, ShiftRegister, ProbeBit, AssignBit, Manual.Operand8, Manual.Result8, Manual.Shifted,
      Manual.Raised, Manual.Cleared, Bit, Operand, ShiftOperation;
    Next8Is(t);
    var o := Fetch8(t);
    if o.Ok? {
      var (arg, u) := o.value;
      BitFields(arg);
      ShiftRegisterIs(u, arg / 8, arg);
      ProbeBitIs(u, arg / 8 % 8, arg);
      AssignBitIs(u, arg / 8 % 8, arg, arg >= 0xC0);
    }
  }

  // ----- control -----

  lemma JumpToIs(t: Machine, nn: u16)
    ensures JumpTo(t, nn) == Manual.GoTo(Spend(t, 1), nn)
  {
  }

  lemma CallIs(t: Machine, nn: u16)
    ensures CallTo(t, nn) == Manual.CallNumber(t, nn)
  {
    hide WriteU8;
    var sp: u16 := (t.regs.sp - 2) % 0x10000;
    var u := WithRegs(Spend(t, 1), t.regs.(sp := sp));
    WriteKeepsRegisters(u, sp, Known(t.regs.pc % 0x100), true);
    var o := WriteU8(u, sp, Known(t.regs.pc % 0x100), true);
    if o.Ok? {
      WriteKeepsRegisters(o.value, Wrap16(sp as int + 1), Known(t.regs.pc / 0x100), true);
      var p := WriteU8(o.value, Wrap16(sp as int + 1), Known(t.regs.pc / 0x100), true);
      if p.Ok? {
        GoToIs(p.value, nn);
      }
    }
  }

  lemma ShadowEnds(v: seq<u16>)
    ensures Last(v) == Manual.FromEnd(v, 0) && DropLast(v) == Manual.Without(v, 1)
    ensures Last(DropLast(v)) == Manual.FromEnd(v, 1) && DropLast(DropLast(v)) == Manual.Without(v, 2)
  {
  }

  lemma ReturnIs(t: Machine)
    ensures Return(t) == Manual.ReturnNumber(t)
  {
    hide ReadU8, Last, DropLast, Manual.FromEnd, Manual.Without, SetPc, Manual.GoTo;
    ShadowEnds(t.pointers);
    ShadowEnds(t.expected);
    var u := t.(pointers := Manual.Without(t.pointers, 2), expected := Manual.Without(t.expected, 1));
    var sp := t.regs.sp;
    var high := ReadU8(u, Wrap16(sp as int + 1), false);
    DefinedReads(u, Wrap16(sp as int + 1));
    ReadKeepsRegisters(u, Wrap16(sp as int + 1), false);
    if high.Ok? {
      var low := ReadU8(high.value.1, sp, false);
      DefinedReads(high.value.1, sp);
      ReadKeepsRegisters(high.value.1, sp, false);
      if low.Ok? {
        var expected := Manual.FromEnd(t.expected, 0);
        GoToIs(Spend(low.value.1, 1).(regs := t.regs.(sp := Wrap16(sp as int + 2))), expected);
      }
    }
  }

  lemma JumpIs(t: Machine, cc: Option<Condition>, when: bool)
    requires when == (cc.Some? ==> cc.value.Holds(t.regs.f))
    ensures Jump(t, cc) == Manual.JumpAbsolute(t, when)
    ensures JumpRelative(t, cc) == Manual.JumpAhead(t, when)
    ensures Call(t, cc) == Manual.CallAbsolute(t, when)
  {
    hide Fetch8, Fetch16, Manual.Next8, Manual.Next16, JumpTo, Manual.GoTo, CallTo, Manual.CallNumber;
    Next8Is(t);
    Next16Is(t);
    FetchKeepsFlags(t);
    var o, p := Fetch8(t), Fetch16(t);
    if o.Ok? {
      JumpToIs(o.value.1, Wrap16(o.value.1.regs.pc + Signed8(o.value.0)));
    }
    if p.Ok? {
      JumpToIs(p.value.1, p.value.0);
      CallIs(p.value.1, p.value.0);
    }
  }

  lemma FetchKeepsFlags(t: Machine)
    ensures Fetch8(t).Ok? ==> Fetch8(t).value.1.regs.f == t.regs.f
    ensures Fetch16(t).Ok? ==> Fetch16(t).value.1.regs.f == t.regs.f
  {
    hide ReadU8;
    ReadKeepsRegisters(t.(regs := t.regs.(pc := Wrap16(t.regs.pc + 1))), t.regs.pc, false);
    ReadKeepsRegisters(t, Wrap16(t.regs.pc + 1), false);
    var high := ReadU8(t, Wrap16(t.regs.pc + 1), false);
    if high.Ok? {
      ReadKeepsRegisters(high.value.1, t.regs.pc, false);
    }
  }

  lemma JumpHlIs(t: Machine)
    ensures JumpHl(t) == (var hl :- Manual.Number(t.regs.h, t.regs.l); Manual.GoTo(t, hl))
    ensures LoadSp(t) ==
      (var t := Spend(t, 1); var hl :- Manual.Number(t.regs.h, t.regs.l); Ok(WithRegs(t, t.regs.(sp := hl))))
  {
  }

  // ----- opcodes, column by column -----

  lemma LoadImmediateIs(t: Machine, i: nat)
    ensures LoadImmediate(t, Operand(i)) == (var (n, u) :- Manual.Next8(t); Manual.Result8(u, i % 8, Known(n)))
  {
    hide Fetch8, Manual.Next8, SetReg, Manual.Result8, Operand;
    Next8Is(t);
    var o := Fetch8(t);
    if o.Ok? {
      ResultIs(o.value.1, i, Known(o.value.0));
    }
  }

  lemma LoadPairIs(t: Machine, i: nat)
    ensures LoadPair(t, Pair(i)) == (var (nn, u) :- Manual.Next16(t); Ok(WithRegs(u, Manual.WithPair16(u.regs, i % 4, nn))))
  {
    hide Fetch16, Manual.Next16, SetWord, Manual.WithPair16, Pair;
    Next16Is(t);
    var o := Fetch16(t);
    if o.Ok? {
      PairIs(o.value.1.regs, i, o.value.0);
    }
  }

  lemma MoveIs(t: Machine, i: nat, j: nat)
    ensures LoadRegister(t, Operand(i), Operand(j)) == (var (v, u) :- Manual.Operand8(t, j % 8); Manual.Result8(u, i % 8, v))
  {
    hide GetReg, SetReg, Manual.Operand8, Manual.Result8, Operand;
    OperandIs(t, j);
    var o := GetReg(t, Operand(j));
    if o.Ok? {
      ResultIs(o.value.1, i, o.value.0);
    }
  }

  lemma AccumulateIs(t: Machine, row: nat, i: nat)
    ensures AccumulateRegister(t, AluOperation(row), Operand(i)) ==
      (var (v, u) :- Manual.Operand8(t, i % 8); Manual.Combine(u, row % 8, v))
    ensures AccumulateImmediate(t, AluOperation(row)) ==
      (var (n, u) :- Manual.Next8(t); Manual.Combine(u, row % 8, Known(n)))
  {
    hide GetReg, Manual.Operand8, Accumulate, Manual.Combine, Operand, AluOperation, Fetch8, Manual.Next8;
    OperandIs(t, i);
    var o := GetReg(t, Operand(i));
    if o.Ok? {
      CombineIs(o.value.1, row, o.value.0);
    }
    Next8Is(t);
    var p := Fetch8(t);
    if p.Ok? {
      CombineIs(p.value.1, row, Known(p.value.0));
    }
  }

  lemma ConditionalsAre(t: Machine, i: nat)
    ensures var cc, when := ConditionCode(i), Manual.Met(i % 4, t.regs.f);
      && Jump(t, Some(cc)) == Manual.JumpAbsolute(t, when)
      && JumpRelative(t, Some(cc)) == Manual.JumpAhead(t, when)
      && Call(t, Some(cc)) == Manual.CallAbsolute(t, when)
      && ReturnIf(t, cc) == if when then Manual.ReturnNumber(Spend(t, 1)) else Ok(Spend(t, 1))
  {
    ReturnIs(Spend(t, 1));
    hide Jump, JumpRelative, Call, Return, Manual.ReturnNumber, Manual.JumpAbsolute, Manual.JumpAhead, Manual.CallAbsolute, ConditionCode, Manual.Met;
    ConditionIs(i, t.regs.f);
    JumpIs(t, Some(ConditionCode(i)), Manual.Met(i % 4, t.regs.f));
  }

  lemma UnconditionalsAre(t: Machine)
    ensures Jump(t, None) == Manual.JumpAbsolute(t, true)
    ensures JumpRelative(t, None) == Manual.JumpAhead(t, true)
    ensures Call(t, None) == Manual.CallAbsolute(t, true)
  {
    hide Jump, JumpRelative, Call, Manual.JumpAbsolute, Manual.JumpAhead, Manual.CallAbsolute;
    JumpIs(t, None, true);
  }

  lemma LowControl(t: Machine, op: u8)
    requires op < 0x40 && op % 8 == 0
    ensures Execute(t, Decode(op)) == Manual.Low(t, op)
  {
    hide LoadImmediate, LoadAbsolute, LoadRegister, SetReg, StoreAbsolute, LoadFromPort, StoreToPort, LoadAndMove,
      StoreAndMove, StoreHighPage, LoadHighPage, LoadPair, LoadSp, LoadHlFromSp, Processor.StoreSp, Push, Pop,
      AccumulateRegister, AccumulateImmediate, Bump, AddToHl, AddToSp, BumpPair, AdjustA, ComplementA,
      ExecutePrefixed, RotateA, Jump, JumpHl, JumpRelative, CallTo, Call, Return, ReturnIf,
      Manual.StoreSp, Manual.JumpAhead, Manual.AddPair, Manual.Next8, Manual.Next16, Manual.WithPair16, Manual.Indirect,
      Manual.CountPair, Manual.Count, Manual.Result8, Manual.RotateAccumulator, Manual.Adjust, Manual.Met,
      Manual.JumpAbsolute, Manual.CallAbsolute, Manual.ReturnNumber,
      Operand, Pair, PushPair, AluOperation, ShiftOperation, ConditionCode;
    StoreSpIs(t);
    UnconditionalsAre(t);
    ConditionalsAre(t, op / 8);
  }

  lemma LowPairs(t: Machine, op: u8)
    requires op < 0x40 && op % 8 == 1
    ensures Execute(t, Decode(op)) == Manual.Low(t, op)
  {
    hide LoadImmediate, LoadAbsolute, LoadRegister, SetReg, StoreAbsolute, LoadFromPort, StoreToPort, LoadAndMove,
      StoreAndMove, StoreHighPage, LoadHighPage, LoadPair, LoadSp, LoadHlFromSp, Processor.StoreSp, Push, Pop,
      AccumulateRegister, AccumulateImmediate, Bump, AddToHl, AddToSp, BumpPair, AdjustA, ComplementA,
      ExecutePrefixed, RotateA, Jump, JumpHl, JumpRelative, CallTo, Call, Return, ReturnIf,
      Manual.StoreSp, Manual.JumpAhead, Manual.AddPair, Manual.Next8, Manual.Next16, Manual.WithPair16, Manual.Indirect,
      Manual.CountPair, Manual.Count, Manual.Result8, Manual.RotateAccumulator, Manual.Adjust, Manual.Met,
      Manual.JumpAbsolute, Manual.CallAbsolute, Manual.ReturnNumber,
      Operand, Pair, PushPair, AluOperation, ShiftOperation, ConditionCode;
    AddPairIs(t, op / 0x10);
    LoadPairIs(t, op / 0x10);
  }

  lemma LowIndirect(t: Machine, op: u8)
    requires op < 0x40 && op % 8 == 2
    ensures Execute(t, Decode(op)) == Manual.Low(t, op)
  {
    hide LoadImmediate, LoadAbsolute, LoadRegister, SetReg, StoreAbsolute, LoadFromPort, StoreToPort, LoadAndMove,
      StoreAndMove, StoreHighPage, LoadHighPage, LoadPair, LoadSp, LoadHlFromSp, Processor.StoreSp, Push, Pop,
      AccumulateRegister, AccumulateImmediate, Bump, AddToHl, AddToSp, BumpPair, AdjustA, ComplementA,
      ExecutePrefixed, RotateA, Jump, JumpHl, JumpRelative, CallTo, Call, Return, ReturnIf,
      Manual.StoreSp, Manual.JumpAhead, Manual.AddPair, Manual.Next8, Manual.Next16, Manual.WithPair16, Manual.Indirect,
      Manual.CountPair, Manual.Count, Manual.Result8, Manual.RotateAccumulator, Manual.Adjust, Manual.Met,
      Manual.JumpAbsolute, Manual.CallAbsolute, Manual.ReturnNumber,
      Operand, Pair, PushPair, AluOperation, ShiftOperation, ConditionCode;
    StoreIndirectIs(t, if op == 0x02 then 0 else 1);
    LoadIndirectIs(t, if op == 0x0A then 0 else 1);
    MovingIs(t, op < 0x30);
  }

  lemma LowCountPairs(t: Machine, op: u8)
    requires op < 0x40 && op % 8 == 3
    ensures Execute(t, Decode(op)) == Manual.Low(t, op)
  {
    hide LoadImmediate, LoadAbsolute, LoadRegister, SetReg, StoreAbsolute, LoadFromPort, StoreToPort, LoadAndMove,
      StoreAndMove, StoreHighPage, LoadHighPage, LoadPair, LoadSp, LoadHlFromSp, Processor.StoreSp, Push, Pop,
      AccumulateRegister, AccumulateImmediate, Bump, AddToHl, AddToSp, BumpPair, AdjustA, ComplementA,
      ExecutePrefixed, RotateA, Jump, JumpHl, JumpRelative, CallTo, Call, Return, ReturnIf,
      Manual.StoreSp, Manual.JumpAhead, Manual.AddPair, Manual.Next8, Manual.Next16, Manual.WithPair16, Manual.Indirect,
      Manual.CountPair, Manual.Count, Manual.Result8, Manual.RotateAccumulator, Manual.Adjust, Manual.Met,
      Manual.JumpAbsolute, Manual.CallAbsolute, Manual.ReturnNumber,
      Operand, Pair, PushPair, AluOperation, ShiftOperation, ConditionCode;
    CountPairIs(t, op / 0x10, op / 8 % 2 == 0);
  }

  lemma LowCountUp(t: Machine, op: u8)
    requires op < 0x40 && op % 8 == 4
    ensures Execute(t, Decode(op)) == Manual.Low(t, op)
  {
    hide LoadImmediate, LoadAbsolute, LoadRegister, SetReg, StoreAbsolute, LoadFromPort, StoreToPort, LoadAndMove,
      StoreAndMove, StoreHighPage, LoadHighPage, LoadPair, LoadSp, LoadHlFromSp, Processor.StoreSp, Push, Pop,
      AccumulateRegister, AccumulateImmediate, Bump, AddToHl, AddToSp, BumpPair, AdjustA, ComplementA,
      ExecutePrefixed, RotateA, Jump, JumpHl, JumpRelative, CallTo, Call, Return, ReturnIf,
      Manual.StoreSp, Manual.JumpAhead, Manual.AddPair, Manual.Next8, Manual.Next16, Manual.WithPair16, Manual.Indirect,
      Manual.CountPair, Manual.Count, Manual.Result8, Manual.RotateAccumulator, Manual.Adjust, Manual.Met,
      Manual.JumpAbsolute, Manual.CallAbsolute, Manual.ReturnNumber,
      Operand, Pair, PushPair, AluOperation, ShiftOperation, ConditionCode;
    CountIs(t, op / 8, true);
  }

  lemma LowCountDown(t: Machine, op: u8)
    requires op < 0x40 && op % 8 == 5
    ensures Execute(t, Decode(op)) == Manual.Low(t, op)
  {
    hide LoadImmediate, LoadAbsolute, LoadRegister, SetReg, StoreAbsolute, LoadFromPort, StoreToPort, LoadAndMove,
      StoreAndMove, StoreHighPage, LoadHighPage, LoadPair, LoadSp, LoadHlFromSp, Processor.StoreSp, Push, Pop,
      AccumulateRegister, AccumulateImmediate, Bump, AddToHl, AddToSp, BumpPair, AdjustA, ComplementA,
      ExecutePrefixed, RotateA, Jump, JumpHl, JumpRelative, CallTo, Call, Return, ReturnIf,
      Manual.StoreSp, Manual.JumpAhead, Manual.AddPair, Manual.Next8, Manual.Next16, Manual.WithPair16, Manual.Indirect,
      Manual.CountPair, Manual.Count, Manual.Result8, Manual.RotateAccumulator, Manual.Adjust, Manual.Met,
      Manual.JumpAbsolute, Manual.CallAbsolute, Manual.ReturnNumber,
      Operand, Pair, PushPair, AluOperation, ShiftOperation, ConditionCode;
    CountIs(t, op / 8, false);
  }

  lemma LowImmediate(t: Machine, op: u8)
    requires op < 0x40 && op % 8 == 6
    ensures Execute(t, Decode(op)) == Manual.Low(t, op)
  {
    hide LoadImmediate, LoadAbsolute, LoadRegister, SetReg, StoreAbsolute, LoadFromPort, StoreToPort, LoadAndMove,
      StoreAndMove, StoreHighPage, LoadHighPage, LoadPair, LoadSp, LoadHlFromSp, Processor.StoreSp, Push, Pop,
      AccumulateRegister, AccumulateImmediate, Bump, AddToHl, AddToSp, BumpPair, AdjustA, ComplementA,
      ExecutePrefixed, RotateA, Jump, JumpHl, JumpRelative, CallTo, Call, Return, ReturnIf,
      Manual.StoreSp, Manual.JumpAhead, Manual.AddPair, Manual.Next8, Manual.Next16, Manual.WithPair16, Manual.Indirect,
      Manual.CountPair, Manual.Count, Manual.Result8, Manual.RotateAccumulator, Manual.Adjust, Manual.Met,
      Manual.JumpAbsolute, Manual.CallAbsolute, Manual.ReturnNumber,
      Operand, Pair, PushPair, AluOperation, ShiftOperation, ConditionCode;
    LoadImmediateIs(t, op / 8);
  }

  lemma LowAccumulator(t: Machine, op: u8)
    requires op < 0x40 && op % 8 == 7
    ensures Execute(t, Decode(op)) == Manual.Low(t, op)
  {
    hide LoadImmediate, LoadAbsolute, LoadRegister, SetReg, StoreAbsolute, LoadFromPort, StoreToPort, LoadAndMove,
      StoreAndMove, StoreHighPage, LoadHighPage, LoadPair, LoadSp, LoadHlFromSp, Processor.StoreSp, Push, Pop,
      AccumulateRegister, AccumulateImmediate, Bump, AddToHl, AddToSp, BumpPair, AdjustA, ComplementA,
      ExecutePrefixed, RotateA, Jump, JumpHl, JumpRelative, CallTo, Call, Return, ReturnIf,
      Manual.StoreSp, Manual.JumpAhead, Manual.AddPair, Manual.Next8, Manual.Next16, Manual.WithPair16, Manual.Indirect,
      Manual.CountPair, Manual.Count, Manual.Result8, Manual.RotateAccumulator, Manual.Adjust, Manual.Met,
      Manual.JumpAbsolute, Manual.CallAbsolute, Manual.ReturnNumber,
      Operand, Pair, PushPair, AluOperation, ShiftOperation, ConditionCode;
    if op < 0x20 {
      RotateAccumulatorIs(t, op / 8);
    } else {
      AdjustIs(t);
      ComplementIs(t);
    }
  }

  lemma ComplementIs(t: Machine)
    ensures ComplementA(t) == Manual.Settle(t, 5)
  {
  }

  lemma HighReturns(t: Machine, op: u8)
    requires op >= 0xC0 && op % 8 == 0
    ensures Execute(t, Decode(op)) == Manual.High(t, op)
  {
    hide LoadImmediate, LoadAbsolute, LoadRegister, SetReg, StoreAbsolute, LoadFromPort, StoreToPort, LoadAndMove,
      StoreAndMove, StoreHighPage, LoadHighPage, LoadPair, LoadSp, LoadHlFromSp, Processor.StoreSp, Push, Pop,
      AccumulateRegister, AccumulateImmediate, Bump, AddToHl, AddToSp, BumpPair, AdjustA, ComplementA,
      ExecutePrefixed, RotateA, Jump, JumpHl, JumpRelative, CallTo, Call, Return, ReturnIf,
      Manual.HighPage, Manual.Offset, Manual.PopHalves, Manual.GoTo, Manual.Number, Manual.Port, Manual.Direct,
      Manual.JumpAbsolute, Manual.OnBitPage, Manual.CallAbsolute, Manual.PushHalves, Manual.Next8, Manual.Combine, Manual.Met, Manual.CallNumber, Manual.ReturnNumber,
      Operand, Pair, PushPair, AluOperation, ShiftOperation, ConditionCode;
    HighPageIs(t);
    OffsetIs(t);
    ConditionalsAre(t, op / 8);
  }

  lemma HighPops(t: Machine, op: u8)
    requires op >= 0xC0 && op % 8 == 1
    ensures Execute(t, Decode(op)) == Manual.High(t, op)
  {
    hide LoadImmediate, LoadAbsolute, LoadRegister, SetReg, StoreAbsolute, LoadFromPort, StoreToPort, LoadAndMove,
      StoreAndMove, StoreHighPage, LoadHighPage, LoadPair, LoadSp, LoadHlFromSp, Processor.StoreSp, Push, Pop,
      AccumulateRegister, AccumulateImmediate, Bump, AddToHl, AddToSp, BumpPair, AdjustA, ComplementA,
      ExecutePrefixed, RotateA, Jump, JumpHl, JumpRelative, CallTo, Call, Return, ReturnIf,
      Manual.HighPage, Manual.Offset, Manual.PopHalves, Manual.GoTo, Manual.Number, Manual.Port, Manual.Direct,
      Manual.JumpAbsolute, Manual.OnBitPage, Manual.CallAbsolute, Manual.PushHalves, Manual.Next8, Manual.Combine, Manual.Met, Manual.CallNumber, Manual.ReturnNumber,
      Operand, Pair, PushPair, AluOperation, ShiftOperation, ConditionCode;
    PopIs(t, op / 0x10);
    JumpHlIs(t);
    ReturnIs(t);
    ReturnIs(t.(regs := t.regs.(ime := Ime(true, true, true))));
  }

  lemma HighJumps(t: Machine, op: u8)
    requires op >= 0xC0 && op % 8 == 2
    ensures Execute(t, Decode(op)) == Manual.High(t, op)
  {
    hide LoadImmediate, LoadAbsolute, LoadRegister, SetReg, StoreAbsolute, LoadFromPort, StoreToPort, LoadAndMove,
      StoreAndMove, StoreHighPage, LoadHighPage, LoadPair, LoadSp, LoadHlFromSp, Processor.StoreSp, Push, Pop,
      AccumulateRegister, AccumulateImmediate, Bump, AddToHl, AddToSp, BumpPair, AdjustA, ComplementA,
      ExecutePrefixed, RotateA, Jump, JumpHl, JumpRelative, CallTo, Call, Return, ReturnIf,
      Manual.HighPage, Manual.Offset, Manual.PopHalves, Manual.GoTo, Manual.Number, Manual.Port, Manual.Direct,
      Manual.JumpAbsolute, Manual.OnBitPage, Manual.CallAbsolute, Manual.PushHalves, Manual.Next8, Manual.Combine, Manual.Met, Manual.CallNumber, Manual.ReturnNumber,
      Operand, Pair, PushPair, AluOperation, ShiftOperation, ConditionCode;
    PortIs(t);
    DirectIs(t);
    ConditionalsAre(t, op / 8);
  }

  lemma HighSwitches(t: Machine, op: u8)
    requires op >= 0xC0 && op % 8 == 3
    ensures Execute(t, Decode(op)) == Manual.High(t, op)
  {
    hide LoadImmediate, LoadAbsolute, LoadRegister, SetReg, StoreAbsolute, LoadFromPort, StoreToPort, LoadAndMove,
      StoreAndMove, StoreHighPage, LoadHighPage, LoadPair, LoadSp, LoadHlFromSp, Processor.StoreSp, Push, Pop,
      AccumulateRegister, AccumulateImmediate, Bump, AddToHl, AddToSp, BumpPair, AdjustA, ComplementA,
      ExecutePrefixed, RotateA, Jump, JumpHl, JumpRelative, CallTo, Call, Return, ReturnIf,
      Manual.HighPage, Manual.Offset, Manual.PopHalves, Manual.GoTo, Manual.Number, Manual.Port, Manual.Direct,
      Manual.JumpAbsolute, Manual.OnBitPage, Manual.CallAbsolute, Manual.PushHalves, Manual.Next8, Manual.Combine, Manual.Met, Manual.CallNumber, Manual.ReturnNumber,
      Operand, Pair, PushPair, AluOperation, ShiftOperation, ConditionCode;
    UnconditionalsAre(t);
    BitPageIs(t);
  }

  lemma HighCalls(t: Machine, op: u8)
    requires op >= 0xC0 && op % 8 == 4
    ensures Execute(t, Decode(op)) == Manual.High(t, op)
  {
    hide LoadImmediate, LoadAbsolute, LoadRegister, SetReg, StoreAbsolute, LoadFromPort, StoreToPort, LoadAndMove,
      StoreAndMove, StoreHighPage, LoadHighPage, LoadPair, LoadSp, LoadHlFromSp, Processor.StoreSp, Push, Pop,
      AccumulateRegister, AccumulateImmediate, Bump, AddToHl, AddToSp, BumpPair, AdjustA, ComplementA,
      ExecutePrefixed, RotateA, Jump, JumpHl, JumpRelative, CallTo, Call, Return, ReturnIf,
      Manual.HighPage, Manual.Offset, Manual.PopHalves, Manual.GoTo, Manual.Number, Manual.Port, Manual.Direct,
      Manual.JumpAbsolute, Manual.OnBitPage, Manual.CallAbsolute, Manual.PushHalves, Manual.Next8, Manual.Combine, Manual.Met, Manual.CallNumber, Manual.ReturnNumber,
      Operand, Pair, PushPair, AluOperation, ShiftOperation, ConditionCode;
    ConditionalsAre(t, op / 8);
  }

  lemma HighPushes(t: Machine, op: u8)
    requires op >= 0xC0 && op % 8 == 5
    ensures Execute(t, Decode(op)) == Manual.High(t, op)
  {
    hide LoadImmediate, LoadAbsolute, LoadRegister, SetReg, StoreAbsolute, LoadFromPort, StoreToPort, LoadAndMove,
      StoreAndMove, StoreHighPage, LoadHighPage, LoadPair, LoadSp, LoadHlFromSp, Processor.StoreSp, Push, Pop,
      AccumulateRegister, AccumulateImmediate, Bump, AddToHl, AddToSp, BumpPair, AdjustA, ComplementA,
      ExecutePrefixed, RotateA, Jump, JumpHl, JumpRelative, CallTo, Call, Return, ReturnIf,
      Manual.HighPage, Manual.Offset, Manual.PopHalves, Manual.GoTo, Manual.Number, Manual.Port, Manual.Direct,
      Manual.JumpAbsolute, Manual.OnBitPage, Manual.CallAbsolute, Manual.PushHalves, Manual.Next8, Manual.Combine, Manual.Met, Manual.CallNumber, Manual.ReturnNumber,
      Operand, Pair, PushPair, AluOperation, ShiftOperation, ConditionCode;
    PushIs(t, op / 0x10);
    UnconditionalsAre(t);
  }

  lemma HighImmediate(t: Machine, op: u8)
    requires op >= 0xC0 && op % 8 == 6
    ensures Execute(t, Decode(op)) == Manual.High(t, op)
  {
    hide LoadImmediate, LoadAbsolute, LoadRegister, SetReg, StoreAbsolute, LoadFromPort, StoreToPort, LoadAndMove,
      StoreAndMove, StoreHighPage, LoadHighPage, LoadPair, LoadSp, LoadHlFromSp, Processor.StoreSp, Push, Pop,
      AccumulateRegister, AccumulateImmediate, Bump, AddToHl, AddToSp, BumpPair, AdjustA, ComplementA,
      ExecutePrefixed, RotateA, Jump, JumpHl, JumpRelative, CallTo, Call, Return, ReturnIf,
      Manual.HighPage, Manual.Offset, Manual.PopHalves, Manual.GoTo, Manual.Number, Manual.Port, Manual.Direct,
      Manual.JumpAbsolute, Manual.OnBitPage, Manual.CallAbsolute, Manual.PushHalves, Manual.Next8, Manual.Combine, Manual.Met, Manual.CallNumber, Manual.ReturnNumber,
      Operand, Pair, PushPair, AluOperation, ShiftOperation, ConditionCode;
    AccumulateIs(t, op / 8, 0);
  }

  lemma HighRestarts(t: Machine, op: u8)
    requires op >= 0xC0 && op % 8 == 7
    ensures Execute(t, Decode(op)) == Manual.High(t, op)
  {
    hide LoadImmediate, LoadAbsolute, LoadRegister, SetReg, StoreAbsolute, LoadFromPort, StoreToPort, LoadAndMove,
      StoreAndMove, StoreHighPage, LoadHighPage, LoadPair, LoadSp, LoadHlFromSp, Processor.StoreSp, Push, Pop,
      AccumulateRegister, AccumulateImmediate, Bump, AddToHl, AddToSp, BumpPair, AdjustA, ComplementA,
      ExecutePrefixed, RotateA, Jump, JumpHl, JumpRelative, CallTo, Call, Return, ReturnIf,
      Manual.HighPage, Manual.Offset, Manual.PopHalves, Manual.GoTo, Manual.Number, Manual.Port, Manual.Direct,
      Manual.JumpAbsolute, Manual.OnBitPage, Manual.CallAbsolute, Manual.PushHalves, Manual.Next8, Manual.Combine, Manual.Met, Manual.CallNumber, Manual.ReturnNumber,
      Operand, Pair, PushPair, AluOperation, ShiftOperation, ConditionCode;
    assert op - 0xC7 == 8 * (op / 8 % 8);
    CallIs(t, op - 0xC7);
  }

  lemma MiddleIs(t: Machine, op: u8)
    requires 0x40 <= op < 0xC0
    ensures Execute(t, Decode(op)) == Manual.Does(t, op)
  {
    hide LoadImmediate, LoadAbsolute, LoadRegister, SetReg, StoreAbsolute, LoadFromPort, StoreToPort, LoadAndMove,
      StoreAndMove, StoreHighPage, LoadHighPage, LoadPair, LoadSp, LoadHlFromSp, Processor.StoreSp, Push, Pop,
      AccumulateRegister, AccumulateImmediate, Bump, AddToHl, AddToSp, BumpPair, AdjustA, ComplementA,
      ExecutePrefixed, RotateA, Jump, JumpHl, JumpRelative, CallTo, Call, Return, ReturnIf,
      Manual.Operand8, Manual.Result8, Manual.Combine, Operand, AluOperation;
    if op < 0x80 {
      if op % 8 == 7 && op != 0x7F {
        FromAIs(t, op / 8);
      } else {
        MoveIs(t, op / 8, op);
      }
    } else {
      AccumulateIs(t, op / 8, op);
    }
  }

  lemma FromAIs(t: Machine, i: nat)
    ensures SetReg(t, Operand(i), t.regs.a) == (var (v, u) :- Manual.Operand8(t, 7); Manual.Result8(u, i % 8, v))
  {
    hide SetReg, Manual.Result8, Operand;
    ResultIs(t, i, t.regs.a);
  }

  lemma DoesIs(t: Machine, op: u8)
    ensures Execute(t, Decode(op)) == Manual.Does(t, op)
  {
    if 0x40 <= op < 0xC0 {
      MiddleIs(t, op);
    } else {
      hide Execute, Decode, Manual.Low, Manual.High;
      var column := op % 8;
      if op < 0x40 {
        if column == 0 {
          LowControl(t, op);
        } else if column == 1 {
          LowPairs(t, op);
        } else if column == 2 {
          LowIndirect(t, op);
        } else if column == 3 {
          LowCountPairs(t, op);
        } else if column == 4 {
          LowCountUp(t, op);
        } else if column == 5 {
          LowCountDown(t, op);
        } else if column == 6 {
          LowImmediate(t, op);
        } else {
          LowAccumulator(t, op);
        }
      } else {
        if column == 0 {
          HighReturns(t, op);
        } else if column == 1 {
          HighPops(t, op);
        } else if column == 2 {
          HighJumps(t, op);
        } else if column == 3 {
          HighSwitches(t, op);
        } else if column == 4 {
          HighCalls(t, op);
        } else if column == 5 {
          HighPushes(t, op);
        } else if column == 6 {
          HighImmediate(t, op);
        } else {
          HighRestarts(t, op);
        }
      }
    }
  }

  /** Whatever byte the program counter points at, the processor does what the manual says of it: the same
      error, or the same registers, flags, memory, cycles and shadow stack. */
  lemma ProcessorConforms(s: Machine)
    ensures ProcessNextInstruction(s) == Manual.Step(s)
  {
    hide Fetch8, Manual.Next8, Execute, Decode, Manual.Does;
    Next8Is(s);
    var o := Fetch8(s);
    if o.Ok? {
      DoesIs(o.value.1, o.value.0);
    }
  }
}
