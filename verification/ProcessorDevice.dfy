/** The processor as the object it is.  Each method computes the function of the same name in Processor:
    it stops with that function's error, or leaves the machine in that function's result. */
module ProcessorDevice {
  import opened Outcomes
  import opened Bits
  import opened CheckedInt
  import opened Registers
  import opened Alu
  import opened AudioInvariants
  import opened PictureDevice
  import opened IoBlock
  import opened IoDevice
  import opened AddressBus
  import opened MemoryDevice
  import opened Picture
  import opened Processor
  import opened InterruptLine
  import Cartridges
  import opened Evolution
  import opened Runs
  import Console

  class CPU {
    const memoryMap: MemoryMap
    const io: IO
    var registers: CpuRegisters
    var returnAddressPointers: seq<u16>
    var expectedReturnAddresses: seq<u16>

    constructor (memoryMap: MemoryMap)
      requires memoryMap.Valid()
      ensures Valid() && this.memoryMap == memoryMap
      ensures View() == Machine(INITIAL_REGISTERS, memoryMap.View(), [], [])
    {
      this.memoryMap := memoryMap;
      io := memoryMap.io;
      registers := INITIAL_REGISTERS;
      returnAddressPointers, expectedReturnAddresses := [], [];
    }

    ghost function Repr(): set<object> {
      {this} + memoryMap.Repr()
    }

    ghost predicate Valid()
      reads Repr()
    {
      memoryMap.Valid() && io == memoryMap.io
    }

    ghost function View(): Machine
      requires Valid()
      reads Repr()
    {
      Machine(registers, memoryMap.View(), returnAddressPointers, expectedReturnAddresses)
    }

    /** The method stopped with the error of `spec`, or left the machine it describes. */
    ghost predicate Follows(o: Outcome<()>, spec: Outcome<Machine>)
      requires Valid()
      reads Repr()
    {
      match spec
      case Ok(s) => o == Ok(()) && View() == s
      case Err(e) => o == Err(e)
    }

    ghost predicate Yields<T>(o: Outcome<T>, spec: Outcome<(T, Machine)>)
      requires Valid()
      reads Repr()
    {
      match spec
      case Ok((v, s)) => o == Ok(v) && View() == s
      case Err(e) => o == Err(e)
    }

    // ----- state changes that cannot fail -----

    method Pass(cycles: nat)
      requires Valid()
      modifies Repr()
      ensures Valid() && View() == Spend(old(View()), cycles)
      ensures registers == old(registers)
      ensures returnAddressPointers == old(returnAddressPointers) && expectedReturnAddresses == old(expectedReturnAddresses)
    {
      hide ApuInv;
      io.Tick(cycles);
    }

    method Put(regs: CpuRegisters)
      requires Valid()
      modifies this`registers
      ensures Valid() && View() == WithRegs(old(View()), regs) && registers == regs
    {
      registers := regs;
    }

    // ----- checked memory accesses -----

    method IsBlocked(addr: u16) returns (blocked: bool)
      requires Valid()
      ensures Valid() && View() == old(View()) && blocked == DmaBlocks(View(), addr)
    {
      hide ApuInv;
      var busy := io.IsInDMA();
      blocked := !(0xFF80 <= addr <= 0xFFFE) && busy;
    }

    method ReadBus(addr: u16) returns (o: Outcome<Byte>)
      requires Valid()
      modifies Repr()
      ensures Valid() && registers == old(registers) && returnAddressPointers == old(returnAddressPointers)
      ensures match AddressBus.Read(old(View()).bus, addr, false)
              case Ok((v, b)) => o == Ok(v) && View() == old(View()).(bus := b)
              case Err(e) => o == Err(e)
    {
      hide AddressBus.Read, ApuInv;
      o := memoryMap.Read(addr, false);
    }

    method WriteBus(addr: u16, v: Byte) returns (o: Outcome<()>)
      requires Valid()
      modifies Repr()
      ensures Valid() && registers == old(registers)
      ensures match AddressBus.Write(old(View()).bus, addr, v, false)
              case Ok(b) => o == Ok(()) && View() == old(View()).(bus := b)
              case Err(e) => o == Err(e)
    {
      hide AddressBus.Write, ApuInv;
      o := memoryMap.Write(addr, v, false);
    }

    method ReadU8(addr: u16, allowUndefined: bool) returns (o: Outcome<Byte>)
      requires Valid()
      modifies Repr()
      ensures Valid() && Yields(o, Processor.ReadU8(old(View()), addr, allowUndefined))
    {
      hide AddressBus.Read, DmaBlocks, MemoryMap.View, MemoryMap.Valid, MemoryMap.Repr;
      Pass(1);
      var blocked := IsBlocked(addr);
      if blocked {
        return Err(DmaBusConflict);
      }
      var v :- ReadBus(addr);
      if !allowUndefined && v.undefined {
        return Err(UndefinedData);
      }
      if addr in returnAddressPointers {
        return Err(ReadingReturnAddress);
      }
      o := Ok(v);
    }

    method ReadU16(addr: u16, allowPartial: bool) returns (o: Outcome<Word>)
      requires Valid()
      modifies Repr()
      ensures Valid() && Yields(o, Processor.ReadU16(old(View()), addr, allowPartial))
    {
      hide Processor.ReadU8, MemoryMap.View, MemoryMap.Valid, MemoryMap.Repr;
      var upper :- ReadU8(Wrap16(addr + 1), allowPartial);
      var lower :- ReadU8(addr, allowPartial);
      var w := Word(upper, lower);
      if Unusable(w, allowPartial) {
        return Err(UndefinedData);
      }
      o := Ok(w);
    }

    method WriteU8(addr: u16, v: Byte, allowUndefined: bool) returns (o: Outcome<()>)
      requires Valid()
      modifies Repr()
      ensures Valid() && Follows(o, Processor.WriteU8(old(View()), addr, v, allowUndefined))
    {
      hide AddressBus.Write, DmaBlocks, MemoryMap.View, MemoryMap.Valid, MemoryMap.Repr;
      Pass(1);
      var blocked := IsBlocked(addr);
      if blocked {
        return Err(DmaBusConflict);
      }
      if !allowUndefined && v.undefined {
        return Err(UndefinedData);
      }
      if addr in returnAddressPointers {
        return Err(ClobberedReturnAddress);
      }
      o := WriteBus(addr, v);
    }

    method WriteU16(addr: u16, w: Word, allowPartial: bool) returns (o: Outcome<()>)
      requires Valid()
      modifies Repr()
      ensures Valid() && Follows(o, Processor.WriteU16(old(View()), addr, w, allowPartial))
    {
      hide Processor.WriteU8, MemoryMap.View, MemoryMap.Valid, MemoryMap.Repr;
      if Unusable(w, allowPartial) {
        return Err(UndefinedData);
      }
      var _ :- WriteU8(addr, w.lower, allowPartial);
      o := WriteU8(Wrap16(addr + 1), w.upper, allowPartial);
    }

    method AdvancePC1Byte() returns (o: Outcome<u8>)
      requires Valid()
      modifies Repr()
      ensures Valid() && Yields(o, Fetch8(old(View())))
    {
      hide Processor.ReadU8, MemoryMap.View, MemoryMap.Valid, MemoryMap.Repr;
      var pc := registers.pc;
      var regs :- SetPc(registers, Wrap16(pc as int + 1));
      Put(regs);
      var v :- ReadU8(pc, false);
      var n :- Decay(v);
      o := Ok(n);
    }

    method AdvancePC2Bytes() returns (o: Outcome<u16>)
      requires Valid()
      modifies Repr()
      ensures Valid() && Yields(o, Fetch16(old(View())))
    {
      hide Processor.ReadU16, MemoryMap.View, MemoryMap.Valid, MemoryMap.Repr;
      var w :- ReadU16(registers.pc, false);
      var regs :- SetPc(registers, Wrap16(registers.pc + 2));
      Put(regs);
      var n :- DecayWord(w);
      o := Ok(n);
    }

    // ----- register operands -----

    method GetRegU8(r: R8) returns (o: Outcome<Byte>)
      requires Valid()
      modifies Repr()
      ensures Valid() && Yields(o, GetReg(old(View()), r))
    {
      hide ReadPointer, MemoryMap.View, MemoryMap.Valid, MemoryMap.Repr;
      match r
      case A => o := Ok(registers.a);
      case B => o := Ok(registers.b);
      case C => o := Ok(registers.c);
      case D => o := Ok(registers.d);
      case E => o := Ok(registers.e);
      case H => o := Ok(registers.h);
      case L => o := Ok(registers.l);
      case HL_ptr => o := ReadThrough(HL);
      case BC_ptr => o := ReadThrough(BC);
      case DE_ptr => o := ReadThrough(DE);
    }

    method ReadThrough(which: R16) returns (o: Outcome<Byte>)
      requires Valid()
      modifies Repr()
      ensures Valid() && Yields(o, ReadPointer(old(View()), which))
    {
      hide Processor.ReadU8, MemoryMap.View, MemoryMap.Valid, MemoryMap.Repr;
      var addr :- DecayWord(GetWord(registers, which));
      o := ReadU8(addr, false);
    }

    method SetRegU8(r: R8, v: Byte) returns (o: Outcome<()>)
      requires Valid()
      modifies Repr()
      ensures Valid() && Follows(o, SetReg(old(View()), r, v))
    {
      hide WritePointer, MemoryMap.View, MemoryMap.Valid, MemoryMap.Repr;
      match r {
        case A => Put(registers.(a := v));
        case B => Put(registers.(b := v));
        case C => Put(registers.(c := v));
        case D => Put(registers.(d := v));
        case E => Put(registers.(e := v));
        case H => Put(registers.(h := v));
        case L => Put(registers.(l := v));
        case HL_ptr =>
          o := WriteThrough(HL, v);
          return;
        case BC_ptr =>
          o := WriteThrough(BC, v);
          return;
        case DE_ptr =>
          o := WriteThrough(DE, v);
          return;
      }
      o := Ok(());
    }

    method WriteThrough(which: R16, v: Byte) returns (o: Outcome<()>)
      requires Valid()
      modifies Repr()
      ensures Valid() && Follows(o, WritePointer(old(View()), which, v))
    {
      hide Processor.WriteU8, MemoryMap.View, MemoryMap.Valid, MemoryMap.Repr;
      var addr :- DecayWord(GetWord(registers, which));
      o := WriteU8(addr, v, false);
    }

    method SetRegU16(rr: R16, w: Word) returns (o: Outcome<()>)
      requires Valid()
      modifies Repr()
      ensures Valid() && Follows(o, SetReg16(old(View()), rr, w))
    {
      hide SetWord, MemoryMap.View, MemoryMap.Valid, MemoryMap.Repr;
      var regs :- SetWord(registers, rr, w);
      Put(regs);
      o := Ok(());
    }

    // ----- loads -----

    method LoadImmediate(r: R8) returns (o: Outcome<()>)
      requires Valid()
      modifies Repr()
      ensures Valid() && Follows(o, Processor.LoadImmediate(old(View()), r))
    {
      hide Fetch8, SetReg, MemoryMap.View, MemoryMap.Valid, MemoryMap.Repr;
      var n :- AdvancePC1Byte();
      o := SetRegU8(r, Known(n));
    }

    method LoadAbsolute(r: R8) returns (o: Outcome<()>)
      requires Valid()
      modifies Repr()
      ensures Valid() && Follows(o, Processor.LoadAbsolute(old(View()), r))
    {
      hide Fetch16, Processor.ReadU8, SetReg, MemoryMap.View, MemoryMap.Valid, MemoryMap.Repr;
      var nn :- AdvancePC2Bytes();
      var v :- ReadU8(nn, false);
      o := SetRegU8(r, v);
    }

    method LoadRegister(dst: R8, src: R8) returns (o: Outcome<()>)
      requires Valid()
      modifies Repr()
      ensures Valid() && Follows(o, Processor.LoadRegister(old(View()), dst, src))
    {
      hide GetReg, SetReg, MemoryMap.View, MemoryMap.Valid, MemoryMap.Repr;
      var v :- GetRegU8(src);
      o := SetRegU8(dst, v);
    }

    method StoreAbsolute() returns (o: Outcome<()>)
      requires Valid()
      modifies Repr()
      ensures Valid() && Follows(o, Processor.StoreAbsolute(old(View())))
    {
      hide Fetch16, Processor.WriteU8, MemoryMap.View, MemoryMap.Valid, MemoryMap.Repr;
      var nn :- AdvancePC2Bytes();
      o := WriteU8(nn, registers.a, false);
    }

    method LoadA(addr: u16) returns (o: Outcome<()>)
      requires Valid()
      modifies Repr()
      ensures Valid() && Follows(o, Processor.LoadA(old(View()), addr))
    {
      hide Processor.ReadU8, SetReg, MemoryMap.View, MemoryMap.Valid, MemoryMap.Repr;
      var v :- ReadU8(addr, false);
      o := SetRegU8(A, v);
    }

    method LoadFromPort() returns (o: Outcome<()>)
      requires Valid()
      modifies Repr()
      ensures Valid() && Follows(o, Processor.LoadFromPort(old(View())))
    {
      hide Processor.LoadA, MemoryMap.View, MemoryMap.Valid, MemoryMap.Repr;
      var addr :- DecayWord(Word(Known(0xFF), registers.c));
      o := LoadA(addr);
    }

    method StoreToPort() returns (o: Outcome<()>)
      requires Valid()
      modifies Repr()
      ensures Valid() && Follows(o, Processor.StoreToPort(old(View())))
    {
      hide Processor.WriteU8, MemoryMap.View, MemoryMap.Valid, MemoryMap.Repr;
      var addr :- DecayWord(Word(Known(0xFF), registers.c));
      o := WriteU8(addr, registers.a, false);
    }

    method LoadAndMove(up: bool) returns (o: Outcome<()>)
      requires Valid()
      modifies Repr()
      ensures Valid() && Follows(o, Processor.LoadAndMove(old(View()), up))
    {
      hide Processor.LoadA, SetReg16, GetWord, Moved, MemoryMap.View, MemoryMap.Valid, MemoryMap.Repr;
      var hl := GetWord(registers, HL);
      var addr :- DecayWord(hl);
      var _ :- LoadA(addr);
      var hl' :- Moved(hl, up);
      o := SetRegU16(HL, hl');
    }

    method StoreAndMove(up: bool) returns (o: Outcome<()>)
      requires Valid()
      modifies Repr()
      ensures Valid() && Follows(o, Processor.StoreAndMove(old(View()), up))
    {
      hide Processor.WriteU8, SetReg16, GetWord, Moved, MemoryMap.View, MemoryMap.Valid, MemoryMap.Repr;
      var hl := GetWord(registers, HL);
      var addr :- DecayWord(hl);
      var _ :- WriteU8(addr, registers.a, false);
      var hl' :- Moved(hl, up);
      o := SetRegU16(HL, hl');
    }

    method StoreHighPage() returns (o: Outcome<()>)
      requires Valid()
      modifies Repr()
      ensures Valid() && Follows(o, Processor.StoreHighPage(old(View())))
    {
      hide Fetch8, Processor.WriteU8, MemoryMap.View, MemoryMap.Valid, MemoryMap.Repr;
      var n :- AdvancePC1Byte();
      o := WriteU8(0xFF00 + n as int, registers.a, false);
    }

    method LoadHighPage() returns (o: Outcome<()>)
      requires Valid()
      modifies Repr()
      ensures Valid() && Follows(o, Processor.LoadHighPage(old(View())))
    {
      hide Fetch8, Processor.LoadA, MemoryMap.View, MemoryMap.Valid, MemoryMap.Repr;
      var n :- AdvancePC1Byte();
      o := LoadA(0xFF00 + n as int);
    }

    method LoadPair(rr: R16) returns (o: Outcome<()>)
      requires Valid()
      modifies Repr()
      ensures Valid() && Follows(o, Processor.LoadPair(old(View()), rr))
    {
      hide Fetch16, SetReg16, MemoryMap.View, MemoryMap.Valid, MemoryMap.Repr;
      var nn :- AdvancePC2Bytes();
      o := SetRegU16(rr, KnownWord(nn));
    }

    method LoadSp() returns (o: Outcome<()>)
      requires Valid()
      modifies Repr()
      ensures Valid() && Follows(o, Processor.LoadSp(old(View())))
    {
      hide SetReg16, GetWord, MemoryMap.View, MemoryMap.Valid, MemoryMap.Repr;
      Pass(1);
      o := SetRegU16(SP, GetWord(registers, HL));
    }

    method StoreSp() returns (o: Outcome<()>)
      requires Valid()
      modifies Repr()
      ensures Valid() && Follows(o, Processor.StoreSp(old(View())))
    {
      hide Fetch16, Processor.WriteU16, GetWord, MemoryMap.View, MemoryMap.Valid, MemoryMap.Repr;
      var nn :- AdvancePC2Bytes();
      o := WriteU16(nn, GetWord(registers, SP), false);
    }

    method OffsetSp(n: u8) returns (o: Outcome<Word>)
      requires Valid()
      modifies Repr()
      ensures Valid() && Yields(o, Processor.OffsetSp(old(View()), n))
    {
      hide AddSigned, GetWord, MemoryMap.View, MemoryMap.Valid, MemoryMap.Repr;
      Pass(1);
      var r :- AddSigned(GetWord(registers, SP), Known(n));
      Put(registers.(f := r.f));
      o := Ok(r.value);
    }

    method LoadHlFromSp() returns (o: Outcome<()>)
      requires Valid()
      modifies Repr()
      ensures Valid() && Follows(o, Processor.LoadHlFromSp(old(View())))
    {
      hide Fetch8, Processor.OffsetSp, SetReg16, MemoryMap.View, MemoryMap.Valid, MemoryMap.Repr;
      var n :- AdvancePC1Byte();
      var w :- OffsetSp(n);
      o := SetRegU16(HL, w);
    }

    method AddToSp() returns (o: Outcome<()>)
      requires Valid()
      modifies Repr()
      ensures Valid() && Follows(o, Processor.AddToSp(old(View())))
    {
      hide Fetch8, Processor.OffsetSp, SetReg16, MemoryMap.View, MemoryMap.Valid, MemoryMap.Repr;
      var n :- AdvancePC1Byte();
      Pass(1);
      var w :- OffsetSp(n);
      o := SetRegU16(SP, w);
    }

    method Push(rr: R16) returns (o: Outcome<()>)
      requires Valid()
      modifies Repr()
      ensures Valid() && Follows(o, Processor.Push(old(View()), rr))
    {
      hide Processor.WriteU16, GetWord, MemoryMap.View, MemoryMap.Valid, MemoryMap.Repr;
      Pass(1);
      Put(registers.(sp := Wrap16(registers.sp - 2)));
      o := WriteU16(registers.sp, GetWord(registers, rr), true);
    }

    method Pop(rr: R16) returns (o: Outcome<()>)
      requires Valid()
      modifies Repr()
      ensures Valid() && Follows(o, Processor.Pop(old(View()), rr))
    {
      hide Processor.ReadU16, SetReg16, MemoryMap.View, MemoryMap.Valid, MemoryMap.Repr;
      var w :- ReadU16(registers.sp, true);
      var _ :- SetRegU16(rr, w);
      Put(registers.(sp := Wrap16(registers.sp + 2)));
      o := Ok(());
    }

    // ----- arithmetic -----

    method Accumulate(op: AluOp, n: Byte) returns (o: Outcome<()>)
      requires Valid()
      modifies Repr()
      ensures Valid() && Follows(o, Processor.Accumulate(old(View()), op, n))
    {
      hide Operate, MemoryMap.View, MemoryMap.Valid, MemoryMap.Repr;
      var r :- Operate(op, registers.a, n, registers.f.c);
      Put(registers.(a := r.value, f := r.f));
      o := Ok(());
    }

    method AccumulateRegister(op: AluOp, r: R8) returns (o: Outcome<()>)
      requires Valid()
      modifies Repr()
      ensures Valid() && Follows(o, Processor.AccumulateRegister(old(View()), op, r))
    {
      hide GetReg, Processor.Accumulate, MemoryMap.View, MemoryMap.Valid, MemoryMap.Repr;
      var n :- GetRegU8(r);
      o := Accumulate(op, n);
    }

    method AccumulateImmediate(op: AluOp) returns (o: Outcome<()>)
      requires Valid()
      modifies Repr()
      ensures Valid() && Follows(o, Processor.AccumulateImmediate(old(View()), op))
    {
      hide Fetch8, Processor.Accumulate, MemoryMap.View, MemoryMap.Valid, MemoryMap.Repr;
      var n :- AdvancePC1Byte();
      o := Accumulate(op, Known(n));
    }

    method Bump(r: R8, up: bool) returns (o: Outcome<()>)
      requires Valid()
      modifies Repr()
      ensures Valid() && Follows(o, Processor.Bump(old(View()), r, up))
    {
      hide GetReg, SetReg, Increment, Decrement, MemoryMap.View, MemoryMap.Valid, MemoryMap.Repr;
      var v :- GetRegU8(r);
      var result :- if up then Increment(v, registers.f) else Decrement(v, registers.f);
      var _ :- SetRegU8(r, result.value);
      Put(registers.(f := result.f));
      o := Ok(());
    }

    method AddToHl(rr: R16) returns (o: Outcome<()>)
      requires Valid()
      modifies Repr()
      ensures Valid() && Follows(o, Processor.AddToHl(old(View()), rr))
    {
      hide AddWords, SetReg16, GetWord, MemoryMap.View, MemoryMap.Valid, MemoryMap.Repr;
      Pass(1);
      var r :- AddWords(GetWord(registers, HL), GetWord(registers, rr), registers.f);
      Put(registers.(f := r.f));
      o := SetRegU16(HL, r.value);
    }

    method BumpPair(rr: R16, up: bool) returns (o: Outcome<()>)
      requires Valid()
      modifies Repr()
      ensures Valid() && Follows(o, Processor.BumpPair(old(View()), rr, up))
    {
      hide Moved, SetReg16, GetWord, MemoryMap.View, MemoryMap.Valid, MemoryMap.Repr;
      Pass(1);
      var w :- Moved(GetWord(registers, rr), up);
      o := SetRegU16(rr, w);
    }

    method AdjustA() returns (o: Outcome<()>)
      requires Valid()
      modifies Repr()
      ensures Valid() && Follows(o, Processor.AdjustA(old(View())))
    {
      hide DecimalAdjust, MemoryMap.View, MemoryMap.Valid, MemoryMap.Repr;
      var r :- DecimalAdjust(registers.a, registers.f);
      Put(registers.(a := r.value, f := r.f));
      o := Ok(());
    }

    method ComplementA() returns (o: Outcome<()>)
      requires Valid()
      modifies Repr()
      ensures Valid() && Follows(o, Processor.ComplementA(old(View())))
    {
      hide Not, MemoryMap.View, MemoryMap.Valid, MemoryMap.Repr;
      var a :- Not(registers.a);
      Put(registers.(a := a, f := registers.f.(n := true, h := true)));
      o := Ok(());
    }

    method RotateA(op: ShiftOp) returns (o: Outcome<()>)
      requires Valid()
      modifies Repr()
      ensures Valid() && Follows(o, Processor.RotateA(old(View()), op))
    {
      hide RotateAccumulator, MemoryMap.View, MemoryMap.Valid, MemoryMap.Repr;
      var r :- RotateAccumulator(op, registers.a, registers.f);
      Put(registers.(a := r.value, f := r.f));
      o := Ok(());
    }

    // ----- the CB page -----

    method ShiftRegister(op: ShiftOp, r: R8) returns (o: Outcome<()>)
      requires Valid()
      modifies Repr()
      ensures Valid() && Follows(o, Processor.ShiftRegister(old(View()), op, r))
    {
      hide GetReg, SetReg, Alu.Shift, MemoryMap.View, MemoryMap.Valid, MemoryMap.Repr;
      var v :- GetRegU8(r);
      var result :- Shift(op, v, registers.f);
      Put(registers.(f := result.f));
      o := SetRegU8(r, result.value);
    }

    method ProbeBit(b: nat, r: R8) returns (o: Outcome<()>)
      requires Valid()
      modifies Repr()
      ensures Valid() && Follows(o, Processor.ProbeBit(old(View()), b, r))
    {
      hide GetReg, TestBit, MemoryMap.View, MemoryMap.Valid, MemoryMap.Repr;
      var v :- GetRegU8(r);
      var f :- TestBit(v, b, registers.f);
      Put(registers.(f := f));
      o := Ok(());
    }

    method AssignBit(b: nat, r: R8, on: bool) returns (o: Outcome<()>)
      requires Valid()
      modifies Repr()
      ensures Valid() && Follows(o, Processor.AssignBit(old(View()), b, r, on))
    {
      hide GetReg, SetReg, Alu.SetBit, ResetBit, MemoryMap.View, MemoryMap.Valid, MemoryMap.Repr;
      var v :- GetRegU8(r);
      var v' :- if on then Alu.SetBit(v, b) else ResetBit(v, b);
      o := SetRegU8(r, v');
    }

    method ExecuteBit(i: BitInstruction) returns (o: Outcome<()>)
      requires Valid()
      modifies Repr()
      ensures Valid() && Follows(o, Processor.ExecuteBit(old(View()), i))
    {
      hide Processor.ShiftRegister, Processor.ProbeBit, Processor.AssignBit, MemoryMap.View, MemoryMap.Valid, MemoryMap.Repr;
      match i
      case SHIFT(op, r) => o := ShiftRegister(op, r);
      case BIT_b_r(b, r) => o := ProbeBit(b, r);
      case RES_b_r(b, r) => o := AssignBit(b, r, false);
      case SET_b_r(b, r) => o := AssignBit(b, r, true);
    }

    method ExecutePrefixed() returns (o: Outcome<()>)
      requires Valid()
      modifies Repr()
      ensures Valid() && Follows(o, Processor.ExecutePrefixed(old(View())))
    {
      hide Fetch8, Processor.ExecuteBit, DecodeBit, MemoryMap.View, MemoryMap.Valid, MemoryMap.Repr;
      var arg :- AdvancePC1Byte();
      o := ExecuteBit(DecodeBit(arg));
    }

    // ----- control flow -----

    method JumpTo(nn: u16) returns (o: Outcome<()>)
      requires Valid()
      modifies Repr()
      ensures Valid() && Follows(o, Processor.JumpTo(old(View()), nn))
    {
      hide SetPc, MemoryMap.View, MemoryMap.Valid, MemoryMap.Repr;
      Pass(1);
      var regs :- SetPc(registers, nn);
      Put(regs);
      o := Ok(());
    }

    method Jump(cc: Option<Condition>) returns (o: Outcome<()>)
      requires Valid()
      modifies Repr()
      ensures Valid() && Follows(o, Processor.Jump(old(View()), cc))
    {
      hide Fetch16, Processor.JumpTo, MemoryMap.View, MemoryMap.Valid, MemoryMap.Repr;
      var nn :- AdvancePC2Bytes();
      if cc.Some? && !cc.value.Holds(registers.f) {
        return Ok(());
      }
      o := JumpTo(nn);
    }

    method JumpRelative(cc: Option<Condition>) returns (o: Outcome<()>)
      requires Valid()
      modifies Repr()
      ensures Valid() && Follows(o, Processor.JumpRelative(old(View()), cc))
    {
      hide Fetch8, Processor.JumpTo, Signed8, MemoryMap.View, MemoryMap.Valid, MemoryMap.Repr;
      var n :- AdvancePC1Byte();
      if cc.Some? && !cc.value.Holds(registers.f) {
        return Ok(());
      }
      o := JumpTo(Wrap16(registers.pc + Signed8(n)));
    }

    method JumpHl() returns (o: Outcome<()>)
      requires Valid()
      modifies Repr()
      ensures Valid() && Follows(o, Processor.JumpHl(old(View())))
    {
      hide SetReg16, GetWord, MemoryMap.View, MemoryMap.Valid, MemoryMap.Repr;
      o := SetRegU16(PC, GetWord(registers, HL));
    }

    /** Both shadow stacks grow together. */
    method Record(pc: u16, sp: u16)
      requires Valid()
      modifies this`returnAddressPointers, this`expectedReturnAddresses
      ensures Valid() && registers == old(registers)
      ensures View() == old(View()).(expected := old(expectedReturnAddresses) + [pc],
                                     pointers := old(returnAddressPointers) + [Wrap16(sp as int + 1), sp])
    {
      expectedReturnAddresses := expectedReturnAddresses + [pc];
      returnAddressPointers := returnAddressPointers + [Wrap16(sp as int + 1)];
      returnAddressPointers := returnAddressPointers + [sp];
      assert returnAddressPointers == old(returnAddressPointers) + [Wrap16(sp as int + 1), sp];
    }

    method CallTo(nn: u16) returns (o: Outcome<()>)
      requires Valid()
      modifies Repr()
      ensures Valid() && Follows(o, Processor.CallTo(old(View()), nn))
    {
      hide Processor.Push, SetPc, MemoryMap.View, MemoryMap.Valid, MemoryMap.Repr;
      var _ :- Push(PC);
      Record(registers.pc, registers.sp);
      var regs :- SetPc(registers, nn);
      Put(regs);
      o := Ok(());
    }

    method Call(cc: Option<Condition>) returns (o: Outcome<()>)
      requires Valid()
      modifies Repr()
      ensures Valid() && Follows(o, Processor.Call(old(View()), cc))
    {
      hide Fetch16, Processor.CallTo, MemoryMap.View, MemoryMap.Valid, MemoryMap.Repr;
      var nn :- AdvancePC2Bytes();
      if cc.Some? && !cc.value.Holds(registers.f) {
        return Ok(());
      }
      o := CallTo(nn);
    }

    /** Takes the last recorded pointer, or 0 when there is none. */
    method PopPointer() returns (pointer: u16)
      requires Valid()
      modifies this`returnAddressPointers
      ensures Valid() && registers == old(registers) && expectedReturnAddresses == old(expectedReturnAddresses)
      ensures pointer == Last(old(returnAddressPointers)) && View() == old(View()).(pointers := DropLast(old(returnAddressPointers)))
    {
      if |returnAddressPointers| == 0 {
        return 0;
      }
      pointer := returnAddressPointers[|returnAddressPointers| - 1];
      returnAddressPointers := returnAddressPointers[..|returnAddressPointers| - 1];
    }

    method PopExpected() returns (address: u16)
      requires Valid()
      modifies this`expectedReturnAddresses
      ensures Valid() && registers == old(registers) && returnAddressPointers == old(returnAddressPointers)
      ensures address == Last(old(expectedReturnAddresses)) && View() == old(View()).(expected := DropLast(old(expectedReturnAddresses)))
    {
      if |expectedReturnAddresses| == 0 {
        return 0;
      }
      address := expectedReturnAddresses[|expectedReturnAddresses| - 1];
      expectedReturnAddresses := expectedReturnAddresses[..|expectedReturnAddresses| - 1];
    }

    method Return() returns (o: Outcome<()>)
      requires Valid()
      modifies Repr()
      ensures Valid() && Follows(o, Processor.Return(old(View())))
    {
      hide Processor.ReadU16, Processor.JumpTo, Last, DropLast, MemoryMap.View, MemoryMap.Valid, MemoryMap.Repr;
      var low := PopPointer();
      var high := PopPointer();
      if !(high as int == low as int + 1 || (low == 0 && high == 0)) {
        return Err(AssertionFailure);
      }
      if low != registers.sp {
        return Err(CallFrameViolation);
      }
      var expected := PopExpected();
      var w :- ReadU16(registers.sp, false);
      var actual :- DecayWord(w);
      if expected != actual {
        return Err(ClobberedReturnAddress);
      }
      Put(registers.(sp := Wrap16(registers.sp + 2)));
      o := JumpTo(actual);
    }

    method ReturnIf(cc: Condition) returns (o: Outcome<()>)
      requires Valid()
      modifies Repr()
      ensures Valid() && Follows(o, Processor.ReturnIf(old(View()), cc))
    {
      hide Processor.Return, MemoryMap.View, MemoryMap.Valid, MemoryMap.Repr;
      Pass(1);
      if cc.Holds(registers.f) {
        o := Return();
      } else {
        o := Ok(());
      }
    }

    method ReturnFromInterrupt() returns (o: Outcome<()>)
      requires Valid()
      modifies Repr()
      ensures Valid() && Follows(o, Processor.ReturnFromInterrupt(old(View())))
    {
      hide Processor.Return, MemoryMap.View, MemoryMap.Valid, MemoryMap.Repr;
      Put(registers.(ime := Ime(true, true, true)));
      o := Return();
    }

    // ----- dispatch -----

    method ExecuteLoad(i: Instruction) returns (o: Outcome<()>)
      requires Valid() && IsLoad(i)
      modifies Repr()
      ensures Valid() && Follows(o, Processor.ExecutePlain(old(View()), i))
    {
      hide Processor.LoadImmediate, Processor.LoadAbsolute, Processor.LoadRegister, SetReg,
        Processor.StoreAbsolute, Processor.LoadFromPort, Processor.StoreToPort, Processor.LoadAndMove,
        Processor.StoreAndMove, Processor.StoreHighPage, Processor.LoadHighPage, Processor.LoadPair,
        Processor.LoadSp, Processor.LoadHlFromSp, Processor.StoreSp, Processor.Push, Processor.Pop,
        Processor.AccumulateRegister, Processor.AccumulateImmediate, Processor.Bump, Processor.AddToHl,
        Processor.AddToSp, Processor.BumpPair, Processor.AdjustA, Processor.ComplementA,
        Processor.ExecutePrefixed, Processor.RotateA, Processor.Jump, Processor.JumpHl, Processor.JumpRelative,
        Follows, MemoryMap.View, MemoryMap.Valid, MemoryMap.Repr;
      match i
      case LD_r_n(r) => o := LoadImmediate(r);
      case LD_r_nn(r) => o := LoadAbsolute(r);
      case LD_r1_r2(dst, src) => o := LoadRegister(dst, src);
      case LD_r_A(r) => o := SetRegU8(r, registers.a);
      case LD_nn_A => o := StoreAbsolute();
      case LD_A_C => o := LoadFromPort();
      case LD_C_A => o := StoreToPort();
      case LDD_A_HL => o := LoadAndMove(false);
      case LDD_HL_A => o := StoreAndMove(false);
      case LDI_A_HL => o := LoadAndMove(true);
      case LDI_HL_A => o := StoreAndMove(true);
      case LDH_n_A => o := StoreHighPage();
      case LDH_A_n => o := LoadHighPage();
    }

    method ExecuteStackOrPair(i: Instruction) returns (o: Outcome<()>)
      requires Valid() && IsStackOrPair(i)
      modifies Repr()
      ensures Valid() && Follows(o, Processor.ExecutePlain(old(View()), i))
    {
      hide Processor.LoadImmediate, Processor.LoadAbsolute, Processor.LoadRegister, SetReg,
        Processor.StoreAbsolute, Processor.LoadFromPort, Processor.StoreToPort, Processor.LoadAndMove,
        Processor.StoreAndMove, Processor.StoreHighPage, Processor.LoadHighPage, Processor.LoadPair,
        Processor.LoadSp, Processor.LoadHlFromSp, Processor.StoreSp, Processor.Push, Processor.Pop,
        Processor.AccumulateRegister, Processor.AccumulateImmediate, Processor.Bump, Processor.AddToHl,
        Processor.AddToSp, Processor.BumpPair, Processor.AdjustA, Processor.ComplementA,
        Processor.ExecutePrefixed, Processor.RotateA, Processor.Jump, Processor.JumpHl, Processor.JumpRelative,
        Follows, View, Valid, MemoryMap.Repr;
      match i
      case LD16_n_nn(rr) => o := LoadPair(rr);
      case LD16_SP_HL => o := LoadSp();
      case LDHL_SP_n => o := LoadHlFromSp();
      case LD_nn_SP => o := StoreSp();
      case PUSH(rr) => o := Push(rr);
      case POP(rr) => o := Pop(rr);
      case ADD16_HL_n(rr) => o := AddToHl(rr);
      case ADD16_SP_n => o := AddToSp();
      case INC16_nn(rr) => o := BumpPair(rr, true);
      case DEC16_nn(rr) => o := BumpPair(rr, false);
    }

    method ExecuteOperation(i: Instruction) returns (o: Outcome<()>)
      requires Valid() && IsOperation(i)
      modifies Repr()
      ensures Valid() && Follows(o, Processor.ExecutePlain(old(View()), i))
    {
      hide Processor.LoadImmediate, Processor.LoadAbsolute, Processor.LoadRegister, SetReg,
        Processor.StoreAbsolute, Processor.LoadFromPort, Processor.StoreToPort, Processor.LoadAndMove,
        Processor.StoreAndMove, Processor.StoreHighPage, Processor.LoadHighPage, Processor.LoadPair,
        Processor.LoadSp, Processor.LoadHlFromSp, Processor.StoreSp, Processor.Push, Processor.Pop,
        Processor.AccumulateRegister, Processor.AccumulateImmediate, Processor.Bump, Processor.AddToHl,
        Processor.AddToSp, Processor.BumpPair, Processor.AdjustA, Processor.ComplementA,
        Processor.ExecutePrefixed, Processor.RotateA, Processor.Jump, Processor.JumpHl, Processor.JumpRelative,
        Follows, View, Valid, MemoryMap.Repr;
      match i
      case ALU_r(op, r) => o := AccumulateRegister(op, r);
      case ALU_n(op) => o := AccumulateImmediate(op);
      case INC_r(r) => o := Bump(r, true);
      case DEC_r(r) => o := Bump(r, false);
    }

    method Idle() returns (o: Outcome<()>)
      requires Valid()
      ensures Valid() && Follows(o, Ok(View())) && View() == old(View())
    {
      o := Ok(());
    }

    method Assign(regs: CpuRegisters) returns (o: Outcome<()>)
      requires Valid()
      modifies this`registers
      ensures Valid() && Follows(o, Ok(WithRegs(old(View()), regs)))
    {
      Put(regs);
      o := Ok(());
    }

    method ExecuteAssignment(i: Instruction) returns (o: Outcome<()>)
      requires Valid() && (i.CCF? || i.SCF? || i.HALT?)
      modifies Repr()
      ensures Valid() && Follows(o, Processor.ExecutePlain(old(View()), i))
    {
      hide Processor.LoadImmediate, Processor.LoadAbsolute, Processor.LoadRegister, SetReg,
        Processor.StoreAbsolute, Processor.LoadFromPort, Processor.StoreToPort, Processor.LoadAndMove,
        Processor.StoreAndMove, Processor.StoreHighPage, Processor.LoadHighPage, Processor.LoadPair,
        Processor.LoadSp, Processor.LoadHlFromSp, Processor.StoreSp, Processor.Push, Processor.Pop,
        Processor.AccumulateRegister, Processor.AccumulateImmediate, Processor.Bump, Processor.AddToHl,
        Processor.AddToSp, Processor.BumpPair, Processor.AdjustA, Processor.ComplementA,
        Processor.ExecutePrefixed, Processor.RotateA, Processor.Jump, Processor.JumpHl, Processor.JumpRelative,
        Follows, MemoryMap.View, MemoryMap.Valid, MemoryMap.Repr;
      match i
      case CCF => o := Assign(registers.(f := registers.f.(n := false, h := false, c := !registers.f.c)));
      case SCF => o := Assign(registers.(f := registers.f.(n := false, h := false, c := true)));
      case HALT => o := Assign(registers.(halt := true));
    }

    method ExecuteRegisterOnly(i: Instruction) returns (o: Outcome<()>)
      requires Valid() && IsRegisterOnly(i) && !i.CCF? && !i.SCF? && !i.HALT?
      modifies Repr()
      ensures Valid() && Follows(o, Processor.ExecutePlain(old(View()), i))
    {
      hide Processor.LoadImmediate, Processor.LoadAbsolute, Processor.LoadRegister, SetReg,
        Processor.StoreAbsolute, Processor.LoadFromPort, Processor.StoreToPort, Processor.LoadAndMove,
        Processor.StoreAndMove, Processor.StoreHighPage, Processor.LoadHighPage, Processor.LoadPair,
        Processor.LoadSp, Processor.LoadHlFromSp, Processor.StoreSp, Processor.Push, Processor.Pop,
        Processor.AccumulateRegister, Processor.AccumulateImmediate, Processor.Bump, Processor.AddToHl,
        Processor.AddToSp, Processor.BumpPair, Processor.AdjustA, Processor.ComplementA,
        Processor.ExecutePrefixed, Processor.RotateA, Processor.Jump, Processor.JumpHl, Processor.JumpRelative,
        Follows, MemoryMap.View, MemoryMap.Valid, MemoryMap.Repr;
      match i
      case DAA => o := AdjustA();
      case CPL => o := ComplementA();
      case ROT_A(op) => o := RotateA(op);
      case NOP => o := Idle();
      case STOP => o := Idle();
    }

    method ExecuteJump(i: Instruction) returns (o: Outcome<()>)
      requires Valid() && IsJump(i)
      modifies Repr()
      ensures Valid() && Follows(o, Processor.ExecutePlain(old(View()), i))
    {
      hide Processor.LoadImmediate, Processor.LoadAbsolute, Processor.LoadRegister, SetReg,
        Processor.StoreAbsolute, Processor.LoadFromPort, Processor.StoreToPort, Processor.LoadAndMove,
        Processor.StoreAndMove, Processor.StoreHighPage, Processor.LoadHighPage, Processor.LoadPair,
        Processor.LoadSp, Processor.LoadHlFromSp, Processor.StoreSp, Processor.Push, Processor.Pop,
        Processor.AccumulateRegister, Processor.AccumulateImmediate, Processor.Bump, Processor.AddToHl,
        Processor.AddToSp, Processor.BumpPair, Processor.AdjustA, Processor.ComplementA,
        Processor.ExecutePrefixed, Processor.RotateA, Processor.Jump, Processor.JumpHl, Processor.JumpRelative,
        Follows, View, Valid, MemoryMap.Repr;
      match i
      case JP_nn => o := Jump(None);
      case JP_cc_nn(cc) => o := Jump(Some(cc));
      case JP_HL => o := JumpHl();
      case JR_n => o := JumpRelative(None);
      case JR_cc_n(cc) => o := JumpRelative(Some(cc));
    }

    method ExecutePlain(i: Instruction) returns (o: Outcome<()>)
      requires Valid() && !IsControl(i)
      modifies Repr()
      ensures Valid() && Follows(o, Processor.ExecutePlain(old(View()), i))
    {
      hide Processor.LoadImmediate, Processor.LoadAbsolute, Processor.LoadRegister, SetReg,
        Processor.StoreAbsolute, Processor.LoadFromPort, Processor.StoreToPort, Processor.LoadAndMove,
        Processor.StoreAndMove, Processor.StoreHighPage, Processor.LoadHighPage, Processor.LoadPair,
        Processor.LoadSp, Processor.LoadHlFromSp, Processor.StoreSp, Processor.Push, Processor.Pop,
        Processor.AccumulateRegister, Processor.AccumulateImmediate, Processor.Bump, Processor.AddToHl,
        Processor.AddToSp, Processor.BumpPair, Processor.AdjustA, Processor.ComplementA,
        Processor.ExecutePrefixed, Processor.RotateA, Processor.Jump, Processor.JumpHl, Processor.JumpRelative,
        MemoryMap.View, MemoryMap.Valid, MemoryMap.Repr;
      if IsLoad(i) {
        o := ExecuteLoad(i);
      } else if IsStackOrPair(i) {
        o := ExecuteStackOrPair(i);
      } else if IsOperation(i) {
        o := ExecuteOperation(i);
      } else if i.CCF? || i.SCF? || i.HALT? {
        o := ExecuteAssignment(i);
      } else if IsRegisterOnly(i) {
        o := ExecuteRegisterOnly(i);
      } else if IsJump(i) {
        o := ExecuteJump(i);
      } else if i.PREFIX? {
        o := ExecutePrefixed();
      } else {
        o := Err(if i.TRAP? then Trap else if i.DEBUG_TRAP? then DebugTrap else BadOpcode);
      }
    }

    method ExecuteSwitch(i: Instruction) returns (o: Outcome<()>)
      requires Valid() && (i.DI? || i.EI?)
      modifies Repr()
      ensures Valid() && Follows(o, Processor.Execute(old(View()), i))
    {
      hide Processor.ExecutePlain, Processor.CallTo, Processor.Call, Processor.Return, Processor.ReturnIf,
        Processor.ReturnFromInterrupt, MemoryMap.View, MemoryMap.Valid, MemoryMap.Repr;
      Put(registers.(ime := registers.ime.(queued := i.EI?)));
      o := Ok(());
    }

    method ExecuteControl(i: Instruction) returns (o: Outcome<()>)
      requires Valid() && IsControl(i) && !i.DI? && !i.EI?
      modifies Repr()
      ensures Valid() && Follows(o, Processor.Execute(old(View()), i))
    {
      hide Processor.ExecutePlain, Processor.CallTo, Processor.Call, Processor.Return, Processor.ReturnIf,
        Processor.ReturnFromInterrupt, Follows, View, Valid, MemoryMap.Repr;
      match i
      case CALL_nn => o := Call(None);
      case CALL_cc_nn(cc) => o := Call(Some(cc));
      case RST_n(n) => o := CallTo(n);
      case RET => o := Return();
      case RET_cc(cc) => o := ReturnIf(cc);
      case RETI => o := ReturnFromInterrupt();
    }

    method Execute(i: Instruction) returns (o: Outcome<()>)
      requires Valid()
      modifies Repr()
      ensures Valid() && Follows(o, Processor.Execute(old(View()), i))
    {
      hide Processor.ExecutePlain, Processor.CallTo, Processor.Call, Processor.Return, Processor.ReturnIf, Processor.ReturnFromInterrupt, MemoryMap.View, MemoryMap.Valid, MemoryMap.Repr;
      if i.DI? || i.EI? {
        o := ExecuteSwitch(i);
      } else if IsControl(i) {
        o := ExecuteControl(i);
      } else {
        o := ExecutePlain(i);
      }
    }

    method ProcessNextInstruction() returns (o: Outcome<()>)
      requires Valid()
      modifies Repr()
      ensures Valid() && Follows(o, Processor.ProcessNextInstruction(old(View())))
    {
      hide Fetch8, Decode, Processor.Execute, MemoryMap.View, MemoryMap.Valid, MemoryMap.Repr;
      var op :- AdvancePC1Byte();
      o := Execute(Decode(op));
    }

    // ----- interrupts and the clock -----

    method FindTriggered() returns (o: Outcome<u8>)
      requires Valid()
      modifies Repr()
      ensures Valid() && View() == old(View()) && registers == old(registers) && o == Triggered(View())
    {
      hide AddressBus.Read, CheckedInt.And, MemoryMap.View, MemoryMap.Valid, MemoryMap.Repr;
      InterruptRegisters(View().bus);
      var enabled := ReadBus(0xFFFF);
      var requested := ReadBus(0xFF0F);
      var both :- And(enabled.value, requested.value);
      var masked :- And(both, Known(0x1F));
      o := Decay(masked);
    }

    method Dispatch(bit: nat) returns (o: Outcome<()>)
      requires Valid() && bit < 5
      modifies Repr()
      ensures Valid() && Follows(o, Processor.Dispatch(old(View()), bit))
    {
      hide AddressBus.Read, AddressBus.Write, Processor.CallTo, Shl8, MemoryMap.View, MemoryMap.Valid, MemoryMap.Repr;
      Put(registers.(ime := Ime(false, false, false)));
      InterruptRegisters(View().bus);
      var requested := ReadBus(0xFF0F);
      var remaining := Known(Xor8(requested.value.data, Shl8(1, bit)));
      var _ :- WriteBus(0xFF0F, remaining);
      o := CallTo(0x40 + 8 * bit);
    }

    method HandleInterrupts() returns (o: Outcome<()>)
      requires Valid()
      modifies Repr()
      ensures Valid() && Follows(o, Processor.HandleInterrupts(old(View())))
    {
      hide Triggered, Processor.Dispatch, MemoryMap.View, MemoryMap.Valid, MemoryMap.Repr;
      var triggered :- FindTriggered();
      if triggered == 0 {
        return Ok(());
      }
      Put(registers.(halt := false));
      if !registers.ime.now {
        return Ok(());
      }
      LowestBitIsLowest(triggered);
      LowestBitBound(triggered, 5);
      var bit := 0;
      while !Bit(triggered, bit)
        invariant bit <= LowestBit(triggered)
        decreases LowestBit(triggered) - bit
      {
        bit := bit + 1;
      }
      o := Dispatch(bit);
    }

    method Clock() returns (o: Outcome<()>)
      requires Valid()
      modifies Repr()
      ensures Valid() && Follows(o, Processor.Clock(old(View())))
    {
      hide Processor.HandleInterrupts, Processor.ProcessNextInstruction, MemoryMap.View, MemoryMap.Valid, MemoryMap.Repr;
      var _ :- HandleInterrupts();
      if registers.halt {
        Pass(1);
        return Ok(());
      }
      var _ :- ProcessNextInstruction();
      Put(registers.(ime := Ime(registers.ime.next, registers.ime.queued, registers.ime.queued)));
      o := Ok(());
    }
  }

  /** The console: one update of the I/O block, then one CPU clock. */
  /** What a run adds to what it has already shown. */
  ghost function After(shown: seq<LcdEvent>, o: Outcome<(Machine, seq<LcdEvent>)>): Outcome<(Machine, seq<LcdEvent>)> {
    match o
    case Ok((s, events)) => Ok((s, shown + events))
    case Err(e) => Err(e)
  }

  class GB {
    const cpu: CPU

    constructor (cpu: CPU)
      requires cpu.Valid()
      ensures this.cpu == cpu
    {
      this.cpu := cpu;
    }

    method UpdateIo(env: Env) returns (o: Outcome<()>, ghost events: seq<LcdEvent>)
      requires cpu.Valid()
      modifies cpu.Repr()
      ensures cpu.Valid()
      ensures match Update(old(cpu.View()).bus.io, env)
              case Ok((io, shown)) => o == Ok(()) && events == shown && cpu.View() == old(cpu.View()).(bus := old(cpu.View()).bus.(io := io))
              case Err(e) => o == Err(e)
    {
      hide Update, MemoryMap.View, MemoryMap.Valid;
      o, events := cpu.memoryMap.UpdateIo(env);
    }

    method Clock(env: Env) returns (o: Outcome<()>, ghost events: seq<LcdEvent>)
      requires cpu.Valid()
      modifies cpu.Repr()
      ensures cpu.Valid()
      ensures match Console.Step(old(cpu.View()), env)
              case Ok((s, shown)) => o == Ok(()) && events == shown && cpu.View() == s
              case Err(e) => o == Err(e)
    {
      hide Update, Processor.Clock, MemoryMap.View, MemoryMap.Valid, MemoryMap.Repr;
      o, events := UpdateIo(env);
      if o.Ok? {
        o := cpu.Clock();
      }
    }

    /** Any number of steps: the objects end where the modelled run ends, or stop with its error, and the
        front end has been sent what that run sends. */
    method Run(envs: seq<Env>) returns (o: Outcome<()>, ghost events: seq<LcdEvent>)
      requires cpu.Valid()
      modifies cpu.Repr()
      ensures cpu.Valid()
      ensures match Console.Run(old(cpu.View()), envs)
              case Ok((s, shown)) => o == Ok(()) && events == shown && cpu.View() == s
              case Err(e) => o == Err(e)
    {
      hide Console.Step, CPU.View, CPU.Valid;
      events := [];
      assert envs[0..] == envs;
      FromNothing(Console.Run(cpu.View(), envs));
      for i := 0 to |envs|
        invariant cpu.Valid() && After(events, Console.Run(cpu.View(), envs[i..])) == Console.Run(old(cpu.View()), envs)
      {
        assert envs[i..][1..] == envs[i + 1..];
        RunOneMore(events, cpu.View(), envs[i..]);
        ghost var shown: seq<LcdEvent>;
        o, shown := Clock(envs[i]);
        if o.Err? {
          return;
        }
        events := events + shown;
      }
      RunNone(events, cpu.View());
      o := Ok(());
    }
  }

  lemma FromNothing(o: Outcome<(Machine, seq<LcdEvent>)>)
    ensures After([], o) == o
  {
    if o.Ok? {
      assert [] + o.value.1 == o.value.1;
    }
  }

  lemma RunNone(shown: seq<LcdEvent>, s: Machine)
    ensures After(shown, Console.Run(s, [])) == Ok((s, shown))
  {
    assert shown + [] == shown;
  }

  lemma RunOneMore(shown: seq<LcdEvent>, s: Machine, envs: seq<Env>)
    requires envs != []
    ensures match Console.Step(s, envs[0])
            case Ok((t, first)) => After(shown, Console.Run(s, envs)) == After(shown + first, Console.Run(t, envs[1..]))
            case Err(e) => Console.Run(s, envs) == Err(e)
  {
    hide Console.Step;
    var o := Console.Step(s, envs[0]);
    if o.Ok? {
      var p := Console.Run(o.value.0, envs[1..]);
      if p.Ok? {
        assert shown + (o.value.1 + p.value.1) == (shown + o.value.1) + p.value.1;
      }
    }
  }

  function Inserted(rom: seq<u8>, hasMbc1: bool): Cartridges.Cart {
    if hasMbc1 then Cartridges.NewMbc1(rom) else Cartridges.RomOnly(rom)
  }

  method Insert(rom: seq<u8>, hasMbc1: bool) returns (cartridge: Cartridge)
    ensures cartridge.Valid() && fresh(cartridge.Repr()) && cartridge.View() == Inserted(rom, hasMbc1)
  {
    var mbc1: MBC1? := null;
    if hasMbc1 {
      mbc1 := new MBC1(rom);
    }
    cartridge := new Cartridge(rom, mbc1);
  }

  method Assemble(cartridge: Cartridge, clocksPerSample: nat) returns (memoryMap: MemoryMap)
    requires cartridge.Valid()
    ensures memoryMap.Valid() && memoryMap.cartridge == cartridge && fresh(memoryMap.Repr() - cartridge.Repr())
    ensures memoryMap.View() ==
      Bus(seq(0x80, _ => UNDEFINED_BYTE), seq(0x2000, _ => UNDEFINED_BYTE), cartridge.View(), InitialIo(clocksPerSample))
  {
    hide Cartridge.View, Cartridge.Valid, IO.View, IO.Valid, MemoryMap.View, MemoryMap.Valid, InitialIo, ApuInv;
    var frontend := new Frontend();
    var io := new IO(frontend, clocksPerSample);
    memoryMap := new MemoryMap(cartridge, io);
  }

  method PowerUp(rom: seq<u8>, hasMbc1: bool, clocksPerSample: nat) returns (memoryMap: MemoryMap)
    ensures memoryMap.Valid() && fresh(memoryMap.Repr())
    ensures PoweredUp(Inserted(rom, hasMbc1), clocksPerSample) == Ok(memoryMap.View())
  {
    hide PokeAll, MemoryMap.View, MemoryMap.Valid, Cartridge.View, Cartridge.Valid, BanksOk, Sound, InitialIo;
    var cartridge := Insert(rom, hasMbc1);
    memoryMap := Assemble(cartridge, clocksPerSample);
    NewCartridgesOk(rom);
    PowerOnSound(Inserted(rom, hasMbc1), clocksPerSample);
    var o := memoryMap.Reset();
  }

  /** Builds the whole console around a ROM: it stands exactly in the power-on state. */
  method PowerOn(rom: seq<u8>, hasMbc1: bool, clocksPerSample: nat) returns (gb: GB)
    ensures fresh(gb.cpu.Repr()) && gb.cpu.Valid()
    ensures Console.PowerOn(Inserted(rom, hasMbc1), clocksPerSample) == Ok(gb.cpu.View())
  {
    hide PoweredUp, MemoryMap.View, MemoryMap.Valid;
    var memoryMap := PowerUp(rom, hasMbc1, clocksPerSample);
    var cpu := new CPU(memoryMap);
    gb := new GB(cpu);
  }

  /** A console built and run: it ends where the modelled run from power-on ends, and its front end has
      received exactly what that run shows. */
  method Play(rom: seq<u8>, hasMbc1: bool, clocksPerSample: nat, envs: seq<Env>)
    returns (gb: GB, o: Outcome<()>, ghost events: seq<LcdEvent>)
    ensures gb.cpu.Valid() && Console.PowerOn(Inserted(rom, hasMbc1), clocksPerSample).Ok?
    ensures match Console.Run(Console.PowerOn(Inserted(rom, hasMbc1), clocksPerSample).value, envs)
            case Ok((s, shown)) => o == Ok(()) && events == shown && gb.cpu.View() == s && gb.cpu.io.frontend.shown == Sent(events)
            case Err(e) => o == Err(e)
  {
    hide Console.Run, Console.PowerOn, Sent, BanksOk;
    gb := PowerOn(rom, hasMbc1, clocksPerSample);
    o, events := gb.Run(envs);
    NewCartridgesOk(rom);
    RunShowsAll(Inserted(rom, hasMbc1), clocksPerSample, envs);
  }
}
