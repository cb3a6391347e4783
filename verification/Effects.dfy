/** What one instruction does to everything except its operands: the cycles it takes, and the bus
    state, shadow stack and interrupt line it leaves. */
module Effects {
  import opened Outcomes
  import opened Bits
  import opened CheckedInt
  import opened Registers
  import opened Alu
  import opened AddressBus
  import opened Evolution
  import opened Processor

  /** k cycles later, with the guarded addresses intact. */
  predicate Later(b: Bus, b': Bus, guarded: seq<u16>, k: nat) {
    b'.io.cycle == b.io.cycle + k && BusEvolves(b, b', guarded)
  }

  /** An instruction that is neither a call nor a return, and leaves the interrupt line alone. */
  predicate Quiet(s: Machine, s': Machine, k: nat) {
    && Later(s.bus, s'.bus, s.pointers, k)
    && s'.pointers == s.pointers && s'.expected == s.expected
    && s'.regs.ime == s.regs.ime
    && (ValidPc(s.regs.pc) ==> ValidPc(s'.regs.pc))
  }

  /** A memory access also leaves the registers alone. */
  predicate Accessed(s: Machine, s': Machine, k: nat) {
    Later(s.bus, s'.bus, s.pointers, k) && s' == s.(bus := s'.bus)
  }

  /** A fetch of k bytes takes k cycles and moves the program counter past them. */
  predicate Fetched(s: Machine, s': Machine, k: nat) {
    && Later(s.bus, s'.bus, s.pointers, k)
    && s' == s.(bus := s'.bus, regs := s'.regs) && s'.regs == s.regs.(pc := Wrap16(s.regs.pc + k))
    && ValidPc(s'.regs.pc)
  }

  // ----- the accesses -----

  lemma SpendLater(s: Machine, k: nat)
    ensures Later(s.bus, Spend(s, k).bus, s.pointers, k)
  {
  }

  lemma LaterTransitively(a: Bus, b: Bus, c: Bus, guarded: seq<u16>, j: nat, k: nat)
    requires Later(a, b, guarded, j) && Later(b, c, guarded, k)
    ensures Later(a, c, guarded, j + k)
  {
    BusEvolvesTransitively(a, b, c, guarded);
  }

  lemma ReadU8Accesses(s: Machine, addr: u16, allow: bool)
    ensures var o := ReadU8(s, addr, allow); o.Ok? ==> Accessed(s, o.value.1, 1)
  {
    hide Read, BusEvolves;
    SpendLater(s, 1);
    var t := Spend(s, 1);
    ReadEvolves(t.bus, addr, false, s.pointers);
    var o := Read(t.bus, addr, false);
    if o.Ok? {
      LaterTransitively(s.bus, t.bus, o.value.1, s.pointers, 1, 0);
    }
  }

  lemma WriteU8Accesses(s: Machine, addr: u16, v: Byte, allow: bool)
    ensures var o := WriteU8(s, addr, v, allow); o.Ok? ==> Accessed(s, o.value, 1) && addr !in s.pointers
  {
    hide Write, BusEvolves;
    SpendLater(s, 1);
    var t := Spend(s, 1);
    if addr !in s.pointers {
      WriteEvolves(t.bus, addr, v, s.pointers);
      var o := Write(t.bus, addr, v, false);
      if o.Ok? {
        LaterTransitively(s.bus, t.bus, o.value, s.pointers, 1, 0);
      }
    }
  }

  /** The accesses above for any state, and how they chain. */
  lemma Accesses()
    ensures forall s: Machine, addr: u16, allow {:trigger ReadU8(s, addr, allow)} ::
      ReadU8(s, addr, allow).Ok? ==> Accessed(s, ReadU8(s, addr, allow).value.1, 1)
    ensures forall s: Machine, addr: u16, v, allow {:trigger WriteU8(s, addr, v, allow)} ::
      WriteU8(s, addr, v, allow).Ok? ==> Accessed(s, WriteU8(s, addr, v, allow).value, 1)
    ensures forall s: Machine, k: nat {:trigger Spend(s, k)} :: Later(s.bus, Spend(s, k).bus, s.pointers, k)
    ensures forall b: Bus, guarded: seq<u16> {:trigger Later(b, b, guarded, 0)} :: Later(b, b, guarded, 0)
  {
    hide ReadU8, WriteU8, Accessed, Later;
    forall s: Machine, addr: u16, allow | ReadU8(s, addr, allow).Ok? ensures Accessed(s, ReadU8(s, addr, allow).value.1, 1) {
      ReadU8Accesses(s, addr, allow);
    }
    forall s: Machine, addr: u16, v, allow | WriteU8(s, addr, v, allow).Ok?
      ensures Accessed(s, WriteU8(s, addr, v, allow).value, 1)
    {
      WriteU8Accesses(s, addr, v, allow);
    }
    forall s: Machine, k: nat ensures Later(s.bus, Spend(s, k).bus, s.pointers, k) {
      SpendLater(s, k);
    }
    forall b: Bus, guarded: seq<u16> ensures Later(b, b, guarded, 0) {
      LaterItself(b, guarded);
    }
  }

  lemma LaterItself(b: Bus, guarded: seq<u16>)
    ensures Later(b, b, guarded, 0)
  {
  }

  lemma Chaining()
    ensures forall a: Bus, b: Bus, c: Bus, guarded: seq<u16>, j: nat, k: nat {:trigger Later(a, b, guarded, j), Later(b, c, guarded, k)} ::
      Later(a, b, guarded, j) && Later(b, c, guarded, k) ==> Later(a, c, guarded, j + k)
  {
    hide Later;
    forall a: Bus, b: Bus, c: Bus, guarded: seq<u16>, j: nat, k: nat | Later(a, b, guarded, j) && Later(b, c, guarded, k)
      ensures Later(a, c, guarded, j + k)
    {
      LaterTransitively(a, b, c, guarded, j, k);
    }
  }

  lemma WordAccesses(s: Machine, addr: u16, w: Word, allow: bool)
    ensures var o := ReadU16(s, addr, allow); o.Ok? ==> Accessed(s, o.value.1, 2)
    ensures var o := WriteU16(s, addr, w, allow); o.Ok? ==> Accessed(s, o.value, 2)
  {
    hide ReadU8, WriteU8, Later;
    Accesses();
    Chaining();
  }

  lemma Fetches(s: Machine)
    ensures var o := Fetch8(s); o.Ok? ==> Fetched(s, o.value.1, 1)
    ensures var o := Fetch16(s); o.Ok? ==> Fetched(s, o.value.1, 2)
  {
    hide ReadU8, ReadU16, Later;
    Accesses();
    WordAccesses(s, s.regs.pc, KnownWord(0), false);
  }

  function MemoryOperand(r: R8): nat {
    if r.HL_ptr? || r.BC_ptr? || r.DE_ptr? then 1 else 0
  }

  lemma OperandAccesses(s: Machine, r: R8, v: Byte)
    ensures var o := GetReg(s, r); o.Ok? ==> Accessed(s, o.value.1, MemoryOperand(r))
    ensures var o := SetReg(s, r, v); o.Ok? ==> Quiet(s, o.value, MemoryOperand(r))
  {
    hide ReadU8, WriteU8, Later, GetWord;
    Accesses();
    LaterItself(s.bus, s.pointers);
  }

  /** The composite accesses for any state. */
  lemma Compound()
    ensures forall s: Machine, addr: u16, allow {:trigger ReadU16(s, addr, allow)} ::
      ReadU16(s, addr, allow).Ok? ==> Accessed(s, ReadU16(s, addr, allow).value.1, 2)
    ensures forall s: Machine, addr: u16, w, allow {:trigger WriteU16(s, addr, w, allow)} ::
      WriteU16(s, addr, w, allow).Ok? ==> Accessed(s, WriteU16(s, addr, w, allow).value, 2)
    ensures forall s: Machine {:trigger Fetch8(s)} ::
      Fetch8(s).Ok? ==> Fetched(s, Fetch8(s).value.1, 1)
    ensures forall s: Machine {:trigger Fetch16(s)} ::
      Fetch16(s).Ok? ==> Fetched(s, Fetch16(s).value.1, 2)
    ensures forall s: Machine, r {:trigger GetReg(s, r)} ::
      GetReg(s, r).Ok? ==> Accessed(s, GetReg(s, r).value.1, MemoryOperand(r))
    ensures forall s: Machine, r, v {:trigger SetReg(s, r, v)} ::
      SetReg(s, r, v).Ok? ==> Quiet(s, SetReg(s, r, v).value, MemoryOperand(r))
  {
    hide ReadU16, WriteU16, Fetch8, Fetch16, GetReg, SetReg, Quiet, Accessed, Fetched, MemoryOperand;
    forall s: Machine, addr: u16, allow | ReadU16(s, addr, allow).Ok? ensures Accessed(s, ReadU16(s, addr, allow).value.1, 2) {
      WordAccesses(s, addr, KnownWord(0), allow);
    }
    forall s: Machine, addr: u16, w, allow | WriteU16(s, addr, w, allow).Ok?
      ensures Accessed(s, WriteU16(s, addr, w, allow).value, 2)
    {
      WordAccesses(s, addr, w, allow);
    }
    forall s: Machine | Fetch8(s).Ok? ensures Fetched(s, Fetch8(s).value.1, 1) {
      Fetches(s);
    }
    forall s: Machine | Fetch16(s).Ok? ensures Fetched(s, Fetch16(s).value.1, 2) {
      Fetches(s);
    }
    forall s: Machine, r | GetReg(s, r).Ok? ensures Accessed(s, GetReg(s, r).value.1, MemoryOperand(r)) {
      OperandAccesses(s, r, Known(0));
    }
    forall s: Machine, r, v | SetReg(s, r, v).Ok? ensures Quiet(s, SetReg(s, r, v).value, MemoryOperand(r)) {
      OperandAccesses(s, r, v);
    }
  }

  // ----- the cycles an instruction takes after its opcode fetch -----

  function Taken(cc: Condition, f: Flags, extra: nat): nat {
    if cc.Holds(f) then extra else 0
  }

  function Cost(i: Instruction, f: Flags): nat {
    match i
    case LD_r_n(r) => 1 + MemoryOperand(r)
    case LD_r_nn(r) => 3 + MemoryOperand(r)
    case LD_r1_r2(dst, src) => MemoryOperand(dst) + MemoryOperand(src)
    case LD_r_A(r) => MemoryOperand(r)
    case LD_nn_A => 3
    case LD_A_C => 1
    case LD_C_A => 1
    case LDD_A_HL => 1
    case LDD_HL_A => 1
    case LDI_A_HL => 1
    case LDI_HL_A => 1
    case LDH_n_A => 2
    case LDH_A_n => 2
    case LD16_n_nn(_) => 2
    case LD16_SP_HL => 1
    case LDHL_SP_n => 2
    case LD_nn_SP => 4
    case PUSH(_) => 3
    case POP(_) => 2
    case ALU_r(_, r) => MemoryOperand(r)
    case ALU_n(_) => 1
    case INC_r(r) => 2 * MemoryOperand(r)
    case DEC_r(r) => 2 * MemoryOperand(r)
    case ADD16_HL_n(_) => 1
    case ADD16_SP_n => 3
    case INC16_nn(_) => 1
    case DEC16_nn(_) => 1
    case JP_nn => 3
    case JP_cc_nn(cc) => 2 + Taken(cc, f, 1)
    case JR_n => 2
    case JR_cc_n(cc) => 1 + Taken(cc, f, 1)
    case CALL_nn => 5
    case CALL_cc_nn(cc) => 2 + Taken(cc, f, 3)
    case RST_n(_) => 3
    case RET => 3
    case RET_cc(cc) => 1 + Taken(cc, f, 3)
    case RETI => 3
    case _ => 0
  }

  function BitCost(i: BitInstruction): nat {
    match i
    case BIT_b_r(_, r) => MemoryOperand(r)
    case _ => 2 * MemoryOperand(i.r)
  }

  // ----- plain instructions, group by group -----

  lemma LoadQuiet(s: Machine, i: Instruction)
    requires IsLoad(i)
    ensures var o := ExecutePlain(s, i); o.Ok? ==> Quiet(s, o.value, Cost(i, s.regs.f))
  {
    hide ReadU8, WriteU8, Fetch8, Fetch16, GetReg, SetReg, Later, GetWord, ValidPc;
    Accesses();
    Compound();
    Chaining();
  }

  lemma StackQuiet(s: Machine, rr: R16)
    ensures var o := Push(s, rr); o.Ok? ==> Quiet(s, o.value, 3)
    ensures var o := Pop(s, rr); o.Ok? ==> Quiet(s, o.value, 2)
    ensures var o := LoadPair(s, rr); o.Ok? ==> Quiet(s, o.value, 2)
    ensures var o := StoreSp(s); o.Ok? ==> Quiet(s, o.value, 4)
    ensures var o := LoadSp(s); o.Ok? ==> Quiet(s, o.value, 1)
  {
    hide ReadU16, WriteU16, Fetch8, Fetch16, Later, GetWord;
    Accesses();
    Compound();
    Chaining();
  }

  lemma PairQuiet(s: Machine, rr: R16, up: bool)
    ensures var o := AddToHl(s, rr); o.Ok? ==> Quiet(s, o.value, 1)
    ensures var o := BumpPair(s, rr, up); o.Ok? ==> Quiet(s, o.value, 1)
  {
    hide Later, GetWord, AddWords, Moved;
    Accesses();
  }

  lemma OffsetQuiet(s: Machine)
    ensures var o := LoadHlFromSp(s); o.Ok? ==> Quiet(s, o.value, 2)
    ensures var o := AddToSp(s); o.Ok? ==> Quiet(s, o.value, 3)
  {
    hide Fetch8, Later, AddSigned;
    Accesses();
    Compound();
    Chaining();
  }

  lemma StackOrPairQuiet(s: Machine, i: Instruction)
    requires IsStackOrPair(i)
    ensures var o := ExecutePlain(s, i); o.Ok? ==> Quiet(s, o.value, Cost(i, s.regs.f))
  {
    hide LoadImmediate, LoadAbsolute, LoadRegister, SetReg, StoreAbsolute, LoadFromPort, StoreToPort, LoadAndMove,
      StoreAndMove, StoreHighPage, LoadHighPage, AccumulateRegister, AccumulateImmediate, Bump, ComplementA, AdjustA,
      ExecutePrefixed, RotateA, LoadPair, LoadSp, LoadHlFromSp, StoreSp, Push, Pop, AddToHl, AddToSp, BumpPair,
      Jump, JumpHl, JumpRelative, Quiet;
    match i
    case LD16_n_nn(rr) => StackQuiet(s, rr);
    case LD16_SP_HL => StackQuiet(s, HL);
    case LDHL_SP_n => OffsetQuiet(s);
    case LD_nn_SP => StackQuiet(s, HL);
    case PUSH(rr) => StackQuiet(s, rr);
    case POP(rr) => StackQuiet(s, rr);
    case ADD16_HL_n(rr) => PairQuiet(s, rr, true);
    case ADD16_SP_n => OffsetQuiet(s);
    case INC16_nn(rr) => PairQuiet(s, rr, true);
    case DEC16_nn(rr) => PairQuiet(s, rr, false);
  }

  lemma OperationQuiet(s: Machine, i: Instruction)
    requires IsOperation(i)
    ensures var o := ExecutePlain(s, i); o.Ok? ==> Quiet(s, o.value, Cost(i, s.regs.f))
  {
    hide Fetch8, GetReg, SetReg, Later, Operate, Increment, Decrement, ValidPc;
    Compound();
    Chaining();
  }

  lemma RegisterOnlyQuiet(s: Machine, i: Instruction)
    requires IsRegisterOnly(i)
    ensures var o := ExecutePlain(s, i); o.Ok? ==> Quiet(s, o.value, Cost(i, s.regs.f))
  {
    hide LoadImmediate, LoadAbsolute, LoadRegister, SetReg, StoreAbsolute, LoadFromPort, StoreToPort, LoadAndMove,
      StoreAndMove, StoreHighPage, LoadHighPage, LoadPair, LoadSp, LoadHlFromSp, StoreSp, Push, Pop,
      AccumulateRegister, AccumulateImmediate, Bump, AddToHl, AddToSp, BumpPair, ExecutePrefixed, Jump, JumpHl,
      JumpRelative, Later, DecimalAdjust, RotateAccumulator, ValidPc;
    LaterItself(s.bus, s.pointers);
  }

  lemma JumpToQuiet(s: Machine, nn: u16)
    ensures var o := JumpTo(s, nn); o.Ok? ==> Quiet(s, o.value, 1) && o.value.regs.pc == nn && ValidPc(nn)
  {
    hide Later;
    SpendLater(s, 1);
  }

  predicate Branches(cc: Option<Condition>, f: Flags) {
    cc.Some? ==> cc.value.Holds(f)
  }

  lemma JumpAbsoluteQuiet(s: Machine, cc: Option<Condition>)
    ensures var o := Jump(s, cc); o.Ok? ==> Quiet(s, o.value, 2 + (if Branches(cc, s.regs.f) then 1 else 0))
  {
    hide Fetch16, JumpTo, Later;
    Compound();
    Chaining();
    var o := Fetch16(s);
    if o.Ok? {
      JumpToQuiet(o.value.1, o.value.0);
    }
  }

  lemma JumpRelativeQuiet(s: Machine, cc: Option<Condition>)
    ensures var o := JumpRelative(s, cc); o.Ok? ==> Quiet(s, o.value, 1 + (if Branches(cc, s.regs.f) then 1 else 0))
  {
    hide Fetch8, JumpTo, Later, Signed8;
    Compound();
    Chaining();
    var o := Fetch8(s);
    if o.Ok? {
      JumpToQuiet(o.value.1, Wrap16(o.value.1.regs.pc + Signed8(o.value.0)));
    }
  }

  lemma JumpHlQuiet(s: Machine)
    ensures var o := JumpHl(s); o.Ok? ==> Quiet(s, o.value, 0)
  {
    hide Later, GetWord;
    LaterItself(s.bus, s.pointers);
  }

  lemma JumpQuiet(s: Machine, i: Instruction)
    requires IsJump(i)
    ensures var o := ExecutePlain(s, i); o.Ok? ==> Quiet(s, o.value, Cost(i, s.regs.f))
  {
    hide LoadImmediate, LoadAbsolute, LoadRegister, SetReg, StoreAbsolute, LoadFromPort, StoreToPort, LoadAndMove,
      StoreAndMove, StoreHighPage, LoadHighPage, AccumulateRegister, AccumulateImmediate, Bump, ComplementA, AdjustA,
      ExecutePrefixed, RotateA, LoadPair, LoadSp, LoadHlFromSp, StoreSp, Push, Pop, AddToHl, AddToSp, BumpPair,
      Jump, JumpHl, JumpRelative, Quiet;
    match i
    case JP_nn => JumpAbsoluteQuiet(s, None);
    case JP_cc_nn(cc) => JumpAbsoluteQuiet(s, Some(cc));
    case JP_HL => JumpHlQuiet(s);
    case JR_n => JumpRelativeQuiet(s, None);
    case JR_cc_n(cc) => JumpRelativeQuiet(s, Some(cc));
  }

  lemma BitPageQuiet(s: Machine, i: BitInstruction)
    ensures var o := ExecuteBit(s, i); o.Ok? ==> Quiet(s, o.value, BitCost(i))
  {
    hide GetReg, SetReg, Later, Shift, TestBit, SetBit, ResetBit, ValidPc;
    Compound();
    Chaining();
  }

  lemma PrefixedQuiet(s: Machine)
    ensures var o := ExecutePrefixed(s);
      o.Ok? ==> Fetch8(s).Ok? && Quiet(s, o.value, 1 + BitCost(DecodeBit(Fetch8(s).value.0)))
  {
    hide Fetch8, ExecuteBit, DecodeBit, Later, ValidPc;
    Compound();
    Chaining();
    var f := Fetch8(s);
    if f.Ok? {
      BitPageQuiet(f.value.1, DecodeBit(f.value.0));
    }
  }

  /** The cost of an instruction in a state; for the CB page it depends on the byte that follows. */
  function CostHere(s: Machine, i: Instruction): nat {
    if i.PREFIX? && Fetch8(s).Ok? then 1 + BitCost(DecodeBit(Fetch8(s).value.0)) else Cost(i, s.regs.f)
  }

  /** Every instruction that is not control takes exactly its cost and is quiet. */
  lemma PlainQuiet(s: Machine, i: Instruction)
    requires !IsControl(i)
    ensures Execute(s, i) == ExecutePlain(s, i)
    ensures var o := Execute(s, i); o.Ok? ==> Quiet(s, o.value, CostHere(s, i))
  {
    hide LoadImmediate, LoadAbsolute, LoadRegister, SetReg, StoreAbsolute, LoadFromPort, StoreToPort, LoadAndMove,
      StoreAndMove, StoreHighPage, LoadHighPage, LoadPair, LoadSp, LoadHlFromSp, StoreSp, Push, Pop,
      AccumulateRegister, AccumulateImmediate, Bump, AddToHl, AddToSp, BumpPair, AdjustA, ComplementA,
      ExecutePrefixed, RotateA, Jump, JumpHl, JumpRelative, Quiet, Cost, BitCost, DecodeBit, Fetch8;
    if IsLoad(i) {
      LoadQuiet(s, i);
    } else if IsStackOrPair(i) {
      StackOrPairQuiet(s, i);
    } else if IsOperation(i) {
      OperationQuiet(s, i);
    } else if IsRegisterOnly(i) {
      RegisterOnlyQuiet(s, i);
    } else if IsJump(i) {
      JumpQuiet(s, i);
    } else if i.PREFIX? {
      PrefixedQuiet(s);
    }
  }
}
