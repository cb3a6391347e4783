/** The guard on every access, exactly, and what it means for whole instructions: no instruction reads or
    writes a pending return address as data. */
module GuardedAccess {
  import opened Outcomes
  import opened Bits
  import opened CheckedInt
  import opened Registers
  import opened AddressBus
  import opened Processor
  import opened Effects
  import opened ShadowStack
  import Manual
  import opened Conformance

  /** A DMA started at cycle d holds the bus, high RAM excepted, for 160 cycles; an access happens at the end
      of its cycle. */
  predicate BusHeld(s: Machine, addr: u16) {
    var d := s.bus.io.dmaStart;
    d != 0 && s.bus.io.cycle + 1 < d + 160 && (addr < 0xFF80 || addr == 0xFFFF)
  }

  /** A read succeeds if and only if the bus is free, there is something to read, it is defined or need not
      be, and it is no pending return address; otherwise the first of these that fails is reported. */
  lemma ReadIsGuarded(s: Machine, addr: u16, allow: bool)
    ensures var o, r := ReadU8(s, addr, allow), Read(Spend(s, 1).bus, addr, false);
      && (o.Ok? <==> !BusHeld(s, addr) && r.Ok? && (allow || !r.value.0.undefined) && addr !in s.pointers)
      && (o.Ok? ==> o.value == (r.value.0, s.(bus := r.value.1)))
      && (BusHeld(s, addr) ==> o == Err(DmaBusConflict))
      && (!BusHeld(s, addr) && r.Err? ==> o == Err(r.error))
      && (!BusHeld(s, addr) && r.Ok? && r.value.0.undefined && !allow ==> o == Err(UndefinedData))
      && (!BusHeld(s, addr) && r.Ok? && (allow || !r.value.0.undefined) && addr in s.pointers ==> o == Err(ReadingReturnAddress))
  {
    hide Read;
  }

  lemma WriteIsGuarded(s: Machine, addr: u16, v: Byte, allow: bool)
    ensures var o, r := WriteU8(s, addr, v, allow), Write(Spend(s, 1).bus, addr, v, false);
      && (o.Ok? <==> !BusHeld(s, addr) && (allow || !v.undefined) && addr !in s.pointers && r.Ok?)
      && (o.Ok? ==> o.value == s.(bus := r.value))
      && (BusHeld(s, addr) ==> o == Err(DmaBusConflict))
      && (!BusHeld(s, addr) && v.undefined && !allow ==> o == Err(UndefinedData))
      && (!BusHeld(s, addr) && (allow || !v.undefined) && addr in s.pointers ==> o == Err(ClobberedReturnAddress))
      && (!BusHeld(s, addr) && (allow || !v.undefined) && addr !in s.pointers && r.Err? ==> o == Err(r.error))
  {
    hide Write;
  }

  // ----- the data addresses of an instruction -----

  predicate IsNumber(a: u16, high: Byte, low: Byte) {
    a == 0x100 * high.data + low.data
  }

  predicate IsFrame(a: u16, sp: int) {
    a == sp % 0x10000 || a == (sp + 1) % 0x10000
  }

  /** The CB-page argument, where there is one. */
  predicate OnHl(t: Machine) {
    Manual.Next8(t).Ok? && Manual.Next8(t).value.0 % 8 == 6
  }

  predicate OnlyTests(t: Machine) {
    Manual.Next8(t).Ok? && 0x40 <= Manual.Next8(t).value.0 < 0x80
  }

  predicate IsImmediate8(t: Machine, a: int) {
    Manual.Next8(t).Ok? && a == 0xFF00 + Manual.Next8(t).value.0
  }

  predicate IsImmediate16(t: Machine, a: int) {
    Manual.Next16(t).Ok? && a == Manual.Next16(t).value.0
  }

  /** Opcode `op`, behind which the program counter of t stands, reads address a as data.  A return is no
      data read: it takes its frame off the shadow stack first. */
  predicate ReadsData(t: Machine, op: u8, a: u16) {
    if (0x40 <= op < 0xC0 && op % 8 == 6 && op != 0x76) || op == 0x34 || op == 0x35 || op == 0x2A || op == 0x3A
    then IsNumber(a, t.regs.h, t.regs.l)
    else if op == 0xCB then OnHl(t) && IsNumber(a, t.regs.h, t.regs.l)
    else if op == 0x0A then IsNumber(a, t.regs.b, t.regs.c)
    else if op == 0x1A then IsNumber(a, t.regs.d, t.regs.e)
    else if op == 0xF0 then IsImmediate8(t, a)
    else if op == 0xF2 then a == 0xFF00 + t.regs.c.data
    else if op == 0xFA then IsImmediate16(t, a)
    else (op == 0xC1 || op == 0xD1 || op == 0xE1 || op == 0xF1) && IsFrame(a, t.regs.sp)
  }

  predicate Pushes(t: Machine, op: u8) {
    || op == 0xC5 || op == 0xD5 || op == 0xE5 || op == 0xF5 || op == 0xCD || (op >= 0xC0 && op % 8 == 7)
    || ((op == 0xC4 || op == 0xCC || op == 0xD4 || op == 0xDC) && Manual.Met(op / 8 % 8, t.regs.f))
  }

  /** It writes address a: as data, or as the frame of a call. */
  predicate WritesData(t: Machine, op: u8, a: u16) {
    if (0x70 <= op < 0x78 && op != 0x76) || op == 0x34 || op == 0x35 || op == 0x36 || op == 0x22 || op == 0x32
    then IsNumber(a, t.regs.h, t.regs.l)
    else if op == 0xCB then OnHl(t) && !OnlyTests(t) && IsNumber(a, t.regs.h, t.regs.l)
    else if op == 0x02 then IsNumber(a, t.regs.b, t.regs.c)
    else if op == 0x12 then IsNumber(a, t.regs.d, t.regs.e)
    else if op == 0x08 then IsImmediate16(t, a) || IsImmediate16(t, (a - 1) % 0x10000)
    else if op == 0xE0 then IsImmediate8(t, a)
    else if op == 0xE2 then a == 0xFF00 + t.regs.c.data
    else if op == 0xEA then IsImmediate16(t, a)
    else Pushes(t, op) && IsFrame(a, t.regs.sp - 2)
  }

  lemma ReadSpares(s: Machine, addr: u16, allow: bool)
    ensures var o := ReadU8(s, addr, allow);
      o.Ok? ==> addr !in s.pointers && o.value.1.pointers == s.pointers && o.value.1.regs == s.regs
  {
    hide ReadU8, Read;
    ReadIsGuarded(s, addr, allow);
  }

  lemma WriteSpares(s: Machine, addr: u16, v: Byte, allow: bool)
    ensures var o := WriteU8(s, addr, v, allow);
      o.Ok? ==> addr !in s.pointers && o.value.pointers == s.pointers && o.value.regs == s.regs
  {
    hide WriteU8, Write;
    WriteIsGuarded(s, addr, v, allow);
  }

  lemma FetchKeepsShadow(t: Machine)
    ensures Manual.Next8(t).Ok? ==>
      var u := Manual.Next8(t).value.1; u.pointers == t.pointers && u.regs == t.regs.(pc := u.regs.pc)
    ensures Manual.Next16(t).Ok? ==>
      var u := Manual.Next16(t).value.1; u.pointers == t.pointers && u.regs == t.regs.(pc := u.regs.pc)
  {
    hide ReadU8;
    var u := t.(regs := t.regs.(pc := (t.regs.pc + 1) % 0x10000));
    ReadSpares(u, t.regs.pc, false);
    ReadSpares(t, (t.regs.pc + 1) % 0x10000, false);
    var high := ReadU8(t, (t.regs.pc + 1) % 0x10000, false);
    if high.Ok? {
      ReadSpares(high.value.1, t.regs.pc, false);
    }
  }

  // ----- the operations of the manual -----

  lemma Operand8Spares(t: Machine, k: nat)
    requires k < 8 && Manual.Operand8(t, k).Ok?
    ensures var u := Manual.Operand8(t, k).value.1; u.pointers == t.pointers && u.regs == t.regs
    ensures forall a: u16 :: k == 6 && IsNumber(a, t.regs.h, t.regs.l) ==> a !in t.pointers
  {
    hide ReadU8;
    if k == 6 {
      ReadSpares(t, 0x100 * t.regs.h.data + t.regs.l.data, false);
    }
  }

  lemma Result8Spares(t: Machine, k: nat, v: Byte)
    requires k < 8 && Manual.Result8(t, k, v).Ok?
    ensures forall a: u16 :: k == 6 && IsNumber(a, t.regs.h, t.regs.l) ==> a !in t.pointers
  {
    hide WriteU8;
    if k == 6 {
      WriteSpares(t, 0x100 * t.regs.h.data + t.regs.l.data, v, false);
    }
  }

  lemma AccessSpares(t: Machine, load: bool, addr: u16)
    requires Manual.Access(t, load, addr).Ok?
    ensures addr !in t.pointers
  {
    hide ReadU8, WriteU8;
    ReadSpares(t, addr, false);
    WriteSpares(t, addr, t.regs.a, false);
  }

  lemma PopSpares(t: Machine, p: nat)
    requires p < 4 && Manual.PopHalves(t, p).Ok?
    ensures forall a: u16 :: IsFrame(a, t.regs.sp) ==> a !in t.pointers
  {
    hide ReadU8;
    var sp := t.regs.sp;
    var next: u16 := (sp as int + 1) % 0x10000;
    ReadSpares(t, next, true);
    ReadSpares(ReadU8(t, next, true).value.1, sp, true);
  }

  lemma PushSpares(t: Machine, p: nat)
    requires p < 4 && Manual.PushHalves(t, p).Ok?
    ensures forall a: u16 :: IsFrame(a, t.regs.sp - 2) ==> a !in t.pointers
  {
    hide WriteU8, Manual.Halves;
    var sp: u16 := (t.regs.sp - 2) % 0x10000;
    var u := WithRegs(Spend(t, 1), t.regs.(sp := sp));
    var low := Manual.Halves(u.regs, p).1;
    WriteSpares(u, sp, low, true);
    WriteSpares(WriteU8(u, sp, low, true).value, (sp as int + 1) % 0x10000, Manual.Halves(u.regs, p).0, true);
  }

  lemma CallSpares(t: Machine, nn: u16)
    requires Manual.CallNumber(t, nn).Ok?
    ensures forall a: u16 :: IsFrame(a, t.regs.sp - 2) ==> a !in t.pointers
  {
    hide CallTo, Manual.CallNumber, Later, Holds;
    CallIs(t, nn);
    CallToCalls(t, nn);
  }

  lemma StoreSpSpares(t: Machine)
    requires Manual.StoreSp(t).Ok?
    ensures forall a: u16 :: IsImmediate16(t, a) || IsImmediate16(t, (a - 1) % 0x10000) ==> a !in t.pointers
  {
    hide WriteU8, Manual.Next16;
    FetchKeepsShadow(t);
    var (nn, u) := Manual.Next16(t).value;
    WriteSpares(u, nn, Known(u.regs.sp % 0x100), false);
    var v := WriteU8(u, nn, Known(u.regs.sp % 0x100), false).value;
    WriteSpares(v, (nn + 1) % 0x10000, Known(v.regs.sp / 0x100), false);
  }

  // ----- whole instructions -----

  predicate Spared(t: Machine, op: u8) {
    forall a: u16 :: ReadsData(t, op, a) || WritesData(t, op, a) ==> a !in t.pointers
  }

  lemma OnHlSpares(t: Machine, u: Machine)
    requires u.pointers == t.pointers && u.regs.h == t.regs.h && u.regs.l == t.regs.l
    ensures forall a: u16 :: IsNumber(a, u.regs.h, u.regs.l) && a !in u.pointers ==> IsNumber(a, t.regs.h, t.regs.l) && a !in t.pointers
  {
  }

  lemma MiddleSpares(t: Machine, op: u8)
    requires 0x40 <= op < 0xC0 && op != 0x76 && Manual.Does(t, op).Ok?
    ensures Spared(t, op)
  {
    hide Manual.Operand8, Manual.Result8, Manual.Combine, Manual.Low, Manual.High;
    Operand8Spares(t, op % 8);
    var (v, u) := Manual.Operand8(t, op % 8).value;
    if op < 0x80 {
      Result8Spares(u, op / 8 % 8, v);
    }
  }

  lemma CountSpares(t: Machine, k: nat, up: bool)
    requires k < 8 && Manual.Count(t, k, up).Ok?
    ensures forall a: u16 :: k == 6 && IsNumber(a, t.regs.h, t.regs.l) ==> a !in t.pointers
  {
    hide Manual.Operand8, Manual.Result8;
    Operand8Spares(t, k);
  }

  lemma BitPageSpares(t: Machine)
    requires Manual.OnBitPage(t).Ok?
    ensures forall a: u16 :: OnHl(t) && IsNumber(a, t.regs.h, t.regs.l) ==> a !in t.pointers
  {
    hide Manual.Next8, Manual.Operand8, Manual.Result8, Manual.Shifted, Manual.Raised, Manual.Cleared, Bit;
    FetchKeepsShadow(t);
    var (arg, u) := Manual.Next8(t).value;
    Operand8Spares(u, arg % 8);
  }

  lemma IndirectSpares(t: Machine, p: nat, load: bool)
    requires p < 4 && Manual.Indirect(t, p, load).Ok?
    ensures forall a: u16 :: (if p == 0 then IsNumber(a, t.regs.b, t.regs.c) else if p == 1 then IsNumber(a, t.regs.d, t.regs.e)
      else IsNumber(a, t.regs.h, t.regs.l)) ==> a !in t.pointers
  {
    hide Manual.Access, Manual.WithPair16;
    var o := Manual.Pair16(t.regs, if p < 2 then p else 2);
    AccessSpares(t, load, o.value);
  }

  lemma ImmediateSpares(t: Machine, load: bool)
    ensures Manual.HighPage(t, load).Ok? ==> forall a: u16 :: IsImmediate8(t, a) ==> a !in t.pointers
    ensures Manual.Direct(t, load).Ok? ==> forall a: u16 :: IsImmediate16(t, a) ==> a !in t.pointers
  {
    hide Manual.Access, Manual.Next8, Manual.Next16;
    FetchKeepsShadow(t);
    var o, p := Manual.Next8(t), Manual.Next16(t);
    if Manual.HighPage(t, load).Ok? {
      AccessSpares(o.value.1, load, 0xFF00 + o.value.0 as int);
    }
    if Manual.Direct(t, load).Ok? {
      AccessSpares(p.value.1, load, p.value.0);
    }
  }

  lemma ImmediateStoreSpares(t: Machine)
    requires Manual.Next8(t).Ok? && Manual.Result8(Manual.Next8(t).value.1, 6, Known(Manual.Next8(t).value.0)).Ok?
    ensures forall a: u16 :: IsNumber(a, t.regs.h, t.regs.l) ==> a !in t.pointers
  {
    hide Manual.Next8, Manual.Result8;
    FetchKeepsShadow(t);
    Result8Spares(Manual.Next8(t).value.1, 6, Known(Manual.Next8(t).value.0));
  }

  lemma LowSpares(t: Machine, op: u8)
    requires op < 0x40 && Manual.Low(t, op).Ok?
    ensures Spared(t, op)
  {
    hide Manual.StoreSp, Manual.JumpAhead, Manual.AddPair, Manual.Next8, Manual.Next16, Manual.WithPair16, Manual.Indirect,
      Manual.CountPair, Manual.Count, Manual.Result8, Manual.RotateAccumulator, Manual.Settle, Manual.Met,
      IsNumber, IsImmediate16, IsImmediate8, OnHl, OnlyTests, IsFrame;
    if op == 0x08 {
      StoreSpSpares(t);
    } else if op % 8 == 2 {
      IndirectSpares(t, op / 0x10, op / 8 % 2 == 1);
    } else if op == 0x34 || op == 0x35 {
      CountSpares(t, 6, op == 0x34);
    } else if op == 0x36 {
      ImmediateStoreSpares(t);
    }
  }

  lemma TakenCallSpares(t: Machine, when: bool)
    requires when && Manual.CallAbsolute(t, when).Ok?
    ensures forall a: u16 :: IsFrame(a, t.regs.sp - 2) ==> a !in t.pointers
  {
    hide Manual.CallNumber, Manual.Next16, IsFrame;
    FetchKeepsShadow(t);
    CallSpares(Manual.Next16(t).value.1, Manual.Next16(t).value.0);
  }

  lemma PortSpares(t: Machine, load: bool)
    requires Manual.Port(t, load).Ok?
    ensures 0xFF00 + t.regs.c.data as int !in t.pointers
  {
    hide Manual.Access;
    AccessSpares(t, load, 0xFF00 + t.regs.c.data as int);
  }

  lemma HighSpares(t: Machine, op: u8)
    requires op >= 0xC0 && Manual.High(t, op).Ok?
    ensures Spared(t, op)
  {
    hide Manual.HighPage, Manual.Offset, Manual.PopHalves, Manual.GoTo, Manual.Number, Manual.Port, Manual.Direct,
      Manual.JumpAbsolute, Manual.OnBitPage, Manual.CallAbsolute, Manual.PushHalves, Manual.Next8, Manual.Combine, Manual.Met,
      Manual.CallNumber, Manual.ReturnNumber, IsNumber, IsImmediate16, IsImmediate8, OnHl, OnlyTests, IsFrame;
    if op == 0xE0 || op == 0xF0 || op == 0xEA || op == 0xFA {
      ImmediateSpares(t, op >= 0xF0);
    } else if op == 0xE2 || op == 0xF2 {
      PortSpares(t, op == 0xF2);
    } else if op == 0xCB {
      BitPageSpares(t);
    } else if op == 0xC1 || op == 0xD1 || op == 0xE1 || op == 0xF1 {
      PopSpares(t, op / 0x10 % 4);
    } else if op == 0xC5 || op == 0xD5 || op == 0xE5 || op == 0xF5 {
      PushSpares(t, op / 0x10 % 4);
    } else if op % 8 == 7 {
      CallSpares(t, 8 * (op / 8 % 8));
    } else if Pushes(t, op) {
      TakenCallSpares(t, true);
    }
  }

  /** No instruction that succeeds has read or written a pending return address, through a register pair, a
      port, an immediate address or the stack pointer, nor run one as its opcode. */
  lemma InstructionsSpareReturnAddresses(s: Machine)
    requires ProcessNextInstruction(s).Ok?
    ensures Fetch8(s).Ok? && s.regs.pc !in s.pointers
    ensures var (op, t) := Fetch8(s).value; t.pointers == s.pointers && Spared(t, op)
  {
    hide Manual.Next8, Manual.Low, Manual.High, Fetch8, Decode, Execute, Spared;
    ProcessorConforms(s);
    Next8Is(s);
    FetchKeepsShadow(s);
    OpcodeSpared(s);
    var (op, t) := Manual.Next8(s).value;
    if op < 0x40 {
      LowSpares(t, op);
    } else if op == 0x76 {
      HaltSpares(t);
    } else if op < 0xC0 {
      MiddleSpares(t, op);
    } else {
      HighSpares(t, op);
    }
  }

  lemma OpcodeSpared(s: Machine)
    requires Manual.Next8(s).Ok?
    ensures s.regs.pc !in s.pointers
  {
    hide ReadU8;
    ReadSpares(s.(regs := s.regs.(pc := (s.regs.pc + 1) % 0x10000)), s.regs.pc, false);
  }

  lemma HaltSpares(t: Machine)
    ensures Spared(t, 0x76)
  {
  }
}
