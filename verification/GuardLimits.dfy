/** The exact reach of the write-time guard.  It compares addresses, so it misses what reaches a frame by
    another way: the echo of work RAM, a DMA into sprite memory, a switch of the cartridge RAM bank. */
module GuardLimits {
  import opened Outcomes
  import opened Bits
  import opened CheckedInt
  import opened Picture
  import opened IoBlock
  import opened AddressBus
  import opened Evolution
  import opened FlatMemory
  import opened Processor
  import opened Effects
  import opened ShadowStack
  import opened Runs

  // ----- frames anywhere in memory -----

  /** A frame whose two bytes are memory of any kind. */
  predicate StorageFrame(b: Bus, sp: u16) {
    sp < 0xFFFF && IsStorage(b, sp) && IsStorage(b, sp + 1)
  }

  /** The return address is in its frame. */
  predicate Intact(b: Bus, sp: u16, address: u16)
    requires StorageFrame(b, sp)
  {
    Stored(b, sp) == Known(address % 0x100) && Stored(b, sp + 1) == Known(address / 0x100)
  }

  lemma SpendKeepsStored(s: Machine, k: nat, a: u16)
    requires IsStorage(s.bus, a)
    ensures IsStorage(Spend(s, k).bus, a) && Stored(Spend(s, k).bus, a) == Stored(s.bus, a)
  {
  }

  // ----- CALL puts the address there -----

  lemma WriteU8IsWrite(s: Machine, addr: u16, v: Byte, allow: bool)
    requires WriteU8(s, addr, v, allow).Ok?
    ensures Write(Spend(s, 1).bus, addr, v, false).Ok?
    ensures WriteU8(s, addr, v, allow).value == s.(bus := Write(Spend(s, 1).bus, addr, v, false).value)
    ensures addr !in s.pointers && !DmaBlocks(Spend(s, 1), addr)
  {
    hide Write;
  }

  /** What a successful write leaves in a storage cell. */
  lemma WriteU8Leaves(s: Machine, addr: u16, v: Byte, allow: bool, a: u16)
    requires IsStorage(s.bus, a) && WriteU8(s, addr, v, allow).Ok?
    ensures IsStorage(Spend(s, 1).bus, a)
    ensures var t := WriteU8(s, addr, v, allow).value;
      IsStorage(t.bus, a) && forall x :: Stored(t.bus, a) == x <==> Leaves(Spend(s, 1).bus, addr, v, a, x)
  {
    hide Write, WriteU8, Leaves, Stored;
    SpendKeepsStored(s, 1, a);
    WriteU8IsWrite(s, addr, v, allow);
    WriteChanges(Spend(s, 1).bus, addr, v, a);
  }

  /** A call leaves its return address intact in any kind of memory. */
  lemma CallLeavesIntact(s: Machine, nn: u16)
    requires var sp := Wrap16(s.regs.sp - 2); StorageFrame(s.bus, sp) && CallTo(s, nn).Ok?
    ensures var sp, t := Wrap16(s.regs.sp - 2), CallTo(s, nn).value;
      && StorageFrame(t.bus, sp) && Intact(t.bus, sp, s.regs.pc)
      && t.regs.sp == sp && t.pointers == s.pointers + [sp + 1, sp] && t.expected == s.expected + [s.regs.pc]
  {
    hide WriteU8, IsStorage, Stored, Leaves, Later, Holds;
    CallToCalls(s, nn);
    var sp := Wrap16(s.regs.sp - 2);
    var low, high := Known(s.regs.pc % 0x100), Known(s.regs.pc / 0x100);
    var t := WithRegs(Spend(s, 1), s.regs.(sp := sp));
    SpendKeepsStored(s, 1, sp);
    SpendKeepsStored(s, 1, sp + 1);
    var u := WriteU8(t, sp, low, true).value;
    WriteU8Leaves(t, sp, low, true, sp);
    WriteU8Leaves(t, sp, low, true, sp + 1);
    WriteU8Leaves(u, sp + 1, high, true, sp);
    WriteU8Leaves(u, sp + 1, high, true, sp + 1);
    OwnWrite(Spend(t, 1).bus, sp, low);
    OwnWrite(Spend(u, 1).bus, sp + 1, high);
    SpendKeepsStored(u, 1, sp);
    NeighbourWrite(Spend(u, 1).bus, sp, high);
    var v := WriteU8(u, sp + 1, high, true).value;
    SpendKeepsStored(v, 1, sp);
    SpendKeepsStored(v, 1, sp + 1);
  }

  lemma OwnWrite(b: Bus, a: u16, v: Byte)
    requires IsStorage(b, a)
    ensures Leaves(b, a, v, a, v)
  {
  }

  lemma NeighbourWrite(b: Bus, a: u16, v: Byte)
    requires StorageFrame(b, a)
    ensures Leaves(b, a + 1, v, a, Stored(b, a))
  {
    hide Stored;
  }

  // ----- which writes damage a frame -----

  /** The condition on a write, checked before it: both bytes of the frame come out as they should be. */
  predicate Spares(b: Bus, addr: u16, v: Byte, sp: u16, address: u16)
    requires StorageFrame(b, sp)
  {
    Leaves(b, addr, v, sp, Known(address % 0x100)) && Leaves(b, addr, v, sp + 1, Known(address / 0x100))
  }

  /** A frame is intact after a permitted write if and only if the write spares it. */
  lemma WriteSpares(s: Machine, addr: u16, v: Byte, allow: bool, sp: u16, address: u16)
    requires StorageFrame(s.bus, sp) && WriteU8(s, addr, v, allow).Ok?
    ensures var t := WriteU8(s, addr, v, allow).value;
      && StorageFrame(Spend(s, 1).bus, sp) && StorageFrame(t.bus, sp)
      && (Intact(t.bus, sp, address) <==> Spares(Spend(s, 1).bus, addr, v, sp, address))
  {
    hide WriteU8, IsStorage, Stored, Leaves;
    WriteU8Leaves(s, addr, v, allow, sp);
    WriteU8Leaves(s, addr, v, allow, sp + 1);
  }

  /** The frame of a pending call, with its return address in place. */
  predicate PendingAt(s: Machine, sp: u16, address: u16) {
    && StorageFrame(s.bus, sp) && Intact(s.bus, sp, address)
    && sp in s.pointers && sp + 1 in s.pointers
  }

  predicate BothIn(sp: u16, low: int, high: int) {
    low <= sp && sp + 1 < high
  }

  /** In work RAM the guard misses exactly the writes through another address of the frame, defined or not,
      that do not happen to write the same byte. */
  lemma WorkRamFrame(s: Machine, addr: u16, v: Byte, allow: bool, sp: u16, address: u16)
    requires PendingAt(s, sp, address) && BothIn(sp, 0xC000, 0xFE00) && WriteU8(s, addr, v, allow).Ok?
    ensures var t := WriteU8(s, addr, v, allow).value;
      && StorageFrame(t.bus, sp)
      && (Intact(t.bus, sp, address) <==>
            && (Alias(addr, sp) ==> v == Known(address % 0x100))
            && (Alias(addr, sp + 1) ==> v == Known(address / 0x100)))
  {
    hide WriteU8, IsStorage, Stored, SourceByte;
    WriteSpares(s, addr, v, allow, sp, address);
    WriteU8IsWrite(s, addr, v, allow);
    SpendKeepsStored(s, 1, sp);
    SpendKeepsStored(s, 1, sp + 1);
  }

  /** In sprite memory it misses exactly the DMAs that bring other bytes. */
  lemma SpriteFrame(s: Machine, addr: u16, v: Byte, allow: bool, sp: u16, address: u16)
    requires PendingAt(s, sp, address) && BothIn(sp, 0xFE00, 0xFEA0) && WriteU8(s, addr, v, allow).Ok?
    ensures var t := WriteU8(s, addr, v, allow).value;
      && StorageFrame(t.bus, sp)
      && (Intact(t.bus, sp, address) <==>
            (addr == DMA_REGISTER ==>
               && !v.undefined && v.data <= 0xF1
               && SourceByte(Spend(s, 1).bus, v.data, sp - 0xFE00) == Ok(Known(address % 0x100))
               && SourceByte(Spend(s, 1).bus, v.data, sp + 1 - 0xFE00) == Ok(Known(address / 0x100))))
  {
    hide WriteU8, IsStorage, Stored, SourceByte;
    WriteSpares(s, addr, v, allow, sp, address);
    WriteU8IsWrite(s, addr, v, allow);
    SpendKeepsStored(s, 1, sp);
    SpendKeepsStored(s, 1, sp + 1);
  }

  /** In cartridge RAM it misses exactly the switches to a bank that holds other bytes there. */
  lemma BankedFrame(s: Machine, addr: u16, v: Byte, allow: bool, sp: u16, address: u16)
    requires PendingAt(s, sp, address) && BothIn(sp, 0xA000, 0xC000) && WriteU8(s, addr, v, allow).Ok?
    ensures var t := WriteU8(s, addr, v, allow).value;
      && StorageFrame(t.bus, sp)
      && (Intact(t.bus, sp, address) <==>
            (SelectsRamBank(s.bus.cart, addr) ==>
               var bank := 0x2000 * (v.data % 4);
               && s.bus.cart.ram[bank + (sp - 0xA000)] == Known(address % 0x100)
               && s.bus.cart.ram[bank + (sp + 1 - 0xA000)] == Known(address / 0x100)))
  {
    hide WriteU8, IsStorage, Stored, SourceByte;
    WriteSpares(s, addr, v, allow, sp, address);
    WriteU8IsWrite(s, addr, v, allow);
    SpendKeepsStored(s, 1, sp);
    SpendKeepsStored(s, 1, sp + 1);
  }

  /** In tile and map memory, and where nothing has an alias, it misses nothing. */
  lemma SafeFrame(s: Machine, addr: u16, v: Byte, allow: bool, sp: u16, address: u16)
    requires PendingAt(s, sp, address) && Safe(sp) && WriteU8(s, addr, v, allow).Ok?
    ensures var t := WriteU8(s, addr, v, allow).value; StorageFrame(t.bus, sp) && Intact(t.bus, sp, address)
  {
    hide WriteU8, IsStorage, Stored, SourceByte;
    WriteSpares(s, addr, v, allow, sp, address);
    WriteU8IsWrite(s, addr, v, allow);
    SpendKeepsStored(s, 1, sp);
    SpendKeepsStored(s, 1, sp + 1);
  }

  /** Nothing but a write changes memory: no read does, and no update of the devices. */
  lemma OnlyWritesDamage(s: Machine, a: u16, addr: u16, allow: bool, env: Env)
    requires IsStorage(s.bus, a)
    ensures var o := ReadU8(s, addr, allow);
      o.Ok? ==> IsStorage(o.value.1.bus, a) && Stored(o.value.1.bus, a) == Stored(s.bus, a)
    ensures var o := Update(s.bus.io, env);
      o.Ok? ==> var t := s.(bus := s.bus.(io := o.value.0)); IsStorage(t.bus, a) && Stored(t.bus, a) == Stored(s.bus, a)
  {
    hide Read, Update, PatternByte, MapByte, OamByte;
    ReadEvolves(Spend(s, 1).bus, addr, false, []);
    if Update(s.bus.io, env).Ok? {
      UpdateKeeps(s.bus.io, env);
    }
  }

  // ----- RET finds the damage -----

  /** A read that neither a running DMA nor the picture unit refuses. */
  predicate Readable(s: Machine, addr: u16) {
    !DmaBlocks(Spend(s, 1), addr) && (IsVideoAddress(addr) ==> Accessible(s.bus.io.memory, addr))
  }

  lemma StorageReads(s: Machine, addr: u16)
    requires IsStorage(s.bus, addr) && addr !in s.pointers
    ensures ReadU8(s, addr, false) ==
      if DmaBlocks(Spend(s, 1), addr) then Err(DmaBusConflict)
      else if !Readable(s, addr) then Err(PpuViolation)
      else if Stored(s.bus, addr).undefined then Err(UndefinedData)
      else Ok((Stored(s.bus, addr), Spend(s, 1)))
  {
    hide VideoByte, ReadRegister;
  }

  /** Both bytes of a frame can be read, the upper one first. */
  predicate FrameReadable(s: Machine, sp: u16) {
    sp < 0xFFFF && Readable(s, sp + 1) && Readable(Spend(s, 1), sp)
  }

  lemma StorageWordReads(s: Machine, sp: u16)
    requires StorageFrame(s.bus, sp) && sp !in s.pointers && sp + 1 !in s.pointers
    ensures var o, low, high := ReadU16(s, sp, false), Stored(s.bus, sp), Stored(s.bus, sp + 1);
      && (o.Ok? <==> FrameReadable(s, sp) && !low.undefined && !high.undefined)
      && (o.Ok? ==> o == Ok((Word(high, low), Spend(s, 2))))
      && (FrameReadable(s, sp) && o.Err? ==> o == Err(UndefinedData))
  {
    hide ReadU8, IsStorage, Stored, Accessible;
    StorageReads(s, sp + 1);
    SpendKeepsStored(s, 1, sp);
    StorageReads(Spend(s, 1), sp);
  }

  /** A return to a frame in any kind of memory succeeds if and only if the stack pointer is back at it, it
      can be read, and it is intact; damage to a readable frame is always reported. */
  lemma ReturnChecks(s: Machine)
    requires ShadowInv(s) && s.expected != [] && StorageFrame(s.bus, Top(s))
    ensures var intact := Intact(s.bus, Top(s), s.expected[|s.expected| - 1]);
      && (Return(s).Ok? <==> s.regs.sp == Top(s) && FrameReadable(s, Top(s)) && intact)
      && (s.regs.sp == Top(s) && FrameReadable(s, Top(s)) && !intact ==>
            Return(s) == Err(UndefinedData) || Return(s) == Err(ClobberedReturnAddress))
  {
    hide ReadU16, IsStorage, Stored, FrameReadable, Distinct;
    TopFrame(s);
    var n, sp := |s.expected|, Top(s);
    var t := s.(pointers := s.pointers[..2 * n - 2], expected := s.expected[..n - 1]);
    StorageWordReads(t, sp);
    SameReadable(s, t, sp);
    BytesOfWord(Stored(s.bus, sp + 1), Stored(s.bus, sp), s.expected[n - 1]);
  }

  lemma SameReadable(s: Machine, t: Machine, sp: u16)
    requires t.bus == s.bus
    ensures FrameReadable(t, sp) == FrameReadable(s, sp)
  {
  }

  lemma BytesOfWord(high: Byte, low: Byte, address: u16)
    ensures var w := Word(high, low);
      !w.Undefined() && w.Data() == address <==> low == Known(address % 0x100) && high == Known(address / 0x100)
  {
  }

  /** A call, one permitted write anywhere, and the return: it succeeds if and only if the write spared the
      frame, unless the frame cannot be read at all. */
  lemma CallWriteReturn(s: Machine, nn: u16, addr: u16, v: Byte, allow: bool)
    requires var sp := Wrap16(s.regs.sp - 2);
      ShadowInv(s) && StorageFrame(s.bus, sp) && CallTo(s, nn).Ok? && WriteU8(CallTo(s, nn).value, addr, v, allow).Ok?
    ensures var sp, t := Wrap16(s.regs.sp - 2), CallTo(s, nn).value;
      var u := WriteU8(t, addr, v, allow).value;
      && StorageFrame(Spend(t, 1).bus, sp)
      && (Return(u).Ok? <==> FrameReadable(u, sp) && Spares(Spend(t, 1).bus, addr, v, sp, s.regs.pc))
  {
    hide CallTo, WriteU8, Return, StorageFrame, Intact, Spares, Mirrors, FrameReadable, Called, Later;
    var sp, t := Wrap16(s.regs.sp - 2), CallTo(s, nn).value;
    var u := WriteU8(t, addr, v, allow).value;
    CallLeavesIntact(s, nn);
    CallToCalls(s, nn);
    CallKeepsShadow(s, t, nn);
    WriteKeepsShadow(t, addr, v, allow);
    WriteSpares(t, addr, v, allow, sp, s.regs.pc);
    ReturnChecks(u);
  }

  lemma WriteKeepsShadow(s: Machine, addr: u16, v: Byte, allow: bool)
    requires ShadowInv(s) && WriteU8(s, addr, v, allow).Ok?
    ensures var t := WriteU8(s, addr, v, allow).value;
      ShadowInv(t) && t.regs == s.regs && t.pointers == s.pointers && t.expected == s.expected
  {
    hide WriteU8, Later, Mirrors;
    WriteU8Accesses(s, addr, v, allow);
    QuietKeepsShadow(s, WriteU8(s, addr, v, allow).value, 1);
  }

  // ----- the failing input -----

  /** An address in work RAM that has a second one. */
  predicate Echoed(a: u16) {
    0xC000 <= a < 0xDE00 || 0xE000 <= a < 0xFE00
  }

  function Twin(a: u16): u16
    requires Echoed(a)
  {
    if a < 0xE000 then a + 0x2000 else a - 0x2000
  }

  /** Any call whose frame has an echo, and any other byte written through it, defined or half of a PUSHed
      pair: the guard lets the write pass, and the return that would have succeeded stops. */
  lemma EchoDefeatsTheGuard(s: Machine, nn: u16, v: Byte)
    requires var sp := Wrap16(s.regs.sp - 2);
      ShadowInv(s) && BothIn(sp, 0xC000, 0xFE00) && Echoed(sp) && CallTo(s, nn).Ok?
    requires var sp := Wrap16(s.regs.sp - 2);
      Twin(sp) !in s.pointers && v != Known(s.regs.pc % 0x100)
    ensures var t, o := CallTo(s, nn).value, WriteU8(CallTo(s, nn).value, Twin(Wrap16(s.regs.sp - 2)), v, true);
      && Return(t).Ok?
      && o.Ok? && (Return(o.value) == Err(UndefinedData) || Return(o.value) == Err(ClobberedReturnAddress))
  {
    hide CallTo, Return, ReturnedFromNowhere, Mirrors, Called, Later, FrameReadable;
    var sp, t := Wrap16(s.regs.sp - 2), CallTo(s, nn).value;
    assert StorageFrame(s.bus, sp);
    CallLeavesIntact(s, nn);
    CallToCalls(s, nn);
    CallKeepsShadow(s, t, nn);
    CallSeesNoDma(s, nn);
    WorkRamReadable(t, sp);
    ReturnChecks(t);
    var u := WriteU8(t, Twin(sp), v, true).value;
    WriteKeepsShadow(t, Twin(sp), v, true);
    WriteU8IsWrite(t, Twin(sp), v, true);
    WorkRamFrame(t, Twin(sp), v, true, sp, s.regs.pc);
    WorkRamReadable(u, sp);
    ReturnChecks(u);
  }

  lemma CallSeesNoDma(s: Machine, nn: u16)
    requires var sp := Wrap16(s.regs.sp - 2); BothIn(sp, 0xC000, 0xFE00) && CallTo(s, nn).Ok?
    ensures !InDma(CallTo(s, nn).value.bus.io)
  {
    hide WriteU8, Write;
    var sp := Wrap16(s.regs.sp - 2);
    var low, high := Known(s.regs.pc % 0x100), Known(s.regs.pc / 0x100);
    var t := WithRegs(Spend(s, 1), s.regs.(sp := sp));
    var u := WriteU8(t, sp, low, true).value;
    WriteU8IsWrite(u, sp + 1, high, true);
    WorkRamWrite(Spend(u, 1).bus, sp + 1, high);
  }

  lemma WorkRamWrite(b: Bus, a: u16, v: Byte)
    requires IsWorkRam(a)
    ensures Write(b, a, v, false) == Ok(b.(wram := b.wram[WorkRamIndex(a) := v]))
  {
  }

  lemma WorkRamReadable(s: Machine, sp: u16)
    requires BothIn(sp, 0xC000, 0xFE00) && !InDma(s.bus.io)
    ensures FrameReadable(s, sp)
  {
  }
}
