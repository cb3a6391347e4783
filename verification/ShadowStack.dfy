/** The control-flow sanitiser: the shadow call stack mirrors the stack in memory, its entries cannot be
    overwritten unnoticed, and a return goes back to where its call came from. */
module ShadowStack {
  import opened Outcomes
  import opened Bits
  import opened CheckedInt
  import opened Registers
  import opened Picture
  import opened AddressBus
  import opened Evolution
  import opened Processor
  import opened Effects

  // ----- the invariant -----

  predicate Distinct(v: seq<u16>) {
    forall i, j :: 0 <= i < j < |v| ==> v[i] != v[j]
  }

  /** Both bytes of a frame at sp lie in memory that only writes to their own addresses change. */
  predicate Safe(sp: u16) {
    0x8000 <= sp < 0x9FFF || 0xDE00 <= sp < 0xDFFF || 0xFF80 <= sp < 0xFFFF
  }

  /** The return address stored at sp, little end first. */
  predicate Holds(b: Bus, sp: u16, address: u16)
    requires Safe(sp)
  {
    Peek(b, sp) == Known(address % 0x100) && Peek(b, sp + 1) == Known(address / 0x100)
  }

  predicate FrameOk(b: Bus, pointers: seq<u16>, i: nat, address: u16)
    requires 2 * i + 1 < |pointers|
  {
    && pointers[2 * i] == Wrap16(pointers[2 * i + 1] as int + 1)
    && ValidPc(address)
    && (Safe(pointers[2 * i + 1]) ==> Holds(b, pointers[2 * i + 1], address))
  }

  predicate Mirrors(b: Bus, pointers: seq<u16>, expected: seq<u16>) {
    && |pointers| == 2 * |expected|
    && Distinct(pointers)
    && forall i :: 0 <= i < |expected| ==> FrameOk(b, pointers, i, expected[i])
  }

  predicate ShadowInv(s: Machine) {
    ValidPc(s.regs.pc) && Mirrors(s.bus, s.pointers, s.expected)
  }

  /** Where the innermost pending call left its return address. */
  function Top(s: Machine): u16
    requires ShadowInv(s) && s.expected != []
  {
    s.pointers[|s.pointers| - 1]
  }

  // ----- depth -----

  function Below(n: nat): set<int> {
    if n == 0 then {} else Below(n - 1) + {n - 1}
  }

  lemma {:induction false} BelowMembers(n: nat)
    ensures |Below(n)| == n && forall x :: x in Below(n) <==> 0 <= x < n
  {
    if n > 0 {
      BelowMembers(n - 1);
    }
  }

  function Elements(v: seq<u16>): set<int> {
    set i | 0 <= i < |v| :: v[i]
  }

  lemma {:induction false} DistinctSize(v: seq<u16>)
    requires Distinct(v)
    ensures |Elements(v)| == |v|
  {
    if v == [] {
      assert Elements(v) == {};
    } else {
      var u := v[..|v| - 1];
      DistinctSize(u);
      assert Elements(v) == Elements(u) + {v[|v| - 1]} by {
        forall x | x in Elements(v) ensures x in Elements(u) + {v[|v| - 1]} {
          var i :| 0 <= i < |v| && v[i] == x;
          assert i < |v| - 1 ==> u[i] == x;
        }
        forall x | x in Elements(u) ensures x in Elements(v) {
          var i :| 0 <= i < |u| && u[i] == x;
          assert v[i] == x;
        }
      }
      assert v[|v| - 1] !in Elements(u);
    }
  }

  lemma SubsetSize(s: set<int>, t: set<int>)
    requires s <= t
    ensures |s| <= |t|
  {
    assert |t| == |s| + |t - s| by {
      assert t == s + (t - s);
    }
  }

  /** No two pending frames share an address, so there are never more than 32768 of them. */
  lemma DepthBound(s: Machine)
    requires ShadowInv(s)
    ensures |s.expected| <= 0x8000
  {
    DistinctSize(s.pointers);
    var addresses: nat := 0x10000;
    BelowMembers(addresses);
    SubsetSize(Elements(s.pointers), Below(addresses));
  }

  // ----- quiet instructions -----

  lemma UntouchedMirrors(b: Bus, b': Bus, pointers: seq<u16>, expected: seq<u16>)
    requires Mirrors(b, pointers, expected) && Untouched(b, b', pointers)
    ensures Mirrors(b', pointers, expected)
  {
    forall i | 0 <= i < |expected| ensures FrameOk(b', pointers, i, expected[i]) {
      assert FrameOk(b, pointers, i, expected[i]);
      assert pointers[2 * i] in pointers && pointers[2 * i + 1] in pointers;
    }
  }

  lemma QuietKeepsShadow(s: Machine, s': Machine, k: nat)
    requires ShadowInv(s) && Quiet(s, s', k)
    ensures ShadowInv(s')
  {
    UntouchedMirrors(s.bus, s'.bus, s.pointers, s.expected);
  }

  // ----- calls -----

  /** A write to unguarded memory, seen at the bus. */
  lemma WriteU8Stores(s: Machine, addr: u16, v: Byte, guarded: seq<u16>)
    requires addr !in guarded
    ensures var o := WriteU8(s, addr, v, true);
      o.Ok? ==> Later(s.bus, o.value.bus, guarded, 1) && (Unaliased(addr) ==> Peek(o.value.bus, addr) == v)
  {
    hide Write, IoEvolves;
    var t := Spend(s, 1);
    WriteEvolves(t.bus, addr, v, guarded);
    if Unaliased(addr) {
      WriteStores(t.bus, addr, v);
    }
    if Write(t.bus, addr, v, false).Ok? {
      SpendGuards(s, guarded);
      LaterTransitively(s.bus, t.bus, Write(t.bus, addr, v, false).value, guarded, 1, 0);
    }
  }

  lemma SpendGuards(s: Machine, guarded: seq<u16>)
    ensures Later(s.bus, Spend(s, 1).bus, guarded, 1)
  {
  }

  /** Everything a successful call does. */
  predicate Called(s: Machine, s': Machine, nn: u16) {
    var sp := Wrap16(s.regs.sp - 2);
    && Later(s.bus, s'.bus, s.pointers, 3)
    && sp !in s.pointers && Wrap16(sp + 1) !in s.pointers
    && s'.regs == s.regs.(sp := sp, pc := nn) && ValidPc(nn)
    && s'.expected == s.expected + [s.regs.pc] && s'.pointers == s.pointers + [Wrap16(sp + 1), sp]
    && (Safe(sp) ==> Holds(s'.bus, sp, s.regs.pc))
  }

  lemma PushPcStores(s: Machine)
    ensures var o, sp := Push(s, PC), Wrap16(s.regs.sp - 2);
      o.Ok? ==> Later(s.bus, o.value.bus, s.pointers, 3) && o.value == s.(bus := o.value.bus, regs := s.regs.(sp := sp)) &&
                sp !in s.pointers && Wrap16(sp + 1) !in s.pointers && (Safe(sp) ==> Holds(o.value.bus, sp, s.regs.pc))
  {
    hide WriteU8, Later, Peek;
    var o, sp := Push(s, PC), Wrap16(s.regs.sp - 2);
    var low, high := Known(s.regs.pc % 0x100), Known(s.regs.pc / 0x100);
    if o.Ok? {
      var t := WithRegs(Spend(s, 1), s.regs.(sp := sp));
      SpendLater(s, 1);
      WriteU8Accesses(t, sp, low, true);
      WriteU8Stores(t, sp, low, s.pointers);
      var u := WriteU8(t, sp, low, true).value;
      WriteU8Accesses(u, Wrap16(sp as int + 1), high, true);
      WriteU8Stores(u, Wrap16(sp as int + 1), high, s.pointers + [sp]);
      var v := WriteU8(u, Wrap16(sp as int + 1), high, true).value;
      LaterNarrows(u.bus, v.bus, s.pointers, [sp], 1);
      LaterTransitively(s.bus, t.bus, u.bus, s.pointers, 1, 1);
      LaterTransitively(s.bus, u.bus, v.bus, s.pointers, 2, 1);
      assert sp in s.pointers + [sp];
    }
  }

  lemma LaterNarrows(b: Bus, b': Bus, guarded: seq<u16>, more: seq<u16>, k: nat)
    requires Later(b, b', guarded + more, k)
    ensures Later(b, b', guarded, k)
    ensures forall a: u16 :: a in more && Unaliased(a) ==> Peek(b', a) == Peek(b, a)
  {
    hide IoEvolves, BanksOk;
    assert forall a: u16 :: a in guarded ==> a in guarded + more;
    assert forall a: u16 :: a in more ==> a in guarded + more;
  }

  lemma CallToCalls(s: Machine, nn: u16)
    ensures var o := CallTo(s, nn); o.Ok? ==> Called(s, o.value, nn)
  {
    hide Push, Later;
    PushPcStores(s);
  }

  /** A call keeps the mirror: its own frame is written, and it could not have hit an older one. */
  lemma CallKeepsShadow(s: Machine, s': Machine, nn: u16)
    requires ShadowInv(s) && Called(s, s', nn)
    ensures ShadowInv(s')
  {
    UntouchedMirrors(s.bus, s'.bus, s.pointers, s.expected);
    var n := |s.expected|;
    assert s'.pointers[2 * n] == Wrap16(s'.pointers[2 * n + 1] as int + 1);
    forall i | 0 <= i < |s'.expected| ensures FrameOk(s'.bus, s'.pointers, i, s'.expected[i]) {
      if i < n {
        assert FrameOk(s'.bus, s.pointers, i, s.expected[i]);
      }
    }
    forall i, j | 0 <= i < j < |s'.pointers| ensures s'.pointers[i] != s'.pointers[j] {
      if j < |s.pointers| {
        assert s.pointers[i] != s.pointers[j];
      } else if i < |s.pointers| {
        assert s.pointers[i] in s.pointers;
      }
    }
  }

  // ----- returns -----

  /** Everything a successful return does while a call is pending. */
  predicate Returned(s: Machine, s': Machine)
    requires ShadowInv(s) && s.expected != []
  {
    var n := |s.expected|;
    && s.regs.sp == Top(s)
    && s'.regs == s.regs.(sp := Wrap16(Top(s) + 2), pc := s.expected[n - 1])
    && s'.expected == s.expected[..n - 1] && s'.pointers == s.pointers[..2 * n - 2]
    && Later(s.bus, s'.bus, s'.pointers, 3)
  }

  /** A return with nothing pending is let through only from address 0 to address 0. */
  predicate ReturnedFromNowhere(s: Machine, s': Machine) {
    && s.expected == [] && s.regs.sp == 0
    && s'.regs == s.regs.(sp := 2, pc := 0)
    && s'.expected == [] && s'.pointers == []
    && Later(s.bus, s'.bus, [], 3)
  }

  /** What a successful return does to the machine once it has popped the shadow stack. */
  lemma ReturnSteps(s: Machine)
    requires Return(s).Ok?
    ensures var s' := Return(s).value;
      var pointers, expected := DropLast(DropLast(s.pointers)), Last(s.expected);
      && Last(s.pointers) == s.regs.sp && s'.pointers == pointers && s'.expected == DropLast(s.expected)
      && s'.regs == s.regs.(sp := Wrap16(s.regs.sp + 2), pc := expected)
      && Later(s.bus, s'.bus, pointers, 3)
  {
    hide ReadU16, Later, DropLast, Last, DecayWord, ValidPc, Wrap16;
    var t := s.(pointers := DropLast(DropLast(s.pointers)), expected := DropLast(s.expected));
    WordAccesses(t, s.regs.sp, KnownWord(0), false);
    var r := ReadU16(t, s.regs.sp, false);
    var u := WithRegs(r.value.1, s.regs.(sp := Wrap16(s.regs.sp + 2)));
    JumpToQuiet(u, DecayWord(r.value.0).value);
    LaterTransitively(s.bus, r.value.1.bus, Return(s).value.bus, t.pointers, 2, 1);
  }

  lemma ReturnReturns(s: Machine)
    requires ShadowInv(s)
    ensures var o := Return(s);
      o.Ok? ==> if s.expected != [] then Returned(s, o.value) else ReturnedFromNowhere(s, o.value)
  {
    hide Return, Later, FrameOk, Distinct;
    if Return(s).Ok? {
      ReturnSteps(s);
    }
  }

  lemma ReturnKeepsShadow(s: Machine)
    requires ShadowInv(s) && Return(s).Ok?
    ensures ShadowInv(Return(s).value)
  {
    hide Return;
    ReturnReturns(s);
    var s' := Return(s).value;
    if s.expected != [] {
      var n := |s.expected|;
      assert FrameOk(s.bus, s.pointers, n - 1, s.expected[n - 1]);
      MirrorsPop(s.bus, s.pointers, s.expected);
      UntouchedMirrors(s.bus, s'.bus, s'.pointers, s'.expected);
    }
  }

  lemma MirrorsPop(b: Bus, pointers: seq<u16>, expected: seq<u16>)
    requires Mirrors(b, pointers, expected) && expected != []
    ensures Mirrors(b, pointers[..|pointers| - 2], expected[..|expected| - 1])
  {
    var p, e := pointers[..|pointers| - 2], expected[..|expected| - 1];
    forall i | 0 <= i < |e| ensures FrameOk(b, p, i, e[i]) {
      assert FrameOk(b, pointers, i, expected[i]);
    }
  }

  /** An access that neither a running DMA nor the picture unit refuses. */
  predicate Reachable(s: Machine, addr: u16) {
    !DmaBlocks(Spend(s, 1), addr) && (IsTable(addr) ==> Accessible(s.bus.io.memory, addr))
  }

  lemma PeekReads(s: Machine, addr: u16)
    requires Unaliased(addr) && addr !in s.pointers && !Peek(s.bus, addr).undefined
    ensures ReadU8(s, addr, false) ==
      if Reachable(s, addr) then Ok((Peek(s.bus, addr), Spend(s, 1)))
      else Err(if DmaBlocks(Spend(s, 1), addr) then DmaBusConflict else PpuViolation)
  {
    hide VideoByte;
  }

  lemma SpendKeepsPeek(s: Machine, addr: u16)
    requires Unaliased(addr)
    ensures Peek(Spend(s, 1).bus, addr) == Peek(s.bus, addr)
  {
  }

  lemma SafeWordReads(s: Machine, sp: u16, address: u16)
    requires Safe(sp) && sp !in s.pointers && sp + 1 !in s.pointers && Holds(s.bus, sp, address)
    ensures var o := ReadU16(s, sp, false);
      if Reachable(s, sp + 1) && Reachable(Spend(s, 1), sp) then o == Ok((KnownWord(address), Spend(s, 2)))
      else o == Err(DmaBusConflict) || o == Err(PpuViolation)
  {
    hide ReadU8, Reachable, Peek;
    PeekReads(s, sp + 1);
    SpendKeepsPeek(s, sp);
    PeekReads(Spend(s, 1), sp);
  }

  /** The write-time guard suffices: a return to a safe frame succeeds if and only if the stack pointer
      is back at the frame and its two bytes can be read.  The check that the stored address is still the
      one pushed cannot fail. */
  lemma SafeReturnSucceeds(s: Machine)
    requires ShadowInv(s) && s.expected != [] && Safe(Top(s))
    ensures Return(s).Ok? <==> s.regs.sp == Top(s) && Reachable(s, Top(s) + 1) && Reachable(Spend(s, 1), Top(s))
    ensures Return(s).Ok? || Return(s) == Err(CallFrameViolation) || Return(s) == Err(DmaBusConflict) || Return(s) == Err(PpuViolation)
    ensures 0xFF80 <= Top(s) < 0xFFFE && s.regs.sp == Top(s) ==> Return(s).Ok?
  {
    hide ReadU16, Distinct;
    var n, sp := |s.expected|, Top(s);
    assert FrameOk(s.bus, s.pointers, n - 1, s.expected[n - 1]);
    var p := s.pointers[..2 * n - 2];
    var t := s.(pointers := p, expected := s.expected[..n - 1]);
    TopFrame(s);
    if s.regs.sp == sp {
      SafeWordReads(t, sp, s.expected[n - 1]);
    }
  }

  /** What RET finds on the shadow stack. */
  lemma TopFrame(s: Machine)
    requires ShadowInv(s) && s.expected != [] && Top(s) < 0xFFFF
    ensures Last(s.pointers) == Top(s) && Last(DropLast(s.pointers)) == Top(s) + 1
    ensures Last(s.expected) == s.expected[|s.expected| - 1] && ValidPc(Last(s.expected))
    ensures DropLast(DropLast(s.pointers)) == s.pointers[..|s.pointers| - 2] && DropLast(s.expected) == s.expected[..|s.expected| - 1]
    ensures Top(s) !in DropLast(DropLast(s.pointers)) && Top(s) + 1 !in DropLast(DropLast(s.pointers))
  {
    var n := |s.expected|;
    assert FrameOk(s.bus, s.pointers, n - 1, s.expected[n - 1]);
    assert s.pointers[2 * n - 2] == Top(s) + 1 && s.pointers[2 * n - 1] == Top(s);
  }
}
