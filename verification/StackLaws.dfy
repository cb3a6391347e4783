/** POP undoes PUSH, undefined halves included. */
module StackLaws {
  import opened Outcomes
  import opened Bits
  import opened CheckedInt
  import opened Registers
  import opened IoBlock
  import opened AddressBus
  import opened Evolution
  import opened Processor
  import opened ShadowStack
  import opened AluLaws

  predicate Pair(rr: R16) {
    rr == AF || rr == BC || rr == DE || rr == HL
  }

  /** The flags survive a trip through a byte whose low nibble is masked off. */
  lemma FlagsRoundTrip(f: Flags)
    ensures Flags.FromByte(And8(f.ToByte(), 0xF0)) == f
  {
    hide BitAnd;
    var b := f.ToByte();
    HighNibble(b);
    assert b % 0x10 == 0;
  }

  lemma GetSet(r: CpuRegisters, rr: R16)
    requires Pair(rr)
    ensures SetWord(r, rr, GetWord(r, rr)) == Ok(r)
  {
    hide BitAnd;
    if rr == AF {
      FlagsRoundTrip(r.f);
    }
  }

  /** Work RAM beyond the echo, and high RAM. */
  predicate Ram(addr: u16) {
    Unaliased(addr) && !IsTable(addr)
  }

  /** An access to such memory that the running DMA, if there is one, does not block. */
  predicate Unblocked(b: Bus, addr: u16) {
    Ram(addr) && (!InDma(b.io) || 0xFF80 <= addr <= 0xFFFE)
  }

  lemma WriteReaches(s: Machine, addr: u16, v: Byte)
    requires Ram(addr)
    ensures var o := WriteU8(s, addr, v, true);
      o.Ok? ==> var t := o.value;
        && addr !in s.pointers && Unblocked(t.bus, addr) && Peek(t.bus, addr) == v
        && t == s.(bus := t.bus) && t.bus.io == s.bus.io.(cycle := s.bus.io.cycle + 1)
        && (forall a: u16 :: Ram(a) && a != addr ==> Peek(t.bus, a) == Peek(s.bus, a))
  {
  }

  lemma ReadReaches(s: Machine, addr: u16)
    requires Unblocked(s.bus, addr) && addr !in s.pointers
    ensures ReadU8(s, addr, true) == Ok((Peek(s.bus, addr), Spend(s, 1)))
  {
  }

  lemma LaterUnblocked(s: Machine, k: nat, addr: u16)
    requires Unblocked(s.bus, addr)
    ensures Unblocked(Spend(s, k).bus, addr)
  {
  }

  /** Where PUSH leaves the word. */
  lemma PushLeaves(s: Machine, rr: R16)
    requires Safe(Wrap16(s.regs.sp - 2)) && Ram(Wrap16(s.regs.sp - 2))
    ensures var o, sp := Push(s, rr), Wrap16(s.regs.sp - 2);
      o.Ok? ==> var t := o.value;
        && t == s.(bus := t.bus, regs := s.regs.(sp := sp)) && t.bus.io == s.bus.io.(cycle := s.bus.io.cycle + 3)
        && !Unusable(GetWord(s.regs.(sp := sp), rr), true)
        && sp !in s.pointers && sp + 1 !in s.pointers && Unblocked(t.bus, sp) && Unblocked(t.bus, sp + 1)
        && Peek(t.bus, sp) == GetWord(s.regs.(sp := sp), rr).lower && Peek(t.bus, sp + 1) == GetWord(s.regs.(sp := sp), rr).upper
  {
    hide WriteU8, GetWord, Peek;
    var sp := Wrap16(s.regs.sp - 2);
    var s1 := WithRegs(Spend(s, 1), s.regs.(sp := sp));
    var w := GetWord(s1.regs, rr);
    WriteReaches(s1, sp, w.lower);
    var o := WriteU8(s1, sp, w.lower, true);
    if o.Ok? {
      WriteReaches(o.value, sp + 1, w.upper);
    }
  }

  lemma PopTakes(s: Machine)
    requires Safe(s.regs.sp) && Unblocked(s.bus, s.regs.sp) && Unblocked(s.bus, s.regs.sp + 1)
    requires s.regs.sp !in s.pointers && s.regs.sp + 1 !in s.pointers
    requires !Unusable(Word(Peek(s.bus, s.regs.sp + 1), Peek(s.bus, s.regs.sp)), true)
    ensures ReadU16(s, s.regs.sp, true) == Ok((Word(Peek(s.bus, s.regs.sp + 1), Peek(s.bus, s.regs.sp)), Spend(s, 2)))
  {
    hide ReadU8, Peek, Unblocked;
    ReadReaches(s, s.regs.sp + 1);
    LaterUnblocked(s, 1, s.regs.sp);
    ReadReaches(Spend(s, 1), s.regs.sp);
    SpendKeepsMemory(s, s.regs.sp);
  }

  lemma SpendKeepsMemory(s: Machine, addr: u16)
    requires Unaliased(addr)
    ensures Peek(Spend(s, 1).bus, addr) == Peek(s.bus, addr)
  {
  }

  /** In memory without aliases a PUSH that succeeds can be popped: into the same pair this restores every
      register, into another pair it copies the word; only F cannot take an undefined byte.  The two take
      five cycles. */
  lemma PopUndoesPush(s: Machine, rr: R16, into: R16)
    requires Pair(rr) && Pair(into)
    requires Safe(Wrap16(s.regs.sp - 2)) && Ram(Wrap16(s.regs.sp - 2)) && Push(s, rr).Ok?
    ensures var o, regs := Pop(Push(s, rr).value, into), SetWord(s.regs, into, GetWord(s.regs, rr));
      && (regs.Err? <==> into == AF && GetWord(s.regs, rr).lower.undefined)
      && (regs.Err? ==> o == Err(UndefinedData))
      && (into == rr ==> regs == Ok(s.regs))
      && (regs.Ok? ==>
            && o.Ok? && o.value.regs == regs.value
            && o.value.bus.io == s.bus.io.(cycle := s.bus.io.cycle + 5)
            && o.value.pointers == s.pointers && o.value.expected == s.expected)
  {
    hide Push, ReadU16, Peek, GetWord, SetWord, Unblocked, Unusable, Safe;
    var t := Push(s, rr).value;
    PushLeaves(s, rr);
    PopTakes(t);
    GetSet(s.regs, rr);
    assert Wrap16(Wrap16(s.regs.sp - 2) + 2) == s.regs.sp;
    StackPointerApart(s.regs, t.regs.sp, rr, into);
  }

  lemma StackPointerApart(r: CpuRegisters, sp: u16, rr: R16, into: R16)
    requires Pair(rr) && Pair(into)
    ensures GetWord(r.(sp := sp), rr) == GetWord(r, rr)
    ensures var w := GetWord(r, rr); var o, p := SetWord(r, into, w), SetWord(r.(sp := sp), into, w);
      if into == AF && w.lower.undefined then o == p == Err(UndefinedData)
      else o.Ok? && p.Ok? && p.value.sp == sp && p.value.(sp := r.sp) == o.value
  {
    hide BitAnd;
  }
}
