/** The whole console: one update of the I/O block, then one CPU clock, over and over. */
module Console {
  import opened Outcomes
  import opened Bits
  import opened Registers
  import opened AudioInvariants
  import opened Picture
  import opened IoBlock
  import Cartridges
  import opened AddressBus
  import opened Evolution
  import opened Processor
  import opened Effects
  import opened ShadowStack

  // ----- runs -----

  function Step(s: Machine, env: Env): Outcome<(Machine, seq<LcdEvent>)> {
    var (io, events) :- Update(s.bus.io, env);
    var s :- Clock(s.(bus := s.bus.(io := io)));
    Ok((s, events))
  }

  /** The machine after all the steps, and everything the screen was sent on the way. */
  function Run(s: Machine, envs: seq<Env>): Outcome<(Machine, seq<LcdEvent>)>
    decreases |envs|
  {
    if envs == [] then Ok((s, []))
    else
      var (s, first) :- Step(s, envs[0]);
      var (s, rest) :- Run(s, envs[1..]);
      Ok((s, first + rest))
  }

  function PowerOn(cart: Cartridges.Cart, clocksPerSample: nat): Outcome<Machine> {
    var bus :- PoweredUp(cart, clocksPerSample);
    Ok(Machine(INITIAL_REGISTERS, bus, [], []))
  }

  // ----- one clock -----

  /** An enabled interrupt is pending and the line lets it through. */
  predicate Dispatches(s: Machine) {
    Triggered(s).Ok? && Triggered(s).value != 0 && s.regs.ime.now
  }

  function DispatchedBit(s: Machine): (bit: nat)
    requires Dispatches(s)
    ensures bit < 5
  {
    LowestBitBound(Triggered(s).value, 5);
    LowestBit(Triggered(s).value)
  }

  /** The state in which the handler is called: the line is off and the request acknowledged. */
  function Acknowledged(s: Machine, bit: nat): Machine
    requires bit < 5
  {
    var io := s.bus.io.(memory := s.bus.io.memory[IF := Xor8(s.bus.io.memory[IF], Shl8(1, bit))]);
    s.(regs := s.regs.(halt := false, ime := Ime(false, false, false)), bus := s.bus.(io := io))
  }

  lemma DispatchCalls(s: Machine, bit: nat)
    requires bit < 5 && s.regs.halt == false
    ensures Dispatch(s, bit) == CallTo(Acknowledged(s, bit), 0x40 + 8 * bit)
  {
    hide CallTo;
  }

  lemma AcknowledgedLater(s: Machine, bit: nat)
    requires bit < 5
    ensures Later(s.bus, Acknowledged(s, bit).bus, s.pointers, 0)
  {
    hide ApuInv, Xor8, Shl8;
  }

  /** Interrupt handling either calls the handler of the lowest pending interrupt, or only wakes the CPU. */
  lemma InterruptEffect(s: Machine)
    ensures var o := HandleInterrupts(s);
      o.Ok? ==> if Dispatches(s)
                then Called(Acknowledged(s, DispatchedBit(s)), o.value, 0x40 + 8 * DispatchedBit(s))
                else o.value == WithRegs(s, s.regs.(halt := o.value.regs.halt)) && (s.regs.halt || !o.value.regs.halt)
  {
    hide Dispatch, Triggered, Acknowledged, Called;
    if Dispatches(s) {
      var t := WithRegs(s, s.regs.(halt := false));
      DispatchCalls(t, DispatchedBit(s));
      assert Acknowledged(t, DispatchedBit(s)) == Acknowledged(s, DispatchedBit(s)) by { AcknowledgedIgnoresHalt(s, DispatchedBit(s)); }
      CallToCalls(Acknowledged(s, DispatchedBit(s)), 0x40 + 8 * DispatchedBit(s));
    }
  }

  lemma AcknowledgedIgnoresHalt(s: Machine, bit: nat)
    requires bit < 5
    ensures Acknowledged(WithRegs(s, s.regs.(halt := false)), bit) == Acknowledged(s, bit)
  {
  }

  /** What a clock keeps of the devices, and how long it takes. */
  predicate Clocked(b: Bus, b': Bus, least: nat, most: nat) {
    && b.io.cycle + least <= b'.io.cycle <= b.io.cycle + most
    && IoEvolves(b.io, b'.io) && (BanksOk(b.cart) ==> BanksOk(b'.cart))
  }

  lemma LaterClocked(b: Bus, b': Bus, guarded: seq<u16>, k: nat)
    requires Later(b, b', guarded, k)
    ensures Clocked(b, b', k, k)
  {
  }

  lemma ClockedTransitively(a: Bus, b: Bus, c: Bus, l1: nat, m1: nat, l2: nat, m2: nat)
    requires Clocked(a, b, l1, m1) && Clocked(b, c, l2, m2)
    ensures Clocked(a, c, l1 + l2, m1 + m2)
  {
    IoEvolvesTransitively(a.io, b.io, c.io);
  }

  lemma InterruptsKeepShadow(s: Machine)
    requires ShadowInv(s) && HandleInterrupts(s).Ok?
    ensures var t := HandleInterrupts(s).value;
      ShadowInv(t) && Clocked(s.bus, t.bus, if Dispatches(s) then 3 else 0, if Dispatches(s) then 3 else 0)
  {
    hide HandleInterrupts, Clocked, Called, Mirrors, Later, Dispatches, Acknowledged;
    InterruptEffect(s);
    var t := HandleInterrupts(s).value;
    if Dispatches(s) {
      var a := Acknowledged(s, DispatchedBit(s));
      AcknowledgedKeepsShadow(s, DispatchedBit(s));
      CallKeepsShadow(a, t, 0x40 + 8 * DispatchedBit(s));
      AcknowledgedLater(s, DispatchedBit(s));
      LaterClocked(s.bus, a.bus, s.pointers, 0);
      CalledLater(a, t, 0x40 + 8 * DispatchedBit(s));
      ClockedTransitively(s.bus, a.bus, t.bus, 0, 0, 3, 3);
    } else {
      LaterItself(s.bus, s.pointers);
      LaterClocked(s.bus, t.bus, s.pointers, 0);
    }
  }

  lemma CalledLater(s: Machine, s': Machine, nn: u16)
    requires Called(s, s', nn)
    ensures Clocked(s.bus, s'.bus, 3, 3)
  {
  }

  lemma AcknowledgedKeepsShadow(s: Machine, bit: nat)
    requires ShadowInv(s) && bit < 5
    ensures ShadowInv(Acknowledged(s, bit))
  {
    AcknowledgedLater(s, bit);
    UntouchedMirrors(s.bus, Acknowledged(s, bit).bus, s.pointers, s.expected);
  }

  // ----- control instructions -----

  /** The cycles of a control instruction, and the shadow stack after it. */
  lemma ControlKeepsShadow(s: Machine, i: Instruction)
    requires ShadowInv(s) && IsControl(i) && Execute(s, i).Ok?
    ensures var t := Execute(s, i).value;
      ShadowInv(t) && Clocked(s.bus, t.bus, Cost(i, s.regs.f), Cost(i, s.regs.f))
  {
    hide CallTo, Call, Return, ReturnIf, ReturnFromInterrupt, ExecutePlain, Called, Clocked, Mirrors, Later;
    var t := Execute(s, i).value;
    match i
    case CALL_nn => CallKeeps(s, None);
    case CALL_cc_nn(cc) => CallKeeps(s, Some(cc));
    case RST_n(n) =>
      CallToCalls(s, n);
      CallKeepsShadow(s, t, n);
      CalledLater(s, t, n);
    case RET => ReturnKeeps(s);
    case RET_cc(cc) => ReturnIfKeeps(s, cc);
    case RETI =>
      ReturnFromInterruptIs(s);
      ReturnKeeps(WithIme(s, Ime(true, true, true)));
    case DI => SwitchKeeps(s, t);
    case EI => SwitchKeeps(s, t);
  }

  lemma SwitchKeeps(s: Machine, t: Machine)
    requires ShadowInv(s) && t == WithIme(s, t.regs.ime)
    ensures ShadowInv(t) && Clocked(s.bus, t.bus, 0, 0)
  {
    LaterItself(s.bus, s.pointers);
    LaterClocked(s.bus, t.bus, s.pointers, 0);
  }

  lemma ReturnFromInterruptIs(s: Machine)
    ensures ReturnFromInterrupt(s) == Return(WithIme(s, Ime(true, true, true)))
  {
  }

  lemma CallKeeps(s: Machine, cc: Option<Condition>)
    requires ShadowInv(s) && Call(s, cc).Ok?
    ensures var t, k := Call(s, cc).value, if Branches(cc, s.regs.f) then 5 else 2;
      ShadowInv(t) && Clocked(s.bus, t.bus, k, k)
  {
    hide CallTo, Fetch16, Called, Clocked, Mirrors, Later;
    Compound();
    var f := Fetch16(s).value.1;
    QuietKeepsShadow(s, f, 2);
    LaterClocked(s.bus, f.bus, s.pointers, 2);
    if Branches(cc, s.regs.f) {
      var nn, t := Fetch16(s).value.0, Call(s, cc).value;
      CallToCalls(f, nn);
      CallKeepsShadow(f, t, nn);
      CalledLater(f, t, nn);
      ClockedTransitively(s.bus, f.bus, t.bus, 2, 2, 3, 3);
    }
  }

  lemma ReturnKeeps(s: Machine)
    requires ShadowInv(s) && Return(s).Ok?
    ensures ShadowInv(Return(s).value) && Clocked(s.bus, Return(s).value.bus, 3, 3)
  {
    hide Return, Clocked, Mirrors, Later;
    ReturnReturns(s);
    ReturnKeepsShadow(s);
    LaterClocked(s.bus, Return(s).value.bus, Return(s).value.pointers, 3);
  }

  lemma ReturnIfKeeps(s: Machine, cc: Condition)
    requires ShadowInv(s) && ReturnIf(s, cc).Ok?
    ensures var t, k := ReturnIf(s, cc).value, 1 + Taken(cc, s.regs.f, 3);
      ShadowInv(t) && Clocked(s.bus, t.bus, k, k)
  {
    hide Return, Clocked, Mirrors, Later;
    var u := Spend(s, 1);
    SpendLater(s, 1);
    QuietKeepsShadow(s, u, 1);
    LaterClocked(s.bus, u.bus, s.pointers, 1);
    if cc.Holds(s.regs.f) {
      ReturnKeeps(u);
      ClockedTransitively(s.bus, u.bus, Return(u).value.bus, 1, 1, 3, 3);
    }
  }

  lemma CostBound(s: Machine, i: Instruction)
    ensures CostHere(s, i) <= 5
  {
    hide Fetch8, DecodeBit;
  }

  lemma InstructionKeeps(s: Machine)
    requires ShadowInv(s) && ProcessNextInstruction(s).Ok?
    ensures Fetch8(s).Ok?
    ensures var f, t := Fetch8(s).value.1, ProcessNextInstruction(s).value;
      var k := 1 + CostHere(f, Decode(Fetch8(s).value.0));
      ShadowInv(t) && k <= 6 && Clocked(s.bus, t.bus, k, k)
  {
    hide Fetch8, Decode, Execute, CostHere, Clocked, Mirrors, Later;
    Compound();
    var (op, f) := Fetch8(s).value;
    var i, t := Decode(op), ProcessNextInstruction(s).value;
    QuietKeepsShadow(s, f, 1);
    LaterClocked(s.bus, f.bus, s.pointers, 1);
    CostBound(f, i);
    if IsControl(i) {
      ControlKeepsShadow(f, i);
      ControlCost(f, i);
    } else {
      PlainQuiet(f, i);
      QuietKeepsShadow(f, t, CostHere(f, i));
      LaterClocked(f.bus, t.bus, f.pointers, CostHere(f, i));
    }
    ClockedTransitively(s.bus, f.bus, t.bus, 1, 1, CostHere(f, i), CostHere(f, i));
  }

  lemma ControlCost(s: Machine, i: Instruction)
    requires IsControl(i)
    ensures CostHere(s, i) == Cost(i, s.regs.f)
  {
    hide Cost;
  }

  /** One CPU clock takes between 1 and 9 cycles, dispatching included, and keeps the call stack mirrored. */
  lemma ClockKeeps(s: Machine)
    requires ShadowInv(s) && Clock(s).Ok?
    ensures ShadowInv(Clock(s).value) && Clocked(s.bus, Clock(s).value.bus, 1, 9)
  {
    hide HandleInterrupts, ProcessNextInstruction, Mirrors, IoEvolves, BanksOk, Dispatches;
    InterruptsKeepShadow(s);
    var t := HandleInterrupts(s).value;
    var d := if Dispatches(s) then 3 else 0;
    if t.regs.halt {
      SpendLater(t, 1);
      QuietKeepsShadow(t, Spend(t, 1), 1);
      LaterClocked(t.bus, Spend(t, 1).bus, t.pointers, 1);
      ClockedTransitively(s.bus, t.bus, Spend(t, 1).bus, d, d, 1, 1);
    } else {
      InstructionKeeps(t);
      var u := ProcessNextInstruction(t).value;
      var k := u.bus.io.cycle - t.bus.io.cycle;
      ClockedTransitively(s.bus, t.bus, u.bus, d, d, k, k);
    }
  }
}
