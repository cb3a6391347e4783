/** Interrupt enabling as a delay line, and what a dispatch picks and clears. */
module InterruptLine {
  import opened Outcomes
  import opened Bits
  import opened Registers
  import opened AudioInvariants
  import opened Timers
  import opened IoBlock
  import opened Picture
  import Cartridges
  import opened AddressBus
  import opened Evolution
  import opened Processor
  import opened Effects
  import opened ShadowStack
  import opened Console
  import opened Runs

  // ----- which interrupt is dispatched -----

  lemma {:induction false} LowestBitIsLowest(t: nat)
    requires t > 0
    ensures Bit(t, LowestBit(t))
    ensures forall j :: 0 <= j < LowestBit(t) ==> !Bit(t, j)
  {
    if t % 2 == 0 {
      LowestBitIsLowest(t / 2);
      forall j | 0 <= j < LowestBit(t) ensures !Bit(t, j) {
        if j > 0 {
          assert !Bit(t / 2, j - 1);
        }
      }
    }
  }

  lemma MaskBits(j: nat)
    ensures Bit(0x1F, j) <==> j < 5
  {
    if j < 5 {
      assert Bit(0x1F, 0) && Bit(0x1F, 1) && Bit(0x1F, 2) && Bit(0x1F, 3) && Bit(0x1F, 4);
    } else {
      BitOfZero(j - 5);
      assert Bit(0x1F, j) == Bit(0xF, j - 1) == Bit(7, j - 2) == Bit(3, j - 3) == Bit(1, j - 4) == Bit(0, j - 5);
    }
  }

  /** Request j is enabled and pending. */
  predicate Pending(b: Bus, j: nat) {
    j < 5 && Bit(Enabled(b).data, j) && Bit(Requested(b).data, j)
  }

  lemma TriggeredBits(s: Machine, j: nat)
    requires Triggered(s).Ok? && !Enabled(s.bus).undefined
    ensures Bit(Triggered(s).value, j) <==> Pending(s.bus, j)
  {
    hide BitAnd;
    var both := BitAnd(Enabled(s.bus).data, Requested(s.bus).data);
    BitOfAnd(both, 0x1F, j);
    BitOfAnd(Enabled(s.bus).data, Requested(s.bus).data, j);
    MaskBits(j);
  }

  lemma DispatchNeedsDefinedEnable(s: Machine)
    requires Dispatches(s)
    ensures !Enabled(s.bus).undefined
  {
  }

  lemma OneBit(bit: nat, j: nat)
    requires bit < 5
    ensures Bit(Shl8(1, bit), j) <==> j == bit
  {
    BitOfExp2(bit, j);
    assert Shl8(1, bit) == Exp2(bit) by {
      if bit == 0 {
        assert Shl(1, 0) == 1;
      } else if bit == 1 {
        assert Shl(1, 1) == Shl(2, 0);
      } else if bit == 2 {
        assert Shl(1, 2) == Shl(2, 1) == Shl(4, 0);
        assert Exp2(2) == 4;
      } else if bit == 3 {
        assert Shl(1, 3) == Shl(2, 2) == Shl(4, 1) == Shl(8, 0);
        assert Exp2(3) == 8;
      } else {
        assert Shl(1, 4) == Shl(2, 3) == Shl(4, 2) == Shl(8, 1) == Shl(16, 0);
        assert Exp2(4) == 16;
      }
    }
  }

  /** A dispatch takes the lowest pending enabled interrupt, and the acknowledgement clears exactly that
      request and no other bit of any register. */
  lemma DispatchTakesTheLowest(s: Machine)
    requires Dispatches(s)
    ensures var bit, m := DispatchedBit(s), Acknowledged(s, DispatchedBit(s)).bus.io.memory;
      && Pending(s.bus, bit) && (forall j :: 0 <= j < bit ==> !Pending(s.bus, j))
      && (forall j: nat :: Bit(m[IF], j) <==> Bit(s.bus.io.memory[IF], j) && j != bit)
      && m == s.bus.io.memory[IF := m[IF]]
  {
    hide Triggered, BitXor, Shl8, Pending;
    DispatchNeedsDefinedEnable(s);
    var t, bit := Triggered(s).value, DispatchedBit(s);
    LowestBitIsLowest(t);
    TriggeredBits(s, bit);
    forall j | 0 <= j < bit ensures !Pending(s.bus, j) {
      TriggeredBits(s, j);
    }
    var m := Acknowledged(s, bit).bus.io.memory;
    forall j: nat ensures Bit(m[IF], j) <==> Bit(s.bus.io.memory[IF], j) && j != bit {
      BitOfXor(s.bus.io.memory[IF], Shl8(1, bit), j);
      OneBit(bit, j);
      PendingIsRequested(s.bus, bit);
    }
  }

  /** Request j is enabled at 0xFFFF and raised at 0xFF0F. */
  predicate Raised(b: Bus, j: nat) {
    j < 5 && Bit(b.stack[0x7F].data, j) && Bit(b.io.memory[0x0F], j)
  }

  predicate AnyRaised(b: Bus) {
    exists j :: 0 <= j < 5 && Raised(b, j)
  }

  lemma {:induction false} SomeBit(t: nat, n: nat)
    requires 0 < t < Exp2(n)
    ensures exists j :: 0 <= j < n && Bit(t, j)
  {
    LowestBitIsLowest(t);
    LowestBitBound(t, n);
  }

  lemma TriggeredExactly(s: Machine)
    requires !s.bus.stack[0x7F].undefined
    ensures Triggered(s).Ok? && (Triggered(s).value != 0 <==> AnyRaised(s.bus))
  {
    hide Bit, BitAnd;
    var t := Triggered(s).value;
    forall j | 0 <= j < 5 ensures Bit(t, j) <==> Raised(s.bus, j) {
      TriggeredBits(s, j);
    }
    if t == 0 {
      forall j | 0 <= j < 5 ensures !Raised(s.bus, j) {
        BitOfZero(j);
      }
    } else {
      assert Exp2(5) == 0x20 by { Powers(); }
      SomeBit(t, 5);
    }
  }

  /** Interrupt handling, exactly: an undefined enable register stops the machine once anything is requested;
      an enabled request wakes the processor, and is dispatched if the line lets it through. */
  lemma InterruptsExactly(s: Machine)
    ensures var enable, o := s.bus.stack[0x7F], HandleInterrupts(s);
      && (enable.undefined ==> o == if s.bus.io.memory[0x0F] == 0 then Ok(s) else Err(UndefinedData))
      && (!enable.undefined && !AnyRaised(s.bus) ==> o == Ok(s))
      && (!enable.undefined && AnyRaised(s.bus) && !s.regs.ime.now ==> o == Ok(s.(regs := s.regs.(halt := false))))
      && (!enable.undefined && AnyRaised(s.bus) && s.regs.ime.now ==>
            Dispatches(s) && o == CallTo(Acknowledged(s, DispatchedBit(s)), 0x40 + 8 * DispatchedBit(s)))
  {
    if s.bus.stack[0x7F].undefined {
      hide Dispatch;
    } else {
      hide Triggered, Dispatch, CallTo, Acknowledged, AnyRaised;
      TriggeredExactly(s);
      if Dispatches(s) {
        var t := WithRegs(s, s.regs.(halt := false));
        DispatchCalls(t, DispatchedBit(s));
        AcknowledgedIgnoresHalt(s, DispatchedBit(s));
      }
    }
  }

  lemma PendingIsRequested(b: Bus, j: nat)
    requires Pending(b, j)
    ensures Bit(b.io.memory[IF], j)
  {
  }

  // ----- the delay line -----

  datatype Switch = Enable | Disable | Restore | Leave

  /** One clock as the line sees it. */
  datatype Tick = Idle | Ran(dispatched: bool, switch: Switch)

  function SwitchOf(i: Instruction): Switch {
    match i
    case EI => Enable
    case DI => Disable
    case RETI => Restore
    case _ => Leave
  }

  function Switched(ime: Ime, switch: Switch): Ime {
    match switch
    case Enable => ime.(queued := true)
    case Disable => ime.(queued := false)
    case Restore => Ime(true, true, true)
    case Leave => ime
  }

  lemma ReturnLeavesLine(s: Machine)
    requires Return(s).Ok?
    ensures Return(s).value.regs.ime == s.regs.ime
  {
    hide Return, Later, Last, DropLast;
    ReturnSteps(s);
  }

  lemma CallToLeavesLine(s: Machine, nn: u16)
    requires CallTo(s, nn).Ok?
    ensures CallTo(s, nn).value.regs.ime == s.regs.ime
  {
    hide CallTo, Later;
    CallToCalls(s, nn);
  }

  lemma ExecuteSwitches(s: Machine, i: Instruction)
    requires ShadowInv(s) && Execute(s, i).Ok?
    ensures Execute(s, i).value.regs.ime == Switched(s.regs.ime, SwitchOf(i))
  {
    hide CallTo, Call, Return, ReturnIf, ReturnFromInterrupt, ExecutePlain, Mirrors, Later, CostHere;
    if !IsControl(i) {
      PlainQuiet(s, i);
    } else {
      match i
      case CALL_nn => CallLeavesLine(s, None);
      case CALL_cc_nn(cc) => CallLeavesLine(s, Some(cc));
      case RST_n(n) => CallToLeavesLine(s, n);
      case RET => ReturnLeavesLine(s);
      case RET_cc(cc) => ReturnIfLeavesLine(s, cc);
      case RETI =>
        ReturnFromInterruptIs(s);
        ReturnLeavesLine(WithIme(s, Ime(true, true, true)));
      case DI =>
      case EI =>
    }
  }

  lemma CallLeavesLine(s: Machine, cc: Option<Condition>)
    requires Call(s, cc).Ok?
    ensures Call(s, cc).value.regs.ime == s.regs.ime
  {
    hide CallTo, Fetch16, Later;
    Compound();
    CallToCalls(Fetch16(s).value.1, Fetch16(s).value.0);
  }

  lemma ReturnIfLeavesLine(s: Machine, cc: Condition)
    requires ShadowInv(s) && ReturnIf(s, cc).Ok?
    ensures ReturnIf(s, cc).value.regs.ime == s.regs.ime
  {
    hide Return, Later, Mirrors;
    SpendLater(s, 1);
    QuietKeepsShadow(s, Spend(s, 1), 1);
    if cc.Holds(s.regs.f) {
      ReturnReturns(Spend(s, 1));
    }
  }

  /** The tick of a clock from s. */
  function ClockTick(s: Machine): Tick
    requires Clock(s).Ok?
  {
    var t := HandleInterrupts(s).value;
    if t.regs.halt then Idle else Ran(Dispatches(s), SwitchOf(Decode(Fetch8(t).value.0)))
  }

  lemma ClockSwitches(s: Machine)
    requires ShadowInv(s) && Clock(s).Ok?
    ensures var ime, t := Clock(s).value.regs.ime, ClockTick(s);
      match t
      case Idle => ime == s.regs.ime
      case Ran(dispatched, switch) =>
        var line := Switched(if dispatched then Ime(false, false, false) else s.regs.ime, switch);
        ime == Ime(line.next, line.queued, line.queued)
  {
    hide HandleInterrupts, Fetch8, Decode, Execute, Dispatches, Clocked, Mirrors, Later, SwitchOf, Switched;
    InterruptEffect(s);
    InterruptsKeepShadow(s);
    var t := HandleInterrupts(s).value;
    assert t.regs.ime == if Dispatches(s) then Ime(false, false, false) else s.regs.ime;
    if t.regs.halt {
      assert !Dispatches(s);
    } else {
      Compound();
      var f := Fetch8(t).value.1;
      QuietKeepsShadow(t, f, 1);
      ExecuteSwitches(f, Decode(Fetch8(t).value.0));
    }
  }

  // ----- the history of a run -----

  function Before(h: seq<Tick>): seq<Tick>
    requires h != []
  {
    h[..|h| - 1]
  }

  /** What the last instruction to say anything about interrupts asked for. */
  predicate Asked(h: seq<Tick>)
    decreases |h|
  {
    if h == [] then true
    else
      match h[|h| - 1]
      case Idle => Asked(Before(h))
      case Ran(dispatched, switch) =>
        switch == Enable || switch == Restore || (switch == Leave && !dispatched && Asked(Before(h)))
  }

  /** The enable at the boundary after h: what was asked for up to one instruction earlier, except that a
      RETI counts at once and a dispatch switches everything off. */
  predicate EnabledAfter(h: seq<Tick>)
    decreases |h|
  {
    if h == [] then true
    else
      match h[|h| - 1]
      case Idle => EnabledAfter(Before(h))
      case Ran(dispatched, switch) => switch == Restore || (!dispatched && Asked(Before(h)))
  }

  /** The line of a machine with this history. */
  predicate LineFollows(ime: Ime, h: seq<Tick>) {
    ime == Ime(EnabledAfter(h), Asked(h), Asked(h))
  }

  function History(s: Machine, envs: seq<Env>): seq<Tick>
    requires Run(s, envs).Ok?
    decreases |envs|
  {
    if envs == [] then []
    else
      var t := s.(bus := s.bus.(io := Update(s.bus.io, envs[0]).value.0));
      [ClockTick(t)] + History(Clock(t).value, envs[1..])
  }

  lemma LineStep(ime: Ime, ime': Ime, h: seq<Tick>, t: Tick)
    requires LineFollows(ime, h)
    requires match t
             case Idle => ime' == ime
             case Ran(dispatched, switch) =>
               var line := Switched(if dispatched then Ime(false, false, false) else ime, switch);
               ime' == Ime(line.next, line.queued, line.queued)
    ensures LineFollows(ime', h + [t])
  {
    assert Before(h + [t]) == h;
  }

  lemma {:induction false} RunFollows(s: Machine, envs: seq<Env>, h: seq<Tick>)
    requires Sound(s) && Run(s, envs).Ok? && LineFollows(s.regs.ime, h)
    ensures LineFollows(Run(s, envs).value.0.regs.ime, h + History(s, envs))
    ensures forall i :: |h| <= i < |h + History(s, envs)| ==> Consistent(h + History(s, envs), i)
    decreases |envs|
  {
    hide Update, Clock, ClockTick, Mirrors, Switched, LineFollows, EnabledAfter, ApuInv, BanksOk, SequencerInStep;
    if envs == [] {
      assert h + History(s, envs) == h;
    } else {
      var t := s.(bus := s.bus.(io := Update(s.bus.io, envs[0]).value.0));
      UpdateKeeps(s.bus.io, envs[0]);
      SameMemoryMirrors(s.bus, t.bus, s.pointers, s.expected);
      ClockSwitches(t);
      LineStep(t.regs.ime, Clock(t).value.regs.ime, h, ClockTick(t));
      StepKeeps(s, envs[0]);
      var rest := History(Clock(t).value, envs[1..]);
      RunFollows(Clock(t).value, envs[1..], h + [ClockTick(t)]);
      assert h + History(s, envs) == (h + [ClockTick(t)]) + rest;
      assert (h + History(s, envs))[..|h|] == h;
      DispatchNeedsLine(t);
      LineNow(s.regs.ime, h);
    }
  }

  lemma LineNow(ime: Ime, h: seq<Tick>)
    requires LineFollows(ime, h)
    ensures ime.now == EnabledAfter(h)
  {
  }

  lemma DispatchNeedsLine(s: Machine)
    requires Clock(s).Ok?
    ensures ClockTick(s).Ran? && ClockTick(s).dispatched ==> s.regs.ime.now
  {
    hide HandleInterrupts, Triggered, Decode;
  }

  /** Tick i dispatches only if the line let it. */
  predicate Consistent(h: seq<Tick>, i: nat)
    requires i < |h|
  {
    h[i].Ran? && h[i].dispatched ==> EnabledAfter(h[..i])
  }

  // ----- no second dispatch too early -----

  /** Between tick i and the boundary before tick n, a RETI ran, or an EI and one further instruction. */
  predicate Reenabled(h: seq<Tick>, i: nat, n: nat)
    requires n <= |h|
  {
    exists k :: i <= k < n && h[k].Ran? &&
      (h[k].switch == Restore || (h[k].switch == Enable && exists m :: k < m < n && h[m].Ran?))
  }

  lemma {:induction false} AskedSince(h: seq<Tick>, i: nat, n: nat)
    requires i < n <= |h| && h[i].Ran? && h[i].dispatched && Asked(h[..n])
    ensures exists k :: i <= k < n && h[k].Ran? && (h[k].switch == Restore || h[k].switch == Enable)
    decreases n
  {
    assert h[..n][|h[..n]| - 1] == h[n - 1] && Before(h[..n]) == h[..n - 1];
    if h[n - 1].Ran? && (h[n - 1].switch == Restore || h[n - 1].switch == Enable) {
    } else {
      assert i < n - 1;
      AskedSince(h, i, n - 1);
    }
  }

  lemma {:induction false} EnabledSince(h: seq<Tick>, i: nat, n: nat)
    requires i < n <= |h| && h[i].Ran? && h[i].dispatched && EnabledAfter(h[..n])
    ensures Reenabled(h, i, n)
    decreases n
  {
    assert h[..n][|h[..n]| - 1] == h[n - 1] && Before(h[..n]) == h[..n - 1];
    if h[n - 1].Idle? {
      EnabledSince(h, i, n - 1);
    } else if h[n - 1].switch != Restore {
      AskedSince(h, i, n - 1);
    }
  }

  /** In every error-free run from power-on: the enable at each boundary is what EI and DI asked for one
      instruction before; and after a dispatch there is no second one until a RETI, or an EI and one
      further instruction. */
  lemma InterruptsFromPowerOn(cart: Cartridges.Cart, clocksPerSample: nat, envs: seq<Env>)
    requires BanksOk(cart)
    ensures PowerOn(cart, clocksPerSample).Ok?
    ensures var s := PowerOn(cart, clocksPerSample).value;
      Run(s, envs).Ok? ==>
        var h := History(s, envs);
        && Run(s, envs).value.0.regs.ime.now == EnabledAfter(h)
        && forall i, j :: 0 <= i < j < |h| && h[i].Ran? && h[i].dispatched && h[j].Ran? && h[j].dispatched ==> Reenabled(h, i, j)
  {
    hide Run, History, Sound, EnabledAfter, Asked, Reenabled;
    PowerOnSound(cart, clocksPerSample);
    var s := PowerOn(cart, clocksPerSample).value;
    if Run(s, envs).Ok? {
      StartFollows(s);
      RunFollows(s, envs, []);
      var h := History(s, envs);
      assert [] + h == h;
      forall i, j | 0 <= i < j < |h| && h[i].Ran? && h[i].dispatched && h[j].Ran? && h[j].dispatched ensures Reenabled(h, i, j) {
        assert Consistent(h, j);
        EnabledSince(h, i, j);
      }
    }
  }

  lemma StartFollows(s: Machine)
    requires s.regs == INITIAL_REGISTERS
    ensures LineFollows(s.regs.ime, [])
  {
  }
}
