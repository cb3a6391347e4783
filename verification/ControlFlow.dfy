/** Calls and returns are well bracketed: seen only through the program counter and the stack pointer,
    every return undoes the most recent call that has not returned. */
module ControlFlow {
  import opened AudioInvariants
  import opened Timers
  import opened Outcomes
  import opened Bits
  import opened Registers
  import opened IoBlock
  import Cartridges
  import opened Evolution
  import opened Processor
  import opened Effects
  import opened ShadowStack
  import opened Console
  import opened Runs

  // ----- what an observer of PC and SP sees -----

  /** Entered: a call or a dispatch that must come back to `pc` with the stack pointer at `sp`.
      Left: a return that did go to `pc` and did leave the stack pointer at `sp`. */
  datatype Transfer = Entered(pc: u16, sp: u16) | Left(pc: u16, sp: u16)

  /** The transfer of instruction i, run from s (past its opcode) to t. */
  function InstructionTransfers(s: Machine, i: Instruction, t: Machine): seq<Transfer> {
    match i
    case CALL_nn => [Entered(Wrap16(s.regs.pc + 2), s.regs.sp)]
    case CALL_cc_nn(cc) => if cc.Holds(s.regs.f) then [Entered(Wrap16(s.regs.pc + 2), s.regs.sp)] else []
    case RST_n(_) => [Entered(s.regs.pc, s.regs.sp)]
    case RET => [Left(t.regs.pc, t.regs.sp)]
    case RETI => [Left(t.regs.pc, t.regs.sp)]
    case RET_cc(cc) => if cc.Holds(s.regs.f) then [Left(t.regs.pc, t.regs.sp)] else []
    case _ => []
  }

  function NextTransfers(s: Machine): seq<Transfer>
    requires ProcessNextInstruction(s).Ok?
  {
    var (op, f) := Fetch8(s).value;
    InstructionTransfers(f, Decode(op), ProcessNextInstruction(s).value)
  }

  function ClockTransfers(s: Machine): seq<Transfer>
    requires Clock(s).Ok?
  {
    var t := HandleInterrupts(s).value;
    (if Dispatches(s) then [Entered(s.regs.pc, s.regs.sp)] else []) + (if t.regs.halt then [] else NextTransfers(t))
  }

  function RunTransfers(s: Machine, envs: seq<Env>): seq<Transfer>
    requires Run(s, envs).Ok?
    decreases |envs|
  {
    if envs == [] then []
    else
      var t := s.(bus := s.bus.(io := Update(s.bus.io, envs[0]).value.0));
      ClockTransfers(t) + RunTransfers(Clock(t).value, envs[1..])
  }

  // ----- the bracketing discipline -----

  datatype Frame = Frame(pc: u16, sp: u16)

  /** The pending frames after a transfer, or None for a return that does not match the last one.  A
      return with nothing pending is admitted only to address 0 with the stack pointer at 2. */
  function Unwound(stack: seq<Frame>, t: Transfer): Option<seq<Frame>> {
    if t.Entered? then Some(stack + [Frame(t.pc, t.sp)])
    else if stack == [] then (if t.pc == 0 && t.sp == 2 then Some([]) else None)
    else if stack[|stack| - 1] == Frame(t.pc, t.sp) then Some(stack[..|stack| - 1])
    else None
  }

  function Unwind(stack: seq<Frame>, transfers: seq<Transfer>): Option<seq<Frame>>
    decreases |transfers|
  {
    if transfers == [] then Some(stack)
    else if Unwound(stack, transfers[0]).None? then None
    else Unwind(Unwound(stack, transfers[0]).value, transfers[1..])
  }

  lemma {:induction false} UnwindConcat(stack: seq<Frame>, first: seq<Transfer>, rest: seq<Transfer>)
    ensures Unwind(stack, first + rest) ==
            if Unwind(stack, first).None? then None else Unwind(Unwind(stack, first).value, rest)
    decreases |first|
  {
    if first == [] {
      assert first + rest == rest;
    } else {
      assert (first + rest)[1..] == first[1..] + rest;
      if Unwound(stack, first[0]).Some? {
        UnwindConcat(Unwound(stack, first[0]).value, first[1..], rest);
      }
    }
  }

  lemma UnwindOne(stack: seq<Frame>, t: Transfer)
    ensures Unwind(stack, [t]) == Unwound(stack, t)
  {
    if Unwound(stack, t).Some? {
      assert Unwind(Unwound(stack, t).value, []) == Unwound(stack, t);
    }
  }

  // ----- the shadow stack as frames -----

  function Frames(s: Machine): seq<Frame>
    requires |s.pointers| == 2 * |s.expected|
  {
    seq(|s.expected|, i requires 0 <= i < |s.expected| => Frame(s.expected[i], Wrap16(s.pointers[2 * i + 1] as int + 2)))
  }

  lemma FramesCalled(s: Machine, s': Machine, nn: u16)
    requires |s.pointers| == 2 * |s.expected| && Called(s, s', nn)
    ensures |s'.pointers| == 2 * |s'.expected| && Frames(s') == Frames(s) + [Frame(s.regs.pc, s.regs.sp)]
  {
    hide Later, Holds;
    var n := |s.expected|;
    assert forall i :: 0 <= i < n ==> s'.pointers[2 * i + 1] == s.pointers[2 * i + 1];
  }

  lemma ReturnUnwinds(s: Machine)
    requires ShadowInv(s) && Return(s).Ok?
    ensures var t := Return(s).value;
      |t.pointers| == 2 * |t.expected| && Unwind(Frames(s), [Left(t.regs.pc, t.regs.sp)]) == Some(Frames(t))
  {
    hide Return, Later, FrameOk, Distinct, Unwind;
    ReturnReturns(s);
    var t := Return(s).value;
    UnwindOne(Frames(s), Left(t.regs.pc, t.regs.sp));
    if s.expected != [] {
      assert Frames(s)[..|s.expected| - 1] == Frames(t);
    } else {
      assert Frames(s) == [] == Frames(t);
    }
  }

  // ----- one clock -----

  lemma CallUnwinds(s: Machine, cc: Option<Condition>)
    requires ShadowInv(s) && Call(s, cc).Ok?
    ensures var t := Call(s, cc).value;
      && |t.pointers| == 2 * |t.expected|
      && Unwind(Frames(s), if Branches(cc, s.regs.f) then [Entered(Wrap16(s.regs.pc + 2), s.regs.sp)] else []) == Some(Frames(t))
  {
    hide CallTo, Fetch16, Called, FrameOk, Distinct, Later, Unwind;
    Compound();
    var f := Fetch16(s).value.1;
    assert Frames(f) == Frames(s);
    UnwindNothing(Frames(s));
    if Branches(cc, s.regs.f) {
      CallToCalls(f, Fetch16(s).value.0);
      FramesCalled(f, Call(s, cc).value, Fetch16(s).value.0);
      UnwindOne(Frames(s), Entered(Wrap16(s.regs.pc + 2), s.regs.sp));
    }
  }

  lemma UnwindNothing(stack: seq<Frame>)
    ensures Unwind(stack, []) == Some(stack)
  {
  }

  lemma CallToUnwinds(s: Machine, nn: u16)
    requires |s.pointers| == 2 * |s.expected| && CallTo(s, nn).Ok?
    ensures var t := CallTo(s, nn).value;
      |t.pointers| == 2 * |t.expected| && Unwind(Frames(s), [Entered(s.regs.pc, s.regs.sp)]) == Some(Frames(t))
  {
    hide CallTo, Called, Unwind;
    CallToCalls(s, nn);
    FramesCalled(s, CallTo(s, nn).value, nn);
    UnwindOne(Frames(s), Entered(s.regs.pc, s.regs.sp));
  }

  lemma ControlUnwinds(s: Machine, i: Instruction)
    requires ShadowInv(s) && IsControl(i) && Execute(s, i).Ok?
    ensures var t := Execute(s, i).value;
      |t.pointers| == 2 * |t.expected| && Unwind(Frames(s), InstructionTransfers(s, i, t)) == Some(Frames(t))
  {
    hide CallTo, Call, Return, ReturnFromInterrupt, ExecutePlain, Called, Mirrors, Later, Unwind;
    var t := Execute(s, i).value;
    ControlKeepsShadow(s, i);
    MirrorsShape(t);
    MirrorsShape(s);
    UnwindNothing(Frames(s));
    match i
    case CALL_nn => CallUnwinds(s, None);
    case CALL_cc_nn(cc) => CallUnwinds(s, Some(cc));
    case RST_n(n) => CallToUnwinds(s, n);
    case RET => ReturnUnwinds(s);
    case RET_cc(cc) =>
      SpendKeepsFrames(s);
      if cc.Holds(s.regs.f) {
        ReturnUnwinds(Spend(s, 1));
      }
    case RETI =>
      ReturnFromInterruptIs(s);
      assert Frames(WithIme(s, Ime(true, true, true))) == Frames(s);
      ReturnUnwinds(WithIme(s, Ime(true, true, true)));
    case DI => assert Frames(t) == Frames(s);
    case EI => assert Frames(t) == Frames(s);
  }

  lemma SpendKeepsFrames(s: Machine)
    requires ShadowInv(s)
    ensures ShadowInv(Spend(s, 1)) && Frames(Spend(s, 1)) == Frames(s)
  {
    SpendLater(s, 1);
    QuietKeepsShadow(s, Spend(s, 1), 1);
    assert Frames(Spend(s, 1)) == Frames(s);
  }

  lemma MirrorsShape(s: Machine)
    requires ShadowInv(s)
    ensures |s.pointers| == 2 * |s.expected|
  {
  }

  lemma NextUnwinds(s: Machine)
    requires ShadowInv(s) && ProcessNextInstruction(s).Ok?
    ensures var t := ProcessNextInstruction(s).value;
      |t.pointers| == 2 * |t.expected| && Unwind(Frames(s), NextTransfers(s)) == Some(Frames(t))
  {
    hide Fetch8, Decode, Execute, CostHere, Mirrors, Later, Unwind;
    Compound();
    var (op, f) := Fetch8(s).value;
    var i, t := Decode(op), ProcessNextInstruction(s).value;
    QuietKeepsShadow(s, f, 1);
    MirrorsShape(f);
    assert Frames(f) == Frames(s);
    if IsControl(i) {
      ControlUnwinds(f, i);
    } else {
      PlainQuiet(f, i);
      assert Frames(t) == Frames(f);
      UnwindNothing(Frames(s));
    }
  }

  lemma DispatchUnwinds(s: Machine)
    requires ShadowInv(s) && HandleInterrupts(s).Ok?
    ensures var t := HandleInterrupts(s).value;
      && |t.pointers| == 2 * |t.expected|
      && Unwind(Frames(s), if Dispatches(s) then [Entered(s.regs.pc, s.regs.sp)] else []) == Some(Frames(t))
  {
    hide HandleInterrupts, Dispatches, Called, Mirrors, Unwind;
    InterruptEffect(s);
    MirrorsShape(s);
    var t := HandleInterrupts(s).value;
    UnwindNothing(Frames(s));
    if Dispatches(s) {
      var a := Acknowledged(s, DispatchedBit(s));
      assert Frames(a) == Frames(s);
      FramesCalled(a, t, 0x40 + 8 * DispatchedBit(s));
      UnwindOne(Frames(s), Entered(s.regs.pc, s.regs.sp));
    } else {
      assert Frames(t) == Frames(s);
    }
  }

  lemma ClockUnwinds(s: Machine)
    requires ShadowInv(s) && Clock(s).Ok?
    ensures var t := Clock(s).value;
      |t.pointers| == 2 * |t.expected| && Unwind(Frames(s), ClockTransfers(s)) == Some(Frames(t))
  {
    hide HandleInterrupts, ProcessNextInstruction, NextTransfers, Dispatches, Clocked, Mirrors, Unwind;
    MirrorsShape(s);
    DispatchUnwinds(s);
    InterruptsKeepShadow(s);
    var t := HandleInterrupts(s).value;
    var first := if Dispatches(s) then [Entered(s.regs.pc, s.regs.sp)] else [];
    if t.regs.halt {
      assert ClockTransfers(s) == first;
      assert Frames(Spend(t, 1)) == Frames(t);
    } else {
      NextUnwinds(t);
      UnwindConcat(Frames(s), first, NextTransfers(t));
      var u := ProcessNextInstruction(t).value;
      assert Frames(ShiftIme(u)) == Frames(u);
    }
  }

  // ----- whole runs -----

  lemma {:induction false} RunUnwinds(s: Machine, envs: seq<Env>)
    requires Sound(s) && Run(s, envs).Ok?
    ensures var t := Run(s, envs).value.0;
      |t.pointers| == 2 * |t.expected| && Unwind(Frames(s), RunTransfers(s, envs)) == Some(Frames(t))
    decreases |envs|
  {
    hide Update, Clock, ClockTransfers, Mirrors, Unwind, ApuInv, BanksOk, SequencerInStep;
    MirrorsShape(s);
    if envs == [] {
      UnwindNothing(Frames(s));
    } else {
      var t := s.(bus := s.bus.(io := Update(s.bus.io, envs[0]).value.0));
      UpdateKeeps(s.bus.io, envs[0]);
      SameMemoryMirrors(s.bus, t.bus, s.pointers, s.expected);
      assert Frames(t) == Frames(s);
      ClockUnwinds(t);
      StepKeeps(s, envs[0]);
      RunUnwinds(Clock(t).value, envs[1..]);
      UnwindConcat(Frames(s), ClockTransfers(t), RunTransfers(Clock(t).value, envs[1..]));
    }
  }

  /** In every error-free run from power-on, each return goes back to exactly the address its call saved
      and restores the stack pointer the call found. */
  lemma RunsAreWellBracketed(cart: Cartridges.Cart, clocksPerSample: nat, envs: seq<Env>)
    requires BanksOk(cart)
    ensures PowerOn(cart, clocksPerSample).Ok?
    ensures var s := PowerOn(cart, clocksPerSample).value;
      Run(s, envs).Ok? ==> Unwind([], RunTransfers(s, envs)).Some?
  {
    hide Run, RunTransfers, Unwind, Sound;
    PowerOnSound(cart, clocksPerSample);
    var s := PowerOn(cart, clocksPerSample).value;
    if Run(s, envs).Ok? {
      RunUnwinds(s, envs);
      assert Frames(s) == [];
    }
  }
}
