/** The lazy timers against their eager meaning, and the frame sequencer's clock. */
module Timers {
  import opened Bits
  import opened Audio
  import opened AudioClocking
  import opened Picture
  import opened IoBlock

  // ----- TIMA after k ticks -----

  function Tima(t: u8, modulo: u8, k: nat): (r: u8)
    ensures t + k >= 0x100 ==> modulo <= r
  {
    if t + k < 0x100 then t + k
    else
      var d := 0x100 - modulo;
      var r := (t + k - 0x100) % d;
      modulo + r
  }

  predicate Overflowed(t: u8, k: nat) {
    t + k >= 0x100
  }

  function Raised(flags: u8, raised: bool): u8 {
    if raised then Or8(flags, TIMER_INTERRUPT) else flags
  }

  lemma {:induction false} OrIdempotent(a: nat, b: nat)
    ensures BitOr(BitOr(a, b), b) == BitOr(a, b)
    decreases a + b
  {
    if !(a == 0 && b == 0) {
      OrIdempotent(a / 2, b / 2);
    }
  }

  lemma ModShift(x: nat, d: nat, k: nat)
    requires d > 0 && x % d + k >= d
    ensures (x + k) % d == (x % d + k - d) % d
  {
    var q, r := x / d, x % d;
    var q', r' := (r + k - d) / d, (r + k - d) % d;
    assert d * (q + q' + 1) == d * q + d * q' + d;
    ModUnique(x + k, d, q + q' + 1, r');
  }

  lemma ModGrow(x: nat, d: nat, k: nat)
    requires d > 0 && x % d + k < d
    ensures (x + k) % d == x % d + k
  {
    ModUnique(x + k, d, x / d, x % d + k);
  }

  /** Ticking j times and then k times is ticking j + k times, interrupt included. */
  lemma TimaAdds(t: u8, modulo: u8, j: nat, k: nat)
    ensures Tima(Tima(t, modulo, j), modulo, k) == Tima(t, modulo, j + k)
    ensures Overflowed(t, j + k) <==> Overflowed(t, j) || Overflowed(Tima(t, modulo, j), k)
  {
    if Overflowed(t, j) {
      var x, d := t + j - 0x100, 0x100 - modulo;
      assert x % d < d;
      if x % d + k < d {
        ModGrow(x, d, k);
      } else {
        ModShift(x, d, k);
      }
    }
  }

  lemma RaisedTwice(flags: u8, first: bool, second: bool)
    ensures Raised(Raised(flags, first), second) == Raised(flags, first || second)
  {
    OrIdempotent(flags, TIMER_INTERRUPT);
  }

  function Ticked(m: IoMemory, k: nat): IoMemory {
    m[T_COUNTER := Tima(m[T_COUNTER], m[T_MODULO], k)][IF := Raised(m[IF], Overflowed(m[T_COUNTER], k))]
  }

  lemma TickedAdds(m: IoMemory, j: nat, k: nat)
    ensures Ticked(Ticked(m, j), k) == Ticked(m, j + k)
  {
    TimaAdds(m[T_COUNTER], m[T_MODULO], j, k);
    RaisedTwice(m[IF], Overflowed(m[T_COUNTER], j), Overflowed(Tima(m[T_COUNTER], m[T_MODULO], j), k));
    hide Tima, Overflowed, Raised;
    assert Ticked(Ticked(m, j), k) == Ticked(m, j + k);
  }

  lemma TickedOnce(m: IoMemory)
    ensures TickTimer(m) == Ticked(m, 1)
  {
    if m[T_COUNTER] == 0xFF {
      var modulo: int := m[T_MODULO];
      ModUnique(0, 0x100 - modulo, 0, 0);
    }
    assert TickTimer(m) == Ticked(m, 1);
  }

  lemma TickedNever(m: IoMemory)
    ensures Ticked(m, 0) == m
  {
    assert Ticked(m, 0) == m;
  }

  /** The catch-up loop in closed form. */
  lemma {:induction false} ReduceTimerClosedForm(m: IoMemory, cycles: nat, threshold: nat)
    requires threshold > 0
    ensures ReduceTimer(m, cycles, threshold) == (Ticked(m, cycles / threshold), cycles % threshold)
    decreases cycles
  {
    hide Ticked, TickTimer;
    if cycles < threshold {
      ModUnique(cycles, threshold, 0, cycles);
      TickedNever(m);
    } else {
      var rest := cycles - threshold;
      ReduceTimerClosedForm(TickTimer(m), rest, threshold);
      TickedOnce(m);
      TickedAdds(m, 1, rest / threshold);
      assert threshold * (rest / threshold + 1) == threshold * (rest / threshold) + threshold;
      ModUnique(cycles, threshold, rest / threshold + 1, rest % threshold);
    }
  }

  // ----- one catch-up -----

  /** The part of the machine that the timers drive. */
  datatype Clockwork = Clockwork(
    tima: u8, modulo: u8, control: u8, flags: u8, div: u8,
    residue: nat, dots: nat, last: nat, cycle: nat)
  {
    predicate Valid() {
      last <= cycle
    }
  }

  function View(io: Io): (w: Clockwork)
    ensures w.Valid()
  {
    Clockwork(io.memory[T_COUNTER], io.memory[T_MODULO], io.memory[T_CONTROL], io.memory[IF], io.memory[DIV_TIMER],
              io.timerCycles, io.gpu.dots, io.lastCycle, io.cycle)
  }

  /** n cycles pass and the timers then catch up, in closed form. */
  function CaughtUp(w: Clockwork, n: nat): (r: Clockwork)
    requires w.Valid()
    ensures r.Valid() && r.last == r.cycle == w.cycle + n
  {
    var passed := w.cycle + n - w.last;
    var total := w.residue + passed;
    var base := w.(div := (w.cycle + n) / 64 % 0x100, dots := w.dots + 4 * passed, last := w.cycle + n, cycle := w.cycle + n);
    match Threshold(w.control)
    case None => base.(residue := total)
    case Some(threshold) =>
      base.(residue := total % threshold,
            tima := Tima(w.tima, w.modulo, total / threshold),
            flags := Raised(w.flags, Overflowed(w.tima, total / threshold)))
  }

  function Passed(io: Io, n: nat): Io {
    io.(cycle := io.cycle + n)
  }

  lemma RunTimerEffect(m: IoMemory, cycles: nat)
    ensures var (m', rest) := RunTimer(m, cycles);
      match Threshold(m[T_CONTROL])
      case None => m' == m && rest == cycles
      case Some(threshold) => m' == Ticked(m, cycles / threshold) && rest == cycles % threshold
  {
    hide ReduceTimer, Ticked;
    match Threshold(m[T_CONTROL])
    case None =>
    case Some(threshold) => ReduceTimerClosedForm(m, cycles, threshold);
  }

  /** A catch-up does to the clockwork what the closed form says, and leaves the other plain registers alone. */
  lemma UpdateTimersEffect(io: Io)
    ensures View(UpdateTimers(io)) == CaughtUp(View(io), 0)
    ensures UpdateTimers(io).gpu == io.gpu.(dots := io.gpu.dots + 4 * (io.cycle - io.lastCycle))
    ensures forall r: Reg :: !(CHANNEL1_SWEEP <= r <= AUDIO_MASTER_CTL) && r != DIV_TIMER && r != T_COUNTER && r != IF ==>
      UpdateTimers(io).memory[r] == io.memory[r]
    ensures UpdateTimers(io).(memory := io.memory, gpu := io.gpu, apu := io.apu, lastCycle := io.lastCycle,
                              timerCycles := io.timerCycles) == io
  {
    hide ClockTo, RunTimer, Tima, Overflowed, Raised;
    var m := io.memory[DIV_TIMER := io.cycle / 64 % 0x100];
    ClockToRegisters(io.apu, m, 4 * io.cycle);
    var m' := ClockTo(io.apu, m, 4 * io.cycle).1;
    RunTimerEffect(m', io.timerCycles + (io.cycle - io.lastCycle));
  }

  // ----- partitions of an interval -----

  lemma ThresholdSplit(total: nat, n: nat, threshold: nat)
    requires threshold > 0
    ensures (total + n) / threshold == total / threshold + (total % threshold + n) / threshold
    ensures (total + n) % threshold == (total % threshold + n) % threshold
  {
    var q, q' := total / threshold, (total % threshold + n) / threshold;
    assert threshold * (q + q') == threshold * q + threshold * q';
    ModUnique(total + n, threshold, q + q', (total % threshold + n) % threshold);
  }

  /** Catching up twice is catching up once. */
  lemma CaughtUpAdds(w: Clockwork, n: nat, k: nat)
    requires w.Valid()
    ensures CaughtUp(CaughtUp(w, n), k) == CaughtUp(w, n + k)
  {
    hide Tima, Overflowed, Raised;
    var total := w.residue + (w.cycle + n - w.last);
    match Threshold(w.control) {
      case None =>
      case Some(threshold) =>
        ThresholdSplit(total, k, threshold);
        var j := total / threshold;
        TimaAdds(w.tima, w.modulo, j, (total % threshold + k) / threshold);
        RaisedTwice(w.flags, Overflowed(w.tima, j), Overflowed(Tima(w.tima, w.modulo, j), (total % threshold + k) / threshold));
    }
  }

  function Sum(gaps: seq<nat>): nat {
    if gaps == [] then 0 else gaps[0] + Sum(gaps[1..])
  }

  /** Lets time pass in the given steps, catching up after each. */
  function CatchUps(io: Io, gaps: seq<nat>): Io
    decreases |gaps|
  {
    if gaps == [] then io else CatchUps(UpdateTimers(Passed(io, gaps[0])), gaps[1..])
  }

  /** However an interval is cut up, TIMA, the residue, DIV, the interrupt flags and the dot count at
      its end are the ones of a single closed-form step over the whole interval. */
  lemma {:induction false} CatchUpsClosedForm(io: Io, gaps: seq<nat>)
    requires gaps != []
    ensures View(CatchUps(io, gaps)) == CaughtUp(View(io), Sum(gaps))
    decreases |gaps|
  {
    hide UpdateTimers, CaughtUp;
    var io' := UpdateTimers(Passed(io, gaps[0]));
    UpdateTimersEffect(Passed(io, gaps[0]));
    PassedView(io, gaps[0]);
    assert View(io') == CaughtUp(View(io), gaps[0]);
    if gaps[1..] != [] {
      CatchUpsClosedForm(io', gaps[1..]);
      CaughtUpAdds(View(io), gaps[0], Sum(gaps[1..]));
    }
  }

  lemma PassedView(io: Io, n: nat)
    ensures CaughtUp(View(Passed(io, n)), 0) == CaughtUp(View(io), n)
  {
    hide Tima, Overflowed, Raised;
  }

  function EveryCycle(n: nat): seq<nat> {
    if n == 0 then [] else [1] + EveryCycle(n - 1)
  }

  lemma {:induction false} EveryCycleSum(n: nat)
    ensures Sum(EveryCycle(n)) == n && |EveryCycle(n)| == n
  {
    if n > 0 {
      EveryCycleSum(n - 1);
      assert EveryCycle(n)[1..] == EveryCycle(n - 1);
    }
  }

  /** The lazy timers refine the eager ones that catch up after every cycle. */
  lemma LazyRefinesEager(io: Io, gaps: seq<nat>)
    requires Sum(gaps) > 0
    ensures View(CatchUps(io, gaps)) == View(CatchUps(io, EveryCycle(Sum(gaps))))
  {
    EveryCycleSum(Sum(gaps));
    CatchUpsClosedForm(io, gaps);
    CatchUpsClosedForm(io, EveryCycle(Sum(gaps)));
  }

  // ----- the same in numbers -----

  /** With one tick per `period` cycles: TIMA counts from t through 0xFF and on from the modulo, and a pass
      through 0xFF requests the timer interrupt and no other. */
  predicate Ran(before: IoMemory, after: IoMemory, total: nat, rest: nat, period: nat)
    requires period > 0
  {
    var t, modulo, k := before[0x05], before[0x06], total / period;
    && rest == total % period
    && after[0x05] == (if t + k < 0x100 then t + k else modulo + (t + k - 0x100) % (0x100 - modulo))
    && forall i :: 0 <= i < 8 ==> (Bit(after[0x0F], i) <==> Bit(before[0x0F], i) || (i == 2 && t + k >= 0x100))
  }

  /** What `total` pending cycles do under each setting of TAC: one tick per 256, 4, 16 or 64 cycles, or none
      and the cycles stay pending. */
  predicate TimerLaw(before: IoMemory, after: IoMemory, total: nat, rest: nat) {
    var tac := before[0x07] % 8;
    && (tac == 4 ==> Ran(before, after, total, rest, 256))
    && (tac == 5 ==> Ran(before, after, total, rest, 4))
    && (tac == 6 ==> Ran(before, after, total, rest, 16))
    && (tac == 7 ==> Ran(before, after, total, rest, 64))
    && (tac < 4 ==> rest == total && after[0x05] == before[0x05] && after[0x0F] == before[0x0F])
  }

  lemma RaisedBits(flags: u8, raised: bool)
    ensures forall i: nat :: Bit(Raised(flags, raised), i) <==> Bit(flags, i) || (i == 2 && raised)
  {
    hide Bit, BitOr;
    forall i: nat ensures Bit(Raised(flags, raised), i) <==> Bit(flags, i) || (i == 2 && raised) {
      BitOfOr(flags, 4, i);
      BitOfExp2(2, i);
      Powers();
    }
  }

  lemma CaughtUpInNumbers(io: Io, io': Io, n: nat)
    requires View(io') == CaughtUp(View(io), n)
    ensures TimerLaw(io.memory, io'.memory, io.timerCycles + (io.cycle + n - io.lastCycle), io'.timerCycles)
    ensures io'.memory[0x04] == (io.cycle + n) / 64 % 0x100
    ensures io'.gpu.dots == io.gpu.dots + 4 * (io.cycle + n - io.lastCycle)
  {
    hide Raised, Tima, Overflowed, Ran;
    var total := io.timerCycles + (io.cycle + n - io.lastCycle);
    match Threshold(io.memory[T_CONTROL])
    case None =>
    case Some(threshold) => TickedRan(io.memory, io'.memory, total, threshold);
  }

  lemma TickedRan(before: IoMemory, after: IoMemory, total: nat, period: nat)
    requires period > 0
    requires after[0x05] == Tima(before[0x05], before[0x06], total / period)
    requires after[0x0F] == Raised(before[0x0F], Overflowed(before[0x05], total / period))
    ensures Ran(before, after, total, total % period, period)
  {
    hide Raised, Bit;
    RaisedBits(before[0x0F], Overflowed(before[0x05], total / period));
  }

  /** However an interval is cut into catch-ups: at its end TIMA, the pending cycles, the timer request, DIV
      and the dot count are what the whole interval makes them. */
  lemma TimersOverAnInterval(io: Io, gaps: seq<nat>)
    requires gaps != []
    ensures var io', passed := CatchUps(io, gaps), io.cycle + Sum(gaps) - io.lastCycle;
      && TimerLaw(io.memory, io'.memory, io.timerCycles + passed, io'.timerCycles)
      && io'.memory[0x04] == (io.cycle + Sum(gaps)) / 64 % 0x100
      && io'.gpu.dots == io.gpu.dots + 4 * passed
      && io'.cycle == io'.lastCycle == io.cycle + Sum(gaps)
  {
    hide CaughtUp, TimerLaw;
    CatchUpsClosedForm(io, gaps);
    CaughtUpInNumbers(io, CatchUps(io, gaps), Sum(gaps));
  }

  // ----- the frame sequencer -----

  /** The sequencer has seen every falling edge of DIV bit 4 so far, and has run its events at their rates. */
  predicate SequencerInStep(io: Io) {
    && io.apu.divCounter == io.lastCycle / 2048 && io.apu.lastDiv == io.lastCycle / 64 % 0x100
    && io.apu.fired == Tally(io.lastCycle / 4096, io.lastCycle / 8192, io.lastCycle / 16384)
  }

  const LONGEST_GAP := 1024

  lemma DivBit(c: nat)
    ensures c / 64 % 0x100 / 16 % 2 == c / 1024 % 2
    ensures c / 2048 == c / 1024 / 2
  {
  }

  /** Within 1024 cycles there is an edge exactly when a multiple of 2048 is crossed. */
  lemma EdgeExactly(last: nat, now: nat)
    requires last <= now <= last + LONGEST_GAP
    ensures now / 2048 == last / 2048 + (if DivEdge(last / 64 % 0x100, now / 64 % 0x100) then 1 else 0)
  {
    DivBit(last);
    DivBit(now);
  }

  /** Counting one more edge keeps the tally at its rates. */
  lemma CountedAtRates(last: nat, now: nat)
    requires now / 2048 == last / 2048 + 1
    ensures Counted(Tally(last / 4096, last / 8192, last / 16384), now / 2048) == Tally(now / 4096, now / 8192, now / 16384)
  {
    SlowerRates(last);
    SlowerRates(now);
  }

  lemma SlowerRates(c: nat)
    ensures c / 4096 == c / 2048 / 2 && c / 8192 == c / 2048 / 4 && c / 16384 == c / 2048 / 8
  {
  }

  lemma CatchUpInStep(io: Io)
    requires SequencerInStep(io) && io.cycle <= io.lastCycle + LONGEST_GAP
    ensures SequencerInStep(UpdateTimers(io))
  {
    hide FrameSequencer, Ticks, RunTimer, Counted;
    EdgeExactly(io.lastCycle, io.cycle);
    SlowerRates(io.lastCycle);
    SlowerRates(io.cycle);
    if io.cycle / 2048 != io.lastCycle / 2048 {
      CountedAtRates(io.lastCycle, io.cycle);
    }
  }

  /** With no gap above 1024 cycles, no edge is ever lost: the count of edges is always cycle / 2048. */
  lemma {:induction false} SequencerNeverLosesAnEdge(io: Io, gaps: seq<nat>)
    requires SequencerInStep(io) && io.lastCycle == io.cycle
    requires forall i :: 0 <= i < |gaps| ==> gaps[i] <= LONGEST_GAP
    ensures SequencerInStep(CatchUps(io, gaps)) && CatchUps(io, gaps).lastCycle == CatchUps(io, gaps).cycle
    decreases |gaps|
  {
    hide UpdateTimers, SequencerInStep;
    if gaps != [] {
      PassedInStep(io, gaps[0]);
      CatchUpInStep(Passed(io, gaps[0]));
      UpdateTimersEffect(Passed(io, gaps[0]));
      assert forall i :: 0 <= i < |gaps[1..]| ==> gaps[1..][i] == gaps[i + 1];
      SequencerNeverLosesAnEdge(UpdateTimers(Passed(io, gaps[0])), gaps[1..]);
    }
  }

  lemma PassedInStep(io: Io, n: nat)
    ensures SequencerInStep(Passed(io, n)) <==> SequencerInStep(io)
  {
  }
}
