/** What the frame sequencer's rates mean for a channel: how long it sounds and how loud it gets. */
module AudioEvents {
  import opened Bits
  import opened Audio
  import opened AudioInvariants
  import opened IoBlock
  import opened Timers

  datatype Id = One | Two | Three | Four

  function Of(a: Apu, id: Id): Channel {
    match id
    case One => a.ch1
    case Two => a.ch2
    case Three => a.ch3
    case Four => a.ch4
  }

  function RegistersOf(id: Id): ChannelRegisters {
    match id
    case One => CHANNEL1
    case Two => CHANNEL2
    case Three => CHANNEL3
    case Four => CHANNEL4
  }

  /** Bit 6 of 0xFF14, 0xFF19, 0xFF1E or 0xFF23: the channel stops when its length timer runs out. */
  predicate Timed(m: IoMemory, id: Id) {
    Bit(m[if id == One then 0x14 else if id == Two then 0x19 else if id == Three then 0x1E else 0x23], 6)
  }

  lemma TimedIs(m: IoMemory, id: Id)
    ensures Timed(m, id) == LengthEnabled(m, RegistersOf(id))
  {
    hide Bit;
    BitDigits(m[RegistersOf(id).ctl]);
  }

  function Limit(id: Id): nat {
    if id == Three then 256 else 64
  }

  /** A channel without the fields that clocking moves. */
  function Voice(c: Channel): Channel {
    c.(samplePoint := 0, counter := 0, level := 0)
  }

  lemma ChannelTicksKeepVoice(c: Channel, regs: ChannelRegisters, lsr: u16, m: IoMemory)
    ensures Voice(TickPulse(c, regs, m)) == Voice(c)
    ensures Voice(TickWave(c, m)) == Voice(c)
    ensures Voice(TickNoise(c, lsr, m).0) == Voice(c)
  {
    hide Period, Duty, WaveNibble, NoiseStep, Shl;
  }

  lemma TickKeepsVoice(a: Apu, m: IoMemory, id: Id)
    ensures Voice(Of(Tick(a, m), id)) == Voice(Of(a, id))
  {
    hide Voice, TickPulse, TickWave, TickNoise, MixedSample;
    ChannelTicksKeepVoice(Of(a, id), RegistersOf(id), a.lsr, m);
  }

  lemma {:induction false} TicksKeepVoice(a: Apu, m: IoMemory, n: nat, id: Id)
    ensures Voice(Of(Ticks(a, m, n), id)) == Voice(Of(a, id))
    decreases n
  {
    hide Tick, Voice, Of;
    if n > 0 {
      TickKeepsVoice(a, m, id);
      TicksKeepVoice(Tick(a, m), m, n - 1, id);
    }
  }

  // ----- what one edge does -----

  /** The events of edge n, for one channel. */
  function EventAt(c: Channel, id: Id, timed: bool, n: nat): Channel {
    var c := if n % 8 == 0 && id != Three then EnvelopeEvent(c) else c;
    if n % 2 == 0 && timed then Lengthened(c, Limit(id)) else c
  }

  /** The same voice, unless a sweep that went too high has switched channel 1 off. */
  predicate Follows(c: Channel, d: Channel, id: Id) {
    d == c || (id == One && d == c.(on := false))
  }

  lemma SequencerEvents(a: Apu, m: IoMemory, id: Id)
    ensures var (b, m') := FrameSequencer(a, m); var timed := LengthEnabled(m, RegistersOf(id));
      && Follows(EventAt(Voice(Of(a, id)), id, timed, a.divCounter), Voice(Of(b, id)), id)
      && LengthEnabled(m', RegistersOf(id)) == timed
  {
    hide EnvelopeEvent, EnvelopeEvents, LengthEvents, SweepEvent, Lengthened, Voice, LengthEnabled, Of, RegistersOf, Limit;
    EnvelopeEventsOf(a, id);
    EventsOfVoice(Of(a, id), id);
    var b := if a.divCounter % 8 == 0 then EnvelopeEvents(a) else a;
    LengthEventsOf(b, m, id);
    EventsOfVoice(Of(b, id), id);
    var (c, m') := if a.divCounter % 2 == 0 then LengthEvents(b, m) else (b, m);
    SweepEventOf(c, m', id);
    SilentVoice(Of(c, id));
  }

  lemma EnvelopeEventsOf(a: Apu, id: Id)
    ensures Of(EnvelopeEvents(a), id) == if id == Three then Of(a, id) else EnvelopeEvent(Of(a, id))
  {
  }

  lemma SilentVoice(c: Channel)
    ensures Voice(c.(on := false)) == Voice(c).(on := false)
  {
  }

  lemma EventsOfVoice(c: Channel, id: Id)
    ensures Voice(EnvelopeEvent(c)) == EnvelopeEvent(Voice(c))
    ensures Voice(Lengthened(c, Limit(id))) == Lengthened(Voice(c), Limit(id))
  {
  }

  lemma LengthEventsOf(a: Apu, m: IoMemory, id: Id)
    ensures var (b, m') := LengthEvents(a, m); var regs := RegistersOf(id);
      && m'[regs.ctl] == m[regs.ctl] && LengthEnabled(m', regs) == LengthEnabled(m, regs)
      && Of(b, id) == if LengthEnabled(m, regs) then Lengthened(Of(a, id), Limit(id)) else Of(a, id)
  {
    hide Lengthened;
  }

  lemma SweepLeavesOthers(id: Id)
    ensures forall a: Apu, m: IoMemory {:trigger SweepCheck(a, m)} :: Follows(Of(a, id), Of(SweepCheck(a, m), id), id)
    ensures forall a: Apu, m: IoMemory {:trigger RearmSweep(a, m)} :: Follows(Of(a, id), Of(RearmSweep(a, m), id), id)
  {
    hide SweepTarget;
  }

  lemma PeriodKeepsLengthBit(m: IoMemory, value: nat, id: Id)
    requires value < 0x800
    ensures LengthEnabled(WithPeriod(m, CHANNEL1_PERIOD_LOW, CHANNEL1_CTL, value), RegistersOf(id)) == LengthEnabled(m, RegistersOf(id))
  {
    var x, y := m[CHANNEL1_CTL], m[CHANNEL1_CTL] - m[CHANNEL1_CTL] % 8 + value / 0x100;
    assert y / 8 == x / 8;
    assert x / 64 == x / 8 / 8 && y / 64 == y / 8 / 8;
  }

  lemma SweepEventOf(a: Apu, m: IoMemory, id: Id)
    ensures var (b, m') := SweepEvent(a, m);
      Follows(Of(a, id), Of(b, id), id) && LengthEnabled(m', RegistersOf(id)) == LengthEnabled(m, RegistersOf(id))
  {
    hide Period, SweepTarget, SweepCheck, RearmSweep, WithPeriod, LengthEnabled;
    SweepLeavesOthers(id);
    if SweepTarget(m) < 0x800 {
      PeriodKeepsLengthBit(m, SweepTarget(m), id);
    }
  }

  // ----- the sweep -----

  predicate SameSweep(a: Apu, m: IoMemory, b: Apu, m': IoMemory) {
    && b.sweepCountdown == a.sweepCountdown && b.sweepActive == a.sweepActive && b.sweepLocked == a.sweepLocked
    && m'[CHANNEL1_SWEEP] == m[CHANNEL1_SWEEP]
    && m'[CHANNEL1_PERIOD_LOW] == m[CHANNEL1_PERIOD_LOW] && m'[CHANNEL1_CTL] == m[CHANNEL1_CTL]
  }

  lemma LengthEventsLeaveSweep(a: Apu, m: IoMemory)
    ensures SameSweep(a, m, LengthEvents(a, m).0, LengthEvents(a, m).1)
  {
    hide Lengthened;
  }

  /** Only every fourth edge touches the sweep. */
  lemma OnlySweepEventsSweep(a: Apu, m: IoMemory)
    requires a.divCounter % 4 != 0
    ensures SameSweep(a, m, FrameSequencer(a, m).0, FrameSequencer(a, m).1)
  {
    hide LengthEvents, EnvelopeEvent;
    LengthEventsLeaveSweep(if a.divCounter % 8 == 0 then EnvelopeEvents(a) else a, m);
  }

  /** k sweep events in a row. */
  function Sweeps(a: Apu, m: IoMemory, k: nat): (Apu, IoMemory)
    decreases k
  {
    if k == 0 then (a, m) else var (b, m') := SweepEvent(a, m); Sweeps(b, m', k - 1)
  }

  function SweepsCounted(a: Apu, k: nat): Apu {
    a.(fired := a.fired.(sweeps := a.fired.sweeps + k))
  }

  // The sweep register is 0xFF10: pace in bits 4-6, direction in bit 3, step in bits 0-2.  The period is
  // 0xFF13 and the low three bits of 0xFF14.

  function SweepPace(m: IoMemory): nat {
    m[0x10] / 0x10 % 8
  }

  function SweepStep(m: IoMemory): nat {
    m[0x10] % 8
  }

  function CurrentPeriod(m: IoMemory): nat {
    (m[0x13] as nat) + 0x100 * (m[0x14] % 8) as nat
  }

  /** The period moved by its 2^step-th part, down if bit 3 is set. */
  function MovedPeriod(m: IoMemory): int {
    var delta := CurrentPeriod(m) / Exp2(SweepStep(m));
    if Bit(m[0x10], 3) then CurrentPeriod(m) - delta else CurrentPeriod(m) + delta
  }

  /** Would the sweep take the period past 11 bits? */
  predicate TooHigh(m: IoMemory) {
    MovedPeriod(m) >= 0x800
  }

  /** The eleven period bits may differ, and nothing else. */
  predicate OnlyPeriod(m: IoMemory, m': IoMemory) {
    m'[0x14] / 8 == m[0x14] / 8 && forall r: Reg :: r != 0x13 && r != 0x14 ==> m'[r] == m[r]
  }

  lemma {:induction false} ShrIsDivision(x: nat, n: nat)
    ensures Shr(x, n) == x / Exp2(n)
    decreases n
  {
    if n > 0 {
      ShrIsDivision(x / 2, n - 1);
      DivHalf(x, Exp2(n - 1));
    }
  }

  predicate Beyond(m: IoMemory) {
    SweepRises(m) && SweepTarget(m) >= 0x800
  }

  lemma SweepTargetIs(m: IoMemory)
    ensures SweepTarget(m) == MovedPeriod(m) && SweepRises(m) == !Bit(m[0x10], 3)
    ensures Period(m, CHANNEL1_PERIOD_LOW, CHANNEL1_CTL) == CurrentPeriod(m)
    ensures TooHigh(m) == Beyond(m)
  {
    hide Bit, Shr, Exp2;
    BitDigits(m[0x10]);
    ShrIsDivision(CurrentPeriod(m), SweepStep(m));
  }

  lemma {:induction false} SweepsOnlyCount(a: Apu, m: IoMemory, k: nat)
    requires a.ch1.on && k < a.sweepCountdown
    ensures Sweeps(a, m, k) == (SweepsCounted(a, k).(sweepCountdown := a.sweepCountdown - k), m)
    decreases k
  {
    hide Period, SweepTarget, SweepCheck, RearmSweep, WithPeriod;
    if k > 0 {
      SweepsOnlyCount(SweepEvent(a, m).0, m, k - 1);
    }
  }

  lemma {:induction false} SweepsAdd(a: Apu, m: IoMemory, j: nat, k: nat)
    ensures var (b, m') := Sweeps(a, m, j); Sweeps(b, m', k) == Sweeps(a, m, j + k)
    decreases j
  {
    hide SweepEvent;
    if j > 0 {
      var (b, m') := SweepEvent(a, m);
      SweepsAdd(b, m', j - 1, k);
    }
  }

  /** A sweep whose countdown has run out moves the period, reloads, and looks one move ahead. */
  lemma SweepMoves(a: Apu, m: IoMemory)
    requires a.ch1.on && a.sweepActive && a.sweepCountdown == 1
    ensures var (b, m') := Sweep(a, m);
      && b.sweepCountdown == SweepPace(m)
      && m' == (if SweepStep(m) != 0 && !Beyond(m) then WithPeriod(m, CHANNEL1_PERIOD_LOW, CHANNEL1_CTL, SweepTarget(m)) else m)
      && (b.ch1.on <==> !Beyond(m) && (SweepStep(m) != 0 ==> !Beyond(m')))
      && (b.sweepActive <==> SweepPace(m) != 0 && (SweepStep(m) != 0 ==> !Beyond(m')))
      && (b.sweepLocked <==> SweepPace(m) != 0 || SweepStep(m) == 0)
  {
    hide Period, SweepTarget;
    ChangedPeriod(m);
  }

  lemma ChangedPeriod(m: IoMemory)
    ensures SweepTarget(m) < 0x800 ==>
      var m' := WithPeriod(m, CHANNEL1_PERIOD_LOW, CHANNEL1_CTL, SweepTarget(m));
      OnlyPeriod(m, m') && Period(m', CHANNEL1_PERIOD_LOW, CHANNEL1_CTL) == SweepTarget(m)
  {
    hide SweepTarget;
    if SweepTarget(m) < 0x800 {
      var x, t := m[CHANNEL1_CTL], SweepTarget(m);
      assert (x - x % 8 + t / 0x100) % 8 == t / 0x100;
    }
  }

  /** An active sweep with n events to go moves the period once, at the n-th: to the target, unless that
      does not fit 11 bits, which silences the channel, as does a next target that would not fit. */
  lemma SweepFiresAtPace(a: Apu, m: IoMemory, k: nat)
    requires a.ch1.on && a.sweepActive && 1 <= a.sweepCountdown && k <= a.sweepCountdown
    ensures var (b, m') := Sweeps(a, m, k);
      && b.fired == SweepsCounted(a, k).fired
      && (k < a.sweepCountdown ==> m' == m && b.ch1 == a.ch1 && b.sweepActive && b.sweepCountdown == a.sweepCountdown - k)
      && (k == a.sweepCountdown ==>
            && b.sweepCountdown == SweepPace(m)
            && (b.ch1.on <==> !TooHigh(m) && (SweepStep(m) != 0 ==> !TooHigh(m')))
            && (b.sweepActive <==> SweepPace(m) != 0 && (SweepStep(m) != 0 ==> !TooHigh(m')))
            && (b.sweepLocked <==> SweepPace(m) != 0 || SweepStep(m) == 0)
            && OnlyPeriod(m, m')
            && CurrentPeriod(m') == (if SweepStep(m) != 0 && !TooHigh(m) then MovedPeriod(m) else CurrentPeriod(m)))
  {
    hide SweepEvent, SweepTarget, SweepStep, SweepPace, CurrentPeriod, MovedPeriod, TooHigh, WithPeriod;
    if k < a.sweepCountdown {
      SweepsOnlyCount(a, m, k);
    } else {
      SweepsOnlyCount(a, m, k - 1);
      SweepsAdd(a, m, k - 1, 1);
      LastSweep(SweepsCounted(a, k - 1).(sweepCountdown := 1), m);
    }
  }

  lemma LastSweep(a: Apu, m: IoMemory)
    requires a.ch1.on && a.sweepActive && a.sweepCountdown == 1
    ensures Sweeps(a, m, 1) == Sweep(SweepsCounted(a, 1), m)
    ensures var (b, m') := Sweeps(a, m, 1);
      && b.fired == SweepsCounted(a, 1).fired && b.sweepCountdown == SweepPace(m)
      && (b.ch1.on <==> !TooHigh(m) && (SweepStep(m) != 0 ==> !TooHigh(m')))
      && (b.sweepActive <==> SweepPace(m) != 0 && (SweepStep(m) != 0 ==> !TooHigh(m')))
      && (b.sweepLocked <==> SweepPace(m) != 0 || SweepStep(m) == 0)
      && OnlyPeriod(m, m')
      && CurrentPeriod(m') == (if SweepStep(m) != 0 && !TooHigh(m) then MovedPeriod(m) else CurrentPeriod(m))
  {
    hide Sweep, SweepTarget, SweepRises, SweepStep, SweepPace, Period, WithPeriod, CurrentPeriod, MovedPeriod, TooHigh;
    var (b, m') := SweepEvent(a, m);
    assert Sweeps(b, m', 0) == (b, m');
    SweepMoves(SweepsCounted(a, 1), m);
    ChangedPeriod(m);
    SweepTargetIs(m);
    SweepTargetIs(m');
  }

  lemma CatchUpEvents(io: Io, id: Id)
    requires SequencerInStep(io) && io.cycle <= io.lastCycle + LONGEST_GAP
    ensures var io' := UpdateTimers(io);
      var timed := LengthEnabled(io.memory, RegistersOf(id));
      && LengthEnabled(io'.memory, RegistersOf(id)) == timed
      && (if io.cycle / 2048 == io.lastCycle / 2048 then Voice(Of(io'.apu, id)) == Voice(Of(io.apu, id))
          else Follows(EventAt(Voice(Of(io.apu, id)), id, timed, io.cycle / 2048), Voice(Of(io'.apu, id)), id))
  {
    hide FrameSequencer, Ticks, RunTimer, Voice, EventAt, Tima, Overflowed, Raised;
    EdgeExactly(io.lastCycle, io.cycle);
    var m := io.memory[DIV_TIMER := io.cycle / 64 % 0x100];
    var a := io.apu.(lastDiv := m[DIV_TIMER], divCounter := io.apu.divCounter + 1);
    SequencerEvents(a, m, id);
    assert Of(a, id) == Of(io.apu, id);
    assert Of(io.apu.(lastDiv := m[DIV_TIMER]), id) == Of(io.apu, id);
    var (b, m') := TickDiv(io.apu, m);
    TicksKeepVoice(b, m', 4 * io.cycle - io.apu.lastClock, id);
    var m'' := ClockTo(io.apu, m, 4 * io.cycle).1;
    RunTimerEffect(m'', io.timerCycles + (io.cycle - io.lastCycle));
  }

  // ----- what many edges do -----

  /** How many of k envelope events change the volume. */
  function Steps(timer: nat, pace: nat, k: nat): nat {
    if pace == 0 || k < timer then 0 else 1 + (k - timer) / pace
  }

  function TimerAfter(timer: nat, pace: nat, k: nat): int {
    if pace == 0 then timer else if k < timer then timer - k else pace - (k - timer) % pace
  }

  function Volume(peak: nat, increases: bool, steps: nat): nat {
    if increases then (if peak + steps <= 15 then peak + steps else 15)
    else if steps <= peak then peak - steps else 0
  }

  /** A channel after some length and some envelope events. */
  predicate Heard(c: Channel, d: Channel, id: Id, timed: bool, lengths: nat, envelopes: nat) {
    && d.lengthTimer == (if timed then (c.lengthTimer + lengths) % Limit(id) else c.lengthTimer)
    && (d.on ==> c.on && (timed ==> c.lengthTimer + lengths < Limit(id)))
    && (id != One && c.on && (timed ==> c.lengthTimer + lengths < Limit(id)) ==> d.on)
    && d.increases == c.increases && d.pace == c.pace
    && (id == Three ==> d.peekLevel == c.peekLevel && d.envelopeTimer == c.envelopeTimer)
    && (id != Three ==>
          && d.envelopeTimer == TimerAfter(c.envelopeTimer, c.pace, envelopes)
          && d.peekLevel == Volume(c.peekLevel, c.increases, Steps(c.envelopeTimer, c.pace, envelopes)))
  }

  /** The ranges of a channel's event counters. */
  predicate InRange(c: Channel, id: Id) {
    c.lengthTimer < Limit(id) && c.peekLevel <= 15 && (id != Three && c.pace != 0 ==> 1 <= c.envelopeTimer <= c.pace)
  }

  lemma RangesHold(a: Apu, id: Id)
    requires ApuInv(a)
    ensures InRange(Voice(Of(a, id)), id)
  {
  }

  lemma FirstStep(timer: nat, pace: nat, k: nat)
    requires 1 <= timer <= pace
    ensures Steps(timer, pace, k + 1) == if timer == 1 then 1 + Steps(pace, pace, k) else Steps(timer - 1, pace, k)
    ensures TimerAfter(timer, pace, k + 1) == TimerAfter(if timer == 1 then pace else timer - 1, pace, k)
  {
    if timer == 1 && k >= pace {
      ModUnique(k - pace, pace, k / pace - 1, k % pace);
    } else if timer == 1 {
      ModUnique(k, pace, 0, k);
    }
  }

  lemma EnvelopeFirst(c: Channel, d: Channel, id: Id, timed: bool, lengths: nat, envelopes: nat)
    requires InRange(c, id) && id != Three && Heard(EnvelopeEvent(c), d, id, timed, lengths, envelopes)
    ensures InRange(EnvelopeEvent(c), id) && Heard(c, d, id, timed, lengths, envelopes + 1)
  {
    hide Steps, TimerAfter;
    if c.pace != 0 {
      FirstStep(c.envelopeTimer, c.pace, envelopes);
    } else {
      NoPace(c.envelopeTimer, envelopes);
      NoPace(c.envelopeTimer, envelopes + 1);
    }
  }

  lemma NoPace(timer: nat, k: nat)
    ensures Steps(timer, 0, k) == 0 && TimerAfter(timer, 0, k) == timer
  {
  }

  lemma LengthFirst(c: Channel, d: Channel, id: Id, lengths: nat, envelopes: nat)
    requires InRange(c, id) && Heard(Lengthened(c, Limit(id)), d, id, true, lengths, envelopes)
    ensures InRange(Lengthened(c, Limit(id)), id) && Heard(c, d, id, true, lengths + 1, envelopes)
  {
    hide Steps, TimerAfter, Volume;
    if id == Three {
      OneLonger(c.lengthTimer, lengths, 256);
    } else {
      OneLonger(c.lengthTimer, lengths, 64);
    }
  }

  lemma OneLonger(t: nat, lengths: nat, limit: nat)
    requires t < limit
    ensures ((if t + 1 == limit then 0 else t + 1) + lengths) % limit == (t + (lengths + 1)) % limit
  {
    if t + 1 == limit {
      ModUnique(limit + lengths, limit, 1 + lengths / limit, lengths % limit);
    }
  }

  lemma UntimedLengths(c: Channel, d: Channel, id: Id, lengths: nat, envelopes: nat)
    requires Heard(c, d, id, false, lengths, envelopes)
    ensures Heard(c, d, id, false, lengths + 1, envelopes)
  {
  }

  lemma WaveIgnoresEnvelopes(c: Channel, d: Channel, timed: bool, lengths: nat, envelopes: nat)
    requires Heard(c, d, Three, timed, lengths, envelopes)
    ensures Heard(c, d, Three, timed, lengths, envelopes + 1)
  {
  }

  /** Edge n, before everything that d has heard since. */
  lemma EventFirst(c: Channel, d: Channel, id: Id, timed: bool, n: nat, lengths: nat, envelopes: nat)
    requires InRange(c, id) && Heard(EventAt(c, id, timed, n), d, id, timed, lengths, envelopes)
    ensures Heard(c, d, id, timed, lengths + (if n % 2 == 0 then 1 else 0), envelopes + (if n % 8 == 0 then 1 else 0))
  {
    hide Heard, InRange, EnvelopeEvent, Lengthened;
    var b := if n % 8 == 0 && id != Three then EnvelopeEvent(c) else c;
    EnvelopeInRange(c, id);
    var more := lengths + (if n % 2 == 0 then 1 else 0);
    if n % 2 == 0 {
      if timed {
        LengthFirst(b, d, id, lengths, envelopes);
      } else {
        UntimedLengths(b, d, id, lengths, envelopes);
      }
    }
    if n % 8 == 0 {
      if id == Three {
        WaveIgnoresEnvelopes(c, d, timed, more, envelopes);
      } else {
        EnvelopeFirst(c, d, id, timed, more, envelopes);
      }
    }
  }

  lemma EnvelopeInRange(c: Channel, id: Id)
    requires InRange(c, id)
    ensures id != Three ==> InRange(EnvelopeEvent(c), id)
  {
  }

  lemma Rates(last: nat, now: nat)
    requires last / 2048 <= now / 2048 <= last / 2048 + 1
    ensures var n := now / 2048;
      if n == last / 2048 then now / 4096 == last / 4096 && now / 16384 == last / 16384
      else now / 4096 == last / 4096 + (if n % 2 == 0 then 1 else 0) && now / 16384 == last / 16384 + (if n % 8 == 0 then 1 else 0)
  {
    assert now / 4096 == now / 2048 / 2 && now / 16384 == now / 2048 / 8;
    assert last / 4096 == last / 2048 / 2 && last / 16384 == last / 2048 / 8;
  }

  predicate Ready(io: Io) {
    SequencerInStep(io) && io.lastCycle == io.cycle && ApuInv(io.apu)
  }

  lemma HeardNothing(io: Io, id: Id)
    requires Ready(io)
    ensures var c := Voice(Of(io.apu, id)); Heard(c, c, id, LengthEnabled(io.memory, RegistersOf(id)), 0, 0)
  {
    hide LengthEnabled;
    RangesHold(io.apu, id);
  }

  lemma ReadyAgain(io: Io, n: nat)
    requires Ready(io) && n <= LONGEST_GAP
    ensures Ready(UpdateTimers(Passed(io, n))) && UpdateTimers(Passed(io, n)).cycle == io.cycle + n
  {
    hide UpdateTimers, SequencerInStep, ApuInv;
    PassedInStep(io, n);
    CatchUpInStep(Passed(io, n));
    UpdateTimersEffect(Passed(io, n));
    UpdateKeepsRanges(Passed(io, n));
  }

  lemma SilencedHeard(c: Channel, d: Channel, id: Id, timed: bool, lengths: nat, envelopes: nat)
    requires id == One ==> Heard(c.(on := false), d, id, timed, lengths, envelopes) || Heard(c, d, id, timed, lengths, envelopes)
    ensures id == One ==> Heard(c, d, id, timed, lengths, envelopes)
  {
  }

  /** What was heard after the first catch-up, together with it. */
  lemma FirstCatchUp(io: Io, n: nat, id: Id, d: Channel, lengths: nat, envelopes: nat)
    requires Ready(io) && n <= LONGEST_GAP
    requires var next := UpdateTimers(Passed(io, n));
      Heard(Voice(Of(next.apu, id)), d, id, LengthEnabled(next.memory, RegistersOf(id)), lengths, envelopes)
    ensures var now := io.cycle + n;
      Heard(Voice(Of(io.apu, id)), d, id, LengthEnabled(io.memory, RegistersOf(id)),
            lengths + (now / 4096 - io.cycle / 4096), envelopes + (now / 16384 - io.cycle / 16384))
  {
    hide UpdateTimers, Heard, Voice, Of, EventAt, InRange, ApuInv, SequencerInStep, RegistersOf, LengthEnabled;
    RangesHold(io.apu, id);
    PassedInStep(io, n);
    CatchUpEvents(Passed(io, n), id);
    EdgeExactly(io.cycle, io.cycle + n);
    Rates(io.cycle, io.cycle + n);
    if (io.cycle + n) / 2048 != io.cycle / 2048 {
      SilencedHeard(EventAt(Voice(Of(io.apu, id)), id, LengthEnabled(io.memory, RegistersOf(id)), (io.cycle + n) / 2048), d, id,
                    LengthEnabled(io.memory, RegistersOf(id)), lengths, envelopes);
      EventFirst(Voice(Of(io.apu, id)), d, id, LengthEnabled(io.memory, RegistersOf(id)), (io.cycle + n) / 2048, lengths, envelopes);
    }
  }

  /** As long as its registers are left alone, a channel hears one length event every 4096 cycles and one
      envelope event every 16384, however time is cut into catch-ups of at most 1024 cycles: it falls
      silent after exactly the events its length timer has left, and its volume moves one step per pace.
      Channel 1 may also be silenced earlier, by its sweep. */
  lemma {:induction false} ChannelFollowsTheClock(io: Io, gaps: seq<nat>, id: Id)
    requires Ready(io) && forall i :: 0 <= i < |gaps| ==> gaps[i] <= LONGEST_GAP
    ensures var io' := CatchUps(io, gaps);
      && io'.cycle >= io.cycle
      && Heard(Voice(Of(io.apu, id)), Voice(Of(io'.apu, id)), id, Timed(io.memory, id),
               io'.cycle / 4096 - io.cycle / 4096, io'.cycle / 16384 - io.cycle / 16384)
    decreases |gaps|
  {
    hide UpdateTimers, Heard, Voice, Of, Ready, LengthEnabled, RegistersOf, Timed;
    TimedIs(io.memory, id);
    if gaps == [] {
      HeardNothing(io, id);
    } else {
      var next := UpdateTimers(Passed(io, gaps[0]));
      ReadyAgain(io, gaps[0]);
      assert forall i :: 0 <= i < |gaps[1..]| ==> gaps[1..][i] == gaps[i + 1];
      ChannelFollowsTheClock(next, gaps[1..], id);
      var end := CatchUps(next, gaps[1..]);
      TimedIs(next.memory, id);
      FirstCatchUp(io, gaps[0], id, Voice(Of(end.apu, id)),
                   end.cycle / 4096 - next.cycle / 4096, end.cycle / 16384 - next.cycle / 16384);
    }
  }

  lemma UpdateKeepsRanges(io: Io)
    requires ApuInv(io.apu)
    ensures ApuInv(UpdateTimers(io).apu)
  {
    hide ClockTo, RunTimer, ApuInv;
    ClockToInv(io.apu, io.memory[DIV_TIMER := io.cycle / 64 % 0x100], 4 * io.cycle);
  }
}
