/** The cycles of every instruction against the documented tables. */
module Timing {
  import opened Outcomes
  import opened Bits
  import opened Registers
  import opened Evolution
  import opened Processor
  import opened Effects
  import opened ShadowStack
  import opened Console

  /** One row of the documented table: cycles by opcode, branches not taken, 0 where none is given. */
  function TableRow(row: nat): (cycles: seq<nat>)
    ensures |cycles| == 16
  {
    match row
    case 0 => [1, 3, 2, 2, 1, 1, 2, 1, 5, 2, 2, 2, 1, 1, 2, 1]
    case 1 => [0, 3, 2, 2, 1, 1, 2, 1, 3, 2, 2, 2, 1, 1, 2, 1]
    case 2 => [2, 3, 2, 2, 1, 1, 2, 1, 2, 2, 2, 2, 1, 1, 2, 1]
    case 3 => [2, 3, 2, 2, 3, 3, 3, 1, 2, 2, 2, 2, 1, 1, 2, 1]
    case 4 => [1, 1, 1, 1, 1, 1, 2, 1, 1, 1, 1, 1, 1, 1, 2, 1]
    case 5 => [1, 1, 1, 1, 1, 1, 2, 1, 1, 1, 1, 1, 1, 1, 2, 1]
    case 6 => [1, 1, 1, 1, 1, 1, 2, 1, 1, 1, 1, 1, 1, 1, 2, 1]
    case 7 => [2, 2, 2, 2, 2, 2, 0, 2, 1, 1, 1, 1, 1, 1, 2, 1]
    case 8 => [1, 1, 1, 1, 1, 1, 2, 1, 1, 1, 1, 1, 1, 1, 2, 1]
    case 9 => [1, 1, 1, 1, 1, 1, 2, 1, 1, 1, 1, 1, 1, 1, 2, 1]
    case 10 => [1, 1, 1, 1, 1, 1, 2, 1, 1, 1, 1, 1, 1, 1, 2, 1]
    case 11 => [1, 1, 1, 1, 1, 1, 2, 1, 1, 1, 1, 1, 1, 1, 2, 1]
    case 12 => [2, 3, 3, 4, 3, 4, 2, 4, 2, 4, 3, 0, 3, 6, 2, 4]
    case 13 => [2, 3, 3, 0, 3, 4, 2, 4, 2, 4, 3, 0, 3, 0, 2, 4]
    case 14 => [3, 3, 2, 0, 0, 4, 2, 4, 4, 1, 4, 0, 0, 0, 2, 4]
    case _ => [3, 3, 2, 1, 0, 4, 2, 4, 3, 2, 4, 1, 0, 0, 2, 4]
  }

  /** The documented cycles of each CB-page instruction. */
  function BitTable(arg: u8): nat {
    if arg % 8 != 6 then 2 else if 0x40 <= arg < 0x80 then 3 else 4
  }

  /** What a taken branch adds to its table entry. */
  function Penalty(i: Instruction, f: Flags): nat {
    match i
    case JP_cc_nn(cc) => Taken(cc, f, 1)
    case JR_cc_n(cc) => Taken(cc, f, 1)
    case CALL_cc_nn(cc) => Taken(cc, f, 3)
    case RET_cc(cc) => Taken(cc, f, 3)
    case _ => 0
  }

  predicate Illegal(op: u8) {
    op in {0xD3, 0xDB, 0xDD, 0xE3, 0xE4, 0xEB, 0xEC, 0xED, 0xF4, 0xFC, 0xFD}
  }

  /** The table entry, with the single cycle that HALT and STOP take. */
  function Documented(op: u8): nat {
    if op == 0x76 || op == 0x10 then 1 else TableRow(op / 16)[op % 16]
  }

  const NO_FLAGS := Flags(false, false, false, false)

  predicate Stops(i: Instruction) {
    i.TRAP? || i.DEBUG_TRAP? || i.BAD?
  }

  /** Decoding agrees with the table at one opcode. */
  predicate Agrees(op: u8) {
    var i := Decode(op);
    if Illegal(op) then Stops(i)
    else op == 0xCB || 1 + Cost(i, NO_FLAGS) == Documented(op) + Penalty(i, NO_FLAGS)
  }

  // The table and the decoder, row by row; the crowded rows are cut in two.

  lemma Entries0a()
    ensures Documented(0x00) == 1 && Documented(0x01) == 3 && Documented(0x02) == 2 && Documented(0x03) == 2
    ensures Documented(0x04) == 1 && Documented(0x05) == 1 && Documented(0x06) == 2 && Documented(0x07) == 1
  {
  }

  lemma Row0a(op: u8)
    requires 0x00 <= op <= 0x07
    ensures Agrees(op)
  {
    hide Documented;
    Entries0a();
  }

  lemma Entries0b()
    ensures Documented(0x08) == 5 && Documented(0x09) == 2 && Documented(0x0A) == 2 && Documented(0x0B) == 2
    ensures Documented(0x0C) == 1 && Documented(0x0D) == 1 && Documented(0x0E) == 2 && Documented(0x0F) == 1
  {
  }

  lemma Row0b(op: u8)
    requires 0x08 <= op <= 0x0F
    ensures Agrees(op)
  {
    hide Documented;
    Entries0b();
  }

  lemma Entries1a()
    ensures Documented(0x10) == 1 && Documented(0x11) == 3 && Documented(0x12) == 2 && Documented(0x13) == 2
    ensures Documented(0x14) == 1 && Documented(0x15) == 1 && Documented(0x16) == 2 && Documented(0x17) == 1
  {
  }

  lemma Row1a(op: u8)
    requires 0x10 <= op <= 0x17
    ensures Agrees(op)
  {
    hide Documented;
    Entries1a();
  }

  lemma Entries1b()
    ensures Documented(0x18) == 3 && Documented(0x19) == 2 && Documented(0x1A) == 2 && Documented(0x1B) == 2
    ensures Documented(0x1C) == 1 && Documented(0x1D) == 1 && Documented(0x1E) == 2 && Documented(0x1F) == 1
  {
  }

  lemma Row1b(op: u8)
    requires 0x18 <= op <= 0x1F
    ensures Agrees(op)
  {
    hide Documented;
    Entries1b();
  }

  lemma Entries2a()
    ensures Documented(0x20) == 2 && Documented(0x21) == 3 && Documented(0x22) == 2 && Documented(0x23) == 2
    ensures Documented(0x24) == 1 && Documented(0x25) == 1 && Documented(0x26) == 2 && Documented(0x27) == 1
  {
  }

  lemma Row2a(op: u8)
    requires 0x20 <= op <= 0x27
    ensures Agrees(op)
  {
    hide Documented;
    Entries2a();
  }

  lemma Entries2b()
    ensures Documented(0x28) == 2 && Documented(0x29) == 2 && Documented(0x2A) == 2 && Documented(0x2B) == 2
    ensures Documented(0x2C) == 1 && Documented(0x2D) == 1 && Documented(0x2E) == 2 && Documented(0x2F) == 1
  {
  }

  lemma Row2b(op: u8)
    requires 0x28 <= op <= 0x2F
    ensures Agrees(op)
  {
    hide Documented;
    Entries2b();
  }

  lemma Entries3a()
    ensures Documented(0x30) == 2 && Documented(0x31) == 3 && Documented(0x32) == 2 && Documented(0x33) == 2
    ensures Documented(0x34) == 3 && Documented(0x35) == 3 && Documented(0x36) == 3 && Documented(0x37) == 1
  {
  }

  lemma Row3a(op: u8)
    requires 0x30 <= op <= 0x37
    ensures Agrees(op)
  {
    hide Documented;
    Entries3a();
  }

  lemma Entries3b()
    ensures Documented(0x38) == 2 && Documented(0x39) == 2 && Documented(0x3A) == 2 && Documented(0x3B) == 2
    ensures Documented(0x3C) == 1 && Documented(0x3D) == 1 && Documented(0x3E) == 2 && Documented(0x3F) == 1
  {
  }

  lemma Row3b(op: u8)
    requires 0x38 <= op <= 0x3F
    ensures Agrees(op)
  {
    hide Documented;
    Entries3b();
  }

  lemma Row4(op: u8)
    requires 0x40 <= op <= 0x4F
    ensures Agrees(op)
  {
  }

  lemma Row5(op: u8)
    requires 0x50 <= op <= 0x5F
    ensures Agrees(op)
  {
  }

  lemma Row6(op: u8)
    requires 0x60 <= op <= 0x6F
    ensures Agrees(op)
  {
  }

  lemma Row7(op: u8)
    requires 0x70 <= op <= 0x7F
    ensures Agrees(op)
  {
  }

  lemma Row8(op: u8)
    requires 0x80 <= op <= 0x8F
    ensures Agrees(op)
  {
  }

  lemma Row9(op: u8)
    requires 0x90 <= op <= 0x9F
    ensures Agrees(op)
  {
  }

  lemma RowA(op: u8)
    requires 0xA0 <= op <= 0xAF
    ensures Agrees(op)
  {
  }

  lemma RowB(op: u8)
    requires 0xB0 <= op <= 0xBF
    ensures Agrees(op)
  {
  }

  lemma EntriesCa()
    ensures Documented(0xC0) == 2 && Documented(0xC1) == 3 && Documented(0xC2) == 3 && Documented(0xC3) == 4
    ensures Documented(0xC4) == 3 && Documented(0xC5) == 4 && Documented(0xC6) == 2 && Documented(0xC7) == 4
  {
  }

  lemma RowCa(op: u8)
    requires 0xC0 <= op <= 0xC7
    ensures Agrees(op)
  {
    hide Documented;
    EntriesCa();
  }

  lemma EntriesCb()
    ensures Documented(0xC8) == 2 && Documented(0xC9) == 4 && Documented(0xCA) == 3 && Documented(0xCB) == 0
    ensures Documented(0xCC) == 3 && Documented(0xCD) == 6 && Documented(0xCE) == 2 && Documented(0xCF) == 4
  {
  }

  lemma RowCb(op: u8)
    requires 0xC8 <= op <= 0xCF
    ensures Agrees(op)
  {
    hide Documented;
    EntriesCb();
  }

  lemma EntriesDa()
    ensures Documented(0xD0) == 2 && Documented(0xD1) == 3 && Documented(0xD2) == 3 && Documented(0xD3) == 0
    ensures Documented(0xD4) == 3 && Documented(0xD5) == 4 && Documented(0xD6) == 2 && Documented(0xD7) == 4
  {
  }

  lemma RowDa(op: u8)
    requires 0xD0 <= op <= 0xD7
    ensures Agrees(op)
  {
    hide Documented;
    EntriesDa();
  }

  lemma EntriesDb()
    ensures Documented(0xD8) == 2 && Documented(0xD9) == 4 && Documented(0xDA) == 3 && Documented(0xDB) == 0
    ensures Documented(0xDC) == 3 && Documented(0xDD) == 0 && Documented(0xDE) == 2 && Documented(0xDF) == 4
  {
  }

  lemma RowDb(op: u8)
    requires 0xD8 <= op <= 0xDF
    ensures Agrees(op)
  {
    hide Documented;
    EntriesDb();
  }

  lemma EntriesEa()
    ensures Documented(0xE0) == 3 && Documented(0xE1) == 3 && Documented(0xE2) == 2 && Documented(0xE3) == 0
    ensures Documented(0xE4) == 0 && Documented(0xE5) == 4 && Documented(0xE6) == 2 && Documented(0xE7) == 4
  {
  }

  lemma RowEa(op: u8)
    requires 0xE0 <= op <= 0xE7
    ensures Agrees(op)
  {
    hide Documented;
    EntriesEa();
  }

  lemma EntriesEb()
    ensures Documented(0xE8) == 4 && Documented(0xE9) == 1 && Documented(0xEA) == 4 && Documented(0xEB) == 0
    ensures Documented(0xEC) == 0 && Documented(0xED) == 0 && Documented(0xEE) == 2 && Documented(0xEF) == 4
  {
  }

  lemma RowEb(op: u8)
    requires 0xE8 <= op <= 0xEF
    ensures Agrees(op)
  {
    hide Documented;
    EntriesEb();
  }

  lemma EntriesFa()
    ensures Documented(0xF0) == 3 && Documented(0xF1) == 3 && Documented(0xF2) == 2 && Documented(0xF3) == 1
    ensures Documented(0xF4) == 0 && Documented(0xF5) == 4 && Documented(0xF6) == 2 && Documented(0xF7) == 4
  {
  }

  lemma RowFa(op: u8)
    requires 0xF0 <= op <= 0xF7
    ensures Agrees(op)
  {
    hide Documented;
    EntriesFa();
  }

  lemma EntriesFb()
    ensures Documented(0xF8) == 3 && Documented(0xF9) == 2 && Documented(0xFA) == 4 && Documented(0xFB) == 1
    ensures Documented(0xFC) == 0 && Documented(0xFD) == 0 && Documented(0xFE) == 2 && Documented(0xFF) == 4
  {
  }

  lemma RowFb(op: u8)
    requires 0xF8 <= op <= 0xFF
    ensures Agrees(op)
  {
    hide Documented;
    EntriesFb();
  }

  /** The decoder charges every opcode what the document lists for it. */
  lemma TableAgrees(op: u8)
    ensures Agrees(op)
  {
    hide Agrees;
    if op <= 0x07 {
      Row0a(op);
    } else if op <= 0x0F {
      Row0b(op);
    } else if op <= 0x17 {
      Row1a(op);
    } else if op <= 0x1F {
      Row1b(op);
    } else if op <= 0x27 {
      Row2a(op);
    } else if op <= 0x2F {
      Row2b(op);
    } else if op <= 0x37 {
      Row3a(op);
    } else if op <= 0x3F {
      Row3b(op);
    } else if op <= 0x4F {
      Row4(op);
    } else if op <= 0x5F {
      Row5(op);
    } else if op <= 0x6F {
      Row6(op);
    } else if op <= 0x7F {
      Row7(op);
    } else if op <= 0x8F {
      Row8(op);
    } else if op <= 0x9F {
      Row9(op);
    } else if op <= 0xAF {
      RowA(op);
    } else if op <= 0xBF {
      RowB(op);
    } else if op <= 0xC7 {
      RowCa(op);
    } else if op <= 0xCF {
      RowCb(op);
    } else if op <= 0xD7 {
      RowDa(op);
    } else if op <= 0xDF {
      RowDb(op);
    } else if op <= 0xE7 {
      RowEa(op);
    } else if op <= 0xEF {
      RowEb(op);
    } else if op <= 0xF7 {
      RowFa(op);
    } else {
      RowFb(op);
    }
  }

  lemma BitTableAgrees(arg: u8)
    ensures BitCost(DecodeBit(arg)) + 2 == BitTable(arg)
  {
  }

  lemma FlagsOnlyMatterToBranches(i: Instruction, f: Flags)
    ensures Cost(i, f) - Penalty(i, f) == Cost(i, NO_FLAGS) - Penalty(i, NO_FLAGS)
  {
  }

  /** Which bytes an instruction consists of, as far as its timing depends on them. */
  datatype Fetched = Plain(op: u8) | Prefixed(arg: u8)

  /** The documented cycles of what was fetched, with the penalty for a taken branch. */
  function DocumentedCycles(fetched: Fetched, f: Flags): nat {
    match fetched
    case Plain(op) => Documented(op) + Penalty(Decode(op), f)
    case Prefixed(arg) => BitTable(arg)
  }

  /** The instruction at the program counter. */
  function FetchedAt(s: Machine): Fetched
    requires Fetch8(s).Ok?
  {
    var (op, t) := Fetch8(s).value;
    if op == 0xCB && Fetch8(t).Ok? then Prefixed(Fetch8(t).value.0) else Plain(op)
  }

  lemma IllegalStops(s: Machine, i: Instruction)
    requires Stops(i)
    ensures Execute(s, i).Err?
  {
  }

  lemma OnlyOnePrefix(op: u8)
    ensures Decode(op).PREFIX? <==> op == 0xCB
  {
  }

  predicate Takes(s: Machine, t: Machine, k: nat) {
    t.bus.io.cycle == s.bus.io.cycle + k
  }

  lemma TransfersTake(s: Machine, nn: u16)
    ensures CallTo(s, nn).Ok? ==> Takes(s, CallTo(s, nn).value, 3)
    ensures Return(s).Ok? ==> Takes(s, Return(s).value, 3)
  {
    hide CallTo, Return, BusEvolves, Last, DropLast;
    CallToCalls(s, nn);
    if Return(s).Ok? {
      ReturnSteps(s);
    }
  }

  lemma CallTakes(s: Machine, cc: Option<Condition>)
    requires Call(s, cc).Ok?
    ensures Takes(s, Call(s, cc).value, if Branches(cc, s.regs.f) then 5 else 2)
  {
    hide CallTo, Fetch16, BusEvolves;
    Compound();
    TransfersTake(Fetch16(s).value.1, Fetch16(s).value.0);
  }

  lemma ReturnIfTakes(s: Machine, cc: Condition)
    requires ReturnIf(s, cc).Ok?
    ensures Takes(s, ReturnIf(s, cc).value, 1 + Taken(cc, s.regs.f, 3))
  {
    hide Return;
    TransfersTake(Spend(s, 1), 0);
  }

  lemma ReturnFromInterruptTakes(s: Machine)
    requires ReturnFromInterrupt(s).Ok?
    ensures Takes(s, ReturnFromInterrupt(s).value, 3)
  {
    hide Return, ReturnFromInterrupt;
    ReturnFromInterruptIs(s);
    TransfersTake(WithIme(s, Ime(true, true, true)), 0);
  }

  lemma ControlTakes(s: Machine, i: Instruction)
    requires IsControl(i) && Execute(s, i).Ok?
    ensures Takes(s, Execute(s, i).value, Cost(i, s.regs.f))
  {
    hide CallTo, Call, Return, ReturnIf, ReturnFromInterrupt, ExecutePlain;
    match i
    case CALL_nn => CallTakes(s, None);
    case CALL_cc_nn(cc) => CallTakes(s, Some(cc));
    case RST_n(n) => TransfersTake(s, n);
    case RET => TransfersTake(s, 0);
    case RET_cc(cc) => ReturnIfTakes(s, cc);
    case RETI => ReturnFromInterruptTakes(s);
    case DI =>
    case EI =>
  }

  lemma ExecuteTakes(s: Machine, i: Instruction)
    requires Execute(s, i).Ok?
    ensures Takes(s, Execute(s, i).value, CostHere(s, i))
  {
    hide Execute, CostHere, BusEvolves;
    if IsControl(i) {
      ControlTakes(s, i);
      ControlCost(s, i);
    } else {
      PlainQuiet(s, i);
    }
  }

  /** Every instruction that does not stop takes exactly its documented cycles, in every state. */
  lemma InstructionTiming(s: Machine)
    requires ProcessNextInstruction(s).Ok?
    ensures Fetch8(s).Ok?
    ensures Takes(s, ProcessNextInstruction(s).value, DocumentedCycles(FetchedAt(s), s.regs.f))
  {
    hide Fetch8, Decode, Execute, ExecutePrefixed, Agrees, Documented, Cost, Penalty, BitCost, DecodeBit, BitTable, BusEvolves;
    Compound();
    var (op, t) := Fetch8(s).value;
    ExecuteTakes(t, Decode(op));
    TableAgrees(op);
    OnlyOnePrefix(op);
    if Illegal(op) {
      AgreesIllegal(op);
      IllegalStops(t, Decode(op));
    } else if op == 0xCB {
      PrefixFetches(t);
      BitTableAgrees(Fetch8(t).value.0);
    } else {
      AgreesHere(op);
      FlagsOnlyMatterToBranches(Decode(op), s.regs.f);
    }
  }

  lemma AgreesHere(op: u8)
    requires Agrees(op) && !Illegal(op) && op != 0xCB
    ensures 1 + Cost(Decode(op), NO_FLAGS) == Documented(op) + Penalty(Decode(op), NO_FLAGS)
  {
    hide Decode, Cost, Penalty, Documented;
  }

  lemma AgreesIllegal(op: u8)
    requires Agrees(op) && Illegal(op)
    ensures Stops(Decode(op))
  {
    hide Decode, Cost, Penalty, Documented;
  }

  lemma PrefixFetches(s: Machine)
    requires Execute(s, PREFIX).Ok?
    ensures Fetch8(s).Ok?
  {
    hide Fetch8;
  }
}
