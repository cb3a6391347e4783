/** What the bit-level operations of the arithmetic unit mean, and which of them undo each other. */
module AluLaws {
  import opened Outcomes
  import opened Bits
  import opened CheckedInt
  import opened Registers
  import opened Alu
  import opened Arithmetic

  // ----- masks and disjoint bits -----

  lemma {:induction false} BitOrCommutes(a: nat, b: nat)
    ensures BitOr(a, b) == BitOr(b, a)
    decreases a + b
  {
    if !(a == 0 && b == 0) {
      BitOrCommutes(a / 2, b / 2);
    }
  }

  lemma TopOr(bit: nat, low: nat)
    requires bit <= 1 && low < 0x80
    ensures BitOr(0x80 * bit, low) == 0x80 * bit + low == BitOr(low, 0x80 * bit)
  {
    hide BitOr;
    BitOrZero(bit);
    BitOrDoubled(bit, low / 0x40);
    BitOrDoubled(2 * bit, low / 0x20);
    BitOrDoubled(4 * bit, low / 0x10);
    BitOrDoubled(8 * bit, low / 8);
    BitOrDoubled(0x10 * bit, low / 4);
    BitOrDoubled(0x20 * bit, low / 2);
    BitOrDoubled(0x40 * bit, low);
    BitOrCommutes(low, 0x80 * bit);
  }

  lemma LowOr(high: nat, bit: nat)
    requires bit <= 1
    ensures BitOr(2 * high, bit) == 2 * high + bit
  {
    hide BitOr;
    BitOrZero(high);
    BitOrDoubled(high, bit);
  }

  lemma NibbleOr(high: nat, low: nat)
    requires low < 0x10
    ensures BitOr(0x10 * high, low) == 0x10 * high + low
  {
    hide BitOr;
    BitOrZero(high);
    BitOrDoubled(high, low / 8);
    BitOrDoubled(2 * high, low / 4);
    BitOrDoubled(4 * high, low / 2);
    BitOrDoubled(8 * high, low);
  }

  lemma AndDoubled(a: nat, mask: nat)
    ensures BitAnd(a, 2 * mask) == 2 * BitAnd(a / 2, mask)
  {
    if a != 0 && mask != 0 {
      assert 2 * mask / 2 == mask && 2 * mask % 2 == 0;
    }
  }

  lemma AndOne(a: nat)
    ensures BitAnd(a, 1) == a % 2
  {
    assert BitAnd(a / 2, 0) == 0;
  }

  lemma TopMask(v: u8)
    ensures BitAnd(v, 0x80) == 0x80 * (v / 0x80)
  {
    hide BitAnd;
    AndDoubled(v, 0x40);
    AndDoubled(v / 2, 0x20);
    AndDoubled(v / 4, 0x10);
    TopOfFive(v / 8);
  }

  lemma TopOfFive(x: nat)
    requires x < 0x20
    ensures BitAnd(x, 0x10) == 0x10 * (x / 0x10)
  {
    hide BitAnd;
    AndDoubled(x, 8);
    AndDoubled(x / 2, 4);
    AndDoubled(x / 4, 2);
    AndDoubled(x / 8, 1);
    AndOne(x / 0x10);
  }

  lemma HighNibble(v: u8)
    ensures BitAnd(v, 0xF0) == 0x10 * (v / 0x10)
  {
    hide BitAnd;
    AndDoubled(v, 0x78);
    AndDoubled(v / 2, 0x3C);
    AndDoubled(v / 2 / 2, 0x1E);
    AndDoubled(v / 2 / 2 / 2, 0x0F);
    LowNibble(v / 2 / 2 / 2 / 2);
    FourHalves(v);
  }

  lemma FourHalves(x: nat)
    ensures x / 2 / 2 / 2 / 2 == x / 0x10
  {
  }

  lemma SmallShifts(v: u8)
    ensures Shl8(v, 1) == 2 * v % 0x100 && Shr8(v, 1) == v / 2
    ensures Shl8(v % 2, 7) == 0x80 * (v % 2) && Shr8(v, 7) == v / 0x80
    ensures Shl8(v % 0x10, 4) == 0x10 * (v % 0x10) && Shr8(0x10 * (v / 0x10), 4) == v / 0x10
  {
    hide Shl, Shr;
    ShiftOne(v);
    Shl7(v % 2);
    Shr7(v);
    Shl4(v % 0x10);
    Shr4(0x10 * (v / 0x10));
  }

  lemma ShiftOne(a: nat)
    ensures Shl(a, 1) == 2 * a && Shr(a, 1) == a / 2
  {
    assert Shl(a, 1) == Shl(2 * a, 0) == 2 * a;
    assert Shr(a, 1) == Shr(a / 2, 0) == a / 2;
  }

  lemma Shl4(a: nat)
    ensures Shl(a, 4) == 0x10 * a
  {
    assert Shl(a, 4) == Shl(2 * a, 3) == Shl(4 * a, 2) == Shl(8 * a, 1) == Shl(0x10 * a, 0);
  }

  lemma Shl7(a: nat)
    ensures Shl(a, 7) == 0x80 * a
  {
    assert Shl(a, 7) == Shl(2 * a, 6) == Shl(4 * a, 5) == Shl(8 * a, 4);
    Shl4(8 * a);
  }

  lemma Shr4(a: nat)
    ensures Shr(a, 4) == a / 0x10
  {
    assert Shr(a, 4) == Shr(a / 2, 3) == Shr(a / 2 / 2, 2) == Shr(a / 2 / 2 / 2, 1) == Shr(a / 2 / 2 / 2 / 2, 0);
  }

  lemma Shr7(a: nat)
    ensures Shr(a, 7) == a / 0x80
  {
    Shr4(a / 8);
    assert Shr(a, 7) == Shr(a / 2, 6) == Shr(a / 2 / 2, 5) == Shr(a / 2 / 2 / 2, 4);
  }

  // ----- rotates and shifts in numbers -----

  /** The byte that each rotate or shift makes, as a number. */
  function Moved(op: ShiftOp, v: u8, carry: bool): u8 {
    match op
    case RLC => 2 * v % 0x100 + v / 0x80
    case RL => 2 * v % 0x100 + Carry(carry)
    case RRC => v / 2 + 0x80 * (v % 2)
    case RR => v / 2 + 0x80 * Carry(carry)
    case SLA => 2 * v % 0x100
    case SRA => v / 2 + 0x80 * (v / 0x80)
    case SRL => v / 2
    case SWAP => 0x10 * (v % 0x10) + v / 0x10
  }

  /** The bit that falls out. */
  predicate FallsOut(op: ShiftOp, v: u8) {
    match op
    case RLC => v >= 0x80
    case RL => v >= 0x80
    case SLA => v >= 0x80
    case SWAP => false
    case RRC => v % 2 == 1
    case RR => v % 2 == 1
    case SRA => v % 2 == 1
    case SRL => v % 2 == 1
  }

  lemma RotatesLeft(v: u8, f: Flags)
    ensures RotateLeftCircular(Known(v), f) == Ok(Result(Known(Moved(RLC, v, f.c)), Flags(f.z, false, false, v >= 0x80)))
    ensures RotateLeft(Known(v), f) == Ok(Result(Known(Moved(RL, v, f.c)), Flags(f.z, false, false, v >= 0x80)))
  {
    hide BitAnd, BitOr, Shl, Shr;
    SmallShifts(v);
    TopMask(v);
    LowOr(v % 0x80, v / 0x80);
    LowOr(v % 0x80, Carry(f.c));
    Halved(v);
  }

  lemma Halved(v: u8)
    ensures 2 * v % 0x100 == 2 * (v % 0x80)
  {
  }

  lemma RotatesRight(v: u8, f: Flags)
    ensures RotateRightCircular(Known(v), f) == Ok(Result(Known(Moved(RRC, v, f.c)), Flags(f.z, false, false, v % 2 == 1)))
    ensures RotateRight(Known(v), f) == Ok(Result(Known(Moved(RR, v, f.c)), Flags(f.z, false, false, v % 2 == 1)))
  {
    hide BitAnd, BitOr, Shl, Shr;
    SmallShifts(v);
    SmallShifts(Carry(f.c));
    AndOne(v);
    TopOr(v % 2, v / 2);
    TopOr(Carry(f.c), v / 2);
  }

  lemma ShiftsMove(v: u8)
    ensures ShiftLeftArithmetic(Known(v)) == Ok(Result(Known(Moved(SLA, v, false)), Flags(Moved(SLA, v, false) == 0, false, false, v >= 0x80)))
    ensures ShiftRightLogical(Known(v)) == Ok(Result(Known(Moved(SRL, v, false)), Flags(Moved(SRL, v, false) == 0, false, false, v % 2 == 1)))
    ensures ShiftRightArithmetic(Known(v)) == Ok(Result(Known(Moved(SRA, v, false)), Flags(Moved(SRA, v, false) == 0, false, false, v % 2 == 1)))
  {
    hide BitAnd, BitOr, Shl, Shr;
    SmallShifts(v);
    AndOne(v);
    TopMask(v);
    TopOr(v / 0x80, v / 2);
    Halved(v);
    assert Exp2(7) - 1 == 0x7F;
    AndLowMask(v, 7);
  }

  lemma SwapMoves(v: u8)
    ensures SwapNibbles(Known(v)) == Ok(Result(Known(Moved(SWAP, v, false)), Flags(v == 0, false, false, false)))
  {
    hide BitAnd, BitOr, Shl, Shr;
    SmallShifts(v);
    LowNibble(v);
    HighNibble(v);
    NibbleOr(v % 0x10, v / 0x10);
  }

  /** Every CB-page rotate and shift computes its number; Z says whether it is 0 and C is the bit that fell out. */
  lemma ShiftMeans(op: ShiftOp, v: u8, f: Flags)
    ensures Shift(op, Known(v), f) ==
      Ok(Result(Known(Moved(op, v, f.c)), Flags(Moved(op, v, f.c) == 0, false, false, FallsOut(op, v))))
  {
    hide RotateLeftCircular, RotateLeft, RotateRightCircular, RotateRight, ShiftLeftArithmetic, ShiftRightArithmetic,
      ShiftRightLogical, SwapNibbles;
    RotatesLeft(v, f);
    RotatesRight(v, f);
    ShiftsMove(v);
    SwapMoves(v);
  }

  /** Two shifts in a row, the second with the flags of the first. */
  function Twice(first: ShiftOp, second: ShiftOp, v: u8, f: Flags): Outcome<Result> {
    var r :- Shift(first, Known(v), f);
    Shift(second, r.value, r.f)
  }

  /** A right rotate undoes a left one, through the carry it even restores the carry; SWAP undoes itself;
      and SRA halves the signed value, rounding down. */
  lemma ShiftsUndo(v: u8, f: Flags)
    ensures var r := Twice(RLC, RRC, v, f); r.Ok? && r.value.value == Known(v) && r.value.f.c == (v >= 0x80)
    ensures var r := Twice(RRC, RLC, v, f); r.Ok? && r.value.value == Known(v) && r.value.f.c == (v % 2 == 1)
    ensures var r := Twice(RL, RR, v, f); r.Ok? && r.value.value == Known(v) && r.value.f.c == f.c
    ensures var r := Twice(RR, RL, v, f); r.Ok? && r.value.value == Known(v) && r.value.f.c == f.c
    ensures var r := Twice(SWAP, SWAP, v, f); r.Ok? && r.value.value == Known(v)
    ensures var r := Shift(SRA, Known(v), f); r.Ok? && Signed8(r.value.value.data) == Signed8(v) / 2
  {
    hide Shift, Moved;
    MovedBackLeft(v, f.c);
    MovedBackRight(v, f.c);
    SwappedBack(v, f.c);
    SignedHalf(v, f.c);
    ShiftMeans(RLC, v, f);
    ShiftMeans(RRC, v, f);
    ShiftMeans(RL, v, f);
    ShiftMeans(RR, v, f);
    ShiftMeans(SWAP, v, f);
    ShiftMeans(SRA, v, f);
    ShiftMeans(RRC, Moved(RLC, v, f.c), Shift(RLC, Known(v), f).value.f);
    ShiftMeans(RLC, Moved(RRC, v, f.c), Shift(RRC, Known(v), f).value.f);
    ShiftMeans(RR, Moved(RL, v, f.c), Shift(RL, Known(v), f).value.f);
    ShiftMeans(RL, Moved(RR, v, f.c), Shift(RR, Known(v), f).value.f);
    ShiftMeans(SWAP, Moved(SWAP, v, f.c), Shift(SWAP, Known(v), f).value.f);
  }

  lemma LeftParts(w: nat, t: nat)
    requires w < 0x80 && t <= 1
    ensures (2 * w + t) / 2 == w && (2 * w + t) % 2 == t
  {
  }

  lemma RightParts(h: nat, b: nat)
    requires h < 0x80 && b <= 1
    ensures 2 * (h + 0x80 * b) % 0x100 == 2 * h && (h + 0x80 * b) / 0x80 == b
  {
  }

  lemma MovedBackRight(v: u8, c: bool)
    ensures Moved(RRC, Moved(RLC, v, c), v >= 0x80) == v && (Moved(RLC, v, c) % 2 == 1 <==> v >= 0x80)
    ensures Moved(RR, Moved(RL, v, c), v >= 0x80) == v && (Moved(RL, v, c) % 2 == 1 <==> c)
  {
    Halved(v);
    LeftParts(v % 0x80, v / 0x80);
    LeftParts(v % 0x80, Carry(c));
  }

  lemma MovedBackLeft(v: u8, c: bool)
    ensures Moved(RLC, Moved(RRC, v, c), v % 2 == 1) == v && (Moved(RRC, v, c) >= 0x80 <==> v % 2 == 1)
    ensures Moved(RL, Moved(RR, v, c), v % 2 == 1) == v && (Moved(RR, v, c) >= 0x80 <==> c)
  {
    RightParts(v / 2, v % 2);
    RightParts(v / 2, Carry(c));
  }

  lemma SwappedBack(v: u8, c: bool)
    ensures Moved(SWAP, Moved(SWAP, v, c), false) == v
  {
    var w: int := Moved(SWAP, v, c);
    Nibbles(w, v % 0x10, v / 0x10);
  }

  lemma SignedHalf(v: u8, c: bool)
    ensures Signed8(Moved(SRA, v, c)) == Signed8(v) / 2
  {
    if v < 0x80 {
      assert v / 0x80 == 0;
    } else {
      assert v / 0x80 == 1;
      assert (v - 0x100) / 2 == v / 2 - 0x80;
    }
  }

  // ----- single bits -----

  lemma {:induction false} Complement(x: nat, n: nat, i: nat)
    requires x < Exp2(n)
    ensures Bit(Exp2(n) - 1 - x, i) == (i < n && !Bit(x, i))
    decreases n
  {
    if n == 0 {
      BitOfZero(i);
    } else if i > 0 {
      HalfComplement(x, Exp2(n - 1));
      Complement(x / 2, n - 1, i - 1);
    } else {
      HalfComplement(x, Exp2(n - 1));
    }
  }

  lemma HalfComplement(x: nat, e: nat)
    requires x < 2 * e
    ensures (2 * e - 1 - x) / 2 == e - 1 - x / 2 && (2 * e - 1 - x) % 2 == 1 - x % 2
  {
  }

  lemma {:induction false} ShlIsExp2(a: nat, n: nat)
    ensures Shl(a, n) == a * Exp2(n)
    decreases n
  {
    if n > 0 {
      ShlIsExp2(2 * a, n - 1);
      assert 2 * a * Exp2(n - 1) == a * (2 * Exp2(n - 1));
    }
  }

  lemma ByteMask(b: nat)
    requires b < 8
    ensures Shl8(1, b) == Exp2(b) < 0x100
  {
    ShlIsExp2(1, b);
    Exp2Grows(b, 7);
    assert Exp2(7) == 0x80;
  }

  lemma {:induction false} Exp2Grows(m: nat, n: nat)
    requires m <= n
    ensures Exp2(m) <= Exp2(n)
    decreases n
  {
    if m < n {
      Exp2Grows(m, n - 1);
    }
  }

  /** The bits left after masking out bit b are none exactly when bit b is clear. */
  lemma {:induction false} MaskedIsZero(v: nat, b: nat)
    ensures BitAnd(v, Exp2(b)) == 0 <==> !Bit(v, b)
    decreases b
  {
    if b == 0 {
      AndOne(v);
    } else {
      AndDoubled(v, Exp2(b - 1));
      MaskedIsZero(v / 2, b - 1);
    }
  }

  /** BIT reports the bit, SET and RES put it and leave every other bit alone. */
  lemma BitInstructions(v: u8, b: nat, i: nat, f: Flags)
    requires b < 8 && i < 8
    ensures TestBit(Known(v), b, f) == Ok(Flags(!Bit(v, b), false, true, f.c))
    ensures var r := SetBit(Known(v), b); r.Ok? && !r.value.undefined && (Bit(r.value.data, i) <==> i == b || Bit(v, i))
    ensures var r := ResetBit(Known(v), b); r.Ok? && !r.value.undefined && (Bit(r.value.data, i) <==> i != b && Bit(v, i))
  {
    hide BitAnd, BitOr, Shl, Exp2, Bit;
    ByteMask(b);
    MaskedIsZero(v, b);
    BitOfExp2(b, i);
    BitOfOr(v, Exp2(b), i);
    assert Exp2(8) == 0x100 by { EightBits(); }
    Complement(Exp2(b), 8, i);
    BitOfAnd(v, 0xFF - Exp2(b), i);
  }

  lemma EightBits()
    ensures Exp2(8) == 0x100
  {
  }

  /** AND, OR, XOR and CPL work bit by bit. */
  lemma LogicIsBitwise(a: u8, n: u8, c: bool, i: nat)
    requires i < 8
    ensures var r := Operate(AND, Known(a), Known(n), c); r.Ok? && (Bit(r.value.value.data, i) <==> Bit(a, i) && Bit(n, i))
    ensures var r := Operate(OR, Known(a), Known(n), c); r.Ok? && (Bit(r.value.value.data, i) <==> Bit(a, i) || Bit(n, i))
    ensures var r := Operate(XOR, Known(a), Known(n), c); r.Ok? && (Bit(r.value.value.data, i) <==> Bit(a, i) != Bit(n, i))
    ensures var r := Not(Known(a)); r.Ok? && (Bit(r.value.data, i) <==> !Bit(a, i))
  {
    hide BitAnd, BitOr, BitXor, Bit, Exp2;
    BitOfAnd(a, n, i);
    BitOfOr(a, n, i);
    BitOfXor(a, n, i);
    EightBits();
    Complement(a, 8, i);
  }

  // ----- counting and comparing -----

  /** DEC undoes INC; both set H when the low nibble wraps and leave the carry alone. */
  lemma IncrementUndone(v: u8, f: Flags)
    ensures var up := Increment(Known(v), f);
      && up.Ok? && up.value.value == Known(Wrap8(v + 1)) && up.value.f == Flags(v == 0xFF, false, v % 16 == 15, f.c)
      && var down := Decrement(up.value.value, up.value.f);
      && down.Ok? && down.value.value == Known(v) && down.value.f == Flags(v == 0, true, v % 16 == 15, f.c)
  {
    hide BitAnd;
    LowNibble(Wrap8(v + 1));
    LowNibble(v);
  }

  /** CP leaves the flags of SUB and keeps the accumulator. */
  lemma CompareSubtracts(a: u8, n: u8, c: bool)
    ensures var cp, sub := Operate(CP, Known(a), Known(n), c), Operate(SUB, Known(a), Known(n), c);
      cp.Ok? && sub.Ok? && cp.value.f == sub.value.f && cp.value.value == Known(a)
  {
    hide BitAnd, SubN, Wrap8;
    LowNibble(a);
    LowNibble(n);
    SbcSubtracts(a, n, false);
    assert Operate(SUB, Known(a), Known(n), c) == Operate(SBC, Known(a), Known(n), false);
    ZeroDifference(a, n);
  }

  lemma ZeroDifference(a: u8, n: u8)
    ensures Wrap8(a - n) == 0 <==> a == n
  {
  }

  // ----- 16 bits -----

  lemma LowTwelve(x: u16)
    ensures BitAnd(x, 0x0FFF) == x % 0x1000
  {
    assert Exp2(12) - 1 == 0x0FFF by { TwelveBits(); }
    AndLowMask(x, 12);
  }

  lemma TwelveBits()
    ensures Exp2(12) == 0x1000
  {
    assert Exp2(8) == 0x100;
  }

  lemma WrapRoom(x: u16, y: u16)
    ensures Wrap16(0xFFFF - x) < y <==> x + y >= 0x10000
    ensures Wrap16(0x0FFF - x % 0x1000) < y % 0x1000 <==> x % 0x1000 + y % 0x1000 >= 0x1000
  {
  }

  /** ADD HL adds modulo 2^16; H and C are the carries out of bits 11 and 15, Z stays. */
  lemma AddWordsAdds(x: Word, y: Word, f: Flags)
    requires !x.Undefined() && !y.Undefined()
    ensures AddWords(x, y, f) ==
      Ok(WordResult(KnownWord(Wrap16(x.Data() + y.Data())),
                    Flags(f.z, false, x.Data() % 0x1000 + y.Data() % 0x1000 >= 0x1000, x.Data() + y.Data() >= 0x10000)))
  {
    hide BitAnd, Wrap16;
    LowTwelve(x.Data());
    LowTwelve(y.Data());
    WrapRoom(x.Data(), y.Data());
  }

  /** Adding a signed offset to SP: the flags are those of the unsigned addition of the low bytes. */
  lemma AddSignedAdds(sp: u16, n: u8)
    ensures AddSigned(KnownWord(sp), Known(n)) ==
      Ok(WordResult(KnownWord(Wrap16(sp + Signed8(n))), Flags(false, false, sp % 16 + n % 16 >= 16, sp % 0x100 + n >= 0x100)))
  {
    hide BitAnd, Wrap16;
    LowNibble(n);
    LowNibble(sp % 0x100);
    LowByteNibble(sp);
    EightBits();
    AndLowMask(n, 8);
    CarryTests(sp % 0x100, n, 0);
  }

  lemma LowByteNibble(sp: u16)
    ensures sp % 0x100 % 16 == sp % 16
  {
  }
}
