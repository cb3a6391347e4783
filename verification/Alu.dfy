/** The arithmetic unit: each operation maps operands to a result and the flags it leaves. */
module Alu {
  import opened Outcomes
  import opened Bits
  import opened CheckedInt
  import opened Registers

  datatype Result = Result(value: Byte, f: Flags)

  datatype AluOp = ADD | ADC | SUB | SBC | AND | OR | XOR | CP
  datatype ShiftOp = RLC | RRC | RL | RR | SLA | SRA | SWAP | SRL

  function CarryByte(carry: bool): Byte {
    if carry then Known(1) else Known(0)
  }

  function AddN(a: Byte, n: Byte, carry: bool): Outcome<Result> {
    var full :- if carry then Equal(n, Known(0xFF)) else Ok(false);
    var sum :- Add(n, CarryByte(carry));
    var room :- Sub(Known(0xFF), a);
    var over :- Less(room, sum);
    var lowN :- And(n, Known(0x0F));
    var lowSum :- Add(lowN, CarryByte(carry));
    var lowA :- And(a, Known(0x0F));
    var lowRoom :- Sub(Known(0x0F), lowA);
    var half :- Less(lowRoom, lowSum);
    var partial :- Add(a, n);
    var r :- Add(partial, CarryByte(carry));
    var zero :- Equal(r, Known(0));
    Ok(Result(r, Flags(zero, false, half, over || full)))
  }

  function SubN(a: Byte, n: Byte, carry: bool): Outcome<Result> {
    var adjusted :- Add(n, CarryByte(carry));
    var full :- if carry then Equal(n, Known(0xFF)) else Ok(false);
    var under :- Less(a, adjusted);
    var lowA :- And(a, Known(0x0F));
    var lowN :- And(n, Known(0x0F));
    var lowAdjusted :- Add(lowN, CarryByte(carry));
    var half :- Less(lowA, lowAdjusted);
    var r :- Sub(a, adjusted);
    var zero :- Equal(r, Known(0));
    Ok(Result(r, Flags(zero, true, half, under || full)))
  }

  function AndN(a: Byte, n: Byte): Outcome<Result> {
    var r :- And(a, n);
    var zero :- Equal(r, Known(0));
    Ok(Result(r, Flags(zero, false, true, false)))
  }

  function OrN(a: Byte, n: Byte): Outcome<Result> {
    var r :- Or(a, n);
    var zero :- Equal(r, Known(0));
    Ok(Result(r, Flags(zero, false, false, false)))
  }

  function XorN(a: Byte, n: Byte): Outcome<Result> {
    var r :- Xor(a, n);
    var zero :- Equal(r, Known(0));
    Ok(Result(r, Flags(zero, false, false, false)))
  }

  function CpN(a: Byte, n: Byte): Outcome<Result> {
    var zero :- Equal(a, n);
    var lowA :- And(a, Known(0x0F));
    var lowN :- And(n, Known(0x0F));
    var half :- Less(lowA, lowN);
    var under :- Less(a, n);
    Ok(Result(a, Flags(zero, true, half, under)))
  }

  function Operate(op: AluOp, a: Byte, n: Byte, carry: bool): Outcome<Result> {
    match op
    case ADD => AddN(a, n, false)
    case ADC => AddN(a, n, carry)
    case SUB => SubN(a, n, false)
    case SBC => SubN(a, n, carry)
    case AND => AndN(a, n)
    case OR => OrN(a, n)
    case XOR => XorN(a, n)
    case CP => CpN(a, n)
  }

  function Increment(v: Byte, f: Flags): Outcome<Result> {
    var r :- Add(v, Known(1));
    var zero :- Equal(r, Known(0));
    var low :- And(r, Known(0x0F));
    var half :- Equal(low, Known(0));
    Ok(Result(r, Flags(zero, false, half, f.c)))
  }

  function Decrement(v: Byte, f: Flags): Outcome<Result> {
    var r :- Sub(v, Known(1));
    var zero :- Equal(r, Known(0));
    var low :- And(r, Known(0x0F));
    var half :- Equal(low, Known(0x0F));
    Ok(Result(r, Flags(zero, true, half, f.c)))
  }

  function Adjustment(upper: bool, lower: bool): Byte {
    Known((if upper then 0x60 else 0) + (if lower then 0x06 else 0))
  }

  function DecimalAdjust(a: Byte, f: Flags): Outcome<Result> {
    if !f.n then
      var high :- Less(Known(0x99), a);
      var low :- And(a, Known(0x0F));
      var highLow :- Less(Known(0x09), low);
      var r :- Add(a, Adjustment(high || f.c, highLow || f.h));
      var zero :- Equal(r, Known(0));
      Ok(Result(r, Flags(zero, f.n, false, high || f.c)))
    else
      var r :- Sub(a, Adjustment(f.c, f.h));
      var zero :- Equal(r, Known(0));
      Ok(Result(r, Flags(zero, f.n, false, f.c)))
  }

  // ----- rotates and shifts; these leave Z to the caller -----

  function TopBit(v: Byte): Outcome<bool> {
    var top :- And(v, Known(0x80));
    var zero :- Equal(top, Known(0));
    Ok(!zero)
  }

  function LowBit(v: Byte): Outcome<bool> {
    var low :- And(v, Known(1));
    var zero :- Equal(low, Known(0));
    Ok(!zero)
  }

  function RotateLeftCircular(v: Byte, f: Flags): Outcome<Result> {
    var left :- ShiftLeft(v, 1);
    var right :- ShiftRight(v, 7);
    var r :- Or(left, right);
    var out :- TopBit(v);
    Ok(Result(r, Flags(f.z, false, false, out)))
  }

  function RotateLeft(v: Byte, f: Flags): Outcome<Result> {
    var left :- ShiftLeft(v, 1);
    var r :- Or(left, CarryByte(f.c));
    var out :- TopBit(v);
    Ok(Result(r, Flags(f.z, false, false, out)))
  }

  function RotateRightCircular(v: Byte, f: Flags): Outcome<Result> {
    var low :- And(v, Known(1));
    var left :- ShiftLeft(low, 7);
    var right :- ShiftRight(v, 1);
    var r :- Or(left, right);
    var out :- LowBit(v);
    Ok(Result(r, Flags(f.z, false, false, out)))
  }

  function RotateRight(v: Byte, f: Flags): Outcome<Result> {
    var left :- ShiftLeft(CarryByte(f.c), 7);
    var right :- ShiftRight(v, 1);
    var r :- Or(left, right);
    var out :- LowBit(v);
    Ok(Result(r, Flags(f.z, false, false, out)))
  }

  function WithZero(r: Result): Outcome<Result> {
    var zero :- Equal(r.value, Known(0));
    Ok(r.(f := r.f.(z := zero)))
  }

  function ShiftLeftArithmetic(v: Byte): Outcome<Result> {
    var r :- ShiftLeft(v, 1);
    var rest :- And(v, Known(0x7F));
    var zero :- Equal(rest, Known(0));
    var out :- TopBit(v);
    Ok(Result(r, Flags(zero, false, false, out)))
  }

  function ShiftRightArithmetic(v: Byte): Outcome<Result> {
    var right :- ShiftRight(v, 1);
    var sign :- And(v, Known(0x80));
    var r :- Or(right, sign);
    var zero :- Equal(r, Known(0));
    var out :- LowBit(v);
    Ok(Result(r, Flags(zero, false, false, out)))
  }

  function ShiftRightLogical(v: Byte): Outcome<Result> {
    var r :- ShiftRight(v, 1);
    var zero :- Equal(r, Known(0));
    var out :- LowBit(v);
    Ok(Result(r, Flags(zero, false, false, out)))
  }

  function SwapNibbles(v: Byte): Outcome<Result> {
    var zero :- Equal(v, Known(0));
    var low :- And(v, Known(0x0F));
    var up :- ShiftLeft(low, 4);
    var high :- And(v, Known(0xF0));
    var down :- ShiftRight(high, 4);
    var r :- Or(up, down);
    Ok(Result(r, Flags(zero, false, false, false)))
  }

  /** The CB-page shift on a byte, Z included. */
  function Shift(op: ShiftOp, v: Byte, f: Flags): Outcome<Result> {
    match op
    case RLC =>
      var r :- RotateLeftCircular(v, f);
      WithZero(r)
    case RRC =>
      var r :- RotateRightCircular(v, f);
      WithZero(r)
    case RL =>
      var r :- RotateLeft(v, f);
      WithZero(r)
    case RR =>
      var r :- RotateRight(v, f);
      WithZero(r)
    case SLA => ShiftLeftArithmetic(v)
    case SRA => ShiftRightArithmetic(v)
    case SWAP => SwapNibbles(v)
    case SRL => ShiftRightLogical(v)
  }

  /** RLCA, RRCA, RLA and RRA: the accumulator forms, which clear Z. */
  function RotateAccumulator(op: ShiftOp, v: Byte, f: Flags): Outcome<Result> {
    var f := f.(z := false);
    match op
    case RLC => RotateLeftCircular(v, f)
    case RRC => RotateRightCircular(v, f)
    case RL => RotateLeft(v, f)
    case _ => RotateRight(v, f)
  }

  // ----- bits -----

  function TestBit(v: Byte, bit: nat, f: Flags): Outcome<Flags> {
    var mask :- ShiftLeft(Known(1), bit);
    var masked :- And(v, mask);
    var zero :- Equal(masked, Known(0));
    Ok(Flags(zero, false, true, f.c))
  }

  function SetBit(v: Byte, bit: nat): Outcome<Byte> {
    var mask :- ShiftLeft(Known(1), bit);
    Or(v, mask)
  }

  function ResetBit(v: Byte, bit: nat): Outcome<Byte> {
    var mask :- ShiftLeft(Known(1), bit);
    var inverse :- Not(mask);
    And(v, inverse)
  }

  // ----- 16 bits -----

  datatype WordResult = WordResult(value: Word, f: Flags)

  function AddWords(n1: Word, n2: Word, f: Flags): Outcome<WordResult> {
    var low2 :- AndWord(n2, KnownWord(0x0FFF));
    var low1 :- AndWord(n1, KnownWord(0x0FFF));
    var lowRoom :- SubWord(KnownWord(0x0FFF), low1);
    var half :- LessWord(lowRoom, low2);
    var room :- SubWord(KnownWord(0xFFFF), n1);
    var over :- LessWord(room, n2);
    var r :- AddWord(n1, n2);
    Ok(WordResult(r, Flags(f.z, false, half, over)))
  }

  function AddSigned(sp: Word, n: Byte): Outcome<WordResult> {
    var lowN :- And(n, Known(0x0F));
    var lowSp :- And(sp.lower, Known(0x0F));
    var lowRoom :- Sub(Known(0x0F), lowSp);
    var half :- Less(lowRoom, lowN);
    var wholeN :- And(n, Known(0xFF));
    var room :- Sub(Known(0xFF), sp.lower);
    var over :- Less(room, wholeN);
    var base :- DecayWord(sp);
    var offset :- Decay(n);
    Ok(WordResult(KnownWord(Wrap16(base + Signed8(offset))), Flags(false, false, half, over)))
  }
}
