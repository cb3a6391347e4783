/** The flag arithmetic of ADC, SBC and DAA means addition and subtraction of numbers of any length,
    in base 256 without DAA and in packed decimal with it. */
module Arithmetic {
  import opened Outcomes
  import opened Bits
  import opened CheckedInt
  import opened Registers
  import opened Alu

  // ----- what one ADC or SBC computes -----

  function Carry(c: bool): nat {
    if c then 1 else 0
  }

  lemma LowNibble(x: u8)
    ensures BitAnd(x, 0x0F) == x % 16
  {
    assert Exp2(4) - 1 == 0x0F;
    AndLowMask(x, 4);
  }

  /** ADC adds, and its flags are the carries out of bits 7 and 3. */
  lemma AdcAdds(a: u8, n: u8, c: bool)
    ensures Operate(ADC, Known(a), Known(n), c) ==
      Ok(Result(Known(Wrap8(a + n + Carry(c))),
                Flags(Wrap8(a + n + Carry(c)) == 0, false, a % 16 + n % 16 + Carry(c) >= 0x10, a + n + Carry(c) >= 0x100)))
  {
    hide AddN;
    if c {
      AdcWithCarry(a, n);
    } else {
      AdcWithoutCarry(a, n);
    }
  }

  lemma WrapOff(x: nat)
    requires x < 0x100
    ensures Wrap8(x) == x && Wrap8(x + 0x100) == x && Wrap8(x - 0x100) == x
  {
  }

  lemma WrapTwice(x: int, y: int)
    ensures Wrap8(Wrap8(x) + y) == Wrap8(x + y)
  {
  }

  /** The comparisons that AddN makes are the carries out of bits 7 and 3. */
  lemma CarryTests(a: u8, n: u8, c: nat)
    requires c <= 1
    ensures (Wrap8(0xFF - a) < Wrap8(n + c) || (c == 1 && n == 0xFF)) <==> a + n + c >= 0x100
    ensures Wrap8(0x0F - a % 16) < Wrap8(n % 16 + c) <==> a % 16 + n % 16 + c >= 0x10
  {
    hide Wrap8;
    WrapOff(0xFF - a);
    WrapOff((n + c) % 0x100);
    WrapOff(0x0F - a % 16);
    WrapOff(n % 16 + c);
  }

  lemma AdcWithCarry(a: u8, n: u8)
    ensures AddN(Known(a), Known(n), true) ==
      Ok(Result(Known(Wrap8(a + n + 1)), Flags(Wrap8(a + n + 1) == 0, false, a % 16 + n % 16 + 1 >= 0x10, a + n + 1 >= 0x100)))
  {
    hide BitAnd, Wrap8;
    LowNibble(a);
    LowNibble(n);
    CarryTests(a, n, 1);
    WrapTwice(a + n, 1);
  }

  lemma AdcWithoutCarry(a: u8, n: u8)
    ensures AddN(Known(a), Known(n), false) ==
      Ok(Result(Known(Wrap8(a + n)), Flags(Wrap8(a + n) == 0, false, a % 16 + n % 16 >= 0x10, a + n >= 0x100)))
  {
    hide BitAnd, Wrap8;
    LowNibble(a);
    LowNibble(n);
    CarryTests(a, n, 0);
    WrapTwice(a + n, 0);
  }

  /** The comparisons that SubN makes are the borrows into bits 7 and 3. */
  lemma BorrowTests(a: u8, n: u8, c: nat)
    requires c <= 1
    ensures (a < Wrap8(n + c) || (c == 1 && n == 0xFF)) <==> a < n + c
    ensures a % 16 < Wrap8(n % 16 + c) <==> a % 16 < n % 16 + c
  {
  }

  lemma WrapDifference(x: int, y: int)
    ensures Wrap8(x - Wrap8(y)) == Wrap8(x - y)
  {
  }

  /** SBC subtracts, and its flags are the borrows into bits 7 and 3. */
  lemma SbcSubtracts(a: u8, n: u8, c: bool)
    ensures Operate(SBC, Known(a), Known(n), c) ==
      Ok(Result(Known(Wrap8(a - n - Carry(c))),
                Flags(Wrap8(a - n - Carry(c)) == 0, true, a % 16 < n % 16 + Carry(c), a < n + Carry(c))))
  {
    hide BitAnd, Wrap8;
    LowNibble(a);
    LowNibble(n);
    BorrowTests(a, n, Carry(c));
    WrapDifference(a, n + Carry(c));
  }

  /** One byte of a chain, without its half carry. */
  lemma AdcByte(a: u8, n: u8, c: bool)
    ensures var r := Operate(ADC, Known(a), Known(n), c);
      r.Ok? && !r.value.value.undefined && r.value.value.data + 0x100 * Carry(r.value.f.c) == a + n + Carry(c)
  {
    hide Operate;
    AdcAdds(a, n, c);
  }

  lemma SbcByte(a: u8, n: u8, c: bool)
    ensures var r := Operate(SBC, Known(a), Known(n), c);
      r.Ok? && !r.value.value.undefined && r.value.value.data + n + Carry(c) == a + 0x100 * Carry(r.value.f.c)
  {
    hide Operate;
    SbcSubtracts(a, n, c);
  }

  // ----- one byte of packed decimal -----

  predicate Packed(x: u8) {
    x / 16 <= 9 && x % 16 <= 9
  }

  function Decimal(x: u8): nat {
    10 * (x / 16) + x % 16
  }

  /** DAA on a defined byte that ADC produced: each digit that is too large, or carried out, gains 6. */
  lemma DaaAdjusts(v: u8, f: Flags)
    requires !f.n
    ensures var upper, lower := v > 0x99 || f.c, v % 16 > 9 || f.h;
      var r := Wrap8(v + ((if upper then 0x60 else 0) + (if lower then 6 else 0)));
      DecimalAdjust(Known(v), f) == Ok(Result(Known(r), Flags(r == 0, false, false, upper)))
  {
    hide BitAnd;
    LowNibble(v);
  }

  // With high and low the sums of the high and of the low digits, DAA sees 16 * high + low wrapped to a byte.

  lemma LowerTest(high: nat, low: nat)
    requires low <= 19
    ensures Wrap8(16 * high + low) % 16 > 9 || low >= 0x10 <==> low > 9
  {
  }

  lemma UpperTest(sum: nat)
    requires sum <= 0x133
    ensures Wrap8(sum) > 0x99 || sum >= 0x100 <==> sum > 0x99
  {
  }

  lemma AdjustDigits(high: nat, low: nat)
    requires high <= 18 && low <= 19
    ensures var sum := 16 * high + low; var upper, lower := sum > 0x99, low > 9;
      var r := Wrap8(sum + ((if upper then 0x60 else 0) + (if lower then 6 else 0)));
      Packed(r) && Decimal(r) + (if upper then 100 else 0) == 10 * high + low
  {
    var l, h := if low > 9 then low - 10 else low, if low > 9 then high + 1 else high;
    var h' := if h >= 10 then h - 10 else h;
    assert 16 * high + low > 0x99 <==> h >= 10;
    var sum := 16 * high + low;
    var r := sum + ((if sum > 0x99 then 0x60 else 0) + (if low > 9 then 6 else 0));
    assert r == 16 * h' + l + (if h >= 10 then 0x100 else 0);
    WrapOff(16 * h' + l);
    Nibbles(16 * h' + l, h', l);
  }

  lemma Nibbles(x: nat, high: nat, low: nat)
    requires x == 16 * high + low && low < 16
    ensures x / 16 == high && x % 16 == low
  {
  }

  /** DAA after ADC leaves the decimal sum and its carry. */
  lemma DaaAfterAdc(a: u8, n: u8, c: bool)
    requires Packed(a) && Packed(n)
    ensures var r := Operate(ADC, Known(a), Known(n), c).value; var d := DecimalAdjust(r.value, r.f);
      && d.Ok? && !d.value.value.undefined && Packed(d.value.value.data)
      && Decimal(d.value.value.data) + 100 * Carry(d.value.f.c) == Decimal(a) + Decimal(n) + Carry(c)
  {
    hide Operate, DecimalAdjust, Wrap8, Packed, Decimal;
    AdcAdds(a, n, c);
    var high, low := a / 16 + n / 16, a % 16 + n % 16 + Carry(c);
    assert a + n + Carry(c) == 16 * high + low;
    PackedDigits(a);
    PackedDigits(n);
    var r := Operate(ADC, Known(a), Known(n), c).value;
    DaaAdjusts(r.value.data, r.f);
    LowerTest(high, low);
    UpperTest(16 * high + low);
    WrapTwice(16 * high + low, (if 16 * high + low > 0x99 then 0x60 else 0) + (if low > 9 then 6 else 0));
    AdjustDigits(high, low);
  }

  lemma PackedDigits(x: u8)
    requires Packed(x)
    ensures x / 16 <= 9 && x % 16 <= 9 && Decimal(x) == 10 * (x / 16) + x % 16
  {
  }

  /** DAA on a defined byte that SBC produced: each digit that borrowed loses 6. */
  lemma DaaTakesBack(v: u8, f: Flags)
    requires f.n
    ensures var r := Wrap8(v - ((if f.c then 0x60 else 0) + (if f.h then 6 else 0)));
      DecimalAdjust(Known(v), f) == Ok(Result(Known(r), Flags(r == 0, true, false, f.c)))
  {
  }

  /** With high and low the differences of the high and of the low digits. */
  lemma BorrowDigits(high: int, low: int)
    requires -9 <= high <= 9 && -10 <= low <= 9
    ensures var diff := 16 * high + low; var upper, lower := diff < 0, low < 0;
      var r := Wrap8(diff - ((if upper then 0x60 else 0) + (if lower then 6 else 0)));
      Packed(r) && Decimal(r) == 10 * high + low + (if upper then 100 else 0)
  {
    var l, h := if low < 0 then low + 10 else low, if low < 0 then high - 1 else high;
    var h' := if h < 0 then h + 10 else h;
    assert 16 * high + low < 0 <==> h < 0;
    var r := 16 * high + low - ((if h < 0 then 0x60 else 0) + (if low < 0 then 6 else 0));
    assert r == 16 * h' + l - (if h < 0 then 0x100 else 0);
    WrapOff(16 * h' + l);
    Nibbles(16 * h' + l, h', l);
  }

  /** DAA after SBC leaves the decimal difference and its borrow. */
  lemma DaaAfterSbc(a: u8, n: u8, c: bool)
    requires Packed(a) && Packed(n)
    ensures var r := Operate(SBC, Known(a), Known(n), c).value; var d := DecimalAdjust(r.value, r.f);
      && d.Ok? && !d.value.value.undefined && Packed(d.value.value.data)
      && Decimal(d.value.value.data) + Decimal(n) + Carry(c) == Decimal(a) + 100 * Carry(d.value.f.c)
  {
    hide Operate, DecimalAdjust, Wrap8, Packed, Decimal;
    SbcSubtracts(a, n, c);
    PackedDigits(a);
    PackedDigits(n);
    var high, low := a / 16 - n / 16, a % 16 - n % 16 - Carry(c);
    assert a - n - Carry(c) == 16 * high + low;
    var r := Operate(SBC, Known(a), Known(n), c).value;
    DaaTakesBack(r.value.data, r.f);
    WrapTwice(16 * high + low, -((if 16 * high + low < 0 then 0x60 else 0) + (if low < 0 then 6 else 0)));
    BorrowDigits(high, low);
  }

  // ----- numbers of any length, least significant byte first -----

  datatype Sum = Sum(bytes: seq<u8>, carry: bool)

  /** The program that runs ADC or SBC, and DAA if `decimal`, over two equally long numbers. */
  function Chain(op: AluOp, decimal: bool, xs: seq<u8>, ys: seq<u8>, c: bool): Outcome<Sum>
    requires |xs| == |ys|
    decreases |xs|
  {
    if xs == [] then Ok(Sum([], c))
    else
      var r :- Operate(op, Known(xs[0]), Known(ys[0]), c);
      var d :- if decimal then DecimalAdjust(r.value, r.f) else Ok(r);
      var byte :- Decay(d.value);
      var rest :- Chain(op, decimal, xs[1..], ys[1..], d.f.c);
      Ok(Sum([byte] + rest.bytes, rest.carry))
  }

  function Power(base: nat, n: nat): nat {
    if n == 0 then 1 else base * Power(base, n - 1)
  }

  function Binary(xs: seq<u8>): nat {
    if xs == [] then 0 else xs[0] + 0x100 * Binary(xs[1..])
  }

  predicate AllPacked(xs: seq<u8>) {
    forall i :: 0 <= i < |xs| ==> Packed(xs[i])
  }

  function DecimalValue(xs: seq<u8>): nat {
    if xs == [] then 0 else Decimal(xs[0]) + 100 * DecimalValue(xs[1..])
  }

  lemma CarryScales(base: nat, n: nat, c: bool)
    ensures Carry(c) * Power(base, n + 1) == base * (Carry(c) * Power(base, n))
  {
  }

  /** ADC alone adds in base 256, with the carry out of the top byte. */
  lemma {:induction false} ChainAddsBinary(xs: seq<u8>, ys: seq<u8>, c: bool)
    requires |xs| == |ys|
    ensures var r := Chain(ADC, false, xs, ys, c);
      r.Ok? && |r.value.bytes| == |xs| &&
      Binary(r.value.bytes) + Carry(r.value.carry) * Power(0x100, |xs|) == Binary(xs) + Binary(ys) + Carry(c)
    decreases |xs|
  {
    hide Operate;
    if xs != [] {
      AdcByte(xs[0], ys[0], c);
      var d := Operate(ADC, Known(xs[0]), Known(ys[0]), c).value;
      ChainAddsBinary(xs[1..], ys[1..], d.f.c);
      var rest := Chain(ADC, false, xs[1..], ys[1..], d.f.c).value;
      CarryScales(0x100, |xs| - 1, rest.carry);
      assert ([d.value.data] + rest.bytes)[1..] == rest.bytes;
    }
  }

  /** SBC alone subtracts in base 256, with the borrow into the top byte. */
  lemma {:induction false} ChainSubtractsBinary(xs: seq<u8>, ys: seq<u8>, c: bool)
    requires |xs| == |ys|
    ensures var r := Chain(SBC, false, xs, ys, c);
      r.Ok? && |r.value.bytes| == |xs| &&
      Binary(r.value.bytes) + Binary(ys) + Carry(c) == Binary(xs) + Carry(r.value.carry) * Power(0x100, |xs|)
    decreases |xs|
  {
    hide Operate;
    if xs != [] {
      SbcByte(xs[0], ys[0], c);
      var d := Operate(SBC, Known(xs[0]), Known(ys[0]), c).value;
      ChainSubtractsBinary(xs[1..], ys[1..], d.f.c);
      var rest := Chain(SBC, false, xs[1..], ys[1..], d.f.c).value;
      CarryScales(0x100, |xs| - 1, rest.carry);
      assert ([d.value.data] + rest.bytes)[1..] == rest.bytes;
    }
  }

  lemma PackedTail(byte: u8, bytes: seq<u8>)
    requires Packed(byte) && AllPacked(bytes)
    ensures AllPacked([byte] + bytes)
  {
  }

  /** ADC with DAA adds packed decimal numbers of any length: the digits of the sum modulo 100^n, and its carry. */
  lemma {:induction false} ChainAddsDecimal(xs: seq<u8>, ys: seq<u8>, c: bool)
    requires |xs| == |ys| && AllPacked(xs) && AllPacked(ys)
    ensures var r := Chain(ADC, true, xs, ys, c);
      r.Ok? && |r.value.bytes| == |xs| && AllPacked(r.value.bytes) &&
      DecimalValue(r.value.bytes) + Carry(r.value.carry) * Power(100, |xs|) == DecimalValue(xs) + DecimalValue(ys) + Carry(c)
    decreases |xs|
  {
    hide Operate, DecimalAdjust, Packed, Decimal;
    if xs != [] {
      AdcByte(xs[0], ys[0], c);
      DaaAfterAdc(xs[0], ys[0], c);
      var r := Operate(ADC, Known(xs[0]), Known(ys[0]), c).value;
      var d := DecimalAdjust(r.value, r.f).value;
      ChainAddsDecimal(xs[1..], ys[1..], d.f.c);
      var rest := Chain(ADC, true, xs[1..], ys[1..], d.f.c).value;
      CarryScales(100, |xs| - 1, rest.carry);
      PackedTail(d.value.data, rest.bytes);
      assert ([d.value.data] + rest.bytes)[1..] == rest.bytes;
    }
  }

  /** SBC with DAA subtracts packed decimal numbers of any length, modulo 100^n with its borrow. */
  lemma {:induction false} ChainSubtractsDecimal(xs: seq<u8>, ys: seq<u8>, c: bool)
    requires |xs| == |ys| && AllPacked(xs) && AllPacked(ys)
    ensures var r := Chain(SBC, true, xs, ys, c);
      r.Ok? && |r.value.bytes| == |xs| && AllPacked(r.value.bytes) &&
      DecimalValue(r.value.bytes) + DecimalValue(ys) + Carry(c) == DecimalValue(xs) + Carry(r.value.carry) * Power(100, |xs|)
    decreases |xs|
  {
    hide Operate, DecimalAdjust, Packed, Decimal;
    if xs != [] {
      SbcByte(xs[0], ys[0], c);
      DaaAfterSbc(xs[0], ys[0], c);
      var r := Operate(SBC, Known(xs[0]), Known(ys[0]), c).value;
      var d := DecimalAdjust(r.value, r.f).value;
      ChainSubtractsDecimal(xs[1..], ys[1..], d.f.c);
      var rest := Chain(SBC, true, xs[1..], ys[1..], d.f.c).value;
      CarryScales(100, |xs| - 1, rest.carry);
      PackedTail(d.value.data, rest.bytes);
      assert ([d.value.data] + rest.bytes)[1..] == rest.bytes;
    }
  }
}
