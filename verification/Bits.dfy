/** Fixed-width integers and the bitwise operators of the machine, over mathematical integers. */
module Bits {

  type u8 = x: int | 0 <= x < 0x100
  type u16 = x: int | 0 <= x < 0x10000

  function Wrap8(x: int): u8 {
    x % 0x100
  }

  function Wrap16(x: int): u16 {
    x % 0x10000
  }

  /** The int8_t that has the same bits as b. */
  function Signed8(b: u8): int {
    if b < 0x80 then b else b - 0x100
  }

  /** size_t decrement. */
  function Dec64(x: nat): nat {
    if x == 0 then 0xFFFF_FFFF_FFFF_FFFF else x - 1
  }

  function Exp2(n: nat): (r: nat)
    ensures 1 <= r
  {
    if n == 0 then 1 else 2 * Exp2(n - 1)
  }

  /** Bit i of x, by halving. */
  predicate Bit(x: nat, i: nat)
    decreases i
  {
    if i == 0 then x % 2 == 1 else Bit(x / 2, i - 1)
  }

  function BitAnd(a: nat, b: nat): (r: nat)
    ensures r <= a && r <= b
    decreases a
  {
    if a == 0 || b == 0 then 0
    else 2 * BitAnd(a / 2, b / 2) + (if a % 2 == 1 && b % 2 == 1 then 1 else 0)
  }

  function BitOr(a: nat, b: nat): (r: nat)
    ensures a <= r && b <= r <= a + b
    decreases a + b
  {
    if a == 0 && b == 0 then 0
    else 2 * BitOr(a / 2, b / 2) + (if a % 2 == 1 || b % 2 == 1 then 1 else 0)
  }

  function BitXor(a: nat, b: nat): (r: nat)
    ensures r <= a + b
    decreases a + b
  {
    if a == 0 && b == 0 then 0
    else 2 * BitXor(a / 2, b / 2) + (if a % 2 != b % 2 then 1 else 0)
  }

  lemma {:induction false} BitOfAnd(a: nat, b: nat, i: nat)
    ensures Bit(BitAnd(a, b), i) == (Bit(a, i) && Bit(b, i))
    decreases i
  {
    if a == 0 || b == 0 {
      BitOfZero(i);
    } else if i > 0 {
      BitOfAnd(a / 2, b / 2, i - 1);
    }
  }

  lemma {:induction false} BitOfOr(a: nat, b: nat, i: nat)
    ensures Bit(BitOr(a, b), i) == (Bit(a, i) || Bit(b, i))
    decreases i
  {
    if a == 0 && b == 0 {
    } else if i > 0 {
      BitOfOr(a / 2, b / 2, i - 1);
    }
  }

  lemma {:induction false} BitOfXor(a: nat, b: nat, i: nat)
    ensures Bit(BitXor(a, b), i) == (Bit(a, i) != Bit(b, i))
    decreases i
  {
    if a == 0 && b == 0 {
      BitOfZero(i);
    } else if i > 0 {
      BitOfXor(a / 2, b / 2, i - 1);
    }
  }

  lemma {:induction false} BitOfZero(i: nat)
    ensures !Bit(0, i)
  {
    if i > 0 {
      BitOfZero(i - 1);
    }
  }

  lemma {:induction false} BitOfExp2(n: nat, i: nat)
    ensures Bit(Exp2(n), i) == (n == i)
  {
    if n == 0 {
      if i > 0 {
        BitOfZero(i - 1);
      }
    } else if i > 0 {
      assert Exp2(n) / 2 == Exp2(n - 1);
      BitOfExp2(n - 1, i - 1);
    }
  }

  /** Masking with n ones keeps the remainder modulo 2^n. */
  lemma {:induction false} AndLowMask(x: nat, n: nat)
    ensures BitAnd(x, Exp2(n) - 1) == x % Exp2(n)
  {
    if n == 0 {
    } else if x == 0 {
    } else {
      var k := Exp2(n - 1);
      AndLowMask(x / 2, n - 1);
      AndOdd(x, k - 1);
      ModHalf(x, k);
    }
  }

  lemma AndOdd(x: nat, h: nat)
    ensures BitAnd(x, 2 * h + 1) == 2 * BitAnd(x / 2, h) + x % 2
  {
  }

  lemma ModHalf(x: nat, k: nat)
    requires k > 0
    ensures x % (2 * k) == 2 * ((x / 2) % k) + x % 2
  {
    var q, r := (x / 2) / k, (x / 2) % k;
    assert x == 2 * k * q + (2 * r + x % 2);
    ModUnique(x, 2 * k, q, 2 * r + x % 2);
  }

  lemma ModUnique(x: int, d: int, q: int, r: int)
    requires d > 0 && x == d * q + r && 0 <= r < d
    ensures x % d == r && x / d == q
  {
    var k := q - x / d;
    assert d * k == x % d - r by {
      assert d * k == d * q - d * (x / d);
    }
    MulAtLeast(d, k);
    MulAtLeast(d, -k);
    assert d * (-k) == -(d * k);
  }

  lemma DivHalf(x: nat, k: nat)
    requires k > 0
    ensures x / (2 * k) == x / 2 / k
  {
    var q, r := (x / 2) / k, (x / 2) % k;
    assert x == 2 * k * q + (2 * r + x % 2);
    ModUnique(x, 2 * k, q, 2 * r + x % 2);
  }

  /** Bit i as a digit. */
  lemma {:induction false} BitIsDigit(x: nat, i: nat)
    ensures Bit(x, i) <==> x / Exp2(i) % 2 == 1
    decreases i
  {
    if i > 0 {
      BitIsDigit(x / 2, i - 1);
      DivHalf(x, Exp2(i - 1));
    }
  }

  /** Numbers below 2^n with the same bits are equal. */
  lemma {:induction false} SameBits(x: nat, y: nat, n: nat)
    requires x < Exp2(n) && y < Exp2(n)
    requires forall i :: 0 <= i < n ==> Bit(x, i) == Bit(y, i)
    ensures x == y
    decreases n
  {
    if n > 0 {
      assert Bit(x, 0) == Bit(y, 0);
      forall i | 0 <= i < n - 1 ensures Bit(x / 2, i) == Bit(y / 2, i) {
        assert Bit(x, i + 1) == Bit(y, i + 1);
      }
      SameBits(x / 2, y / 2, n - 1);
    }
  }

  lemma Powers()
    ensures Exp2(0) == 1 && Exp2(1) == 2 && Exp2(2) == 4 && Exp2(3) == 8
    ensures Exp2(4) == 0x10 && Exp2(5) == 0x20 && Exp2(6) == 0x40 && Exp2(7) == 0x80
  {
    assert Exp2(3) == 2 * Exp2(2) == 4 * Exp2(1) == 8 * Exp2(0);
    assert Exp2(7) == 2 * Exp2(6) == 4 * Exp2(5) == 8 * Exp2(4) == 0x10 * Exp2(3);
  }

  /** The bits of a byte as digits. */
  lemma BitDigits(x: nat)
    ensures Bit(x, 0) == (x % 2 == 1) && Bit(x, 1) == (x / 2 % 2 == 1) && Bit(x, 2) == (x / 4 % 2 == 1)
    ensures Bit(x, 3) == (x / 8 % 2 == 1) && Bit(x, 4) == (x / 0x10 % 2 == 1)
    ensures Bit(x, 5) == (x / 0x20 % 2 == 1) && Bit(x, 6) == (x / 0x40 % 2 == 1) && Bit(x, 7) == (x / 0x80 % 2 == 1)
  {
    hide Bit, Exp2;
    Powers();
    BitIsDigit(x, 0);
    BitIsDigit(x, 1);
    BitIsDigit(x, 2);
    BitIsDigit(x, 3);
    BitIsDigit(x, 4);
    BitIsDigit(x, 5);
    BitIsDigit(x, 6);
    BitIsDigit(x, 7);
  }

  lemma MulAtLeast(d: int, k: int)
    requires d > 0
    ensures k >= 1 ==> d * k >= d
  {
  }

  lemma BitOrDoubled(high: nat, low: nat)
    requires BitOr(high, low / 2) == high + low / 2
    ensures BitOr(2 * high, low) == 2 * high + low
  {
  }

  lemma {:induction false} BitOrZero(a: nat)
    ensures BitOr(a, 0) == a
  {
    if a > 0 {
      BitOrZero(a / 2);
    }
  }

  /** Operands below 2^n combine to a value below 2^n. */
  lemma {:induction false} OrBound(a: nat, b: nat, n: nat)
    requires a < Exp2(n) && b < Exp2(n)
    ensures BitOr(a, b) < Exp2(n)
  {
    if n > 0 && !(a == 0 && b == 0) {
      OrBound(a / 2, b / 2, n - 1);
    }
  }

  lemma {:induction false} XorBound(a: nat, b: nat, n: nat)
    requires a < Exp2(n) && b < Exp2(n)
    ensures BitXor(a, b) < Exp2(n)
  {
    if n > 0 && !(a == 0 && b == 0) {
      XorBound(a / 2, b / 2, n - 1);
    }
  }

  function And8(a: u8, b: u8): u8 {
    BitAnd(a, b)
  }

  function Or8(a: u8, b: u8): u8 {
    OrBound(a, b, 8);
    BitOr(a, b)
  }

  function Xor8(a: u8, b: u8): u8 {
    XorBound(a, b, 8);
    BitXor(a, b)
  }

  function Shl(a: nat, n: nat): nat
    decreases n
  {
    if n == 0 then a else Shl(2 * a, n - 1)
  }

  function Shl8(a: u8, n: nat): u8 {
    Shl(a, n) % 0x100
  }

  function Shr(a: nat, n: nat): (r: nat)
    ensures r <= a
    decreases n
  {
    if n == 0 then a else Shr(a / 2, n - 1)
  }

  function Shr8(a: u8, n: nat): u8 {
    Shr(a, n)
  }
}
