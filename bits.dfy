/** Byte and word arithmetic as PHP performs it on its unbounded integers.
    PHP's `x & 0xFF` acts on the two's-complement representation, which is
    exactly the Euclidean remainder `x % 256` (never negative) used here. */
module Bits {
  type Byte = x: int | 0 <= x < 256
  type Word = x: int | 0 <= x < 0x1_0000

  /** `x & 0xFF` */
  function Lo8(x: int): Byte { x % 256 }

  /** `x & 0xFFFF` */
  function Lo16(x: int): Word { x % 0x1_0000 }

  /** `(x >> 8) & 0xFF`; PHP's `>>` is an arithmetic shift, i.e. floor division. */
  function HighByte(x: int): Byte { (x / 256) % 256 }

  /** `(x & 0x80) !== 0` */
  predicate Bit7(x: int) { x % 256 >= 128 }

  /** `(x & 0x40) !== 0` */
  predicate Bit6(x: int) { x % 128 >= 64 }

  /** `(x & 0x01) !== 0` */
  predicate Bit0(x: int) { x % 2 == 1 }

  /** Bit 1 and bit 2, as the control registers of the peripherals test them. */
  predicate Bit1(x: int) { (x / 2) % 2 == 1 }
  predicate Bit2(x: int) { (x / 4) % 2 == 1 }

  /** A word is its high byte followed by its low byte: `(hi << 8) | lo`
      recovers `x & 0xFFFF`. */
  lemma WordSplit(x: int)
    ensures HighByte(x) * 256 + Lo8(x) == Lo16(x)
  {
    var q := x / 256;
    assert x == q * 256 + Lo8(x);
    var h := q % 256;
    var k := q / 256;
    assert q == k * 256 + h;
    assert x == k * 0x1_0000 + (h * 256 + Lo8(x));
    assert 0 <= h * 256 + Lo8(x) < 0x1_0000;
  }

  /** Wrapping twice is wrapping once: `((x & 0xFF) + b) & 0xFF` is
      `(x + b) & 0xFF`, and likewise in 16 bits. */
  lemma Lo8Add(x: int, b: int)
    ensures Lo8(Lo8(x) + b) == Lo8(x + b)
  {
    var q := x / 256;
    assert x + b == (Lo8(x) + b) + 256 * q;
  }

  lemma Lo16Add(x: int, b: int)
    ensures Lo16(Lo16(x) + b) == Lo16(x + b)
  {
    var q := x / 0x1_0000;
    assert x + b == (Lo16(x) + b) + 0x1_0000 * q;
  }

  /** Stepping a byte down by `k` and back up, both wrapping, returns it. */
  lemma Lo8Undo(b: Byte, k: int)
    ensures Lo8(Lo8(b as int - k) + k) == b
  {
    Lo8Add(b as int - k, k);
  }

  /** The low byte of `x` as an 8-bit vector (the status word is kept as one). */
  function Bv(x: int): bv8 { Lo8(x) as bv8 }

  /** PHP's `&`, `|` and `^` on non-negative integers, bit by bit from the
      least significant end. */
  function And(a: nat, b: nat): nat
    decreases a
  {
    if a == 0 || b == 0 then 0
    else 2 * And(a / 2, b / 2) + (if a % 2 == 1 && b % 2 == 1 then 1 else 0)
  }

  function Or(a: nat, b: nat): nat
    decreases a + b
  {
    if a == 0 then b
    else if b == 0 then a
    else 2 * Or(a / 2, b / 2) + (if a % 2 == 1 || b % 2 == 1 then 1 else 0)
  }

  function Xor(a: nat, b: nat): nat
    decreases a + b
  {
    if a == 0 then b
    else if b == 0 then a
    else 2 * Xor(a / 2, b / 2) + (if a % 2 != b % 2 then 1 else 0)
  }

  /** The three operators keep values below a power of two below it; in
      particular they map bytes to bytes. */
  lemma {:induction false} BitwiseBounded(a: nat, b: nat, n: nat)
    requires a < Pow(n) && b < Pow(n)
    ensures And(a, b) < Pow(n) && Or(a, b) < Pow(n) && Xor(a, b) < Pow(n)
    decreases n
  {
    if n > 0 && a > 0 && b > 0 {
      assert a / 2 < Pow(n - 1) && b / 2 < Pow(n - 1);
      BitwiseBounded(a / 2, b / 2, n - 1);
    }
  }

  function Pow(n: nat): nat
  {
    if n == 0 then 1 else 2 * Pow(n - 1)
  }

  /** A byte is below 2^8. */
  lemma ByteBound(a: Byte)
    ensures a < Pow(8)
  {
    assert Pow(8) == 256 by {
      assert Pow(4) == 16;
    }
  }

  function And8(a: Byte, b: Byte): Byte { ByteBound(a); ByteBound(b); BitwiseBounded(a, b, 8); And(a, b) }
  function Or8(a: Byte, b: Byte): Byte { ByteBound(a); ByteBound(b); BitwiseBounded(a, b, 8); Or(a, b) }
  function Xor8(a: Byte, b: Byte): Byte { ByteBound(a); ByteBound(b); BitwiseBounded(a, b, 8); Xor(a, b) }

  /** Exclusive or with the same value twice gives back the original. */
  lemma {:induction false} XorInvolutive(a: nat, b: nat)
    ensures Xor(Xor(a, b), b) == a
    decreases a + b
  {
    if a != 0 && b != 0 {
      XorInvolutive(a / 2, b / 2);
      var x := Xor(a / 2, b / 2);
      var lo := if a % 2 != b % 2 then 1 else 0;
      var t := Xor(a, b);
      assert t == 2 * x + lo;
      if t != 0 {
        assert t / 2 == x && t % 2 == lo;
        assert Xor(t, b) == 2 * Xor(x, b / 2) + (if lo != b % 2 then 1 else 0);
        assert Xor(x, b / 2) == a / 2;
      } else {
        assert x == 0 && lo == 0;
        assert Xor(0, b / 2) == b / 2;
      }
    } else if a == 0 {
      XorSelf(b);
    }
  }

  lemma {:induction false} XorSelf(a: nat)
    ensures Xor(a, a) == 0
    decreases a
  {
    if a != 0 {
      XorSelf(a / 2);
    }
  }

  /** A bit of the conjunction is set exactly when the bit is set in both. */
  lemma {:induction false} AndBit0(a: nat, b: nat)
    ensures And(a, b) % 2 == (if a % 2 == 1 && b % 2 == 1 then 1 else 0)
  {
  }

  /** The conjunction never exceeds either operand. */
  lemma {:induction false} AndBelow(a: nat, b: nat)
    ensures And(a, b) <= a && And(a, b) <= b
    decreases a
  {
    if a != 0 && b != 0 {
      AndBelow(a / 2, b / 2);
    }
  }

  /** Or-ing a value below 2^n with a multiple of 2^n adds them: the bits
      do not overlap. In particular `lo | (hi << 8)` is `lo + hi * 256` for
      a byte `lo`. */
  lemma {:induction false} OrDisjoint(a: nat, b: nat, n: nat)
    requires a < Pow(n)
    ensures Or(a, b * Pow(n)) == a + b * Pow(n)
    decreases n
  {
    if n > 0 && a != 0 && b != 0 {
      var high := b * Pow(n - 1);
      assert b * Pow(n) == 2 * high;
      assert (2 * high) / 2 == high && (2 * high) % 2 == 0;
      OrDisjoint(a / 2, b, n - 1);
      assert Or(a, 2 * high) == 2 * Or(a / 2, high) + a % 2;
    }
  }

  lemma OrHighByte(lo: nat, hi: nat)
    requires lo < 256
    ensures Or(lo, hi * 256) == lo + hi * 256
  {
    ByteBound(lo);
    OrDisjoint(lo, hi, 8);
  }
}
