/**
  The integer mixer that seeds the starfield: three xor-shifts by 16
  interleaved with two wrapping multiplications by 0x45d9f3b, all on `u32`.
  Words are integers in [0, 2^32); exclusive or is defined bit by bit and the
  wrapping multiplication is reduction modulo 2^32. Every step is a
  bijection of the 32-bit words, so the mixer is one too.
 */
module Hashing {
  import opened Numeric

  /** 2^n. */
  function Pow2(n: nat): nat {
    if n == 0 then 1 else 2 * Pow2(n - 1)
  }

  /** Bitwise exclusive or of two naturals, lowest bit first. */
  function Xor(a: nat, b: nat): nat
    decreases a + b
  {
    if a == 0 && b == 0 then 0 else (a % 2 + b % 2) % 2 + 2 * Xor(a / 2, b / 2)
  }

  lemma Halves(bit: int, y: int)
    requires 0 <= bit < 2
    ensures (bit + 2 * y) % 2 == bit && (bit + 2 * y) / 2 == y
  {
  }

  /** The lowest bit of a xor, and the xor of the remaining bits. */
  lemma XorSplit(a: nat, b: nat)
    ensures Xor(a, b) % 2 == (a % 2 + b % 2) % 2
    ensures Xor(a, b) / 2 == Xor(a / 2, b / 2)
  {
    if a == 0 && b == 0 {
      assert Xor(a / 2, b / 2) == Xor(0, 0) == 0;
    } else {
      Halves((a % 2 + b % 2) % 2, Xor(a / 2, b / 2));
    }
  }

  lemma {:induction false} XorZero(a: nat)
    ensures Xor(a, 0) == a
    decreases a
  {
    if a != 0 {
      XorZero(a / 2);
    }
  }

  /** Xor-ing with the same word twice gives the word back. */
  lemma {:induction false} XorCancel(a: nat, b: nat)
    ensures Xor(Xor(a, b), b) == a
    decreases a + b
  {
    if a != 0 || b != 0 {
      var x := Xor(a, b);
      XorSplit(a, b);
      XorSplit(x, b);
      XorCancel(a / 2, b / 2);
      Parity(a % 2, b % 2);
      SameHalves(Xor(x, b), a);
    } else {
      XorZero(0);
    }
  }

  lemma Parity(p: int, q: int)
    requires 0 <= p < 2 && 0 <= q < 2
    ensures ((p + q) % 2 + q) % 2 == p
  {
  }

  /** Two naturals with the same lowest bit and the same remaining bits are equal. */
  lemma SameHalves(u: nat, v: nat)
    requires u % 2 == v % 2 && u / 2 == v / 2
    ensures u == v
  {
  }

  lemma {:induction false} Pow2Add(m: nat, n: nat)
    ensures Pow2(m + n) == Pow2(m) * Pow2(n)
    decreases m
  {
    if m > 0 {
      Pow2Add(m - 1, n);
      assert Pow2(m + n) == 2 * Pow2(m - 1 + n);
    }
  }

  lemma Pow2Sixteen()
    ensures Pow2(16) == 0x1_0000
  {
    assert Pow2(2) == 4;
    Pow2Add(2, 2);
    Pow2Add(4, 4);
    Pow2Add(8, 8);
  }

  /** Xor of two n-bit words is an n-bit word. */
  lemma {:induction false} XorBound(a: nat, b: nat, n: nat)
    requires a < Pow2(n) && b < Pow2(n)
    ensures Xor(a, b) < Pow2(n)
    decreases n
  {
    if (a != 0 || b != 0) && n > 0 {
      XorBound(a / 2, b / 2, n - 1);
    }
  }

  /**
    `x ^= x >> 16`. The shifted word has no bit above bit 15, so the upper
    half of x is kept and only the lower half is xor-ed with it.
   */
  function XorShift(x: U32): (y: U32)
    ensures y / 0x1_0000 == x / 0x1_0000
    ensures y % 0x1_0000 == Xor(x % 0x1_0000, x / 0x1_0000)
  {
    Pow2Sixteen();
    XorBound(x % 0x1_0000, x / 0x1_0000, 16);
    (x / 0x1_0000) * 0x1_0000 + Xor(x % 0x1_0000, x / 0x1_0000)
  }

  /** The xor-shift by half the word is its own inverse: it keeps the upper half, which then masks the lower half twice. */
  lemma XorShiftInvolution(x: U32)
    ensures XorShift(XorShift(x)) == x
  {
    var hi, lo := x / 0x1_0000, x % 0x1_0000;
    XorCancel(lo, hi);
  }

  /** `x = x.wrapping_mul(0x45d9f3b)`. */
  function Scramble(x: U32): U32 {
    (x * 0x45d9f3b) % 0x1_0000_0000
  }

  /** Multiplication by 0x119de1f3 modulo 2^32: 0x45d9f3b is odd, and this is its inverse. */
  function Unscramble(x: U32): U32 {
    (x * 0x119de1f3) % 0x1_0000_0000
  }

  lemma ModOfMultiple(r: int, q: int)
    ensures (r + q * 0x1_0000_0000) % 0x1_0000_0000 == r % 0x1_0000_0000
  {
  }

  /**
    Multiplying by the multiplier and then by its inverse gives the word
    back, in either order: their product is 1 + 5040344 * 2^32.
   */
  lemma ScrambleInvertible(x: U32)
    ensures Unscramble(Scramble(x)) == x
    ensures Scramble(Unscramble(x)) == x
  {
    var q := x * 0x45d9f3b / 0x1_0000_0000;
    assert Scramble(x) * 0x119de1f3 == x + (x * 5040344 - q * 0x119de1f3) * 0x1_0000_0000;
    ModOfMultiple(x, x * 5040344 - q * 0x119de1f3);
    var p := x * 0x119de1f3 / 0x1_0000_0000;
    assert Unscramble(x) * 0x45d9f3b == x + (x * 5040344 - p * 0x45d9f3b) * 0x1_0000_0000;
    ModOfMultiple(x, x * 5040344 - p * 0x45d9f3b);
  }

  /** `hash`: only wrapping operations, so it is total on every `u32`. */
  function Hash(seed: U32): U32 {
    XorShift(Scramble(XorShift(Scramble(XorShift(seed)))))
  }

  /** The steps of `hash` undone in reverse order. */
  function Unhash(h: U32): U32 {
    XorShift(Unscramble(XorShift(Unscramble(XorShift(h)))))
  }

  /** `hash` is a permutation of the 32-bit words: `Unhash` inverts it on both sides. */
  lemma HashRoundTrip(x: U32)
    ensures Unhash(Hash(x)) == x
    ensures Hash(Unhash(x)) == x
  {
    var a := XorShift(x);
    var b := Scramble(a);
    var c := XorShift(b);
    var d := Scramble(c);
    XorShiftInvolution(d);
    ScrambleInvertible(c);
    XorShiftInvolution(b);
    ScrambleInvertible(a);
    XorShiftInvolution(x);
    var p := XorShift(x);
    var q := Unscramble(p);
    var r := XorShift(q);
    var s := Unscramble(r);
    XorShiftInvolution(s);
    ScrambleInvertible(r);
    XorShiftInvolution(q);
    ScrambleInvertible(p);
  }

  /** Distinct seeds give distinct hashes. */
  lemma HashInjective(x: U32, y: U32)
    ensures Hash(x) == Hash(y) <==> x == y
  {
    HashRoundTrip(x);
    HashRoundTrip(y);
  }

  /** Zero is a fixed point of every step. */
  lemma HashZero()
    ensures Hash(0) == 0
  {
    ZeroFixed();
    assert Hash(0) == XorShift(Scramble(XorShift(Scramble(XorShift(0)))));
  }

  lemma ZeroFixed()
    ensures XorShift(0) == 0 && Scramble(0) == 0
  {
    XorZero(0);
    Recompose(XorShift(0));
  }

  lemma Recompose(y: nat)
    ensures y == y / 0x1_0000 * 0x1_0000 + y % 0x1_0000
  {
  }
}
