/** Fixed-width unsigned integers and the bitwise operations the interpreter
    uses on them. Values are mathematical integers restricted to their width;
    bitwise AND, OR and XOR are defined bit by bit, least significant first. */
module Bits {

  /** An 8-bit unsigned value (Rust `u8`). */
  type Byte = x: int | 0 <= x < 0x100

  /** A 16-bit unsigned value (Rust `u16`). */
  type Word = x: int | 0 <= x < 0x1_0000

  function Pow2(k: nat): (r: nat)
    ensures r >= 1
  {
    if k == 0 then 1 else 2 * Pow2(k - 1)
  }

  /** Bit `j` of `b`, counting from the least significant bit: `(b >> j) & 1`. */
  function Bit(b: nat, j: nat): (r: nat)
    ensures r <= 1
  {
    if j == 0 then b % 2 else Bit(b / 2, j - 1)
  }

  /** `a ^ b`, bit by bit from the least significant end. */
  function Xor(a: nat, b: nat): nat
    decreases a + b
  {
    if a == 0 && b == 0 then 0
    else HalvesDecrease(a, b); (a + b) % 2 + 2 * Xor(a / 2, b / 2)
  }

  /** `a & b`, bit by bit from the least significant end. */
  function And(a: nat, b: nat): nat
    decreases a + b
  {
    if a == 0 || b == 0 then 0
    else HalvesDecrease(a, b); (a % 2) * (b % 2) + 2 * And(a / 2, b / 2)
  }

  /** `a | b`, bit by bit from the least significant end. */
  function Or(a: nat, b: nat): nat
    decreases a + b
  {
    if a == 0 && b == 0 then 0
    else HalvesDecrease(a, b); (if a % 2 == 1 || b % 2 == 1 then 1 else 0) + 2 * Or(a / 2, b / 2)
  }

  /** The bitwise operations keep within the width of their operands. */
  lemma {:induction false} BitwiseBound(a: nat, b: nat, k: nat)
    requires a < Pow2(k) && b < Pow2(k)
    ensures Xor(a, b) < Pow2(k) && And(a, b) < Pow2(k) && Or(a, b) < Pow2(k)
    decreases k
  {
    if k > 0 && !(a == 0 && b == 0) {
      assert a / 2 < Pow2(k - 1) && b / 2 < Pow2(k - 1);
      BitwiseBound(a / 2, b / 2, k - 1);
    }
  }

  function XorByte(a: Byte, b: Byte): Byte
  {
    BitwiseBound(a, b, 8);
    Xor(a, b)
  }

  function AndByte(a: Byte, b: Byte): Byte
  {
    BitwiseBound(a, b, 8);
    And(a, b)
  }

  function OrByte(a: Byte, b: Byte): Byte
  {
    BitwiseBound(a, b, 8);
    Or(a, b)
  }

  /** A low bit and the rest put back together come apart again. */
  lemma HalfOf(c: nat, r: nat)
    requires c <= 1
    ensures (c + 2 * r) / 2 == r && (c + 2 * r) % 2 == c
  {
  }

  /** Two numbers with the same low bit and the same remaining bits are
      equal. */
  lemma SameBits(y: nat, z: nat)
    requires y % 2 == z % 2 && y / 2 == z / 2
    ensures y == z
  {
  }

  /** Adding `b` twice modulo 2 cancels. */
  lemma ParityTwice(a: nat, b: nat, x: nat)
    requires x % 2 == (a + b) % 2
    ensures (x + b) % 2 == a % 2
  {
  }

  /** Halving both operands, not both zero, lowers their sum. */
  lemma HalvesDecrease(a: nat, b: nat)
    requires !(a == 0 && b == 0)
    ensures a / 2 + b / 2 < a + b
  {
  }

  /** The low bit of an XOR and the XOR of the remaining bits. */
  lemma XorSplit(a: nat, b: nat)
    ensures Xor(a, b) % 2 == (a + b) % 2
    ensures Xor(a, b) / 2 == Xor(a / 2, b / 2)
  {
    if !(a == 0 && b == 0) {
      HalfOf((a + b) % 2, Xor(a / 2, b / 2));
    }
  }

  /** XOR-ing the same value in twice gives back the original. */
  lemma {:induction false} XorTwice(a: nat, b: nat)
    ensures Xor(Xor(a, b), b) == a
    decreases a + b
  {
    if !(a == 0 && b == 0) {
      HalvesDecrease(a, b);
      XorTwice(a / 2, b / 2);
      var x := Xor(a, b);
      XorSplit(a, b);
      XorSplit(x, b);
      ParityTwice(a, b, x);
      assert Xor(x, b) % 2 == a % 2;
      assert Xor(x, b) / 2 == a / 2;
      SameBits(Xor(x, b), a);
    }
  }

  lemma XorByteTwice(a: Byte, b: Byte)
    ensures XorByte(XorByte(a, b), b) == a
  {
    XorTwice(a, b);
  }

  /** Masking with `b` never gives more than `b`. */
  lemma {:induction false} AndAtMost(a: nat, b: nat)
    ensures And(a, b) <= b
    decreases a + b
  {
    if a != 0 && b != 0 {
      HalvesDecrease(a, b);
      AndAtMost(a / 2, b / 2);
    }
  }

  /** On single bits, XOR is addition modulo 2. */
  lemma XorOfBits(a: Byte, b: Byte)
    requires a <= 1 && b <= 1
    ensures XorByte(a, b) == (a + b) % 2
  {
  }

  /** A non-zero value below `2^width` has a set bit below `width`. */
  lemma {:induction false} NonZeroHasSetBit(b: nat, width: nat) returns (j: nat)
    requires 0 < b < Pow2(width)
    ensures j < width && Bit(b, j) == 1
  {
    if b % 2 == 1 {
      j := 0;
    } else {
      assert 0 < b / 2 < Pow2(width - 1);
      var j' := NonZeroHasSetBit(b / 2, width - 1);
      j := j' + 1;
    }
  }

  /** The mask of the `m` low bits, `2^m - 1`, has exactly those bits set. */
  lemma {:induction false} BitOfLowMask(m: nat, j: nat)
    ensures Bit(Pow2(m) - 1, j) == if j < m then 1 else 0
  {
    if j == 0 {
      if m > 0 {
        assert Pow2(m) == 2 * Pow2(m - 1);
      }
    } else if m == 0 {
      ZeroHasNoSetBit(j);
    } else {
      assert (Pow2(m) - 1) / 2 == Pow2(m - 1) - 1;
      BitOfLowMask(m - 1, j - 1);
    }
  }

  /** Every bit of zero is clear. */
  lemma {:induction false} ZeroHasNoSetBit(j: nat)
    ensures Bit(0, j) == 0
  {
    if j > 0 {
      ZeroHasNoSetBit(j - 1);
    }
  }
}
