/**
 * size_t arithmetic needed by the layout-cache hash: 64-bit words and their
 * bitwise exclusive or, defined digit by digit on naturals.
 */
module SizeT {
  const WORD_MODULUS: nat := 0x1_0000_0000_0000_0000

  /** size_t: a 64-bit unsigned value. */
  type Word = w: nat | w < WORD_MODULUS

  /** Bitwise exclusive or of two naturals, one binary digit at a time. */
  function Xor(a: nat, b: nat): nat
    decreases a + b
  {
    if a == 0 then b
    else if b == 0 then a
    else 2 * Xor(a / 2, b / 2) + (a + b) % 2
  }

  /** 2 to the power k. */
  function Pow2(k: nat): (r: nat)
    ensures r > 0
  {
    if k == 0 then 1 else 2 * Pow2(k - 1)
  }

  /** The low digit of a ^ b is the parity of a + b; the rest is the XOR of the rest. */
  lemma XorDigits(a: nat, b: nat)
    ensures Xor(a, b) / 2 == Xor(a / 2, b / 2)
    ensures Xor(a, b) % 2 == (a + b) % 2
  {
  }

  /** XOR is commutative. */
  lemma {:induction false} XorComm(a: nat, b: nat)
    ensures Xor(a, b) == Xor(b, a)
    decreases a + b
  {
    if a != 0 && b != 0 {
      XorComm(a / 2, b / 2);
    }
  }

  /** Two naturals with the same low digit and the same remaining digits are equal. */
  lemma SameDigits(x: nat, y: nat)
    requires x / 2 == y / 2 && x % 2 == y % 2
    ensures x == y
  {
  }

  lemma Parity(x: nat, a: nat, b: nat, c: nat)
    requires x % 2 == (a + b) % 2
    ensures (x + c) % 2 == (a + b + c) % 2
  {
  }

  /** XOR is associative. */
  lemma {:induction false} XorAssoc(a: nat, b: nat, c: nat)
    ensures Xor(Xor(a, b), c) == Xor(a, Xor(b, c))
    decreases a + b + c
  {
    if a != 0 && b != 0 && c != 0 {
      var ab, bc := Xor(a, b), Xor(b, c);
      var lhs, rhs := Xor(ab, c), Xor(a, bc);
      XorAssoc(a / 2, b / 2, c / 2);
      XorDigits(a, b);
      XorDigits(ab, c);
      XorDigits(b, c);
      XorDigits(a, bc);
      assert lhs / 2 == rhs / 2;
      Parity(ab, a, b, c);
      Parity(bc, b, c, a);
      assert lhs % 2 == rhs % 2;
      SameDigits(lhs, rhs);
    }
  }

  /** XOR of two k-digit numbers has at most k digits. */
  lemma {:induction false} XorBelow(a: nat, b: nat, k: nat)
    requires a < Pow2(k) && b < Pow2(k)
    ensures Xor(a, b) < Pow2(k)
  {
    if k > 0 && a != 0 && b != 0 {
      XorBelow(a / 2, b / 2, k - 1);
    }
  }

  lemma {:induction false} Pow2Add(m: nat, n: nat)
    ensures Pow2(m + n) == Pow2(m) * Pow2(n)
  {
    if m > 0 {
      Pow2Add(m - 1, n);
    }
  }

  lemma WordBound()
    ensures Pow2(64) == WORD_MODULUS
  {
    assert Pow2(8) == 256;
    Pow2Add(8, 8);
    Pow2Add(16, 16);
    Pow2Add(32, 32);
  }

  /** size_t ^ size_t. */
  function XorWord(a: Word, b: Word): Word {
    WordBound();
    XorBelow(a, b, 64);
    Xor(a, b)
  }
}
