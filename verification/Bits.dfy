/** Exclusive or and right shift on Python's non-negative integers, and arithmetic modulo 2^64. */
module Bits {

  function Pow2(k: nat): nat {
    if k == 0 then 1 else 2 * Pow2(k - 1)
  }

  const WORD_SIZE: int := 0x1_0000_0000_0000_0000

  type Word = x: int | 0 <= x < 0x1_0000_0000_0000_0000

  function Xor(a: nat, b: nat): nat
    decreases a + b
  {
    if a + b == 0 then 0 else 2 * Xor(a / 2, b / 2) + (a % 2 + b % 2) % 2
  }

  function Shr(x: nat, k: nat): nat
    decreases k
  {
    if k == 0 then x else Shr(x / 2, k - 1)
  }

  lemma {:induction false} XorComm(a: nat, b: nat)
    ensures Xor(a, b) == Xor(b, a)
    decreases a + b
  {
    if a + b > 0 { XorComm(a / 2, b / 2); }
  }

  lemma {:induction false} XorZero(a: nat)
    ensures Xor(a, 0) == a && Xor(0, a) == a
  {
    if a > 0 { XorZero(a / 2); }
  }

  lemma {:induction false} XorSelf(a: nat)
    ensures Xor(a, a) == 0
  {
    if a > 0 { XorSelf(a / 2); }
  }

  lemma XorHalf(a: nat, b: nat)
    ensures Xor(a, b) / 2 == Xor(a / 2, b / 2) && Xor(a, b) % 2 == (a % 2 + b % 2) % 2
  {
  }

  lemma {:induction false} XorAssoc(a: nat, b: nat, c: nat)
    ensures Xor(Xor(a, b), c) == Xor(a, Xor(b, c))
    decreases a + b + c
  {
    hide Xor;
    if a + b + c > 0 {
      XorAssoc(a / 2, b / 2, c / 2);
      XorHalf(a, b);
      XorHalf(b, c);
      XorHalf(Xor(a, b), c);
      XorHalf(a, Xor(b, c));
      Parity(a % 2, b % 2, c % 2);
      XorBits(Xor(Xor(a, b), c), Xor(a, Xor(b, c)));
    } else {
      XorZero(0);
    }
  }

  lemma Parity(p: nat, q: nat, r: nat)
    requires p < 2 && q < 2 && r < 2
    ensures ((p + q) % 2 + r) % 2 == (p + (q + r) % 2) % 2
  {
  }

  lemma XorBits(x: nat, y: nat)
    requires x / 2 == y / 2 && x % 2 == y % 2
    ensures x == y
  {
  }

  /** Xor with a fixed word is its own inverse, hence injective. */
  lemma XorCancel(a: nat, b: nat)
    ensures Xor(Xor(a, b), b) == a
  {
    XorAssoc(a, b, b);
    XorSelf(b);
    XorZero(a);
  }

  lemma {:induction false} XorBound(a: nat, b: nat, k: nat)
    requires a < Pow2(k) && b < Pow2(k)
    ensures Xor(a, b) < Pow2(k)
    decreases k
  {
    if k > 0 { XorBound(a / 2, b / 2, k - 1); XorHalf(a, b); } else { XorZero(0); }
  }

  lemma {:induction false} ShrXor(a: nat, b: nat, k: nat)
    ensures Shr(Xor(a, b), k) == Xor(Shr(a, k), Shr(b, k))
    decreases k
  {
    if k > 0 { XorHalf(a, b); ShrXor(a / 2, b / 2, k - 1); }
  }

  lemma {:induction false} ShrShr(x: nat, j: nat, k: nat)
    ensures Shr(Shr(x, j), k) == Shr(x, j + k)
    decreases j
  {
    if j > 0 { ShrShr(x / 2, j - 1, k); }
  }

  lemma {:induction false} ShrAll(x: nat, k: nat)
    requires x < Pow2(k)
    ensures Shr(x, k) == 0
    decreases k
  {
    if k > 0 { ShrAll(x / 2, k - 1); }
  }

  lemma {:induction false} ShrSmaller(x: nat, k: nat)
    ensures Shr(x, k) <= x
    decreases k
  {
    if k > 0 { ShrSmaller(x / 2, k - 1); }
  }

  /** The right shift is the floor division by a power of two. */
  lemma {:induction false} ShrIsDivision(x: nat, k: nat)
    ensures Shr(x, k) * Pow2(k) <= x < (Shr(x, k) + 1) * Pow2(k)
    decreases k
  {
    if k > 0 {
      ShrIsDivision(x / 2, k - 1);
      Double(Shr(x / 2, k - 1), Pow2(k - 1));
      Double(Shr(x / 2, k - 1) + 1, Pow2(k - 1));
    }
  }

  lemma Double(y: nat, p: nat)
    ensures y * (2 * p) == 2 * (y * p)
  {
  }

  lemma WordBits()
    ensures Pow2(64) == WORD_SIZE && Pow2(16) == 0x1_0000
  {
    assert Pow2(4) == 0x10;
    PowAdd(4, 4);
    PowAdd(8, 8);
    PowAdd(16, 16);
    PowAdd(32, 32);
  }

  lemma PowStep(k: nat)
    ensures Pow2(0) == 1 && Pow2(k + 1) == 2 * Pow2(k)
  {
  }

  lemma {:induction false} PowAdd(j: nat, k: nat)
    ensures Pow2(j + k) == Pow2(j) * Pow2(k)
  {
    hide Pow2;
    if j == 0 {
      PowStep(k);
    } else {
      PowAdd(j - 1, k);
      PowStep(j - 1);
      PowStep(j - 1 + k);
      calc {
        Pow2(j + k);
        2 * Pow2(j - 1 + k);
        2 * (Pow2(j - 1) * Pow2(k));
        { Double(Pow2(k), Pow2(j - 1)); }
        (2 * Pow2(j - 1)) * Pow2(k);
        Pow2(j) * Pow2(k);
      }
    }
  }

  function XorWord(a: Word, b: Word): Word {
    WordBits(); XorBound(a, b, 64);
    Xor(a, b)
  }

  lemma XorWordInjective(a: Word, b: Word, c: Word)
    ensures XorWord(a, c) == XorWord(b, c) <==> a == b
    ensures XorWord(c, a) == XorWord(c, b) <==> a == b
  {
    XorCancel(a, c);
    XorCancel(b, c);
    XorComm(a, c);
    XorComm(b, c);
  }

  // ---------------------------------------------------------------- multiplication modulo 2^64

  function Times(x: Word, m: Word): Word {
    x * m % WORD_SIZE
  }

  /** Multiplication by an odd constant is undone by its inverse modulo 2^64. */
  lemma TimesInverse(x: Word, m: Word, n: Word)
    requires m * n % WORD_SIZE == 1
    ensures Times(Times(x, m), n) == x
  {
    var q, k := x * m / WORD_SIZE, m * n / WORD_SIZE;
    Cofactors(x, m, n, q, k, Times(x, m), WORD_SIZE);
    Remainder(x, x * k - q * n);
  }

  lemma Cofactors(x: int, m: int, n: int, q: int, k: int, r: int, size: int)
    requires x * m == q * size + r && m * n == k * size + 1
    ensures r * n == x + size * (x * k - q * n)
  {
    calc {
      r * n;
      (x * m - q * size) * n;
      (x * m) * n - (q * size) * n;
      x * (m * n) - (q * size) * n;
      x * (k * size + 1) - (q * size) * n;
      x + size * (x * k - q * n);
    }
  }

  lemma Remainder(x: Word, j: int)
    ensures (x + WORD_SIZE * j) % WORD_SIZE == x
  {
  }
}
