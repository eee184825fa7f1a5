/** Unsigned 64-bit words as bounded naturals, with the operations the generator in
    random.go applies to them: exclusive or, right shift and wrapping multiplication. */
module Words {

  const W: nat := 0x1_0000_0000_0000_0000

  /** The values of Go's uint64. */
  type Word = x: nat | x < W witness 0

  function Pow2(n: nat): (p: nat)
    ensures p > 0
  {
    if n == 0 then 1 else 2 * Pow2(n - 1)
  }

  /** Bitwise exclusive or, one bit at a time. */
  function Xor(a: nat, b: nat): nat {
    if a == 0 then b
    else if b == 0 then a
    else 2 * Xor(a / 2, b / 2) + (if a % 2 == b % 2 then 0 else 1)
  }

  /** Logical right shift. */
  function Shr(a: nat, k: nat): nat {
    if k == 0 then a else Shr(a / 2, k - 1)
  }

  lemma Pow2Of64()
    ensures Pow2(64) == W
  {
    assert Pow2(4) == 16;
    assert Pow2(8) == 0x100 by { Pow2Add(4, 4); }
    assert Pow2(16) == 0x1_0000 by { Pow2Add(8, 8); }
    assert Pow2(32) == 0x1_0000_0000 by { Pow2Add(16, 16); }
    Pow2Add(32, 32);
  }

  lemma {:induction false} Pow2Add(m: nat, n: nat)
    ensures Pow2(m + n) == Pow2(m) * Pow2(n)
  {
    if m > 0 {
      Pow2Add(m - 1, n);
    }
  }

  lemma {:induction false} XorHalf(a: nat, b: nat)
    ensures Xor(a, b) / 2 == Xor(a / 2, b / 2)
    ensures Xor(a, b) % 2 == (if a % 2 == b % 2 then 0 else 1)
  {
  }

  lemma {:induction false} XorComm(a: nat, b: nat)
    ensures Xor(a, b) == Xor(b, a)
  {
    if a != 0 && b != 0 {
      XorComm(a / 2, b / 2);
    }
  }

  lemma {:induction false} XorAssoc(a: nat, b: nat, c: nat)
    ensures Xor(Xor(a, b), c) == Xor(a, Xor(b, c))
  {
    if a != 0 && b != 0 && c != 0 {
      XorAssoc(a / 2, b / 2, c / 2);
      XorHalf(a, b);
      XorHalf(b, c);
      XorHalf(Xor(a, b), c);
      XorHalf(a, Xor(b, c));
    }
  }

  lemma {:induction false} XorSelf(a: nat)
    ensures Xor(a, a) == 0
  {
    if a != 0 {
      XorSelf(a / 2);
    }
  }

  /** What was added by an exclusive or is taken away by repeating it. */
  lemma XorCancel(a: nat, b: nat)
    ensures Xor(Xor(a, b), b) == a
  {
    XorAssoc(a, b, b);
    XorSelf(b);
  }

  lemma {:induction false} XorBound(a: nat, b: nat, n: nat)
    requires a < Pow2(n) && b < Pow2(n)
    ensures Xor(a, b) < Pow2(n)
  {
    if a != 0 && b != 0 {
      XorBound(a / 2, b / 2, n - 1);
    }
  }

  lemma {:induction false} ShrXor(a: nat, b: nat, k: nat)
    ensures Shr(Xor(a, b), k) == Xor(Shr(a, k), Shr(b, k))
  {
    if k > 0 {
      XorHalf(a, b);
      ShrXor(a / 2, b / 2, k - 1);
    }
  }

  lemma {:induction false} ShrShr(a: nat, j: nat, k: nat)
    ensures Shr(Shr(a, j), k) == Shr(a, j + k)
  {
    if j > 0 {
      ShrShr(a / 2, j - 1, k);
    }
  }

  lemma {:induction false} ShrBound(a: nat, k: nat)
    ensures Shr(a, k) <= a
  {
    if k > 0 {
      ShrBound(a / 2, k - 1);
    }
  }

  lemma {:induction false} ShrVanishes(a: nat, k: nat)
    requires a < Pow2(k)
    ensures Shr(a, k) == 0
  {
    if k > 0 {
      ShrVanishes(a / 2, k - 1);
    }
  }

  lemma ShrVanishesOnWords(a: Word, k: nat)
    requires k >= 64
    ensures Shr(a, k) == 0
  {
    Pow2Of64();
    ShrVanishes(a, 64);
    ShrShr(a, 64, k - 64);
    ShrBound(0, k - 64);
  }

  /** Shr(a, k) is the quotient of a by 2^k. */
  lemma {:induction false} ShrIsQuotient(a: nat, k: nat)
    ensures Shr(a, k) * Pow2(k) <= a < (Shr(a, k) + 1) * Pow2(k)
  {
    if k > 0 {
      ShrIsQuotient(a / 2, k - 1);
      Doubled(a, Shr(a / 2, k - 1), Pow2(k - 1));
    }
  }

  lemma Doubled(a: nat, s: nat, p: nat)
    requires s * p <= a / 2 < (s + 1) * p
    ensures s * (2 * p) <= a < (s + 1) * (2 * p)
  {
    var x := s * p;
    assert (s + 1) * p == x + p;
    assert s * (2 * p) == 2 * x;
    assert (s + 1) * (2 * p) == 2 * x + 2 * p;
  }

  /** z ^ (z >> k), the xor-shift of the mixing rounds. */
  function XorShift(z: Word, k: nat): (r: Word)
  {
    XorShiftIsWord(z, k);
    Xor(z, Shr(z, k))
  }

  lemma XorShiftIsWord(z: Word, k: nat)
    ensures Xor(z, Shr(z, k)) < W
  {
    Pow2Of64();
    ShrBound(z, k);
    XorBound(z, Shr(z, k), 64);
  }

  /** The word whose xor-shift by k is y, for shifts of at least 22 places. */
  function UnXorShift(y: Word, k: nat): (z: Word)
  {
    XorShiftIsWord(y, k);
    UnXorShiftIsWord(y, k);
    Xor(Xor(y, Shr(y, k)), Shr(y, 2 * k))
  }

  lemma UnXorShiftIsWord(y: Word, k: nat)
    ensures Xor(Xor(y, Shr(y, k)), Shr(y, 2 * k)) < W
  {
    XorShiftIsWord(y, k);
    Pow2Of64();
    ShrBound(y, 2 * k);
    XorBound(Xor(y, Shr(y, k)), Shr(y, 2 * k), 64);
  }

  /** (a ^ b) ^ (b ^ c) == a ^ c. */
  lemma XorTelescopes(a: nat, b: nat, c: nat)
    ensures Xor(Xor(a, b), Xor(b, c)) == Xor(a, c)
  {
    XorAssoc(Xor(a, b), b, c);
    XorCancel(a, b);
  }

  /** A xor-shift by at least 22 places is undone on both sides by UnXorShift. */
  lemma XorShiftInverse(z: Word, k: nat)
    requires k >= 22
    ensures UnXorShift(XorShift(z, k), k) == z
    ensures XorShift(UnXorShift(z, k), k) == z
  {
    var a, b, c := z, Shr(z, k), Shr(z, 2 * k);
    ShrShr(z, k, k);
    ShrShr(z, k, 2 * k);
    ShrShr(z, 2 * k, k);
    ShrVanishesOnWords(z, 3 * k);
    // undo after do: y = a^b, y>>k = b^c, y>>2k = c
    ShrXor(a, b, k);
    ShrXor(a, b, 2 * k);
    XorTelescopes(a, b, c);
    XorCancel(a, c);
    // do after undo: x = a^b^c, x>>k = b^c^0
    ShrXor(Xor(a, b), c, k);
    XorAssoc(a, b, c);
    XorCancel(a, Xor(b, c));
  }

  /** Wrapping multiplication. */
  function Mul(a: Word, m: Word): Word {
    (a * m) % W
  }

  /** The product, less whole multiples of 2^64: what Go's uint64 multiplication keeps. */
  lemma MulIsProduct(a: Word, m: Word)
    ensures 0 <= Mul(a, m) < W
    ensures exists k: nat :: a * m == Mul(a, m) + W * k
  {
    var k: nat := a * m / W;
    assert a * m == Mul(a, m) + W * k;
  }
}
