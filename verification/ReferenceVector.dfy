/** random_test.go: the words and draws every implementation of the generator has to yield. */
module ReferenceVector {
  import opened SeededRandoms
  import opened Words

  /** Four hexadecimal digits, most significant first, and a word in sixteen. */
  datatype Quad = Quad(a: nat, b: nat, c: nat, d: nat)

  datatype Hex = Hex(q0: Quad, q1: Quad, q2: Quad, q3: Quad)

  predicate IsQuad(q: Quad) {
    q.a < 16 && q.b < 16 && q.c < 16 && q.d < 16
  }

  predicate IsHex(h: Hex) {
    IsQuad(h.q0) && IsQuad(h.q1) && IsQuad(h.q2) && IsQuad(h.q3)
  }

  function QuadValue(q: Quad): nat {
    ((q.a * 16 + q.b) * 16 + q.c) * 16 + q.d
  }

  function Value(h: Hex): nat {
    ((QuadValue(h.q0) * 0x1_0000 + QuadValue(h.q1)) * 0x1_0000 + QuadValue(h.q2)) * 0x1_0000 + QuadValue(h.q3)
  }

  // ---------- exclusive or, digit by digit ----------

  function Without(x: nat, bit: nat): nat {
    if x >= bit then x - bit else x
  }

  function Differ(x: nat, y: nat, bit: nat): nat {
    if (x >= bit) != (y >= bit) then bit else 0
  }

  /** The exclusive or of two digits, from the highest bit down. */
  function DigitXor(x: nat, y: nat): nat {
    var x2, y2 := Without(x, 8), Without(y, 8);
    var x1, y1 := Without(x2, 4), Without(y2, 4);
    var x0, y0 := Without(x1, 2), Without(y1, 2);
    Differ(x, y, 8) + Differ(x2, y2, 4) + Differ(x1, y1, 2) + Differ(x0, y0, 1)
  }

  function QuadXor(p: Quad, q: Quad): Quad {
    Quad(DigitXor(p.a, q.a), DigitXor(p.b, q.b), DigitXor(p.c, q.c), DigitXor(p.d, q.d))
  }

  function HexXor(p: Hex, q: Hex): Hex {
    Hex(QuadXor(p.q0, q.q0), QuadXor(p.q1, q.q1), QuadXor(p.q2, q.q2), QuadXor(p.q3, q.q3))
  }

  function Other(x: nat, y: nat): nat {
    if x == y then 0 else 1
  }

  lemma BitStep(a: nat, b: nat, x: nat, y: nat)
    requires x < 2 && y < 2
    ensures Xor(2 * a + x, 2 * b + y) == 2 * Xor(a, b) + Other(x, y)
  {
    var p, q := 2 * a + x, 2 * b + y;
    assert p / 2 == a && q / 2 == b && p % 2 == x && q % 2 == y;
    XorHalf(p, q);
  }

  function Bit(x: nat, bit: nat): nat {
    if x >= bit then 1 else 0
  }

  /** The lower bits of a digit. */
  function Low3(x: nat): nat {
    Without(x, 8)
  }

  function Low2(x: nat): nat {
    Without(Low3(x), 4)
  }

  function Low1(x: nat): nat {
    Without(Low2(x), 2)
  }

  lemma DigitBits(x: nat)
    requires x < 16
    ensures x == 8 * Bit(x, 8) + 4 * Bit(Low3(x), 4) + 2 * Bit(Low2(x), 2) + Low1(x) && Low1(x) < 2
  {
  }

  lemma DigitXorBits(x: nat, y: nat)
    requires x < 16 && y < 16
    ensures DigitXor(x, y) == 8 * Other(Bit(x, 8), Bit(y, 8)) + 4 * Other(Bit(Low3(x), 4), Bit(Low3(y), 4))
                              + 2 * Other(Bit(Low2(x), 2), Bit(Low2(y), 2)) + Other(Low1(x), Low1(y))
  {
  }

  /** Appending a bit to a is 2 * a + x; four of them make a hexadecimal digit. */
  lemma FourBits(a: nat, b: nat, x3: nat, y3: nat, x2: nat, y2: nat, x1: nat, y1: nat, x0: nat, y0: nat)
    requires x3 < 2 && y3 < 2 && x2 < 2 && y2 < 2 && x1 < 2 && y1 < 2 && x0 < 2 && y0 < 2
    ensures Xor(a * 16 + (8 * x3 + 4 * x2 + 2 * x1 + x0), b * 16 + (8 * y3 + 4 * y2 + 2 * y1 + y0))
         == Xor(a, b) * 16 + 8 * Other(x3, y3) + 4 * Other(x2, y2) + 2 * Other(x1, y1) + Other(x0, y0)
  {
    hide Xor;
    var a3, b3 := 2 * a + x3, 2 * b + y3;
    var a2, b2 := 2 * a3 + x2, 2 * b3 + y2;
    var a1, b1 := 2 * a2 + x1, 2 * b2 + y1;
    BitStep(a, b, x3, y3);
    BitStep(a3, b3, x2, y2);
    BitStep(a2, b2, x1, y1);
    BitStep(a1, b1, x0, y0);
  }

  lemma DigitStep(a: nat, b: nat, x: nat, y: nat)
    requires x < 16 && y < 16
    ensures Xor(a * 16 + x, b * 16 + y) == Xor(a, b) * 16 + DigitXor(x, y)
  {
    hide Xor, DigitXor, Low3, Low2, Low1;
    DigitBits(x);
    DigitBits(y);
    DigitXorBits(x, y);
    FourBits(a, b, Bit(x, 8), Bit(y, 8), Bit(Low3(x), 4), Bit(Low3(y), 4),
             Bit(Low2(x), 2), Bit(Low2(y), 2), Low1(x), Low1(y));
  }

  lemma QuadStep(a: nat, b: nat, p: Quad, q: Quad)
    requires IsQuad(p) && IsQuad(q)
    ensures Xor(a * 0x1_0000 + QuadValue(p), b * 0x1_0000 + QuadValue(q))
         == Xor(a, b) * 0x1_0000 + QuadValue(QuadXor(p, q))
  {
    hide Xor, DigitXor;
    DigitStep(a, b, p.a, q.a);
    DigitStep(a * 16 + p.a, b * 16 + q.a, p.b, q.b);
    DigitStep((a * 16 + p.a) * 16 + p.b, (b * 16 + q.a) * 16 + q.b, p.c, q.c);
    DigitStep(((a * 16 + p.a) * 16 + p.b) * 16 + p.c, ((b * 16 + q.a) * 16 + q.b) * 16 + q.c, p.d, q.d);
  }

  lemma HexXorIsXor(p: Hex, q: Hex)
    requires IsHex(p) && IsHex(q)
    ensures Xor(Value(p), Value(q)) == Value(HexXor(p, q))
  {
    hide Xor, QuadXor, QuadValue;
    var a0, b0 := QuadValue(p.q0), QuadValue(q.q0);
    var a1, b1 := a0 * 0x1_0000 + QuadValue(p.q1), b0 * 0x1_0000 + QuadValue(q.q1);
    var a2, b2 := a1 * 0x1_0000 + QuadValue(p.q2), b1 * 0x1_0000 + QuadValue(q.q2);
    XorSelf(0);
    QuadStep(0, 0, p.q0, q.q0);
    QuadStep(a0, b0, p.q1, q.q1);
    QuadStep(a1, b1, p.q2, q.q2);
    QuadStep(a2, b2, p.q3, q.q3);
  }

  // ---------- one word ----------

  lemma QuotientIsUnique(a: nat, p: nat, x: nat, y: nat)
    requires p > 0 && x * p <= a < (x + 1) * p && y * p <= a < y * p + p
    ensures x == y
  {
    assert x < y ==> (x + 1) * p <= y * p;
    assert y < x ==> (y + 1) * p <= x * p;
  }

  lemma ShiftPowers()
    ensures Pow2(27) == 0x800_0000 && Pow2(30) == 0x4000_0000 && Pow2(31) == 0x8000_0000
  {
    assert Pow2(3) == 8 && Pow2(4) == 16;
    Pow2Add(4, 4);
    Pow2Add(8, 8);
    Pow2Add(8, 3);
    Pow2Add(16, 11);
    Pow2Add(27, 3);
    Pow2Add(27, 4);
  }

  lemma QuadsXor(p: Hex, q: Hex, r: Hex)
    requires IsHex(p) && IsHex(q)
    requires r.q0 == QuadXor(p.q0, q.q0) && r.q1 == QuadXor(p.q1, q.q1)
    requires r.q2 == QuadXor(p.q2, q.q2) && r.q3 == QuadXor(p.q3, q.q3)
    ensures Xor(Value(p), Value(q)) == Value(r)
  {
    hide Xor, QuadXor, QuadValue;
    HexXorIsXor(p, q);
  }

  /** The places the mixing rounds shift by, as factors. */
  function Factor(k: nat): nat {
    if k == 27 then 0x800_0000 else if k == 30 then 0x4000_0000 else 0x8000_0000
  }

  /** z moved right by k places is s, and their exclusive or is y; p, q and r are z, s and y in
      digits. */
  lemma ShiftedIs(p: Hex, q: Hex, r: Hex, z: Word, k: nat, s: nat, y: Word)
    requires IsHex(p) && IsHex(q) && Value(p) == z && Value(q) == s && Value(r) == y
    requires r.q0 == QuadXor(p.q0, q.q0) && r.q1 == QuadXor(p.q1, q.q1)
    requires r.q2 == QuadXor(p.q2, q.q2) && r.q3 == QuadXor(p.q3, q.q3)
    requires k in {27, 30, 31} && s * Factor(k) <= z < s * Factor(k) + Factor(k)
    ensures XorShift(z, k) == y
  {
    hide Xor, QuadXor, Value;
    ShiftPowers();
    ShrIsQuotient(z, k);
    QuotientIsUnique(z, Factor(k), Shr(z, k), s);
    QuadsXor(p, q, r);
  }

  lemma MixIs(z: Word, y1: Word, m1: Word, y2: Word, m2: Word, w: Word)
    requires XorShift(z, 30) == y1 && Mul(y1, MUL_1) == m1
    requires XorShift(m1, 27) == y2 && Mul(y2, MUL_2) == m2
    requires XorShift(m2, 31) == w
    ensures Mix(z) == w
  {
    hide XorShift, Mul;
  }

  lemma NumeratorIs(state: Word, w: Word, v: nat)
    requires Mix(state) == w && v * 2048 <= w < v * 2048 + 2048
    ensures Numerator(state) == v
  {
    hide Mix;
    ShrIsQuotient(w, 11);
    assert Pow2(11) == 2048;
  }

  // ---------- the vector ----------

  lemma Seed0Draw0Shift30()
    ensures XorShift(0x9E37_79B9_7F4A_7C15, 30) == 0x9E37_79BB_0797_9AF0
  {
    hide Xor, XorShift;
    ShiftedIs(Hex(Quad(9, 14, 3, 7), Quad(7, 9, 11, 9), Quad(7, 15, 4, 10), Quad(7, 12, 1, 5)),
              Hex(Quad(0, 0, 0, 0), Quad(0, 0, 0, 2), Quad(7, 8, 13, 13), Quad(14, 6, 14, 5)),
              Hex(Quad(9, 14, 3, 7), Quad(7, 9, 11, 11), Quad(0, 7, 9, 7), Quad(9, 10, 15, 0)),
              0x9E37_79B9_7F4A_7C15, 30, 0x0000_0002_78DD_E6E5, 0x9E37_79BB_0797_9AF0);
  }

  lemma Seed0Draw0Shift27()
    ensures XorShift(0x6F68_261B_57E7_A770, 27) == 0x6F68_2616_BAE3_641A
  {
    hide Xor, XorShift;
    ShiftedIs(Hex(Quad(6, 15, 6, 8), Quad(2, 6, 1, 11), Quad(5, 7, 14, 7), Quad(10, 7, 7, 0)),
              Hex(Quad(0, 0, 0, 0), Quad(0, 0, 0, 13), Quad(14, 13, 0, 4), Quad(12, 3, 6, 10)),
              Hex(Quad(6, 15, 6, 8), Quad(2, 6, 1, 6), Quad(11, 10, 14, 3), Quad(6, 4, 1, 10)),
              0x6F68_261B_57E7_A770, 27, 0x0000_000D_ED04_C36A, 0x6F68_2616_BAE3_641A);
  }

  lemma Seed0Draw0Shift31()
    ensures XorShift(0xE220_A838_BF5C_9DDE, 31) == 0xE220_A839_7B1D_CDAF
  {
    hide Xor, XorShift;
    ShiftedIs(Hex(Quad(14, 2, 2, 0), Quad(10, 8, 3, 8), Quad(11, 15, 5, 12), Quad(9, 13, 13, 14)),
              Hex(Quad(0, 0, 0, 0), Quad(0, 0, 0, 1), Quad(12, 4, 4, 1), Quad(5, 0, 7, 1)),
              Hex(Quad(14, 2, 2, 0), Quad(10, 8, 3, 9), Quad(7, 11, 1, 13), Quad(12, 13, 10, 15)),
              0xE220_A838_BF5C_9DDE, 31, 0x0000_0001_C441_5071, 0xE220_A839_7B1D_CDAF);
  }

  lemma Seed0Draw0()
    ensures WordAt(0, 0) == 0xE220_A839_7B1D_CDAF && Draw(0, 0) == 7956156453446585
  {
    hide Xor, XorShift, Mix;
    Seed0Draw0Shift30();
    Seed0Draw0Shift27();
    Seed0Draw0Shift31();
    MixIs(0x9E37_79B9_7F4A_7C15, 0x9E37_79BB_0797_9AF0, 0x6F68_261B_57E7_A770, 0x6F68_2616_BAE3_641A, 0xE220_A838_BF5C_9DDE, 0xE220_A839_7B1D_CDAF);
    NumeratorIs(0x9E37_79B9_7F4A_7C15, 0xE220_A839_7B1D_CDAF, 7956156453446585);
  }

  lemma Seed42Draw0Shift30()
    ensures XorShift(0x9E37_79B9_7F4A_7C3F, 30) == 0x9E37_79BB_0797_9ADA
  {
    hide Xor, XorShift;
    ShiftedIs(Hex(Quad(9, 14, 3, 7), Quad(7, 9, 11, 9), Quad(7, 15, 4, 10), Quad(7, 12, 3, 15)),
              Hex(Quad(0, 0, 0, 0), Quad(0, 0, 0, 2), Quad(7, 8, 13, 13), Quad(14, 6, 14, 5)),
              Hex(Quad(9, 14, 3, 7), Quad(7, 9, 11, 11), Quad(0, 7, 9, 7), Quad(9, 10, 13, 10)),
              0x9E37_79B9_7F4A_7C3F, 30, 0x0000_0002_78DD_E6E5, 0x9E37_79BB_0797_9ADA);
  }

  lemma Seed42Draw0Shift27()
    ensures XorShift(0xFDD2_02BA_DC3B_E98A, 27) == 0xFDD2_02A5_667B_BED1
  {
    hide Xor, XorShift;
    ShiftedIs(Hex(Quad(15, 13, 13, 2), Quad(0, 2, 11, 10), Quad(13, 12, 3, 11), Quad(14, 9, 8, 10)),
              Hex(Quad(0, 0, 0, 0), Quad(0, 0, 1, 15), Quad(11, 10, 4, 0), Quad(5, 7, 5, 11)),
              Hex(Quad(15, 13, 13, 2), Quad(0, 2, 10, 5), Quad(6, 6, 7, 11), Quad(11, 14, 13, 1)),
              0xFDD2_02BA_DC3B_E98A, 27, 0x0000_001F_BA40_575B, 0xFDD2_02A5_667B_BED1);
  }

  lemma Seed42Draw0Shift31()
    ensures XorShift(0xBDD7_3227_5445_0ADB, 31) == 0xBDD7_3226_2FEB_6E95
  {
    hide Xor, XorShift;
    ShiftedIs(Hex(Quad(11, 13, 13, 7), Quad(3, 2, 2, 7), Quad(5, 4, 4, 5), Quad(0, 10, 13, 11)),
              Hex(Quad(0, 0, 0, 0), Quad(0, 0, 0, 1), Quad(7, 11, 10, 14), Quad(6, 4, 4, 14)),
              Hex(Quad(11, 13, 13, 7), Quad(3, 2, 2, 6), Quad(2, 15, 14, 11), Quad(6, 14, 9, 5)),
              0xBDD7_3227_5445_0ADB, 31, 0x0000_0001_7BAE_644E, 0xBDD7_3226_2FEB_6E95);
  }

  lemma Seed42Draw0()
    ensures WordAt(42, 0) == 0xBDD7_3226_2FEB_6E95 && Draw(42, 0) == 6679422623415661
  {
    hide Xor, XorShift, Mix;
    Seed42Draw0Shift30();
    Seed42Draw0Shift27();
    Seed42Draw0Shift31();
    MixIs(0x9E37_79B9_7F4A_7C3F, 0x9E37_79BB_0797_9ADA, 0xFDD2_02BA_DC3B_E98A, 0xFDD2_02A5_667B_BED1, 0xBDD7_3227_5445_0ADB, 0xBDD7_3226_2FEB_6E95);
    NumeratorIs(0x9E37_79B9_7F4A_7C3F, 0xBDD7_3226_2FEB_6E95, 6679422623415661);
  }

  lemma Seed42Draw1Shift30()
    ensures XorShift(0x3C6E_F372_FE94_F854, 30) == 0x3C6E_F372_0F2F_359F
  {
    hide Xor, XorShift;
    ShiftedIs(Hex(Quad(3, 12, 6, 14), Quad(15, 3, 7, 2), Quad(15, 14, 9, 4), Quad(15, 8, 5, 4)),
              Hex(Quad(0, 0, 0, 0), Quad(0, 0, 0, 0), Quad(15, 1, 11, 11), Quad(12, 13, 12, 11)),
              Hex(Quad(3, 12, 6, 14), Quad(15, 3, 7, 2), Quad(0, 15, 2, 15), Quad(3, 5, 9, 15)),
              0x3C6E_F372_FE94_F854, 30, 0x0000_0000_F1BB_CDCB, 0x3C6E_F372_0F2F_359F);
  }

  lemma Seed42Draw1Shift27()
    ensures XorShift(0xD5D2_929E_59B0_FAE7, 27) == 0xD5D2_9284_E3E2_A92C
  {
    hide Xor, XorShift;
    ShiftedIs(Hex(Quad(13, 5, 13, 2), Quad(9, 2, 9, 14), Quad(5, 9, 11, 0), Quad(15, 10, 14, 7)),
              Hex(Quad(0, 0, 0, 0), Quad(0, 0, 1, 10), Quad(11, 10, 5, 2), Quad(5, 3, 12, 11)),
              Hex(Quad(13, 5, 13, 2), Quad(9, 2, 8, 4), Quad(14, 3, 14, 2), Quad(10, 9, 2, 12)),
              0xD5D2_929E_59B0_FAE7, 27, 0x0000_001A_BA52_53CB, 0xD5D2_9284_E3E2_A92C);
  }

  lemma Seed42Draw1Shift31()
    ensures XorShift(0x28EF_E333_E3B9_3764, 31) == 0x28EF_E333_B266_F103
  {
    hide Xor, XorShift;
    ShiftedIs(Hex(Quad(2, 8, 14, 15), Quad(14, 3, 3, 3), Quad(14, 3, 11, 9), Quad(3, 7, 6, 4)),
              Hex(Quad(0, 0, 0, 0), Quad(0, 0, 0, 0), Quad(5, 1, 13, 15), Quad(12, 6, 6, 7)),
              Hex(Quad(2, 8, 14, 15), Quad(14, 3, 3, 3), Quad(11, 2, 6, 6), Quad(15, 1, 0, 3)),
              0x28EF_E333_E3B9_3764, 31, 0x0000_0000_51DF_C667, 0x28EF_E333_B266_F103);
  }

  lemma Seed42Draw1()
    ensures WordAt(42, 1) == 0x28EF_E333_B266_F103 && Draw(42, 1) == 1440344771546334
  {
    hide Xor, XorShift, Mix;
    Seed42Draw1Shift30();
    Seed42Draw1Shift27();
    Seed42Draw1Shift31();
    MixIs(0x3C6E_F372_FE94_F854, 0x3C6E_F372_0F2F_359F, 0xD5D2_929E_59B0_FAE7, 0xD5D2_9284_E3E2_A92C, 0x28EF_E333_E3B9_3764, 0x28EF_E333_B266_F103);
    NumeratorIs(0x3C6E_F372_FE94_F854, 0x28EF_E333_B266_F103, 1440344771546334);
  }

  lemma Seed42Draw2Shift30()
    ensures XorShift(0xDAA6_6D2C_7DDF_7469, 30) == 0xDAA6_6D2F_1746_C0D8
  {
    hide Xor, XorShift;
    ShiftedIs(Hex(Quad(13, 10, 10, 6), Quad(6, 13, 2, 12), Quad(7, 13, 13, 15), Quad(7, 4, 6, 9)),
              Hex(Quad(0, 0, 0, 0), Quad(0, 0, 0, 3), Quad(6, 10, 9, 9), Quad(11, 4, 11, 1)),
              Hex(Quad(13, 10, 10, 6), Quad(6, 13, 2, 15), Quad(1, 7, 4, 6), Quad(12, 0, 13, 8)),
              0xDAA6_6D2C_7DDF_7469, 30, 0x0000_0003_6A99_B4B1, 0xDAA6_6D2F_1746_C0D8);
  }

  lemma Seed42Draw2Shift27()
    ensures XorShift(0x4148_82ED_7D02_9418, 27) == 0x4148_82E5_5412_C9B7
  {
    hide Xor, XorShift;
    ShiftedIs(Hex(Quad(4, 1, 4, 8), Quad(8, 2, 14, 13), Quad(7, 13, 0, 2), Quad(9, 4, 1, 8)),
              Hex(Quad(0, 0, 0, 0), Quad(0, 0, 0, 8), Quad(2, 9, 1, 0), Quad(5, 13, 10, 15)),
              Hex(Quad(4, 1, 4, 8), Quad(8, 2, 14, 5), Quad(5, 4, 1, 2), Quad(12, 9, 11, 7)),
              0x4148_82ED_7D02_9418, 27, 0x0000_0008_2910_5DAF, 0x4148_82E5_5412_C9B7);
  }

  lemma Seed42Draw2Shift31()
    ensures XorShift(0x4752_6757_9DAB_51FD, 31) == 0x4752_6757_130F_9F52
  {
    hide Xor, XorShift;
    ShiftedIs(Hex(Quad(4, 7, 5, 2), Quad(6, 7, 5, 7), Quad(9, 13, 10, 11), Quad(5, 1, 15, 13)),
              Hex(Quad(0, 0, 0, 0), Quad(0, 0, 0, 0), Quad(8, 14, 10, 4), Quad(12, 14, 10, 15)),
              Hex(Quad(4, 7, 5, 2), Quad(6, 7, 5, 7), Quad(1, 3, 0, 15), Quad(9, 15, 5, 2)),
              0x4752_6757_9DAB_51FD, 31, 0x0000_0000_8EA4_CEAF, 0x4752_6757_130F_9F52);
  }

  lemma Seed42Draw2()
    ensures WordAt(42, 2) == 0x4752_6757_130F_9F52 && Draw(42, 2) == 2509415892804083
  {
    hide Xor, XorShift, Mix;
    Seed42Draw2Shift30();
    Seed42Draw2Shift27();
    Seed42Draw2Shift31();
    MixIs(0xDAA6_6D2C_7DDF_7469, 0xDAA6_6D2F_1746_C0D8, 0x4148_82ED_7D02_9418, 0x4148_82E5_5412_C9B7, 0x4752_6757_9DAB_51FD, 0x4752_6757_130F_9F52);
    NumeratorIs(0xDAA6_6D2C_7DDF_7469, 0x4752_6757_130F_9F52, 2509415892804083);
  }

  lemma Seed42Draw3Shift30()
    ensures XorShift(0x78DD_E6E5_FD29_F07E, 30) == 0x78DD_E6E4_1E5E_6BE9
  {
    hide Xor, XorShift;
    ShiftedIs(Hex(Quad(7, 8, 13, 13), Quad(14, 6, 14, 5), Quad(15, 13, 2, 9), Quad(15, 0, 7, 14)),
              Hex(Quad(0, 0, 0, 0), Quad(0, 0, 0, 1), Quad(14, 3, 7, 7), Quad(9, 11, 9, 7)),
              Hex(Quad(7, 8, 13, 13), Quad(14, 6, 14, 4), Quad(1, 14, 5, 14), Quad(6, 11, 14, 9)),
              0x78DD_E6E5_FD29_F07E, 30, 0x0000_0001_E377_9B97, 0x78DD_E6E4_1E5E_6BE9);
  }

  lemma Seed42Draw3Shift27()
    ensures XorShift(0x7B9C_DB1F_0047_6861, 27) == 0x7B9C_DB10_73DC_0B81
  {
    hide Xor, XorShift;
    ShiftedIs(Hex(Quad(7, 11, 9, 12), Quad(13, 11, 1, 15), Quad(0, 0, 4, 7), Quad(6, 8, 6, 1)),
              Hex(Quad(0, 0, 0, 0), Quad(0, 0, 0, 15), Quad(7, 3, 9, 11), Quad(6, 3, 14, 0)),
              Hex(Quad(7, 11, 9, 12), Quad(13, 11, 1, 0), Quad(7, 3, 13, 12), Quad(0, 11, 8, 1)),
              0x7B9C_DB1F_0047_6861, 27, 0x0000_000F_739B_63E0, 0x7B9C_DB10_73DC_0B81);
  }

  lemma Seed42Draw3Shift31()
    ensures XorShift(0x581C_E1FF_BE73_206B, 31) == 0x581C_E1FF_0E4A_E394
  {
    hide Xor, XorShift;
    ShiftedIs(Hex(Quad(5, 8, 1, 12), Quad(14, 1, 15, 15), Quad(11, 14, 7, 3), Quad(2, 0, 6, 11)),
              Hex(Quad(0, 0, 0, 0), Quad(0, 0, 0, 0), Quad(11, 0, 3, 9), Quad(12, 3, 15, 15)),
              Hex(Quad(5, 8, 1, 12), Quad(14, 1, 15, 15), Quad(0, 14, 4, 10), Quad(14, 3, 9, 4)),
              0x581C_E1FF_BE73_206B, 31, 0x0000_0000_B039_C3FF, 0x581C_E1FF_0E4A_E394);
  }

  lemma Seed42Draw3()
    ensures WordAt(42, 3) == 0x581C_E1FF_0E4A_E394 && Draw(42, 3) == 3100194365360476
  {
    hide Xor, XorShift, Mix;
    Seed42Draw3Shift30();
    Seed42Draw3Shift27();
    Seed42Draw3Shift31();
    MixIs(0x78DD_E6E5_FD29_F07E, 0x78DD_E6E4_1E5E_6BE9, 0x7B9C_DB1F_0047_6861, 0x7B9C_DB10_73DC_0B81, 0x581C_E1FF_BE73_206B, 0x581C_E1FF_0E4A_E394);
    NumeratorIs(0x78DD_E6E5_FD29_F07E, 0x581C_E1FF_0E4A_E394, 3100194365360476);
  }

  lemma Seed42Draw4Shift30()
    ensures XorShift(0x1715_609F_7C74_6C93, 30) == 0x1715_609F_2021_EEEE
  {
    hide Xor, XorShift;
    ShiftedIs(Hex(Quad(1, 7, 1, 5), Quad(6, 0, 9, 15), Quad(7, 12, 7, 4), Quad(6, 12, 9, 3)),
              Hex(Quad(0, 0, 0, 0), Quad(0, 0, 0, 0), Quad(5, 12, 5, 5), Quad(8, 2, 7, 13)),
              Hex(Quad(1, 7, 1, 5), Quad(6, 0, 9, 15), Quad(2, 0, 2, 1), Quad(14, 14, 14, 14)),
              0x1715_609F_7C74_6C93, 30, 0x0000_0000_5C55_827D, 0x1715_609F_2021_EEEE);
  }

  lemma Seed42Draw4Shift27()
    ensures XorShift(0x0EA4_3C6D_6738_8FFE, 27) == 0x0EA4_3C6C_B3BF_0252
  {
    hide Xor, XorShift;
    ShiftedIs(Hex(Quad(0, 14, 10, 4), Quad(3, 12, 6, 13), Quad(6, 7, 3, 8), Quad(8, 15, 15, 14)),
              Hex(Quad(0, 0, 0, 0), Quad(0, 0, 0, 1), Quad(13, 4, 8, 7), Quad(8, 13, 10, 12)),
              Hex(Quad(0, 14, 10, 4), Quad(3, 12, 6, 12), Quad(11, 3, 11, 15), Quad(0, 2, 5, 2)),
              0x0EA4_3C6D_6738_8FFE, 27, 0x0000_0001_D487_8DAC, 0x0EA4_3C6C_B3BF_0252);
  }

  lemma Seed42Draw4Shift31()
    ensures XorShift(0x09BC_585A_3730_9346, 31) == 0x09BC_585A_2448_23F2
  {
    hide Xor, XorShift;
    ShiftedIs(Hex(Quad(0, 9, 11, 12), Quad(5, 8, 5, 10), Quad(3, 7, 3, 0), Quad(9, 3, 4, 6)),
              Hex(Quad(0, 0, 0, 0), Quad(0, 0, 0, 0), Quad(1, 3, 7, 8), Quad(11, 0, 11, 4)),
              Hex(Quad(0, 9, 11, 12), Quad(5, 8, 5, 10), Quad(2, 4, 4, 8), Quad(2, 3, 15, 2)),
              0x09BC_585A_3730_9346, 31, 0x0000_0000_1378_B0B4, 0x09BC_585A_2448_23F2);
  }

  lemma Seed42Draw4()
    ensures WordAt(42, 4) == 0x09BC_585A_2448_23F2 && Draw(42, 4) == 342545305733380
  {
    hide Xor, XorShift, Mix;
    Seed42Draw4Shift30();
    Seed42Draw4Shift27();
    Seed42Draw4Shift31();
    MixIs(0x1715_609F_7C74_6C93, 0x1715_609F_2021_EEEE, 0x0EA4_3C6D_6738_8FFE, 0x0EA4_3C6C_B3BF_0252, 0x09BC_585A_3730_9346, 0x09BC_585A_2448_23F2);
    NumeratorIs(0x1715_609F_7C74_6C93, 0x09BC_585A_2448_23F2, 342545305733380);
  }

  /** The vector: seed 0's first word and its draw, and the first five draws of seed 42, as
      numerators over 2^53. */
  lemma MatchesReference()
    ensures WordAt(0, 0) == 0xE220_A839_7B1D_CDAF && Draw(0, 0) == 7956156453446585
    ensures Draws(42, 5) == [6679422623415661, 1440344771546334, 2509415892804083, 3100194365360476, 342545305733380]
  {
    hide WordAt, Draw;
    Seed0Draw0();
    Seed42Draw0();
    Seed42Draw1();
    Seed42Draw2();
    Seed42Draw3();
    Seed42Draw4();
  }
}
