/**
 Fixed values of the loss sampler: the shifts and constants are those of SplitMix64, whose first output
 for the seed 0 is 0xe220a8397b1dcdaf.
 */
module LossVectors {
  import opened LossSampling

  /** One more bit at the lower end of both numbers. */
  lemma SumBits(a: nat, b: nat, x: nat, i: nat, j: nat)
    requires i < 2 && j < 2 && Xor(a, b) == x
    ensures Xor(2 * a + i, 2 * b + j) == 2 * x + (i + j) % 2
  {
    hide Xor;
    XorBits(2 * a + i, 2 * b + j);
    BitOf(a, i);
    BitOf(b, j);
  }

  lemma BitOf(a: nat, i: nat)
    requires i < 2
    ensures (2 * a + i) / 2 == a && (2 * a + i) % 2 == i
  {
  }

  /** One more hexadecimal digit, from its bits, at the lower end of both numbers. */
  lemma AppendBits(a: nat, b: nat, x: nat, i3: nat, i2: nat, i1: nat, i0: nat, j3: nat, j2: nat, j1: nat, j0: nat)
    requires i3 < 2 && i2 < 2 && i1 < 2 && i0 < 2 && j3 < 2 && j2 < 2 && j1 < 2 && j0 < 2 && Xor(a, b) == x
    ensures Xor(16 * a + (8 * i3 + 4 * i2 + 2 * i1 + i0), 16 * b + (8 * j3 + 4 * j2 + 2 * j1 + j0))
      == 16 * x + 8 * ((i3 + j3) % 2) + 4 * ((i2 + j2) % 2) + 2 * ((i1 + j1) % 2) + (i0 + j0) % 2
  {
    hide Xor;
    SumBits(a, b, x, i3, j3);
    SumBits(2 * a + i3, 2 * b + j3, 2 * x + (i3 + j3) % 2, i2, j2);
    SumBits(4 * a + 2 * i3 + i2, 4 * b + 2 * j3 + j2, 4 * x + 2 * ((i3 + j3) % 2) + (i2 + j2) % 2, i1, j1);
    SumBits(8 * a + 4 * i3 + 2 * i2 + i1, 8 * b + 4 * j3 + 2 * j2 + j1,
      8 * x + 4 * ((i3 + j3) % 2) + 2 * ((i2 + j2) % 2) + (i1 + j1) % 2, i0, j0);
  }

  lemma Binary(n: nat) returns (i3: nat, i2: nat, i1: nat, i0: nat)
    requires n < 16
    ensures i3 < 2 && i2 < 2 && i1 < 2 && i0 < 2 && n == 8 * i3 + 4 * i2 + 2 * i1 + i0
  {
    i3, i2, i1, i0 := n / 8, n / 4 % 2, n / 2 % 2, n % 2;
  }

  /** One more hexadecimal digit at the lower end of both numbers. */
  lemma Append(a: nat, b: nat, x: nat, i: nat, j: nat, z: nat)
    requires i < 16 && j < 16 && Xor(a, b) == x && Xor(i, j) == z
    ensures Xor(16 * a + i, 16 * b + j) == 16 * x + z
  {
    hide Xor;
    var i3, i2, i1, i0 := Binary(i);
    var j3, j2, j1, j0 := Binary(j);
    NoDigits();
    AppendBits(a, b, x, i3, i2, i1, i0, j3, j2, j1, j0);
    AppendBits(0, 0, 0, i3, i2, i1, i0, j3, j2, j1, j0);
  }

  lemma NoDigits()
    ensures Xor(0, 0) == 0
  {
  }

  lemma {:induction false} ShiftDivides(x: nat, k: nat)
    ensures Shift(x, k) == x / Power(k)
    decreases k
  {
    if k > 0 {
      ShiftDivides(x / 2, k - 1);
      Quotients(x, Power(k - 1));
    }
  }

  lemma Quotients(x: nat, p: nat)
    requires p > 0
    ensures x / 2 / p == x / (2 * p)
  {
    var q := x / (2 * p);
    var r := x % (2 * p);
    assert x == q * (2 * p) + r && x / 2 == q * p + r / 2 && r / 2 < p;
    QuotientIs(q, r / 2, p);
  }

  lemma QuotientIs(q: nat, r: nat, p: nat)
    requires r < p
    ensures (q * p + r) / p == q
  {
    var d: int := (q * p + r) / p;
    assert d * p <= q * p + r < d * p + p;
    if d < q { Monotone(d + 1, q, p); }
    if q < d { Monotone(q + 1, d, p); }
  }

  lemma Monotone(a: int, b: int, p: int)
    requires a <= b && 0 <= p
    ensures a * p <= b * p
  {
  }

  lemma ThirtyOne()
    ensures Power(30) == 0x4000_0000 && Power(27) == 0x800_0000 && Power(31) == 0x8000_0000
  {
    assert Power(8) == 256;
    PowerAdds(8, 8);
    PowerAdds(16, 11);
    PowerAdds(27, 3);
    PowerAdds(27, 4);
  }

  lemma Digits()
    ensures Xor(0x9e3779b, 0) == 0x9e3779b && Xor(0x6f68261, 0) == 0x6f68261 && Xor(0xe220a83, 0) == 0xe220a83
    ensures Xor(0x0, 0xa) == 0xa && Xor(0x1, 0xe) == 0xf && Xor(0x4, 0xd) == 0x9
    ensures Xor(0x5, 0x4) == 0x1 && Xor(0x5, 0x5) == 0x0 && Xor(0x5, 0xe) == 0xb
    ensures Xor(0x7, 0x3) == 0x4 && Xor(0x7, 0x4) == 0x3 && Xor(0x7, 0x6) == 0x1
    ensures Xor(0x7, 0x7) == 0x0 && Xor(0x7, 0xd) == 0xa && Xor(0x7, 0xe) == 0x9
    ensures Xor(0x8, 0x1) == 0x9 && Xor(0x9, 0x2) == 0xb && Xor(0x9, 0x5) == 0xc
    ensures Xor(0xa, 0xc) == 0x6 && Xor(0xa, 0xd) == 0x7 && Xor(0xb, 0xc) == 0x7
    ensures Xor(0xb, 0xd) == 0x6 && Xor(0xc, 0x1) == 0xd && Xor(0xc, 0x6) == 0xa
    ensures Xor(0xd, 0x0) == 0xd && Xor(0xd, 0x7) == 0xa && Xor(0xe, 0x0) == 0xe
    ensures Xor(0xe, 0x1) == 0xf && Xor(0xf, 0x4) == 0xb && Xor(0xf, 0x8) == 0x7
  {
    hide Xor;
    LowDigits();
    HighDigits();
  }

  lemma LowDigits()
    ensures Xor(0x9e3779b, 0) == 0x9e3779b && Xor(0x6f68261, 0) == 0x6f68261 && Xor(0xe220a83, 0) == 0xe220a83
    ensures Xor(0x0, 0xa) == 0xa && Xor(0x1, 0xe) == 0xf && Xor(0x4, 0xd) == 0x9
    ensures Xor(0x5, 0x4) == 0x1 && Xor(0x5, 0x5) == 0x0 && Xor(0x5, 0xe) == 0xb
    ensures Xor(0x7, 0x3) == 0x4 && Xor(0x7, 0x4) == 0x3 && Xor(0x7, 0x6) == 0x1
    ensures Xor(0x7, 0x7) == 0x0 && Xor(0x7, 0xd) == 0xa && Xor(0x7, 0xe) == 0x9
  {
  }

  lemma HighDigits()
    ensures Xor(0x8, 0x1) == 0x9 && Xor(0x9, 0x2) == 0xb && Xor(0x9, 0x5) == 0xc
    ensures Xor(0xa, 0xc) == 0x6 && Xor(0xa, 0xd) == 0x7 && Xor(0xb, 0xc) == 0x7
    ensures Xor(0xb, 0xd) == 0x6 && Xor(0xc, 0x1) == 0xd && Xor(0xc, 0x6) == 0xa
    ensures Xor(0xd, 0x0) == 0xd && Xor(0xd, 0x7) == 0xa && Xor(0xe, 0x0) == 0xe
    ensures Xor(0xe, 0x1) == 0xf && Xor(0xf, 0x4) == 0xb && Xor(0xf, 0x8) == 0x7
  {
  }

  lemma FirstXor()
    ensures Xor(0x9e3779b97f4a7c15, 0x278dde6e5) == 0x9e3779bb07979af0
  {
    hide Xor;
    Digits();
    Append(0x9e3779b, 0x0, 0x9e3779b, 0x9, 0x2, 0xb);
    Append(0x9e3779b9, 0x2, 0x9e3779bb, 0x7, 0x7, 0x0);
    Append(0x9e3779b97, 0x27, 0x9e3779bb0, 0xf, 0x8, 0x7);
    Append(0x9e3779b97f, 0x278, 0x9e3779bb07, 0x4, 0xd, 0x9);
    Append(0x9e3779b97f4, 0x278d, 0x9e3779bb079, 0xa, 0xd, 0x7);
    Append(0x9e3779b97f4a, 0x278dd, 0x9e3779bb0797, 0x7, 0xe, 0x9);
    Append(0x9e3779b97f4a7, 0x278dde, 0x9e3779bb07979, 0xc, 0x6, 0xa);
    Append(0x9e3779b97f4a7c, 0x278dde6, 0x9e3779bb07979a, 0x1, 0xe, 0xf);
    Append(0x9e3779b97f4a7c1, 0x278dde6e, 0x9e3779bb07979af, 0x5, 0x5, 0x0);
  }

  lemma SecondXor()
    ensures Xor(0x6f68261b57e7a770, 0xded04c36a) == 0x6f682616bae3641a
  {
    hide Xor;
    Digits();
    Append(0x6f68261, 0x0, 0x6f68261, 0xb, 0xd, 0x6);
    Append(0x6f68261b, 0xd, 0x6f682616, 0x5, 0xe, 0xb);
    Append(0x6f68261b5, 0xde, 0x6f682616b, 0x7, 0xd, 0xa);
    Append(0x6f68261b57, 0xded, 0x6f682616ba, 0xe, 0x0, 0xe);
    Append(0x6f68261b57e, 0xded0, 0x6f682616bae, 0x7, 0x4, 0x3);
    Append(0x6f68261b57e7, 0xded04, 0x6f682616bae3, 0xa, 0xc, 0x6);
    Append(0x6f68261b57e7a, 0xded04c, 0x6f682616bae36, 0x7, 0x3, 0x4);
    Append(0x6f68261b57e7a7, 0xded04c3, 0x6f682616bae364, 0x7, 0x6, 0x1);
    Append(0x6f68261b57e7a77, 0xded04c36, 0x6f682616bae3641, 0x0, 0xa, 0xa);
  }

  lemma ThirdXor()
    ensures Xor(0xe220a838bf5c9dde, 0x1c4415071) == 0xe220a8397b1dcdaf
  {
    hide Xor;
    Digits();
    Append(0xe220a83, 0x0, 0xe220a83, 0x8, 0x1, 0x9);
    Append(0xe220a838, 0x1, 0xe220a839, 0xb, 0xc, 0x7);
    Append(0xe220a838b, 0x1c, 0xe220a8397, 0xf, 0x4, 0xb);
    Append(0xe220a838bf, 0x1c4, 0xe220a8397b, 0x5, 0x4, 0x1);
    Append(0xe220a838bf5, 0x1c44, 0xe220a8397b1, 0xc, 0x1, 0xd);
    Append(0xe220a838bf5c, 0x1c441, 0xe220a8397b1d, 0x9, 0x5, 0xc);
    Append(0xe220a838bf5c9, 0x1c4415, 0xe220a8397b1dc, 0xd, 0x0, 0xd);
    Append(0xe220a838bf5c9d, 0x1c44150, 0xe220a8397b1dcd, 0xd, 0x7, 0xa);
    Append(0xe220a838bf5c9dd, 0x1c441507, 0xe220a8397b1dcda, 0xe, 0x1, 0xf);
  }

  lemma FirstShift()
    ensures XorShift(0x9e37_79b9_7f4a_7c15, 30) == 0x9e37_79bb_0797_9af0
  {
    ThirtyOne();
    FirstXor();
    hide Xor, Shift, Power;
    ShiftDivides(0x9e37_79b9_7f4a_7c15, 30);
  }

  lemma SecondShift()
    ensures XorShift(0x6f68_261b_57e7_a770, 27) == 0x6f68_2616_bae3_641a
  {
    ThirtyOne();
    SecondXor();
    hide Xor, Shift, Power;
    ShiftDivides(0x6f68_261b_57e7_a770, 27);
  }

  lemma ThirdShift()
    ensures XorShift(0xe220_a838_bf5c_9dde, 31) == 0xe220_a839_7b1d_cdaf
  {
    ThirtyOne();
    ThirdXor();
    hide Xor, Shift, Power;
    ShiftDivides(0xe220_a838_bf5c_9dde, 31);
  }

  /** The first output for the seed 0, and the decisions around its rank among 10000 shares of the range. */
  lemma FirstOutput()
    ensures Advance(0) == 0x9e37_79b9_7f4a_7c15 && Mix(Advance(0)) == 0xe220_a839_7b1d_cdaf
    ensures !Decision(0, 8833) && Decision(0, 8834)
  {
    FirstShift();
    SecondShift();
    ThirdShift();
    hide Xor, Shift, Power, XorShift;
    assert Advance(0) == 0x9e37_79b9_7f4a_7c15;
    assert Wrap(0x9e37_79bb_0797_9af0 * FIRST) == 0x6f68_261b_57e7_a770;
    assert Wrap(0x6f68_2616_bae3_641a * SECOND) == 0xe220_a838_bf5c_9dde;
  }
}
