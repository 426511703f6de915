/**
 The loss sampler: SplitMix64 on 64-bit words and a 128-bit threshold comparison. A word is a number
 below 2^64; additions and products wrap explicitly, and exclusive or is defined bit by bit.
 */
module LossSampling {

  const WORD: nat := 0x1_0000_0000_0000_0000

  predicate IsWord(x: nat) {
    x < WORD
  }

  function Wrap(x: nat): (r: nat)
    ensures IsWord(r)
  {
    x % WORD
  }

  // ---------------------------------------------------------------- bits

  function Xor(a: nat, b: nat): nat
    decreases a + b
  {
    if a == 0 then b else if b == 0 then a else 2 * Xor(a / 2, b / 2) + (a % 2 + b % 2) % 2
  }

  function Shift(x: nat, k: nat): nat
    decreases k
  {
    if k == 0 then x else Shift(x / 2, k - 1)
  }

  function Power(k: nat): (p: nat)
    ensures p > 0
  {
    if k == 0 then 1 else 2 * Power(k - 1)
  }

  /** Exclusive or, one bit at a time. */
  lemma XorBits(a: nat, b: nat)
    ensures Xor(a, b) / 2 == Xor(a / 2, b / 2)
    ensures Xor(a, b) % 2 == (a % 2 + b % 2) % 2
  {
  }

  lemma {:induction false} XorCommutes(a: nat, b: nat)
    ensures Xor(a, b) == Xor(b, a)
    decreases a + b
  {
    if a != 0 && b != 0 { XorCommutes(a / 2, b / 2); }
  }

  lemma {:induction false} XorCancels(a: nat)
    ensures Xor(a, a) == 0
  {
    if a != 0 { XorCancels(a / 2); }
  }

  lemma SameBits(x: nat, y: nat)
    requires x / 2 == y / 2 && x % 2 == y % 2
    ensures x == y
  {
  }

  lemma ParityAssociates(p: nat, q: nat, r: nat)
    requires p < 2 && q < 2 && r < 2
    ensures ((p + q) % 2 + r) % 2 == (p + (q + r) % 2) % 2
  {
  }

  lemma AssociatesByBits(a: nat, b: nat, c: nat)
    requires Xor(Xor(a / 2, b / 2), c / 2) == Xor(a / 2, Xor(b / 2, c / 2))
    ensures Xor(Xor(a, b), c) == Xor(a, Xor(b, c))
  {
    hide Xor;
    XorBits(a, b);
    XorBits(b, c);
    XorBits(Xor(a, b), c);
    XorBits(a, Xor(b, c));
    ParityAssociates(a % 2, b % 2, c % 2);
    SameBits(Xor(Xor(a, b), c), Xor(a, Xor(b, c)));
  }

  lemma {:induction false} XorAssociates(a: nat, b: nat, c: nat)
    ensures Xor(Xor(a, b), c) == Xor(a, Xor(b, c))
    decreases a + b + c
  {
    if a != 0 && b != 0 && c != 0 {
      XorAssociates(a / 2, b / 2, c / 2);
      AssociatesByBits(a, b, c);
    }
  }

  lemma {:induction false} XorBound(a: nat, b: nat, n: nat)
    requires a < Power(n) && b < Power(n)
    ensures Xor(a, b) < Power(n)
    decreases n
  {
    if n > 0 {
      XorBound(a / 2, b / 2, n - 1);
      XorBits(a, b);
    }
  }

  lemma {:induction false} ShiftXor(a: nat, b: nat, k: nat)
    ensures Shift(Xor(a, b), k) == Xor(Shift(a, k), Shift(b, k))
    decreases k
  {
    if k > 0 {
      XorBits(a, b);
      ShiftXor(a / 2, b / 2, k - 1);
    }
  }

  lemma {:induction false} ShiftShift(x: nat, j: nat, k: nat)
    ensures Shift(Shift(x, j), k) == Shift(x, j + k)
    decreases j
  {
    if j > 0 { ShiftShift(x / 2, j - 1, k); }
  }

  lemma {:induction false} ShiftBound(x: nat, k: nat)
    ensures Shift(x, k) <= x
    ensures x < Power(k) ==> Shift(x, k) == 0
    decreases k
  {
    if k > 0 { ShiftBound(x / 2, k - 1); }
  }

  lemma WordPower()
    ensures Power(64) == WORD
  {
    assert Power(8) == 256;
    hide Power;
    PowerAdds(8, 8);
    PowerAdds(16, 16);
    PowerAdds(32, 32);
  }

  lemma {:induction false} PowerAdds(j: nat, k: nat)
    ensures Power(j + k) == Power(j) * Power(k)
  {
    if j > 0 { PowerAdds(j - 1, k); }
  }

  // ---------------------------------------------------------------- xor-shift

  function XorShift(x: nat, k: nat): nat {
    Xor(x, Shift(x, k))
  }

  /** Undoes `XorShift` of a word by `k`, for shifts of at least a third of the word. */
  function UnXorShift(y: nat, k: nat): nat {
    Xor(Xor(y, Shift(y, k)), Shift(y, 2 * k))
  }

  lemma {:induction false} PowerGrows(j: nat, k: nat)
    requires j <= k
    ensures Power(j) <= Power(k)
    decreases k
  {
    if j < k { PowerGrows(j, k - 1); }
  }

  lemma ShiftedOut(x: nat, k: nat)
    requires IsWord(x) && k >= 64
    ensures Shift(x, k) == 0
  {
    WordPower();
    PowerGrows(64, k);
    ShiftBound(x, k);
  }

  lemma XorShiftIsWord(x: nat, k: nat)
    requires IsWord(x)
    ensures IsWord(XorShift(x, k)) && IsWord(UnXorShift(x, k))
  {
    WordPower();
    ShiftBound(x, k);
    ShiftBound(x, 2 * k);
    XorBound(x, Shift(x, k), 64);
    XorBound(Xor(x, Shift(x, k)), Shift(x, 2 * k), 64);
  }

  /** With `a`, `b` and `c` standing for a word and its shifts: equal terms cancel in pairs. */
  lemma Telescopes(a: nat, b: nat, c: nat)
    ensures Xor(Xor(Xor(a, b), Xor(b, c)), c) == a
    ensures Xor(Xor(Xor(a, b), c), Xor(b, c)) == a
  {
    var d := Xor(b, c);
    XorAssociates(a, b, c);
    XorAssociates(a, d, d);
    XorCancels(d);
    XorCommutes(b, c);
    XorAssociates(Xor(a, b), d, c);
    XorAssociates(b, c, c);
    XorCancels(c);
    XorAssociates(a, b, b);
    XorCancels(b);
  }

  /** The xor-shifts of the generator are invertible on words. */
  lemma XorShiftInverts(x: nat, k: nat)
    requires IsWord(x) && 22 <= k
    ensures UnXorShift(XorShift(x, k), k) == x
    ensures XorShift(UnXorShift(x, k), k) == x
  {
    var x1, x2 := Shift(x, k), Shift(x, 2 * k);
    ShiftShift(x, k, k);
    ShiftShift(x, 2 * k, k);
    ShiftShift(x, k, 2 * k);
    ShiftedOut(x, 3 * k);
    ShiftXor(x, x1, k);
    ShiftXor(x, x1, 2 * k);
    ShiftXor(Xor(x, x1), x2, k);
    Telescopes(x, x1, x2);
  }

  // ---------------------------------------------------------------- multiplication

  const GAMMA: nat := 0x9e3779b97f4a7c15
  const FIRST: nat := 0xbf58476d1ce4e5b9
  const SECOND: nat := 0x94d049bb133111eb

  const GAMMA_INVERSE: nat := 0xf1de83e19937733d
  const FIRST_INVERSE: nat := 0x96de1b173f119089
  const SECOND_INVERSE: nat := 0x319642b2d24d8ec3

  lemma WrapAbsorbs(x: nat, m: int)
    requires IsWord(x) && x + m * WORD >= 0
    ensures Wrap(x + m * WORD) == x
  {
  }

  lemma Distributes(x: int, c: int, d: int, q: int, k: int, w: int)
    requires c * d == q * w + 1
    ensures (x * c - k * w) * d == x + (x * q - k * d) * w
  {
    assert (x * c) * d == x * (c * d);
    assert (k * w) * d == (k * d) * w;
    assert x * (q * w + 1) == (x * q) * w + x;
  }

  /** Multiplying by a constant and by its inverse, both modulo 2^64, gives the word back. */
  lemma ProductInverts(x: nat, c: nat, d: nat, q: nat)
    requires IsWord(x) && c * d == q * WORD + 1
    ensures Wrap(Wrap(x * c) * d) == x
  {
    var k := x * c / WORD;
    assert Wrap(x * c) == x * c - k * WORD;
    Distributes(x, c, d, q, k, WORD);
    WrapAbsorbs(x, x * q - k * d);
  }

  lemma Inverses()
    ensures GAMMA * GAMMA_INVERSE == 10771413168148108919 * WORD + 1
    ensures FIRST * FIRST_INVERSE == 8125545580553827436 * WORD + 1
    ensures SECOND * SECOND_INVERSE == 2077064247507883091 * WORD + 1
  {
  }

  // ---------------------------------------------------------------- the output function

  function Mix(x: nat): (r: nat)
    requires IsWord(x)
    ensures IsWord(r)
  {
    var a := Wrap(XorShift(x, 30) * FIRST);
    var b := Wrap(XorShift(a, 27) * SECOND);
    XorShiftIsWord(b, 31);
    XorShift(b, 31)
  }

  function Unmix(y: nat): (r: nat)
    requires IsWord(y)
    ensures IsWord(r)
  {
    var b := UnXorShift(y, 31);
    var a := UnXorShift(Wrap(b * SECOND_INVERSE), 27);
    XorShiftIsWord(Wrap(a * FIRST_INVERSE), 30);
    UnXorShift(Wrap(a * FIRST_INVERSE), 30)
  }

  lemma UnmixMix(x: nat)
    requires IsWord(x)
    ensures Unmix(Mix(x)) == x
  {
    hide Xor, Shift, XorShift, UnXorShift, Wrap;
    Inverses();
    var u := XorShift(x, 30);
    XorShiftInverts(x, 30);
    XorShiftIsWord(x, 30);
    ProductInverts(u, FIRST, FIRST_INVERSE, 8125545580553827436);
    var a := Wrap(u * FIRST);
    var v := XorShift(a, 27);
    XorShiftInverts(a, 27);
    XorShiftIsWord(a, 27);
    ProductInverts(v, SECOND, SECOND_INVERSE, 2077064247507883091);
    XorShiftInverts(Wrap(v * SECOND), 31);
  }

  lemma MixUnmix(y: nat)
    requires IsWord(y)
    ensures Mix(Unmix(y)) == y
  {
    hide Xor, Shift, XorShift, UnXorShift, Wrap;
    Inverses();
    var b := UnXorShift(y, 31);
    XorShiftInverts(y, 31);
    XorShiftIsWord(y, 31);
    ProductInverts(b, SECOND_INVERSE, SECOND, 2077064247507883091);
    var v := Wrap(b * SECOND_INVERSE);
    var a := UnXorShift(v, 27);
    XorShiftInverts(v, 27);
    XorShiftIsWord(v, 27);
    ProductInverts(a, FIRST_INVERSE, FIRST, 8125545580553827436);
    XorShiftInverts(Wrap(a * FIRST_INVERSE), 30);
  }

  /** The output function is a bijection on 64-bit words. */
  lemma MixIsBijective(x: nat, y: nat)
    requires IsWord(x) && IsWord(y)
    ensures Mix(x) == y <==> x == Unmix(y)
  {
    UnmixMix(x);
    MixUnmix(y);
    hide Mix, Unmix;
  }

  // ---------------------------------------------------------------- the stream of states

  function Advance(state: nat): nat {
    Wrap(state + GAMMA)
  }

  /** The state after `k` samples. */
  function StateAfter(state: nat, k: nat): (r: nat)
    ensures IsWord(r)
  {
    Wrap(state + k * GAMMA)
  }

  lemma StateAfterSteps(state: nat, k: nat)
    requires IsWord(state)
    ensures StateAfter(state, 0) == state
    ensures StateAfter(state, k + 1) == Advance(StateAfter(state, k))
  {
    var m := (state + k * GAMMA) / WORD;
    var r := StateAfter(state, k);
    assert state + k * GAMMA == r + m * WORD;
    WrapShifts(r + GAMMA, m);
  }

  lemma WrapShifts(x: int, m: int)
    requires x >= 0 && x + m * WORD >= 0
    ensures Wrap(x + m * WORD) == Wrap(x)
  {
    var k := x / WORD;
    assert x + m * WORD == Wrap(x) + (k + m) * WORD;
    WrapAbsorbs(Wrap(x), k + m);
  }

  /** How many steps lead from `state` to `target`. */
  function StepsTo(state: nat, target: nat): (k: nat)
    requires IsWord(state) && IsWord(target)
    ensures IsWord(k)
  {
    Wrap((WORD + target - state) * GAMMA_INVERSE)
  }

  lemma WrapDifference(a: nat, b: nat)
    requires IsWord(a) && IsWord(b)
    ensures Wrap(a + Wrap(WORD + b - a)) == b
  {
  }

  lemma WrapProduct(x: nat, c: nat)
    ensures Wrap(Wrap(x) * c) == Wrap(x * c)
  {
    var k := x / WORD;
    assert x == Wrap(x) + k * WORD;
    assert x * c == Wrap(x) * c + (k * c) * WORD by {
      assert (k * WORD) * c == (k * c) * WORD;
    }
    WrapShifts(Wrap(x) * c, k * c);
  }

  lemma WrapSum(x: nat, y: nat)
    ensures Wrap(x + Wrap(y)) == Wrap(x + y)
  {
    var k := y / WORD;
    assert y == Wrap(y) + k * WORD;
    WrapShifts(x + Wrap(y), k);
  }

  /** Every word is reached from every word within one period. */
  lemma PeriodReachesAll(state: nat, target: nat)
    requires IsWord(state) && IsWord(target)
    ensures StateAfter(state, StepsTo(state, target)) == target
  {
    Inverses();
    var d := WORD + target - state;
    var k := StepsTo(state, target);
    ProductInverts(Wrap(d), GAMMA_INVERSE, GAMMA, 10771413168148108919);
    WrapProduct(d, GAMMA_INVERSE);
    assert Wrap(k * GAMMA) == Wrap(d);
    WrapSum(state, k * GAMMA);
    WrapDifference(state, target);
    hide Wrap;
  }

  /** Within one period no word is reached twice. */
  lemma PeriodRepeatsNone(state: nat, k: nat)
    requires IsWord(state) && IsWord(k)
    ensures StepsTo(state, StateAfter(state, k)) == k
  {
    Inverses();
    var t := StateAfter(state, k);
    ProductInverts(k, GAMMA, GAMMA_INVERSE, 10771413168148108919);
    var d := WORD + t - state;
    assert Wrap(d) == Wrap(k * GAMMA) by {
      WrapSum(state, k * GAMMA);
      DifferenceWraps(state, Wrap(k * GAMMA));
    }
    WrapProduct(d, GAMMA_INVERSE);
    hide Wrap;
  }

  lemma DifferenceWraps(a: nat, b: nat)
    requires IsWord(a) && IsWord(b)
    ensures Wrap(WORD + Wrap(a + b) - a) == b
  {
  }

  // ---------------------------------------------------------------- decisions

  const ALL_POINTS: nat := 10_000

  /** The decision of a sample whose state has just been advanced to `state`. */
  predicate Drops(state: nat, basisPoints: nat)
    requires IsWord(state)
  {
    Mix(state) * ALL_POINTS < basisPoints * WORD
  }

  /** The decision for a packet at any loss rate, from the state before the sample. */
  predicate Decision(state: nat, basisPoints: nat)
    requires IsWord(state)
  {
    basisPoints >= ALL_POINTS || (basisPoints > 0 && Drops(Advance(state), basisPoints))
  }

  class LossSampler {
    var state: nat

    ghost predicate Valid()
      reads this
    {
      IsWord(state)
    }

    constructor (seed: nat)
      requires IsWord(seed)
      ensures Valid() && state == seed
    {
      state := seed;
    }

    method ShouldDrop(basisPoints: nat) returns (drop: bool)
      requires Valid()
      modifies this
      ensures Valid()
      ensures drop == Decision(old(state), basisPoints)
      ensures state == if 0 < basisPoints < ALL_POINTS then Advance(old(state)) else old(state)
    {
      if basisPoints == 0 {
        return false;
      }
      if basisPoints >= ALL_POINTS {
        return true;
      }
      hide Xor, Shift, XorShift;
      state := Wrap(state + GAMMA);
      var value := state;
      value := Wrap(XorShift(value, 30) * FIRST);
      value := Wrap(XorShift(value, 27) * SECOND);
      value := XorShift(value, 31);
      drop := value * ALL_POINTS < basisPoints * WORD;
    }
  }

  /** For a fixed state a higher loss rate drops whatever a lower one drops, from never to always. */
  lemma DecisionMonotone(state: nat, low: nat, high: nat)
    requires IsWord(state) && low <= high
    ensures Decision(state, low) ==> Decision(state, high)
    ensures !Decision(state, 0) && Decision(state, ALL_POINTS)
  {
    hide Mix;
  }

  /** The number of outputs below the threshold. */
  function Quota(basisPoints: nat): nat {
    (basisPoints * WORD + ALL_POINTS - 1) / ALL_POINTS
  }

  lemma DropsBelowQuota(state: nat, basisPoints: nat)
    requires IsWord(state)
    ensures Drops(state, basisPoints) <==> Mix(state) < Quota(basisPoints)
  {
    hide Mix;
  }

  function Output(state: nat, k: nat): nat {
    Mix(StateAfter(state, k + 1))
  }

  predicate DropsAt(state: nat, basisPoints: nat, k: nat) {
    Drops(StateAfter(state, k + 1), basisPoints)
  }

  /** The samples among the first `n` that drop their packet. */
  ghost function DroppedSamples(state: nat, basisPoints: nat, n: nat): set<nat> {
    set k: nat | 0 <= k < n && DropsAt(state, basisPoints, k)
  }

  /** The outputs that make the first `n` samples drop their packet. */
  ghost function Outputs(state: nat, basisPoints: nat, n: nat): set<nat> {
    set k: nat | 0 <= k < n && DropsAt(state, basisPoints, k) :: Output(state, k)
  }

  ghost function Below(n: nat): (s: set<nat>)
    ensures forall v: nat :: v in s <==> v < n
    ensures |s| == n
  {
    if n == 0 then {} else Below(n - 1) + {n - 1}
  }

  lemma DistinctOutputs(state: nat, j: nat, k: nat)
    requires IsWord(state) && j < k < WORD
    ensures Output(state, j) != Output(state, k)
  {
    hide Mix, Unmix, Wrap;
    var next := Advance(state);
    FromNext(state, j);
    FromNext(state, k);
    PeriodRepeatsNone(next, j);
    PeriodRepeatsNone(next, k);
    UnmixMix(StateAfter(state, j + 1));
    UnmixMix(StateAfter(state, k + 1));
  }

  lemma FromNext(state: nat, k: nat)
    requires IsWord(state)
    ensures StateAfter(state, k + 1) == StateAfter(Advance(state), k)
  {
    assert state + (k + 1) * GAMMA == k * GAMMA + (state + GAMMA);
    WrapSum(k * GAMMA, state + GAMMA);
    hide Wrap;
  }

  lemma OneMoreSample(state: nat, basisPoints: nat, k: nat)
    ensures DroppedSamples(state, basisPoints, k + 1)
      == DroppedSamples(state, basisPoints, k) + if DropsAt(state, basisPoints, k) then {k} else {}
    ensures Outputs(state, basisPoints, k + 1)
      == Outputs(state, basisPoints, k) + if DropsAt(state, basisPoints, k) then {Output(state, k)} else {}
  {
    hide DropsAt, Output;
  }

  lemma OutputIsNew(state: nat, basisPoints: nat, k: nat)
    requires IsWord(state) && k < WORD
    ensures Output(state, k) !in Outputs(state, basisPoints, k)
  {
    forall j: nat | j < k ensures Output(state, j) != Output(state, k) { DistinctOutputs(state, j, k); }
    hide DropsAt, Output;
  }

  lemma NoSamples(state: nat, basisPoints: nat)
    ensures DroppedSamples(state, basisPoints, 0) == {} && Outputs(state, basisPoints, 0) == {}
  {
  }

  lemma {:induction false} AsManyOutputs(state: nat, basisPoints: nat, n: nat)
    requires IsWord(state) && n <= WORD
    ensures |DroppedSamples(state, basisPoints, n)| == |Outputs(state, basisPoints, n)|
  {
    hide *;
    if n == 0 {
      NoSamples(state, basisPoints);
    } else {
      var k := n - 1;
      AsManyOutputs(state, basisPoints, k);
      OneMoreSample(state, basisPoints, k);
      OutputIsNew(state, basisPoints, k);
      SampleIsNew(state, basisPoints, k);
    }
  }

  lemma SampleIsNew(state: nat, basisPoints: nat, k: nat)
    ensures k !in DroppedSamples(state, basisPoints, k)
  {
  }

  lemma DroppingOutput(state: nat, basisPoints: nat, k: nat)
    requires IsWord(state)
    ensures DropsAt(state, basisPoints, k) <==> Output(state, k) < Quota(basisPoints)
  {
    DropsBelowQuota(StateAfter(state, k + 1), basisPoints);
  }

  lemma SampleWithOutput(state: nat, v: nat) returns (k: nat)
    requires IsWord(state) && IsWord(v)
    ensures IsWord(k) && Output(state, k) == v
  {
    hide Mix, Unmix, StateAfter, StepsTo;
    var next := Advance(state);
    k := StepsTo(next, Unmix(v));
    PeriodReachesAll(next, Unmix(v));
    FromNext(state, k);
    MixUnmix(v);
  }

  lemma QuotaIsWord(basisPoints: nat)
    requires basisPoints < ALL_POINTS
    ensures IsWord(Quota(basisPoints))
  {
  }

  /** Over a whole period the dropping outputs are exactly the words below the quota. */
  lemma PeriodOutputs(state: nat, basisPoints: nat)
    requires IsWord(state) && basisPoints < ALL_POINTS
    ensures Outputs(state, basisPoints, WORD) == Below(Quota(basisPoints))
  {
    hide DropsAt, Output, Quota, Below;
    QuotaIsWord(basisPoints);
    var outputs := Outputs(state, basisPoints, WORD);
    forall v | v in outputs ensures v in Below(Quota(basisPoints)) {
      var k: nat :| k < WORD && DropsAt(state, basisPoints, k) && v == Output(state, k);
      DroppingOutput(state, basisPoints, k);
    }
    forall v: nat | v in Below(Quota(basisPoints)) ensures v in outputs {
      var k := SampleWithOutput(state, v);
      DroppingOutput(state, basisPoints, k);
    }
  }

  /**
   Over any 2^64 consecutive samples at a rate of `bp` basis points, exactly ceil(bp 2^64 / 10000)
   packets are dropped, whatever the seed.
   */
  lemma ExactLossRate(state: nat, basisPoints: nat)
    requires IsWord(state) && 0 < basisPoints < ALL_POINTS
    ensures |DroppedSamples(state, basisPoints, WORD)| == Quota(basisPoints)
    ensures basisPoints * WORD <= Quota(basisPoints) * ALL_POINTS < basisPoints * WORD + ALL_POINTS
  {
    AsManyOutputs(state, basisPoints, WORD);
    PeriodOutputs(state, basisPoints);
    hide DroppedSamples, Outputs, Below;
  }
}
