/** How the adaptive controller moves the rate: one tick exactly, and any number of ticks. */
module RateControl {
  import opened Core
  import opened Rates

  // ---------------------------------------------------------------- one tick

  /** An unset rate counts as the target; a target of zero or less switches the limit off. */
  lemma UnsetRate(rate: real, measured: real, target: real)
    ensures target <= 0.0 ==> ComputeAdaptiveRate(rate, measured, target) == 0.0
    ensures target > 0.0 && rate <= 0.0 ==>
      ComputeAdaptiveRate(rate, measured, target) == ComputeAdaptiveRate(target, measured, target)
  {
    if target > 0.0 && rate <= 0.0 {
      var ratio := measured / target;
      if measured >= 100.0 && ratio > 1.02 {
        var next := Clamp(target * (0.3 + 0.7 * (target / measured)), target * 0.05, target);
        assert ComputeAdaptiveRate(rate, measured, target) == next;
        assert ComputeAdaptiveRate(target, measured, target) == next;
      }
    }
  }

  /** The rate is left alone by exactly the measurements that are idle or within two percent of target. */
  lemma SteadyTick(rate: real, measured: real, target: real)
    requires 0.0 < rate && 0.0 < target
    requires measured < 100.0 || 0.98 * target <= measured <= 1.02 * target
    ensures ComputeAdaptiveRate(rate, measured, target) == rate
  {
    RatioIs(measured, target, 1.02);
    RatioIs(measured, target, 0.98);
    RatioIs(measured, target, 0.90);
  }

  /**
   More than two percent above target, the rate is multiplied by 0.3 + 0.7 target / measured, but not
   taken below 5% of the target: it never rises, and it falls unless it is at that floor.
   */
  lemma OverspeedSlows(rate: real, measured: real, target: real)
    requires 0.0 < target && target * 0.05 <= rate <= target
    requires 100.0 <= measured && 1.02 * target < measured
    ensures var r := ComputeAdaptiveRate(rate, measured, target);
      && target * 0.05 <= r <= rate
      && (r == rate <==> rate == target * 0.05)
      && rate * (0.3 * measured + 0.7 * target) <= r * measured
      && (target * 0.05 < r ==> rate * (0.3 * measured + 0.7 * target) == r * measured)
  {
    var x := Correction(rate, measured, target);
    if x < target * 0.05 { Scaled(x, target * 0.05, measured); }
  }

  lemma Correction(rate: real, measured: real, target: real) returns (x: real)
    requires 0.0 < target && target * 0.05 <= rate <= target
    requires 100.0 <= measured && 1.02 * target < measured
    ensures x < rate && x * measured == rate * (0.3 * measured + 0.7 * target)
    ensures ComputeAdaptiveRate(rate, measured, target) == if x < target * 0.05 then target * 0.05 else x
  {
    RatioIs(measured, target, 1.02);
    var c := target / measured;
    x := rate * (0.3 + 0.7 * c);
    assert ComputeAdaptiveRate(rate, measured, target) == Clamp(x, target * 0.05, target);
    hide *;
    Corrected(rate, c, measured, target);
    assert Clamp(x, target * 0.05, target) == if x < target * 0.05 then target * 0.05 else x by {
      Cut(x, target * 0.05, target);
    }
  }

  lemma Cut(x: real, low: real, high: real)
    requires x <= high
    ensures Clamp(x, low, high) == if x < low then low else x
  {
  }

  lemma Corrected(rate: real, c: real, measured: real, target: real)
    requires 0.0 < rate && 0.0 < target < measured && c == target / measured
    ensures rate * (0.3 + 0.7 * c) < rate
    ensures (rate * (0.3 + 0.7 * c)) * measured == rate * (0.3 * measured + 0.7 * target)
  {
    assert c * measured == target;
    assert c < 1.0 by { if c >= 1.0 { Scaled(1.0, c, measured); } }
    Shrinks(rate, 0.3 + 0.7 * c);
    Factor(rate, 0.3 + 0.7 * c, measured);
    assert (0.3 + 0.7 * c) * measured == 0.3 * measured + 0.7 * target;
  }

  lemma Factor(rate: real, f: real, measured: real)
    ensures (rate * f) * measured == rate * (f * measured)
  {
  }

  lemma Scaled(a: real, b: real, x: real)
    requires a <= b && 0.0 <= x
    ensures a * x <= b * x
  {
  }

  lemma Shrinks(rate: real, f: real)
    requires 0.0 < rate && f < 1.0
    ensures rate * f < rate
  {
    ProductPositive(rate, 1.0 - f);
  }

  /** Below 98% of the target the rate rises by 5%, below 90% by 15%, up to the target. */
  lemma UnderspeedClimbs(rate: real, measured: real, target: real)
    requires 0.0 < target && target * 0.05 <= rate <= target
    requires 100.0 <= measured < 0.98 * target
    ensures var step := if measured < 0.90 * target then 1.15 else 1.05;
      ComputeAdaptiveRate(rate, measured, target) == if rate * step < target then rate * step else target
  {
    RatioIs(measured, target, 1.02);
    RatioIs(measured, target, 0.98);
    RatioIs(measured, target, 0.90);
  }

  // ---------------------------------------------------------------- any number of ticks

  /** `x` multiplied n times by `factor`. */
  function Compounded(x: real, factor: real, n: nat): real {
    if n == 0 then x else Compounded(x, factor, n - 1) * factor
  }

  lemma {:induction false} CompoundedSplit(x: real, factor: real, m: nat, n: nat)
    ensures Compounded(x, factor, m + n) == Compounded(Compounded(x, factor, m), factor, n)
  {
    if n > 0 { CompoundedSplit(x, factor, m, n - 1); }
  }

  lemma Twice(x: real, factor: real)
    ensures Compounded(x, factor, 2) == x * factor * factor
  {
    assert Compounded(x, factor, 1) == x * factor;
  }

  lemma SlowTick(rate: real, measured: real, target: real)
    requires 0.0 < target && target * 0.05 <= rate <= target && 100.0 <= measured && 2.0 * target <= measured
    ensures var r := ComputeAdaptiveRate(rate, measured, target);
      target * 0.05 <= r <= rate && r <= Greatest(target * 0.05, rate * 0.65)
  {
    OverspeedSlows(rate, measured, target);
    var r := ComputeAdaptiveRate(rate, measured, target);
    hide ComputeAdaptiveRate;
    if r > target * 0.05 { SlowProduct(rate, 0.3 * measured + 0.7 * target, r, measured); }
  }

  lemma SlowProduct(rate: real, k: real, r: real, measured: real)
    requires 0.0 < rate && 0.0 < measured && k <= 0.65 * measured && rate * k == r * measured
    ensures r <= rate * 0.65
  {
    Scaled(k, 0.65 * measured, rate);
    assert (0.65 * measured) * rate == (0.65 * rate) * measured;
    if r > 0.65 * rate { ProductPositive(r - 0.65 * rate, measured); }
  }

  ghost predicate FarAbove(measured: seq<real>, target: real) {
    forall i :: 0 <= i < |measured| ==> 100.0 <= measured[i] && 2.0 * target <= measured[i]
  }

  /**
   At twice the target or more, n ticks bring the rate to at most 0.65^n of what it was, or to 5% of
   the target.
   */
  lemma {:induction false} OverspeedIsGeometric(rate: real, measured: seq<real>, target: real)
    requires 0.0 < target && target * 0.05 <= rate <= target && FarAbove(measured, target)
    ensures target * 0.05 <= Ticks(rate, measured, target) <= rate
    ensures Ticks(rate, measured, target) <= Greatest(target * 0.05, Compounded(rate, 0.65, |measured|))
  {
    hide ComputeAdaptiveRate;
    if measured != [] {
      var n := |measured| - 1;
      OverspeedIsGeometric(rate, measured[..n], target);
      SlowTick(Ticks(rate, measured[..n], target), measured[n], target);
    }
  }

  /** Seven such ticks take any rate in the band to 5% of the target, where it stays. */
  lemma {:induction false} SevenTicksToTheFloor(rate: real, measured: seq<real>, target: real)
    requires 0.0 < target && target * 0.05 <= rate <= target && FarAbove(measured, target) && |measured| >= 7
    ensures Ticks(rate, measured, target) == target * 0.05
    decreases |measured|
  {
    hide ComputeAdaptiveRate;
    var n := |measured| - 1;
    if n < 7 {
      OverspeedIsGeometric(rate, measured, target);
      SeventhPower(rate);
    } else {
      SevenTicksToTheFloor(rate, measured[..n], target);
      SlowTick(target * 0.05, measured[n], target);
    }
  }

  lemma SeventhPower(x: real)
    requires 0.0 <= x
    ensures Compounded(x, 0.65, 7) <= 0.05 * x
  {
    CompoundedSplit(x, 0.65, 2, 2);
    CompoundedSplit(x, 0.65, 4, 2);
    Twice(x, 0.65);
    Twice(Compounded(x, 0.65, 2), 0.65);
    Twice(Compounded(x, 0.65, 4), 0.65);
    assert Compounded(x, 0.65, 7) == Compounded(x, 0.65, 6) * 0.65;
  }

  ghost predicate FarBelow(measured: seq<real>, target: real) {
    forall i :: 0 <= i < |measured| ==> 100.0 <= measured[i] < 0.90 * target
  }

  /** Speed measured below 90% of the target raises the rate by exactly 15% a tick, up to the target. */
  lemma {:induction false} FastClimbIsExact(rate: real, measured: seq<real>, target: real)
    requires 0.0 < target && target * 0.05 <= rate <= target && FarBelow(measured, target)
    ensures Ticks(rate, measured, target) == Least(target, Compounded(rate, 1.15, |measured|))
    ensures target * 0.05 <= Ticks(rate, measured, target)
  {
    hide ComputeAdaptiveRate;
    if measured != [] {
      var n := |measured| - 1;
      FastClimbIsExact(rate, measured[..n], target);
      UnderspeedClimbs(Ticks(rate, measured[..n], target), measured[n], target);
    }
  }

  lemma {:induction false} CompoundedGrows(x: real, factor: real, m: nat, n: nat)
    requires 0.0 <= x && 1.0 <= factor && m <= n
    ensures 0.0 <= Compounded(x, factor, m) <= Compounded(x, factor, n)
    decreases n
  {
    if n > 0 {
      CompoundedGrows(x, factor, if m < n then m else n - 1, n - 1);
      Scaled(1.0, factor, Compounded(x, factor, n - 1));
    }
  }

  lemma FourTicks(x: real)
    requires 0.0 <= x
    ensures 1.749 * x <= Compounded(x, 1.15, 4) <= 1.7491 * x
  {
    CompoundedSplit(x, 1.15, 2, 2);
    Twice(x, 1.15);
    Twice(Compounded(x, 1.15, 2), 1.15);
  }

  lemma EightTicks(x: real)
    requires 0.0 <= x
    ensures 3.059 * x <= Compounded(x, 1.15, 8) <= 3.0594 * x
  {
    CompoundedSplit(x, 1.15, 4, 4);
    FourTicks(x);
    FourTicks(Compounded(x, 1.15, 4));
  }

  lemma TwentyTicks(x: real)
    requires 0.0 <= x
    ensures 16.36 * x <= Compounded(x, 1.15, 20) <= 16.38 * x
  {
    CompoundedSplit(x, 1.15, 8, 12);
    EightTicks(x);
    var y := Compounded(x, 1.15, 8);
    CompoundedSplit(y, 1.15, 8, 4);
    EightTicks(y);
    FourTicks(Compounded(y, 1.15, 8));
  }

  /** A twentyfold growth at 15% a step takes 22 steps. */
  lemma TwentyfoldIn22(x: real)
    requires 0.0 < x
    ensures Compounded(x, 1.15, 21) < 20.0 * x < Compounded(x, 1.15, 22)
  {
    TwentyTicks(x);
    assert Compounded(x, 1.15, 21) == Compounded(x, 1.15, 20) * 1.15;
    assert Compounded(x, 1.15, 22) == Compounded(x, 1.15, 21) * 1.15;
  }

  /** From 5% of the target the climb takes exactly 22 ticks. */
  lemma FastClimbReaches(measured: seq<real>, target: real)
    requires 0.0 < target && FarBelow(measured, target)
    ensures Ticks(target * 0.05, measured, target) == target <==> |measured| >= 22
  {
    var low := target * 0.05;
    FastClimbIsExact(low, measured, target);
    hide Ticks, FarBelow;
    TwentyfoldIn22(low);
    if |measured| >= 22 {
      CompoundedGrows(low, 1.15, 22, |measured|);
    } else {
      CompoundedGrows(low, 1.15, |measured|, 21);
    }
  }
}
