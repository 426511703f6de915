/**
 Rate limiting: the token bucket, the slot that remembers when it was last used, and the adaptive
 controller. Rates, tokens and times are exact reals; rounding is not modelled.
 */
module Rates {
  import opened Core

  function Least(a: real, b: real): real {
    if a < b then a else b
  }

  function Greatest(a: real, b: real): real {
    if a < b then b else a
  }

  /** The tokens a rate earns in a time. */
  function Earns(rate: real, elapsed: real): real {
    rate * elapsed
  }

  // ---------------------------------------------------------------- the bucket as a value

  datatype Bucket = Bucket(tokens: real, maxTokens: real, rate: real)
  {
    /** What every bucket in use satisfies: at most two seconds' worth of tokens, never negative. */
    predicate Sound() {
      0.0 <= rate && maxTokens == 2.0 * rate && 0.0 <= tokens <= maxTokens
    }
  }

  function Full(rate: real): (b: Bucket)
    ensures b.Sound() && b.rate == Greatest(rate, 0.0) && b.tokens == b.maxTokens
  {
    var burst := Greatest(rate * 2.0, 0.0);
    Bucket(burst, burst, Greatest(rate, 0.0))
  }

  function WithRate(b: Bucket, rate: real): Bucket {
    var r := Greatest(rate, 0.0);
    Bucket(Least(b.tokens, r * 2.0), r * 2.0, r)
  }

  function Refilled(b: Bucket, elapsed: real): Bucket {
    b.(tokens := Least(b.tokens + Earns(b.rate, elapsed), b.maxTokens))
  }

  /** One packet offered to the bucket: the current rate is set, the bucket refilled, then charged. */
  datatype Call = Call(elapsed: real, rate: real, bytes: nat)

  predicate Admits(b: Bucket, c: Call) {
    c.bytes as real <= Refilled(WithRate(b, c.rate), c.elapsed).tokens
  }

  function After(b: Bucket, c: Call): Bucket {
    var full := Refilled(WithRate(b, c.rate), c.elapsed);
    if Admits(b, c) then full.(tokens := full.tokens - c.bytes as real) else full
  }

  // ---------------------------------------------------------------- the bucket as it runs

  class TokenBucket {
    var tokens: real
    var maxTokens: real
    var rate: real

    function Value(): Bucket
      reads this
    {
      Bucket(tokens, maxTokens, rate)
    }

    constructor (rate: real)
      ensures Value() == Full(rate)
    {
      hide Greatest, Bucket.Sound;
      var burst := Greatest(rate * 2.0, 0.0);
      tokens := burst;
      maxTokens := burst;
      this.rate := Greatest(rate, 0.0);
    }

    method SetRate(rate: real)
      modifies this
      ensures Value() == WithRate(old(Value()), rate)
    {
      this.rate := Greatest(rate, 0.0);
      maxTokens := this.rate * 2.0;
      if tokens > maxTokens {
        tokens := maxTokens;
      }
    }

    method Refill(elapsed: real)
      modifies this`tokens
      ensures Value() == Refilled(old(Value()), elapsed)
    {
      tokens := Least(tokens + Earns(rate, elapsed), maxTokens);
    }

    method TryConsume(bytes: nat, elapsed: real) returns (admitted: bool)
      modifies this`tokens
      ensures admitted <==> bytes as real <= Refilled(old(Value()), elapsed).tokens
      ensures Value() == Refilled(old(Value()), elapsed).(tokens :=
        Refilled(old(Value()), elapsed).tokens - if admitted then bytes as real else 0.0)
    {
      Refill(elapsed);
      if tokens >= bytes as real {
        tokens := tokens - bytes as real;
        return true;
      }
      return false;
    }
  }

  /** A bucket and the time of its last use, created by the first packet that needs it. */
  class Slot {
    const bucket: TokenBucket
    var last: real

    constructor (rate: real, now: real)
      ensures fresh(bucket) && bucket.Value() == Full(rate) && last == now
    {
      hide *;
      bucket := new TokenBucket(rate);
      last := now;
    }

    /** `saturating_duration_since` makes the elapsed time zero if the clock seems to go back. */
    method Consume(now: real, rate: real, bytes: nat) returns (drop: bool)
      modifies this, bucket
      ensures var c := Call(Greatest(now - old(last), 0.0), rate, bytes);
        drop == !Admits(old(bucket.Value()), c) && bucket.Value() == After(old(bucket.Value()), c)
      ensures last == now
    {
      var elapsed := Greatest(now - last, 0.0);
      last := now;
      bucket.SetRate(rate);
      var admitted := bucket.TryConsume(bytes, elapsed);
      drop := !admitted;
    }
  }

  // ---------------------------------------------------------------- any run of calls

  function AfterAll(b: Bucket, calls: seq<Call>): Bucket {
    if calls == [] then b else After(AfterAll(b, calls[..|calls| - 1]), calls[|calls| - 1])
  }

  /** The bytes let through. */
  function Admitted(b: Bucket, calls: seq<Call>): nat {
    if calls == [] then 0
    else
      var last := calls[|calls| - 1];
      Admitted(b, calls[..|calls| - 1]) + if Admits(AfterAll(b, calls[..|calls| - 1]), last) then last.bytes else 0
  }

  /** What the rates in force earned over the elapsed times. */
  function Earned(calls: seq<Call>): real {
    if calls == [] then 0.0
    else
      var last := calls[|calls| - 1];
      Earned(calls[..|calls| - 1]) + (if last.rate > 0.0 then last.rate * last.elapsed else 0.0)
  }

  ghost predicate Timed(calls: seq<Call>) {
    forall i :: 0 <= i < |calls| ==> 0.0 <= calls[i].elapsed
  }

  lemma EarnsSomething(rate: real, elapsed: real)
    requires 0.0 <= rate && 0.0 <= elapsed
    ensures 0.0 <= Earns(rate, elapsed)
  {
  }

  lemma EarnsMore(rate: real, s: real, t: real)
    ensures Earns(rate, s) + Earns(rate, t) == Earns(rate, s + t)
    ensures Earns(rate, 0.0) == 0.0
  {
  }

  lemma EarnsIs(rate: real, elapsed: real)
    ensures Earns(Greatest(rate, 0.0), elapsed) == if rate > 0.0 then rate * elapsed else 0.0
    ensures 0.0 <= rate ==> Earns(rate, elapsed) == rate * elapsed
  {
  }

  lemma AfterSound(b: Bucket, c: Call)
    requires b.Sound() && 0.0 <= c.elapsed
    ensures After(b, c).Sound()
    ensures After(b, c).tokens + (if Admits(b, c) then c.bytes as real else 0.0)
      <= b.tokens + Earns(Greatest(c.rate, 0.0), c.elapsed)
  {
    hide Earns;
    EarnsSomething(Greatest(c.rate, 0.0), c.elapsed);
  }

  lemma NothingEarned()
    ensures Earned([]) == 0.0
  {
  }

  lemma LastEarned(calls: seq<Call>)
    requires calls != []
    ensures var n := |calls| - 1;
      Earned(calls) == Earned(calls[..n]) + Earns(Greatest(calls[n].rate, 0.0), calls[n].elapsed)
  {
    EarnsIs(calls[|calls| - 1].rate, calls[|calls| - 1].elapsed);
    hide Earns;
  }

  /**
   Whatever the rates do: tokens stay between zero and twice the rate, and the bytes admitted over a
   run of calls are covered by the tokens at its start and what the rates earned meanwhile.
   */
  lemma {:induction false} AdmittedIsEarned(b: Bucket, calls: seq<Call>)
    requires b.Sound() && Timed(calls)
    ensures AfterAll(b, calls).Sound()
    ensures Admitted(b, calls) as real + AfterAll(b, calls).tokens <= b.tokens + Earned(calls)
  {
    hide Earns, Earned, After, Admits;
    if calls == [] {
      NothingEarned();
    } else {
      var n := |calls| - 1;
      AdmittedIsEarned(b, calls[..n]);
      AfterSound(AfterAll(b, calls[..n]), calls[n]);
      LastEarned(calls);
    }
  }

  lemma {:induction false} AfterAllSplit(b: Bucket, calls: seq<Call>, i: nat)
    requires i <= |calls|
    ensures AfterAll(b, calls) == AfterAll(AfterAll(b, calls[..i]), calls[i..])
    ensures Admitted(b, calls) == Admitted(b, calls[..i]) + Admitted(AfterAll(b, calls[..i]), calls[i..])
    decreases |calls|
  {
    hide After, Admits, Earns;
    var n := |calls|;
    if i == n {
      assert calls[..i] == calls;
    } else {
      assert calls[..n - 1][..i] == calls[..i] && calls[..n - 1][i..] == calls[i..][..n - 1 - i];
      AfterAllSplit(b, calls[..n - 1], i);
    }
  }

  /** The same for any contiguous part of a longer run. */
  lemma SegmentIsEarned(b: Bucket, calls: seq<Call>, i: nat, j: nat)
    requires b.Sound() && Timed(calls) && i <= j <= |calls|
    ensures Admitted(b, calls[..j]) >= Admitted(b, calls[..i])
    ensures (Admitted(b, calls[..j]) - Admitted(b, calls[..i])) as real
      <= AfterAll(b, calls[..i]).tokens + Earned(calls[i..j])
  {
    hide Earns, After, Admits;
    assert calls[..j][..i] == calls[..i] && calls[..j][i..] == calls[i..j];
    AfterAllSplit(b, calls[..j], i);
    AdmittedIsEarned(b, calls[..i]);
    AdmittedIsEarned(AfterAll(b, calls[..i]), calls[i..j]);
  }

  // ---------------------------------------------------------------- constant rate

  function Elapsed(calls: seq<Call>): real {
    if calls == [] then 0.0 else Elapsed(calls[..|calls| - 1]) + calls[|calls| - 1].elapsed
  }

  ghost predicate AtRate(calls: seq<Call>, r: real) {
    forall i :: 0 <= i < |calls| ==> calls[i].rate == r
  }

  lemma {:induction false} EarnedAtRate(calls: seq<Call>, r: real)
    requires AtRate(calls, r) && 0.0 <= r
    ensures Earned(calls) == Earns(r, Elapsed(calls))
  {
    hide Earns, Earned;
    EarnsMore(r, 0.0, 0.0);
    if calls == [] {
      NothingEarned();
    } else {
      LastEarned(calls);
      EarnedAtRate(calls[..|calls| - 1], r);
      EarnsMore(r, Elapsed(calls[..|calls| - 1]), calls[|calls| - 1].elapsed);
    }
  }

  /**
   At a constant rate `r`, all that is admitted from a call at time `s` up to a call at time `t` is at
   most `2r + r (t - s)`, whatever happened before; the time before the first call earns nothing.
   */
  lemma ConstantRateBound(b: Bucket, calls: seq<Call>, r: real)
    requires b.Sound() && Timed(calls) && AtRate(calls, r) && 0.0 <= r && calls != []
    ensures Admitted(b, calls) as real <= 2.0 * r + r * Elapsed(calls[1..])
  {
    hide *;
    FirstThenEarned(b, calls, r);
    EarnsIs(r, Elapsed(calls[1..]));
  }

  lemma FirstThenEarned(b: Bucket, calls: seq<Call>, r: real)
    requires b.Sound() && Timed(calls) && AtRate(calls, r) && 0.0 <= r && calls != []
    ensures Admitted(b, calls) as real <= 2.0 * r + Earns(r, Elapsed(calls[1..]))
  {
    hide Earns, After, Admits;
    AfterAllSplit(b, calls, 1);
    var first := calls[0];
    assert calls[..1] == [first];
    FirstCall(b, first);
    AfterSound(b, first);
    AdmittedIsEarned(After(b, first), calls[1..]);
    EarnedAtRate(calls[1..], r);
  }

  lemma FirstCall(b: Bucket, c: Call)
    ensures AfterAll(b, [c]) == After(b, c)
    ensures Admitted(b, [c]) == if Admits(b, c) then c.bytes else 0
    ensures Admitted(b, [c]) as real + After(b, c).tokens <= 2.0 * Greatest(c.rate, 0.0)
  {
    assert [c][..0] == [];
  }

  lemma AdmitsWhatIsEarned(b: Bucket, c: Call)
    requires b.Sound() && 0.0 <= c.elapsed
    ensures var r := Greatest(c.rate, 0.0);
      Admits(b, c) <==> c.bytes as real <= 2.0 * r && c.bytes as real <= Least(b.tokens, 2.0 * r) + Earns(r, c.elapsed)
  {
    hide Earns;
    EarnsSomething(Greatest(c.rate, 0.0), c.elapsed);
  }

  /** A call admits its packet exactly if it fits the burst and the tokens kept plus those earned. */
  lemma AdmitsExactly(b: Bucket, c: Call)
    requires b.Sound() && 0.0 <= c.elapsed
    ensures var r := if c.rate > 0.0 then c.rate else 0.0;
      var kept := if b.tokens < 2.0 * r then b.tokens else 2.0 * r;
      Admits(b, c) <==> c.bytes as real <= 2.0 * r && c.bytes as real <= kept + r * c.elapsed
  {
    hide Earns, Admits;
    AdmitsWhatIsEarned(b, c);
    EarnsIs(c.rate, c.elapsed);
  }

  /**
   What a call leaves behind: the tokens kept under the new burst plus those earned, cut to the burst
   and less the packet if it was let through; nothing else of the past matters.
   */
  lemma AfterExactly(b: Bucket, c: Call)
    requires b.Sound() && 0.0 <= c.elapsed
    ensures var r := if c.rate > 0.0 then c.rate else 0.0;
      var kept := if b.tokens < 2.0 * r then b.tokens else 2.0 * r;
      var full := if kept + r * c.elapsed < 2.0 * r then kept + r * c.elapsed else 2.0 * r;
      && After(b, c).rate == r
      && After(b, c).maxTokens == 2.0 * r
      && After(b, c).tokens == full - (if c.bytes as real <= full then c.bytes as real else 0.0)
  {
    hide *;
    var r := if c.rate > 0.0 then c.rate else 0.0;
    var earned := r * c.elapsed;
    EarnsIs(c.rate, c.elapsed);
    AfterEarning(b, c, r, earned);
  }

  lemma AfterEarning(b: Bucket, c: Call, r: real, earned: real)
    requires b.Sound() && r == (if c.rate > 0.0 then c.rate else 0.0)
    requires earned == Earns(Greatest(c.rate, 0.0), c.elapsed)
    ensures var kept := if b.tokens < 2.0 * r then b.tokens else 2.0 * r;
      var full := if kept + earned < 2.0 * r then kept + earned else 2.0 * r;
      && After(b, c).rate == r
      && After(b, c).maxTokens == 2.0 * r
      && After(b, c).tokens == full - (if c.bytes as real <= full then c.bytes as real else 0.0)
  {
    hide Earns;
  }

  ghost predicate AllRejected(b: Bucket, calls: seq<Call>) {
    forall i :: 0 <= i < |calls| ==> !Admits(AfterAll(b, calls[..i]), calls[i])
  }

  lemma RejectedOnce(b: Bucket, c: Call)
    requires !Admits(b, c) && 0.0 <= c.rate
    ensures After(b, c)
      == Bucket(Least(Least(b.tokens, 2.0 * c.rate) + Earns(c.rate, c.elapsed), 2.0 * c.rate), 2.0 * c.rate, c.rate)
  {
    hide Earns;
  }

  /** Rejections cost nothing: the bucket goes on filling as if nobody had asked. */
  lemma RejectedRefills(b: Bucket, calls: seq<Call>, r: real)
    requires b.Sound() && Timed(calls) && AtRate(calls, r) && 0.0 <= r && AllRejected(b, calls) && calls != []
    ensures AfterAll(b, calls)
      == Bucket(Least(Least(b.tokens, 2.0 * r) + r * Elapsed(calls), 2.0 * r), 2.0 * r, r)
  {
    hide *;
    RejectedFills(b, calls, r);
    EarnsIs(r, Elapsed(calls));
  }

  lemma {:induction false} RejectedFills(b: Bucket, calls: seq<Call>, r: real)
    requires b.Sound() && Timed(calls) && AtRate(calls, r) && 0.0 <= r && AllRejected(b, calls) && calls != []
    ensures AfterAll(b, calls)
      == Bucket(Least(Least(b.tokens, 2.0 * r) + Earns(r, Elapsed(calls)), 2.0 * r), 2.0 * r, r)
    ensures 0.0 <= Elapsed(calls)
  {
    hide Earns, After, Admits;
    var n := |calls| - 1;
    var c := calls[n];
    assert !Admits(AfterAll(b, calls[..n]), c);
    EarnsSomething(r, c.elapsed);
    RejectedOnce(AfterAll(b, calls[..n]), c);
    if n == 0 {
      assert calls[..0] == [] && Elapsed(calls) == c.elapsed;
    } else {
      assert forall i :: 0 <= i < n ==> calls[..n][..i] == calls[..i];
      RejectedFills(b, calls[..n], r);
      EarnsSomething(r, Elapsed(calls[..n]));
      EarnsMore(r, Elapsed(calls[..n]), c.elapsed);
    }
  }

  /**
   No starvation: at rate `r`, a packet of at most `2r` bytes is admitted once `bytes / r` seconds have
   passed in which nothing was admitted, however many packets were tried and rejected meanwhile.
   */
  lemma NoStarvation(b: Bucket, calls: seq<Call>, c: Call)
    requires b.Sound() && Timed(calls) && AtRate(calls, c.rate) && 0.0 < c.rate && 0.0 <= c.elapsed
    requires AllRejected(b, calls)
    requires c.bytes as real <= 2.0 * c.rate
    requires c.bytes as real / c.rate <= Elapsed(calls) + c.elapsed
    ensures Admits(AfterAll(b, calls), c)
  {
    hide Earns, After, Admits;
    var r := c.rate;
    Quotient(c.bytes as real, r, Elapsed(calls) + c.elapsed);
    EarnsSomething(r, c.elapsed);
    EarnsMore(r, Elapsed(calls), c.elapsed);
    AdmittedIsEarned(b, calls);
    AdmitsWhatIsEarned(AfterAll(b, calls), c);
    if calls != [] {
      RejectedFills(b, calls, r);
      EarnsSomething(r, Elapsed(calls));
    }
  }

  lemma Quotient(a: real, r: real, t: real)
    requires 0.0 < r && a / r <= t
    ensures a <= Earns(r, t)
  {
    assert a == r * (a / r);
  }

  /** A packet larger than the burst is never admitted at that rate. */
  lemma OversizedNeverAdmitted(b: Bucket, c: Call)
    requires b.Sound() && 0.0 <= c.elapsed && 2.0 * Greatest(c.rate, 0.0) < c.bytes as real
    ensures !Admits(b, c)
  {
    AdmitsExactly(b, c);
  }

  // ---------------------------------------------------------------- the adaptive controller

  function ComputeAdaptiveRate(currentRate: real, measured: real, target: real): real {
    if target <= 0.0 then 0.0
    else
      var current := if currentRate <= 0.0 then target else currentRate;
      if measured < 100.0 then current
      else
        var ratio := measured / target;
        if ratio > 1.02 then Clamp(current * (0.3 + 0.7 * (target / measured)), target * 0.05, target)
        else if ratio < 0.90 then Clamp(current * 1.15, target * 0.05, target)
        else if ratio < 0.98 then Clamp(current * 1.05, target * 0.05, target)
        else current
  }

  function Clamp(x: real, low: real, high: real): real {
    if x < low then low else if x > high then high else x
  }

  predicate InBand(rate: real, target: real) {
    target * 0.05 <= rate <= target
  }

  function Ticks(rate: real, measured: seq<real>, target: real): real {
    if measured == [] then rate
    else ComputeAdaptiveRate(Ticks(rate, measured[..|measured| - 1], target), measured[|measured| - 1], target)
  }

  /** The controller corrects its rate instead of leaving it alone. */
  predicate Corrects(measured: real, target: real) {
    100.0 <= measured && (measured > 1.02 * target || measured < 0.98 * target)
  }

  lemma RatioIs(measured: real, target: real, x: real)
    requires target > 0.0
    ensures measured / target > x <==> measured > x * target
    ensures measured / target < x <==> measured < x * target
  {
    assert (measured / target) * target == measured;
    if measured / target > x { ProductPositive(measured / target - x, target); }
    if measured / target < x { ProductPositive(x - measured / target, target); }
    if measured / target == x { assert x * target == measured; }
  }

  lemma ProductPositive(a: real, b: real)
    requires 0.0 < a && 0.0 < b
    ensures 0.0 < a * b
  {
  }

  /**
   A rate outside the band, as after the target was lowered, is brought back by exactly those
   measurements that are neither idle nor within two percent of the target.
   */
  lemma BandIsEntered(rate: real, measured: real, target: real)
    requires target > 0.0
    ensures InBand(ComputeAdaptiveRate(rate, measured, target), target)
      <==> rate <= 0.0 || InBand(rate, target) || Corrects(measured, target)
  {
    RatioIs(measured, target, 1.02);
    RatioIs(measured, target, 0.98);
    RatioIs(measured, target, 0.90);
  }

  /** With a fixed target the rate never leaves 5% to 100% of it, over any measurements. */
  lemma {:induction false} BandIsKept(rate: real, measured: seq<real>, target: real)
    requires target > 0.0 && (rate == 0.0 || InBand(rate, target))
    ensures Ticks(rate, measured, target) == 0.0 || InBand(Ticks(rate, measured, target), target)
    ensures measured != [] ==> InBand(Ticks(rate, measured, target), target)
  {
    if measured != [] {
      var n := |measured| - 1;
      BandIsKept(rate, measured[..n], target);
      BandIsEntered(Ticks(rate, measured[..n], target), measured[n], target);
    }
  }

  /** The rate the token bucket gets from an adaptive rule stays in the band, from the first packet on. */
  lemma EffectiveRateInBand(rule: ProcessRule, direction: Direction, measured: seq<real>)
    requires rule.adaptive && rule.TargetRate(direction).Some?
    requires var adjusted := if direction == Download then rule.adjustedDownload else rule.adjustedUpload;
      adjusted == Ticks(0.0, measured, rule.TargetRate(direction).value)
    ensures rule.EffectiveRate(direction).Some?
    ensures InBand(rule.EffectiveRate(direction).value, rule.TargetRate(direction).value)
  {
    BandIsKept(0.0, measured, rule.TargetRate(direction).value);
  }

  // ---------------------------------------------------------------- convergence

  function Grown(x: real, n: nat): real {
    if n == 0 then x else Grown(x, n - 1) * 1.05
  }

  lemma {:induction false} GrownSplit(x: real, a: nat, b: nat)
    ensures Grown(x, a + b) == Grown(Grown(x, a), b)
  {
    if b > 0 { GrownSplit(x, a, b - 1); }
  }

  lemma Doubles(x: real, n: nat)
    ensures Grown(x, n + n) == Grown(Grown(x, n), n)
  {
    GrownSplit(x, n, n);
  }

  lemma Growth8(x: real)
    requires 0.0 <= x
    ensures 1.4774 * x <= Grown(x, 8) <= 1.4775 * x
  {
    Doubles(x, 4);
    Growth4(x);
    Growth4(Grown(x, 4));
  }

  lemma Growth4(x: real)
    requires 0.0 <= x
    ensures 1.2155 * x <= Grown(x, 4) <= 1.21551 * x
  {
    Doubles(x, 2);
    Growth2(x);
    Growth2(Grown(x, 2));
  }

  lemma Growth2(x: real)
    ensures Grown(x, 2) == 1.1025 * x && Grown(x, 1) == 1.05 * x
  {
    assert Grown(x, 1) == x * 1.05;
  }

  lemma Growth32(x: real)
    requires 0.0 <= x
    ensures 4.764 * x <= Grown(x, 32) <= 4.7656 * x
  {
    Doubles(x, 8);
    Growth8(x);
    Growth8(Grown(x, 8));
    Doubles(x, 16);
    Doubles(Grown(x, 16), 8);
    Growth8(Grown(x, 16));
    Growth8(Grown(Grown(x, 16), 8));
  }

  lemma GrowthRest(x: real)
    requires 0.0 <= x
    ensures 4.321 * x <= Grown(x, 30)
    ensures Grown(x, 29) <= 4.19 * x
  {
    var z := Grown(x, 8);
    GrownSplit(x, 8, 22);
    Growth8(x);
    var u := Grown(z, 8);
    GrownSplit(z, 8, 14);
    Growth8(z);
    var v := Grown(u, 8);
    GrownSplit(u, 8, 6);
    Growth8(u);
    var w := Grown(v, 4);
    GrownSplit(v, 4, 2);
    Growth4(v);
    Growth2(w);
    assert Grown(x, 30) == Grown(w, 2) == 1.05 * Grown(x, 29);
  }

  /** A twentyfold growth at 5% a step takes 62 steps. */
  lemma TwentyfoldIn62(x: real)
    requires 0.0 < x
    ensures Grown(x, 61) < 20.0 * x <= Grown(x, 62)
  {
    GrownSplit(x, 32, 30);
    GrownSplit(x, 32, 29);
    Growth32(x);
    GrowthRest(Grown(x, 32));
  }

  ghost predicate BelowTarget(measured: seq<real>, target: real) {
    forall i :: 0 <= i < |measured| ==> 100.0 <= measured[i] < 0.98 * target
  }

  /** Speed measured below target raises the rate by at least 5% a tick until it reaches the target. */
  lemma {:induction false} RateClimbs(rate: real, measured: seq<real>, target: real)
    requires target > 0.0 && InBand(rate, target) && BelowTarget(measured, target)
    ensures InBand(Ticks(rate, measured, target), target)
    ensures Ticks(rate, measured, target) >= Least(target, Grown(rate, |measured|))
  {
    if measured != [] {
      var n := |measured| - 1;
      RateClimbs(rate, measured[..n], target);
      RatioIs(measured[n], target, 1.02);
      RatioIs(measured[n], target, 0.98);
      RatioIs(measured[n], target, 0.90);
    }
  }

  lemma {:induction false} GrownMonotone(x: real, y: real, n: nat)
    requires x <= y
    ensures Grown(x, n) <= Grown(y, n)
  {
    if n > 0 { GrownMonotone(x, y, n - 1); }
  }

  lemma {:induction false} GrownGrows(x: real, n: nat, m: nat)
    requires 0.0 <= x && n <= m
    ensures 0.0 <= Grown(x, n) <= Grown(x, m)
    decreases m
  {
    if n < m { GrownGrows(x, n, m - 1); }
    else if n > 0 { GrownGrows(x, n - 1, n - 1); }
  }

  /** A rate that was never set counts as the target. */
  lemma {:induction false} UnsetIsTarget(measured: seq<real>, target: real)
    requires target > 0.0 && measured != []
    ensures Ticks(0.0, measured, target) == Ticks(target, measured, target)
  {
    hide ComputeAdaptiveRate;
    var n := |measured| - 1;
    if n == 0 {
      assert measured[..0] == [];
      UnsetStep(measured[0], target);
    } else {
      UnsetIsTarget(measured[..n], target);
    }
  }

  lemma UnsetStep(measured: real, target: real)
    requires target > 0.0
    ensures ComputeAdaptiveRate(0.0, measured, target) == ComputeAdaptiveRate(target, measured, target)
  {
  }

  /**
   From an unset rate or anywhere in the band, the rate is at the target after 62 ticks of speed
   measured in [100, 98% of target), and it stays there for as long as that lasts.
   */
  lemma TargetReached(rate: real, measured: seq<real>, target: real)
    requires target > 0.0 && (rate == 0.0 || InBand(rate, target)) && BelowTarget(measured, target) && |measured| >= 62
    ensures Ticks(rate, measured, target) == target
  {
    var low := target * 0.05;
    var start := if rate == 0.0 then target else rate;
    if rate == 0.0 { UnsetIsTarget(measured, target); }
    RateClimbs(start, measured, target);
    TwentyfoldIn62(low);
    GrownMonotone(low, start, |measured|);
    GrownGrows(low, 62, |measured|);
  }

  lemma ClimbStep(rate: real, measured: real, target: real)
    requires 0.0 < rate && target * 0.05 <= rate && rate * 1.05 < target
    requires 100.0 <= measured && 0.90 * target <= measured < 0.98 * target
    ensures ComputeAdaptiveRate(rate, measured, target) == rate * 1.05
  {
    RatioIs(measured, target, 1.02);
    RatioIs(measured, target, 0.98);
    RatioIs(measured, target, 0.90);
  }

  /** 62 is exact: from 5% of the target, speed measured between 90% and 98% takes that long. */
  lemma {:induction false} ClimbsNoFaster(measured: seq<real>, target: real)
    requires target > 0.0 && |measured| <= 61
    requires forall i :: 0 <= i < |measured| ==> 100.0 <= measured[i] && 0.90 * target <= measured[i] < 0.98 * target
    ensures Ticks(target * 0.05, measured, target) == Grown(target * 0.05, |measured|) < target
  {
    hide ComputeAdaptiveRate;
    var low := target * 0.05;
    TwentyfoldIn62(low);
    GrownGrows(low, |measured|, 61);
    if measured != [] {
      var n := |measured| - 1;
      ClimbsNoFaster(measured[..n], target);
      GrownGrows(low, 0, n);
      ClimbStep(Grown(low, n), measured[n], target);
    }
  }
}
