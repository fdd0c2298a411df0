/** What missing feedback does to the pacing rate. */
module Silence {
  import opened Clock
  import opened Gcra
  import opened ControllerModel
  import Arithmetic

  function Pow2(n: nat): (r: nat)
    ensures r >= 1
  {
    if n == 0 then 1 else 2 * Pow2(n - 1)
  }

  /** A curve that never rises and halves with every whole unit. */
  ghost predicate Halves(f: real -> real) {
    && (forall x: real, y: real :: 0.0 <= x <= y ==> 0.0 < f(y) <= f(x))
    && (forall n: nat :: f(n as real) * Pow2(n) as real == 1.0)
  }

  lemma {:induction false} Pow2Grows(m: nat, n: nat)
    requires m <= n
    ensures Pow2(m) <= Pow2(n)
    decreases n - m
  {
    if m == n {
    } else {
      Pow2Grows(m + 1, n);
    }
  }

  /** The coarsest such curve: it drops at whole numbers only. */
  function StepCurve(x: real): real {
    if x < 0.0 then 1.0 else 1.0 / Pow2(x.Floor) as real
  }

  lemma ReciprocalPositive(p: real)
    requires p > 0.0
    ensures 1.0 / p > 0.0 && 1.0 / p * p == 1.0
  {}

  lemma StepCurveFalls(x: real, y: real)
    requires 0.0 <= x <= y
    ensures 0.0 < StepCurve(y) <= StepCurve(x)
  {
    Pow2Grows(x.Floor, y.Floor);
    hide Pow2;
    ReciprocalPositive(Pow2(y.Floor) as real);
    Arithmetic.ReciprocalOrder(Pow2(x.Floor) as real, Pow2(y.Floor) as real);
  }

  lemma StepCurveAt(n: nat)
    ensures StepCurve(n as real) * Pow2(n) as real == 1.0
  {
    hide Pow2;
    assert (n as real).Floor == n;
    ReciprocalPositive(Pow2(n) as real);
  }

  /** Curves that halve with every unit exist. */
  lemma StepCurveHalves()
    ensures Halves(StepCurve)
  {
    hide StepCurve, Pow2;
    forall x: real, y: real | 0.0 <= x <= y
      ensures 0.0 < StepCurve(y) <= StepCurve(x)
    {
      StepCurveFalls(x, y);
    }
    forall n: nat
      ensures StepCurve(n as real) * Pow2(n) as real == 1.0
    {
      StepCurveAt(n);
    }
  }

  lemma DecayedBy(f: real -> real, x: real, n: nat)
    requires Halves(f) && x >= n as real
    ensures 0.0 < f(x) && f(x) * Pow2(n) as real <= 1.0
  {
    Arithmetic.MultiplyOrder(f(x), f(n as real), Pow2(n) as real);
  }

  lemma DecayBound(probed: real, decay: real, pace: real, power: real)
    requires probed > 0.0 && decay > 0.0 && pace > 0.0 && power > 0.0
    requires probed * pace <= 1.0 && decay * power <= 1.0
    ensures probed * decay * (pace * power) <= 1.0
  {
    Arithmetic.PositiveProduct(probed, pace);
    Arithmetic.PositiveProduct(decay, power);
    Arithmetic.ProductAtMostOne(probed * pace, decay * power);
    Arithmetic.Regroup(probed, decay, pace, power);
  }

  lemma FloorBound(probed: real, max: real, slowest: real)
    requires probed > 0.0 && max > 0.0 && 0.0 < slowest && 2.0 * slowest <= max
    ensures probed * (1.0 / max * 2.0 / probed) * slowest <= 1.0
  {
    var least := 1.0 / max * 2.0;
    assert probed * (least / probed) == least;
    assert least * max == 2.0;
    Arithmetic.MultiplyOrder(2.0 * slowest, max, least);
    assert 2.0 * slowest * least == 2.0 * (least * slowest);
  }

  lemma FloorOrder(probed: real, floor: real, slowest: real)
    requires probed > 0.0 && slowest > 0.0 && probed * floor * slowest <= 1.0
    ensures floor < 1.0 || probed * 1.0 * slowest <= 1.0
  {
    if floor >= 1.0 {
      Arithmetic.MultiplyOrder(1.0, floor, probed);
      Arithmetic.MultiplyOrder(probed, probed * floor, slowest);
    }
  }

  lemma FlooredBound(probed: real, decay: real, slowest: real)
    requires probed > 0.0 && 0.0 < slowest && 2.0 * slowest <= DURATION_MAX as real
    requires probed * decay * slowest <= 1.0
    ensures probed * Floored(decay, probed) * slowest <= 1.0
  {
    FloorBound(probed, DURATION_MAX as real, slowest);
    FloorOrder(probed, MINIMUM_RATE / probed, slowest);
  }

  /** The rate after `k` half-lives, decayed or held at the floor. */
  lemma DecayedRate(rate: real, probed: real, decay: real, pace: nat, k: nat)
    requires probed > 0.0 && decay > 0.0 && pace > 0 && probed * pace as real <= 1.0
    requires decay * Pow2(k) as real <= 1.0 && 2 * (pace * Pow2(k)) <= DURATION_MAX
    requires rate == probed * Floored(decay, probed)
    ensures rate * (pace * Pow2(k)) as real <= 1.0
  {
    hide Floored;
    var power := Pow2(k);
    assert (pace * power) as real == pace as real * power as real;
    Arithmetic.PositiveProduct(pace as real, power as real);
    DecayBound(probed, decay, pace as real, power as real);
    FlooredBound(probed, decay, (pace * power) as real);
  }

  lemma HalfLives(silence: nat, rtt: nat, k: nat)
    requires rtt > 0 && silence >= rtt * (k + 1)
    ensures silence >= rtt && k as real <= (silence - rtt) as real / rtt as real
  {
    assert rtt * (k + 1) == rtt * k + rtt;
    assert (rtt * k) as real == rtt as real * k as real;
    Arithmetic.DivideOrder(rtt as real * k as real, (silence - rtt) as real, rtt as real);
    Arithmetic.MultiplyDivide(k as real, rtt as real);
    assert rtt as real * k as real == k as real * rtt as real;
  }

  function LivesOf(c: State, now: Instant): real
    requires c.epoch.Some? && c.epoch.value.expectedRtt > 0
  {
    (Since(now, c.epoch.value.lastFeedbackAt) - c.epoch.value.expectedRtt) as real / c.epoch.value.expectedRtt as real
  }

  predicate InGrace(c: State, now: Instant) {
    c.epoch.Some? ==> Since(now, c.epoch.value.lastFeedbackAt) <= c.epoch.value.expectedRtt
  }

  lemma RateUndecayed(c: State, now: Instant)
    requires Healthy(c) && InGrace(c, now)
    ensures RateAt(c, now) == ProbedRate(c)
  {
    assert FeedbackFactor(c.epoch, c.config.halving, now, ProbedRate(c)) == 1.0;
  }

  lemma RateDecayed(c: State, now: Instant)
    requires Healthy(c) && !InGrace(c, now)
    ensures RateAt(c, now) == ProbedRate(c) * Floored(c.config.halving(LivesOf(c, now)), ProbedRate(c))
  {
    hide Floored;
  }

  lemma LivesAtLeast(c: State, now: Instant, k: nat)
    requires c.epoch.Some? && c.epoch.value.expectedRtt > 0
    requires Since(now, c.epoch.value.lastFeedbackAt) >= c.epoch.value.expectedRtt * (k + 1)
    ensures LivesOf(c, now) >= k as real
  {
    HalfLives(Since(now, c.epoch.value.lastFeedbackAt), c.epoch.value.expectedRtt, k);
  }

  lemma RateInDecay(c: State, now: Instant, pace: Interval, k: nat)
    requires Healthy(c) && Halves(c.config.halving) && c.epoch.Some? && !InGrace(c, now)
    requires LivesOf(c, now) >= k as real
    requires ProbedRate(c) * pace as real <= 1.0 && 2 * (pace * Pow2(k)) <= DURATION_MAX
    ensures RateAt(c, now) * (pace * Pow2(k)) as real <= 1.0
  {
    hide RateAt, ProbedRate, Floored, Halves, LivesOf, InGrace, Pow2;
    RateDecayed(c, now);
    DecayedBy(c.config.halving, LivesOf(c, now), k);
    DecayedRate(RateAt(c, now), ProbedRate(c), c.config.halving(LivesOf(c, now)), pace, k);
  }

  lemma RateInGrace(c: State, now: Instant, pace: Interval)
    requires Healthy(c) && InGrace(c, now)
    requires ProbedRate(c) * pace as real <= 1.0
    ensures RateAt(c, now) * pace as real <= 1.0
  {
    hide RateAt, ProbedRate;
    RateUndecayed(c, now);
  }

  lemma EpochHasRtt(c: State)
    requires Healthy(c) && c.epoch.Some?
    ensures c.epoch.value.expectedRtt > 0
  {}

  lemma WithinGrace(silence: nat, rtt: nat, k: nat)
    requires rtt > 0 && rtt * (k + 1) <= silence <= rtt
    ensures k == 0
  {
    Arithmetic.FactorOrder(rtt, k + 1, 1);
  }

  lemma GraceIsOver(c: State, now: Instant, k: nat)
    requires Healthy(c) && c.epoch.Some? && InGrace(c, now)
    requires Since(now, c.epoch.value.lastFeedbackAt) >= c.epoch.value.expectedRtt * (k + 1)
    ensures k == 0
  {
    WithinGrace(Since(now, c.epoch.value.lastFeedbackAt), c.epoch.value.expectedRtt, k);
  }

  lemma RateInSilence(c: State, now: Instant, pace: Interval, k: nat)
    requires Healthy(c) && Halves(c.config.halving) && c.epoch.Some?
    requires Since(now, c.epoch.value.lastFeedbackAt) >= c.epoch.value.expectedRtt * (k + 1)
    requires ProbedRate(c) * pace as real <= 1.0 && 2 * (pace * Pow2(k)) <= DURATION_MAX
    ensures RateAt(c, now) * (pace * Pow2(k)) as real <= 1.0
  {
    hide RateAt, ProbedRate, Floored, Halves, LivesOf, Healthy;
    if InGrace(c, now) {
      GraceIsOver(c, now, k);
      RateInGrace(c, now, pace);
      assert Pow2(k) == 1 && pace * 1 == pace;
    } else {
      EpochHasRtt(c);
      LivesAtLeast(c, now, k);
      RateInDecay(c, now, pace, k);
    }
  }

  /** After `k` expected RTTs beyond the grace period the spacing is at least
      `pace` doubled `k` times, as long as that is above the floor. */
  lemma SilenceWidensSpacing(c: State, now: Instant, pace: Interval, k: nat)
    requires Healthy(c) && Halves(c.config.halving) && c.epoch.Some?
    requires Since(now, c.epoch.value.lastFeedbackAt) >= c.epoch.value.expectedRtt * (k + 1)
    requires ProbedRate(c) * pace as real <= 1.0 && 2 * (pace * Pow2(k)) <= DURATION_MAX
    ensures pace * Pow2(k) >= 1 && IntervalAt(c, now) >= pace * Pow2(k)
  {
    hide RateAt, ProbedRate, Halves, Healthy, Pow2;
    Arithmetic.ProductOrder(1, Pow2(k), pace);
    RateInSilence(c, now, pace, k);
    SpacingAtLeast(RateAt(c, now), pace * Pow2(k));
  }

  /** Before that, and without any silence, it is at least `pace`. */
  lemma SpacingAtLeastPace(c: State, now: Instant, pace: Interval)
    requires Healthy(c) && Halves(c.config.halving)
    requires ProbedRate(c) * pace as real <= 1.0 && 2 * pace <= DURATION_MAX
    ensures IntervalAt(c, now) >= pace
  {
    hide RateAt, ProbedRate, Floored, Halves;
    if !InGrace(c, now) {
      SilenceWidensSpacing(c, now, pace, 0);
    } else {
      RateInGrace(c, now, pace);
      SpacingAtLeast(RateAt(c, now), pace);
    }
  }
}
