/** What the learned operating point is worth: rates, spacings, and what
    feedback costs or earns. */
module OperatingPoint {
  import opened Clock
  import opened Gcra
  import opened Latency
  import opened Probe
  import opened ControllerModel
  import VirtualQueue
  import opened ControllerRuns
  import opened ControllerPacing
  import opened Silence
  import opened Synchrony
  import Arithmetic

  /** A duration is the nearest one to a number of nanoseconds. */
  predicate RoundsTo(d: Duration, x: real) {
    d as real - 0.5 <= x <= d as real + 0.5
  }

  /** The RTT used for rates is the learned long-term estimate. */
  lemma ExpectedRttIsLearned(c: State)
    requires Healthy(c)
    ensures RoundsTo(ExpectedRtt(c.latency), c.latency.long)
  {
    FromNanosRounds(c.latency.long);
  }

  lemma ShortRttIsLearned(e: Estimator)
    requires 0.0 <= e.short <= DURATION_MAX as real
    ensures RoundsTo(ShortRtt(e), e.short)
  {
    FromNanosRounds(e.short);
  }

  /** Concurrency is rate times RTT, once the probe is taken off the rate. */
  predicate ObeysLittle(rate: real, rtt: Interval, concurrency: real, active: Option<Probe>) {
    match active
    case None => rate * rtt as real == concurrency
    case Some(Probe(Positive(delta), _)) => (rate - delta) * rtt as real == concurrency
    case Some(Probe(Negative(factor), _)) => rate * rtt as real == concurrency * factor
  }

  lemma Quotients(concurrency: real, rtt: real, delta: real, factor: real)
    requires rtt > 0.0
    ensures concurrency / rtt * rtt == concurrency
    ensures (concurrency / rtt + delta - delta) * rtt == concurrency
    ensures concurrency / rtt * factor * rtt == concurrency * factor
  {
    var q := concurrency / rtt;
    assert q * rtt == concurrency;
    assert q * factor * rtt == q * rtt * factor;
  }

  lemma EffectiveRateObeysLittle(rate: real, p: ProbeState, base: real, rtt: Interval, concurrency: real)
    requires base == concurrency / rtt as real && rate == EffectiveRate(p, base)
    ensures ObeysLittle(rate, rtt, concurrency, p.active)
  {
    match p.active
    case None => Quotients(concurrency, rtt as real, 0.0, 1.0);
    case Some(Probe(Positive(delta), _)) => Quotients(concurrency, rtt as real, delta, 1.0);
    case Some(Probe(Negative(factor), _)) => Quotients(concurrency, rtt as real, 0.0, factor);
  }

  lemma ProbedRateObeysLittle(c: State)
    requires Healthy(c)
    ensures ExpectedRtt(c.latency) > 0
    ensures ObeysLittle(ProbedRate(c), ExpectedRtt(c.latency), c.gradient.concurrency, c.probe.active)
  {
    hide EffectiveRate, ObeysLittle, Healthy;
    ExpectedRttInRange(c);
    EffectiveRateObeysLittle(ProbedRate(c), c.probe, BaseRate(c), ExpectedRtt(c.latency), c.gradient.concurrency);
  }

  /** The probe that still runs at `now`. */
  function RunningProbe(c: State, now: Instant): Option<Probe> {
    if c.probe.active.Some? && c.probe.active.value.until > now then c.probe.active else None
  }

  /** Little's law: while feedback is not overdue, the rate derived at any
      instant times the learned RTT is the learned concurrency, a running probe
      aside. */
  lemma LittlesLaw(c: State, now: Instant)
    requires Healthy(c) && InGrace(c, now)
    ensures ExpectedRtt(c.latency) > 0
    ensures ObeysLittle(DerivedRate(c, now), ExpectedRtt(c.latency), c.gradient.concurrency, RunningProbe(c, now))
  {
    hide ProbedRate, RateAt, ObeysLittle;
    var d := WithoutExpiredProbe(c, now);
    RateUndecayed(d, now);
    ProbedRateObeysLittle(d);
  }

  /** A spacing is the nearest one to the reciprocal of its rate, and never zero. */
  lemma SpacingIsReciprocal(rate: real)
    requires Representable(rate)
    ensures RoundsTo(RateToInterval(rate), 1.0 / rate) || (RateToInterval(rate) == 1 && 1.0 / rate <= 0.5)
  {
    Arithmetic.ReciprocalOrder(rate, rate);
    assert 1.0 / rate * rate == 1.0;
  }

  lemma RttPerRequest(rate: real, rtt: Interval, concurrency: real)
    requires rate > 0.0 && concurrency > 0.0 && rate * rtt as real == concurrency
    ensures 1.0 / rate == rtt as real / concurrency
  {
    var a := 1.0 / rate;
    assert a * rate == 1.0;
    assert a * concurrency == rtt as real by {
      assert a * (rate * rtt as real) == a * rate * rtt as real;
    }
    Arithmetic.MultiplyDivide(a, concurrency);
  }

  /** A spacing that is the learned RTT per unit of concurrency. */
  predicate SpacedByRtt(spacing: Interval, rtt: Duration, concurrency: real) {
    && concurrency > 0.0
    && var share := rtt as real / concurrency;
       RoundsTo(spacing, share) || (spacing == 1 && share <= 0.5)
  }

  lemma ConcurrencyIsPositive(c: State)
    requires Healthy(c)
    ensures c.gradient.concurrency > 0.0
  {}

  lemma UnprobedSpacing(d: State, now: Instant)
    requires Healthy(d) && d.pacer.interval == IntervalAt(d, now) && InGrace(d, now) && d.probe.active.None?
    ensures SpacedByRtt(d.pacer.interval, ExpectedRtt(d.latency), d.gradient.concurrency)
  {
    hide RateAt, ProbedRate, RoundsTo, Healthy;
    RateUndecayed(d, now);
    ProbedRateObeysLittle(d);
    ConcurrencyIsPositive(d);
    SpacingIsReciprocal(RateAt(d, now));
    RttPerRequest(RateAt(d, now), ExpectedRtt(d.latency), d.gradient.concurrency);
  }

  /** Whatever operation re-derives the rate: while feedback is not overdue and
      no probe runs, the spacing it leaves is the learned RTT per unit of
      concurrency. */
  lemma SpacingIsRttPerRequest(c: State, op: Op, now: Instant)
    requires Healthy(c) && VirtualQueue.Cached(c, now) && Permitted(c, op) && ClockMatchesLoad(c) && Touches(c, op)
    ensures var d := Step(c, op, now).0;
      InGrace(d, now) && d.probe.active.None? ==>
        SpacedByRtt(d.pacer.interval, ExpectedRtt(d.latency), d.gradient.concurrency)
  {
    hide Step, Touches, RateAt, ProbedRate, SpacedByRtt, Healthy, InGrace;
    StepPaces(c, op, now);
    var d := Step(c, op, now).0;
    if InGrace(d, now) && d.probe.active.None? {
      UnprobedSpacing(d, now);
    }
  }

  /** A new controller assumes the configured RTT and concurrency, grants its
      first request at once, and spaces the next ones by that RTT per unit of
      that concurrency. */
  lemma StartsAsConfigured(id: nat, config: Config, rng: Rng, now: Instant)
    requires config.Valid()
    ensures var c := InitialState(id, config, rng, now);
      && c.latency.long == c.latency.short == config.expectedRtt as real && c.latency.samples == 0
      && c.gradient.concurrency == config.initialConcurrency as real
      && c.pacer.tat == now
      && SpacedByRtt(c.pacer.interval, config.expectedRtt, config.initialConcurrency as real)
      && c.pending == [] && c.inflight == 0 && c.epoch.None? && c.probe == ProbeState(None, None)
      && c.changes == Changes(false, false)
  {
    hide RoundsTo;
    InitialRateFits(config);
    var concurrency, rtt := config.initialConcurrency as real, config.expectedRtt as real;
    Quotients(concurrency, rtt, 0.0, 1.0);
    SpacingIsReciprocal(concurrency / rtt);
    RttPerRequest(concurrency / rtt, config.expectedRtt, concurrency);
  }

  lemma ExactHalfLives(silence: nat, rtt: nat, k: nat)
    requires rtt > 0 && silence == rtt * (k + 1)
    ensures silence >= rtt && (silence - rtt) as real / rtt as real == k as real
  {
    assert rtt * (k + 1) == rtt * k + rtt;
    assert (rtt * k) as real == k as real * rtt as real;
    Arithmetic.MultiplyDivide(k as real, rtt as real);
  }

  lemma ExactShare(rate: real, probed: real, decay: real, power: real, floor: real)
    requires power > 0.0 && decay * power == 1.0 && rate == Max(probed * decay, floor)
    ensures rate == Max(probed / power, floor)
  {
    assert probed * decay * power == probed * (decay * power);
    Arithmetic.MultiplyDivide(probed * decay, power);
  }

  lemma MinimumIs()
    ensures MINIMUM_RATE == 2.0 / DURATION_MAX as real
  {}

  lemma NoHalving()
    ensures Pow2(0) == 1
  {}

  /** The decay `k` expected RTTs after the grace period. */
  lemma DecayHalves(epoch: Option<Epoch>, halving: real -> real, now: Instant, k: nat)
    requires Halves(halving) && epoch.Some? && epoch.value.expectedRtt > 0
    requires Since(now, epoch.value.lastFeedbackAt) == epoch.value.expectedRtt * (k + 1)
    ensures DecayAt(epoch, halving, now) * Pow2(k) as real == 1.0
  {
    hide Pow2;
    var silence, rtt := Since(now, epoch.value.lastFeedbackAt), epoch.value.expectedRtt;
    ExactHalfLives(silence, rtt, k);
    assert halving(k as real) * Pow2(k) as real == 1.0;
    if silence <= rtt {
      WithinGrace(silence, rtt, k);
      NoHalving();
    }
  }

  lemma DecayedShare(rate: real, probed: real, decay: real, power: real)
    requires probed > 0.0 && power > 0.0 && decay * power == 1.0 && rate == probed * Floored(decay, probed)
    ensures rate == Max(probed / power, Min(probed, 2.0 / DURATION_MAX as real))
  {
    hide Floored, Max, Min;
    DecayedRateIs(probed, decay);
    MinimumIs();
    ExactShare(rate, probed, decay, power, Min(probed, MINIMUM_RATE));
  }

  /** Exactly k expected RTTs after the grace period the rate has halved k
      times, or is held at the floor: two requests per longest duration, if the
      probed rate is not lower still. */
  lemma SilenceHalvesRate(c: State, now: Instant, k: nat)
    requires Healthy(c) && Halves(c.config.halving) && c.epoch.Some?
    requires Since(now, c.epoch.value.lastFeedbackAt) == c.epoch.value.expectedRtt * (k + 1)
    ensures RateAt(c, now) == Max(ProbedRate(c) / Pow2(k) as real, Min(ProbedRate(c), 2.0 / DURATION_MAX as real))
  {
    hide RateAt, ProbedRate, Floored, Pow2, Healthy, Max, Min, DecayAt, Halves;
    EpochHasRtt(c);
    DecayHalves(c.epoch, c.config.halving, now, k);
    RateFactors(c, now);
    DecayedShare(RateAt(c, now), ProbedRate(c), DecayAt(c.epoch, c.config.halving, now), Pow2(k) as real);
  }
}
