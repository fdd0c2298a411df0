/** The spacing in force is the one some recent instant called for. */
module Synchrony {
  import opened Clock
  import opened Gcra
  import opened Gradient
  import opened Probe
  import opened ControllerModel
  import VirtualQueue
  import Latency
  import opened ControllerRuns
  import opened Ledgers
  import opened ControllerPacing
  import opened Silence
  import GradientLaws
  import Arithmetic

  ghost predicate SyncedAt(c: State, t: Instant) {
    Healthy(c) && c.pacer.interval == IntervalAt(c, t)
  }

  /** Between rate refreshes only time passes. */
  ghost predicate InStep(c: State, now: Instant) {
    exists t: Instant :: t <= now && SyncedAt(c, t)
  }

  /** Everything the pacing rate depends on, apart from time. */
  ghost predicate SameInputs(c: State, d: State) {
    && d.config == c.config && d.latency == c.latency && d.gradient == c.gradient
    && d.probe.active == c.probe.active && d.epoch == c.epoch
  }

  lemma OthersKeepInputs(c: State, op: Op, now: Instant)
    requires Healthy(c) && Permitted(c, op) && !Touches(c, op)
    ensures var d := Step(c, op, now).0;
      Healthy(d) && SameInputs(c, d) && d.pacer == c.pacer
  {}

  lemma SameInterval(c: State, d: State, t: Instant)
    requires Healthy(c) && Healthy(d) && SameInputs(c, d)
    ensures IntervalAt(d, t) == IntervalAt(c, t)
  {
    hide RateAt;
    SameRate(c, d, t);
  }

  /** Every operation leaves the spacing in step with some instant so far. */
  lemma StepStaysInStep(c: State, op: Op, before: Instant, now: Instant)
    requires Healthy(c) && VirtualQueue.Cached(c, now) && Permitted(c, op) && ClockMatchesLoad(c)
    requires InStep(c, before) && before <= now
    ensures InStep(Step(c, op, now).0, now)
  {
    hide Step, IntervalAt, Healthy, Touches;
    StepPaces(c, op, now);
    var d := Step(c, op, now).0;
    if Touches(c, op) {
      assert SyncedAt(d, now);
    } else {
      OthersKeepInputs(c, op, now);
      var t: Instant :| t <= before && SyncedAt(c, t);
      SameInterval(c, d, t);
      assert SyncedAt(d, t);
    }
  }

  lemma {:induction false} RunsStayInStep(w: World, es: seq<Event>)
    requires Sound(w) && Runs(w, es) && InStep(w.c, w.now)
    ensures InStep(After(w, es).c, After(w, es).now)
    decreases |es|
  {
    hide Step, InStep;
    if es == [] {
    } else {
      AllowedIsPermitted(w, es[0]);
      NextIsSound(w, es[0]);
      StepStaysInStep(w.c, es[0].op, w.now, es[0].at);
      RunsStayInStep(Next(w, es[0]), es[1..]);
    }
  }

  lemma NewWorldIsInStep(id: nat, config: Config, rng: Rng, now: Instant)
    requires config.Valid() && rng.Valid()
    ensures InStep(NewWorld(id, config, rng, now).c, now)
  {
    var c := NewWorld(id, config, rng, now).c;
    InitialRateFits(config);
    assert RateAt(c, now) == config.initialConcurrency as real / config.expectedRtt as real;
    assert SyncedAt(c, now);
  }

  function Max(a: real, b: real): real {
    if a < b then b else a
  }

  function Min(a: real, b: real): real {
    if a < b then a else b
  }

  lemma KeepsOrder(probed: real, a: real, b: real)
    requires probed > 0.0
    ensures probed * (if a < b then b else a) == Max(probed * a, probed * b)
  {
    if a < b {
      Arithmetic.MultiplyOrder(a, b, probed);
    } else {
      Arithmetic.MultiplyOrder(b, a, probed);
    }
  }

  /** A decayed rate is the probed rate times the decay, but not below the
      floor, which itself is never above the probed rate. */
  lemma DecayedRateIs(probed: real, decay: real)
    requires probed > 0.0
    ensures probed * Floored(decay, probed) == Max(probed * decay, Min(probed, MINIMUM_RATE))
  {
    var floor := MINIMUM_RATE / probed;
    assert probed * floor == MINIMUM_RATE;
    if floor < 1.0 {
      Arithmetic.MultiplyOrder(floor, 1.0, probed);
      KeepsOrder(probed, decay, floor);
    } else {
      Arithmetic.MultiplyOrder(1.0, floor, probed);
      KeepsOrder(probed, decay, 1.0);
    }
  }

  lemma ProductsOrder(a: real, b: real, c: real, d: real)
    requires 0.0 < a <= c && 0.0 < b <= d
    ensures a * b <= c * d
  {
    assert a * b <= a * d;
    assert a * d <= c * d;
  }

  lemma DecayOrder(slow: real, less: real, fast: real, more: real)
    requires 0.0 < slow <= fast && 0.0 < less <= more
    ensures slow * Floored(less, slow) <= fast * Floored(more, fast)
  {
    hide Floored;
    DecayedRateIs(slow, less);
    DecayedRateIs(fast, more);
    Arithmetic.MultiplyOrder(less, more, slow);
    Arithmetic.MultiplyOrder(slow, fast, more);
    ProductsOrder(slow, less, fast, more);
  }

  /** A decay of one is no decay. */
  lemma NoDecay(probed: real)
    requires probed > 0.0
    ensures probed * Floored(1.0, probed) == probed
  {}

  /** The decay in force; it is one during the grace period. */
  function DecayAt(epoch: Option<Epoch>, halving: real -> real, now: Instant): real
    requires epoch.Some? ==> epoch.value.expectedRtt > 0
  {
    if epoch.None? || Since(now, epoch.value.lastFeedbackAt) <= epoch.value.expectedRtt then 1.0
    else halving((Since(now, epoch.value.lastFeedbackAt) - epoch.value.expectedRtt) as real / epoch.value.expectedRtt as real)
  }

  lemma RateFactors(c: State, now: Instant)
    requires Healthy(c)
    ensures RateAt(c, now) == ProbedRate(c) * Floored(DecayAt(c.epoch, c.config.halving, now), ProbedRate(c))
  {
    hide Floored;
    if InGrace(c, now) {
      RateUndecayed(c, now);
      NoDecay(ProbedRate(c));
    } else {
      RateDecayed(c, now);
    }
  }

  lemma DecayFalls(epoch: Option<Epoch>, halving: real -> real, t: Instant, now: Instant)
    requires Halves(halving) && t <= now && (epoch.Some? ==> epoch.value.expectedRtt > 0)
    ensures 0.0 < DecayAt(epoch, halving, now) <= DecayAt(epoch, halving, t) <= 1.0
  {
    assert halving(0 as real) * Pow2(0) as real == 1.0;
    if epoch.Some? {
      var rtt := epoch.value.expectedRtt;
      var before, after := Since(t, epoch.value.lastFeedbackAt) - rtt, Since(now, epoch.value.lastFeedbackAt) - rtt;
      if before > 0 {
        Arithmetic.DivideOrder(0.0, before as real, rtt as real);
        Arithmetic.DivideOrder(before as real, after as real, rtt as real);
      }
      if after > 0 {
        Arithmetic.DivideOrder(0.0, after as real, rtt as real);
      }
    }
  }

  /** With no faster probed rate and the same epoch, later is never faster. */
  lemma LaterIsSlower(c: State, t: Instant, d: State, now: Instant)
    requires Healthy(c) && Healthy(d) && Halves(c.config.halving) && t <= now
    requires d.epoch == c.epoch && d.config == c.config && ProbedRate(d) <= ProbedRate(c)
    ensures IntervalAt(c, t) <= IntervalAt(d, now)
  {
    hide RateAt, ProbedRate, Floored, Halves, DecayAt;
    RateFactors(c, t);
    RateFactors(d, now);
    DecayFalls(c.epoch, c.config.halving, t, now);
    DecayOrder(ProbedRate(d), DecayAt(d.epoch, d.config.halving, now), ProbedRate(c), DecayAt(c.epoch, c.config.halving, t));
    SlowerRateWidens(RateAt(c, t), RateAt(d, now));
  }

  lemma UpdatingTeachesNothing(c: State, now: Instant)
    requires Healthy(c)
    ensures RateUpdated(c, now).latency == c.latency && RateUpdated(c, now).gradient == c.gradient
  {
    hide IntervalAt;
    var e := WithoutExpiredProbe(c, now);
    VirtualQueue.RetimingKeeps(e, IntervalAt(e, now), now);
  }

  lemma PenaltyTeaches(c: State, op: Op, now: Instant)
    requires Healthy(c) && Permitted(c, op) && (op.Abandon? || op.FailAdmission?) && Touches(c, op)
    ensures var d := Step(c, op, now).0;
      d.latency == c.latency && d.gradient.concurrency <= c.gradient.concurrency
  {
    hide IntervalAt;
    GradientLaws.FailureStep(c.gradient, now);
    var d := Penalised(c, now);
    hide Retimed, OnFailure;
    match op
    case Abandon(token) => UpdatingTeachesNothing(Released(d, if d.inflight > 1 then d.epoch else None), now);
    case FailAdmission => UpdatingTeachesNothing(d, now);
  }

  lemma RefreshingTeachesNothing(c: State, now: Instant)
    requires Healthy(c)
    ensures Refreshed(c, now).latency == c.latency && Refreshed(c, now).gradient == c.gradient
  {
    hide RateUpdated;
    UpdatingTeachesNothing(Prepared(c, now), now);
  }

  /** Only feedback teaches: everything else leaves the RTT estimate alone and
      can only lower the concurrency. */
  lemma OnlyFeedbackTeaches(c: State, op: Op, now: Instant)
    requires Healthy(c) && VirtualQueue.Cached(c, now) && Permitted(c, op) && !(op.Complete? && op.token.owner == c.id)
    ensures var d := Step(c, op, now).0;
      d.latency == c.latency && d.gradient.concurrency <= c.gradient.concurrency
  {
    hide Refreshed, RateUpdated, Healthy, Rebuilt, Learned, Penalised;
    if Touches(c, op) {
      RefreshingTeachesNothing(c, now);
      match op
      case Check(r) => CheckIs(c, r, now);
      case Dispatch(r) => CheckIs(c, r, now);
      case Abandon(_) => PenaltyTeaches(c, op, now);
      case FailAdmission => PenaltyTeaches(c, op, now);
      case Refresh =>
    } else {
      hide Step;
      OthersKeepInputs(c, op, now);
    }
  }

  lemma SlowedOrder(low: real, high: real, factor: real)
    requires 0.0 <= low <= high && 0.0 <= factor <= 1.0
    ensures low * factor <= high * factor <= high
  {
    Arithmetic.MultiplyOrder(low, high, factor);
    Arithmetic.ShareOf(high, factor);
    assert high * factor == factor * high;
  }

  lemma SameProbeOrder(p: ProbeState, low: real, high: real)
    requires 0.0 <= low <= high && (p.active.Some? ==> Gentle(p.active.value.kind))
    ensures EffectiveRate(p, low) <= EffectiveRate(p, high)
  {
    if Slowing(p) {
      SlowedOrder(low, high, p.active.value.kind.factor);
    }
  }

  lemma ProbeMovesRate(p: ProbeState, base: real)
    requires 0.0 <= base && (p.active.Some? ==> Gentle(p.active.value.kind))
    ensures !Slowing(p) ==> EffectiveRate(p, base) >= base
    ensures !Speeding(p) ==> EffectiveRate(p, base) <= base
  {
    if Slowing(p) {
      SlowedOrder(base, base, p.active.value.kind.factor);
    }
  }

  lemma ProbingKeepsOrder(p: ProbeState, q: ProbeState, low: real, high: real)
    requires 0.0 <= low <= high && !Boosts(p, q)
    requires (p.active.Some? ==> Gentle(p.active.value.kind)) && (q.active.Some? ==> Gentle(q.active.value.kind))
    ensures EffectiveRate(q, low) <= EffectiveRate(p, high)
  {
    if p.active == q.active {
      SameProbeOrder(p, low, high);
      assert EffectiveRate(q, low) == EffectiveRate(p, low);
    } else {
      hide EffectiveRate;
      ProbeMovesRate(p, high);
      ProbeMovesRate(q, low);
    }
  }

  lemma BaseIsPositive(c: State)
    requires Healthy(c)
    ensures Latency.ExpectedRtt(c.latency) > 0 && BaseRate(c) >= 0.0
  {
    ExpectedRttInRange(c);
    Arithmetic.DivideOrder(0.0, c.gradient.concurrency, Latency.ExpectedRtt(c.latency) as real);
  }

  /** Without a boost, no growth of concurrency means no growth of the rate. */
  lemma ProbedRateFalls(c: State, d: State)
    requires Healthy(c) && Healthy(d)
    requires d.latency == c.latency && d.gradient.concurrency <= c.gradient.concurrency && !Boosts(c.probe, d.probe)
    ensures ProbedRate(d) <= ProbedRate(c)
  {
    hide Boosts;
    BaseIsPositive(c);
    BaseIsPositive(d);
    Arithmetic.DivideOrder(d.gradient.concurrency, c.gradient.concurrency, Latency.ExpectedRtt(c.latency) as real);
    assert BaseRate(d) <= BaseRate(c);
    ProbingKeepsOrder(c.probe, d.probe, BaseRate(d), BaseRate(c));
  }

  /** A negative probe that is over, but has not been dropped yet. */
  predicate LapsedNegative(p: ProbeState, now: Instant) {
    Slowing(p) && p.active.value.until <= now
  }

  lemma LapsingIsHealthy(c: State, now: Instant)
    requires Healthy(c)
    ensures Healthy(WithoutExpiredProbe(c, now))
    ensures !LapsedNegative(c.probe, now) ==> !Boosts(c.probe, WithoutExpiredProbe(c, now).probe)
  {}

  /** Unless a negative probe has just lapsed, the spacing in force is never
      wider than the one the code derives at present. */
  lemma SpacingLags(c: State, now: Instant)
    requires Healthy(c) && Halves(c.config.halving) && InStep(c, now) && !LapsedNegative(c.probe, now)
    ensures c.pacer.interval <= DerivedInterval(c, now)
  {
    hide ProbedRate, RateAt, Halves, Boosts;
    var t: Instant :| t <= now && SyncedAt(c, t);
    var d := WithoutExpiredProbe(c, now);
    LapsingIsHealthy(c, now);
    hide Healthy;
    ProbedRateFalls(c, d);
    LaterIsSlower(c, t, d, now);
  }

  lemma EndingASlowdown(c: State, d: State)
    requires Healthy(c) && Healthy(d) && Slowing(c.probe) && d == c.(probe := c.probe.(active := None))
    ensures ProbedRate(c) <= ProbedRate(d)
  {
    BaseIsPositive(c);
    SlowedOrder(BaseRate(c), BaseRate(c), c.probe.active.value.kind.factor);
    assert BaseRate(d) == BaseRate(c);
    hide BaseRate;
  }

  lemma EndingReplacesFactor(c: State, d: State)
    requires Healthy(c) && Healthy(d) && Slowing(c.probe) && d == c.(probe := c.probe.(active := None))
    ensures ProbedRate(c) == ProbedRate(d) * c.probe.active.value.kind.factor
  {
    BaseIsPositive(c);
    hide BaseRate, Healthy;
    SameBase(c, d);
  }

  lemma RatesByShares(base: real, factor: real, held: real, due: real)
    requires base > 0.0
    ensures factor * held <= due ==> base * factor * held <= base * due
    ensures factor * held >= due ==> base * factor * held >= base * due
  {
    assert base * factor * held == base * (factor * held);
    if factor * held <= due {
      Arithmetic.MultiplyOrder(factor * held, due, base);
    }
    if factor * held >= due {
      Arithmetic.MultiplyOrder(due, factor * held, base);
    }
  }

  lemma RatesInOrder(held: real, due: real)
    requires Representable(held) && Representable(due)
    ensures held <= due ==> RateToInterval(held) >= RateToInterval(due)
    ensures held >= due ==> RateToInterval(held) <= RateToInterval(due)
  {
    if held <= due {
      SlowerRateWidens(due, held);
    }
    if held >= due {
      SlowerRateWidens(held, due);
    }
  }

  /** A lapsed negative probe is the exception, and this is exactly when: the
      spacing in force, adopted at `t`, is at least the one derived at present
      if the probe's factor times the decay at `t` is at most the decay of now,
      and at most that one if it is at least the decay of now. */
  lemma LapsedNegativeExactly(c: State, t: Instant, now: Instant)
    requires SyncedAt(c, t) && LapsedNegative(c.probe, now)
    ensures var d := WithoutExpiredProbe(c, now);
      && Healthy(d)
      && var held := c.probe.active.value.kind.factor * Floored(DecayAt(c.epoch, c.config.halving, t), ProbedRate(c));
         var due := Floored(DecayAt(c.epoch, c.config.halving, now), ProbedRate(d));
         && (held <= due ==> c.pacer.interval >= DerivedInterval(c, now))
         && (held >= due ==> c.pacer.interval <= DerivedInterval(c, now))
  {
    hide RateAt, ProbedRate, DecayAt, Floored, Healthy, Boosts;
    var d := WithoutExpiredProbe(c, now);
    LapsingIsHealthy(c, now);
    RateFactors(c, t);
    RateFactors(d, now);
    EndingReplacesFactor(c, d);
    var held := Floored(DecayAt(c.epoch, c.config.halving, t), ProbedRate(c));
    var due := Floored(DecayAt(c.epoch, c.config.halving, now), ProbedRate(d));
    RatesByShares(ProbedRate(d), c.probe.active.value.kind.factor, held, due);
    RatesInOrder(RateAt(c, t), RateAt(d, now));
  }

  /** In particular, until the silence decay sets in,
      the spacing in force is the probe's, never narrower than the one derived
      at present, and so the spacing lags only if rounding makes them equal. */
  lemma LapsedNegativeOvershoots(c: State, now: Instant)
    requires Healthy(c) && InStep(c, now) && LapsedNegative(c.probe, now) && InGrace(c, now)
    ensures Representable(ProbedRate(c)) && c.pacer.interval == RateToInterval(ProbedRate(c))
    ensures Healthy(WithoutExpiredProbe(c, now)) && Representable(ProbedRate(WithoutExpiredProbe(c, now)))
    ensures DerivedInterval(c, now) == RateToInterval(ProbedRate(WithoutExpiredProbe(c, now)))
    ensures c.pacer.interval >= DerivedInterval(c, now)
  {
    var t: Instant :| t <= now && SyncedAt(c, t);
    var d := WithoutExpiredProbe(c, now);
    LapsingIsHealthy(c, now);
    RateUndecayed(c, t);
    RateUndecayed(d, now);
    hide RateAt, ProbedRate;
    EndingASlowdown(c, d);
    SlowerRateWidens(ProbedRate(d), ProbedRate(c));
  }

  /** Without feedback, while the same epoch lasts, an operation shrinks the
      spacing only where a positive probe starts or a negative one ends. */
  lemma SilenceNeverSpeedsUp(c: State, op: Op, now: Instant)
    requires Healthy(c) && VirtualQueue.Cached(c, now) && Permitted(c, op) && ClockMatchesLoad(c)
    requires Halves(c.config.halving) && InStep(c, now)
    requires !(op.Complete? && op.token.owner == c.id)
    requires var d := Step(c, op, now).0; d.epoch == c.epoch && !Boosts(c.probe, d.probe)
    ensures Step(c, op, now).0.pacer.interval >= c.pacer.interval
  {
    hide Step, IntervalAt, ProbedRate, Halves, Healthy, Touches, Boosts;
    StepPaces(c, op, now);
    var d := Step(c, op, now).0;
    if Touches(c, op) {
      StepKeeps(c, op, now);
      OnlyFeedbackTeaches(c, op, now);
      ProbedRateFalls(c, d);
      var t: Instant :| t <= now && SyncedAt(c, t);
      LaterIsSlower(c, t, d, now);
    }
  }

  /** After a preparation no probe is due for expiry or for a decision. */
  lemma Undue(e: State, now: Instant, c: State)
    requires Healthy(c) && e == Prepared(c, now) && now < MAX_INSTANT
    ensures Expired(e.probe, now) == e.probe
    ensures ProbingHasDemand(e) ==> !Decides(e.probe, now)
  {}

  lemma NothingToPrepare(c: State, now: Instant)
    requires Healthy(c) && now < MAX_INSTANT
    ensures Prepared(Refreshed(c, now), now) == Refreshed(c, now)
  {
    hide IntervalAt;
    var e := Prepared(c, now);
    VirtualQueue.RefreshIsRetiming(c, now);
    VirtualQueue.RetimingKeeps(e, IntervalAt(e, now), now);
    Undue(e, now, c);
  }

  /** A second refresh at one instant changes nothing. */
  lemma RefreshIsIdempotent(c: State, now: Instant)
    requires Healthy(c) && VirtualQueue.Cached(c, now) && now < MAX_INSTANT
    ensures Healthy(Refreshed(c, now)) && Refreshed(Refreshed(c, now), now) == Refreshed(c, now)
  {
    hide IntervalAt, Prepared;
    VirtualQueue.RefreshingCaches(c, now);
    RefreshingSyncs(c, now);
    NothingToPrepare(c, now);
    VirtualQueue.RefreshIsRetiming(Refreshed(c, now), now);
  }

  lemma MarkingKeepsRefresh(d: State, now: Instant)
    requires Healthy(d) && d.pending != [] && Refreshed(d, now) == d
    requires d.pending[0].slot >= NextAt(d.pacer, now)
    ensures Healthy(MarkedPaced(d)) && Refreshed(MarkedPaced(d), now) == MarkedPaced(d)
  {
    var m := MarkedPaced(d);
    assert Healthy(m) && Prepared(m, now).probe == Prepared(d, now).probe && Prepared(m, now).rng == Prepared(d, now).rng;
    SameRate(Prepared(d, now), Prepared(m, now), now);
    VirtualQueue.RefreshIsRetiming(d, now);
    VirtualQueue.RefreshIsRetiming(m, now);
  }

  /** Asking again at the same instant gives the same answer. */
  lemma CheckIsIdempotent(c: State, r: Reservation, now: Instant)
    requires Healthy(c) && VirtualQueue.Cached(c, now) && now < MAX_INSTANT
    ensures var (d, state) := Checked(c, r, now);
      Healthy(d) && Checked(d, r, now) == (d, state)
  {
    hide Refreshed, IntervalAt;
    CheckIs(c, r, now);
    if AtHead(c, r) {
      var d := Refreshed(c, now);
      VirtualQueue.RefreshingCaches(c, now);
      RefreshIsIdempotent(c, now);
      MarkingKeepsRefresh(d, now);
      var m := MarkedPaced(d);
      assert m.pending[0 := m.pending[0].(paced := true)] == m.pending;
    }
  }
}
