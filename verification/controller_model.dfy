/** One endpoint's state and what every controller operation makes of it. */
module ControllerModel {
  import opened Clock
  import opened Gcra
  import opened Latency
  import opened Gradient
  import GradientLaws
  import opened Probe
  import Arithmetic

  const U64_MAX: nat := 0xFFFF_FFFF_FFFF_FFFF
  const BASELINE_RTT_WINDOWS: nat := 1_200

  /** The largest RTT whose pacing rates are certain to fit a `Duration`. */
  const RTT_LIMIT: Duration := DURATION_MAX / 5

  /** The two EWMA weights and `halving`, which stands for h => 2^-h, come
      from the platform's floating-point library. */
  datatype Config = Config(
    expectedRtt: Duration, initialConcurrency: nat, queueTolerance: Duration,
    queueCapacity: nat, maxInflight: nat,
    shortAlpha: real, longAlpha: real, halving: real -> real)
  {
    predicate Valid() {
      && 0 < expectedRtt <= RTT_LIMIT
      && 0 < initialConcurrency <= maxInflight
      && 0 < queueCapacity
      && 0.0 < shortAlpha <= 1.0 && 0.0 < longAlpha <= 1.0
    }

    function LatencySettings(): Settings {
      Settings(expectedRtt, shortAlpha, longAlpha,
               if expectedRtt < 1_000 then expectedRtt else 1_000,
               AtLeast(SatMul(expectedRtt, BASELINE_RTT_WINDOWS), 60 * SECOND))
    }

    function GradientTuning(): Tuning {
      Tuning(initialConcurrency as real, 0.25, maxInflight as real, queueTolerance,
             0.1, 0.2, SatMul(expectedRtt, 2), 0.7)
    }
  }

  datatype Reservation = Reservation(owner: nat, id: nat)

  datatype InFlight = InFlight(owner: nat, at: Instant, paced: bool)

  datatype Pending = Pending(id: nat, slot: Instant, paced: bool)

  datatype Epoch = Epoch(lastFeedbackAt: Instant, expectedRtt: Duration)

  datatype Changes = Changes(admission: bool, dispatch: bool)

  const QUIET: Changes := Changes(false, false)

  datatype DispatchState = Ready | WaitUntil(at: Instant) | WaitForPrevious | InflightLimit | Cancelled

  datatype Outcome = Success | Failure

  datatype Completion = Succeeded | Failed | Abandoned

  datatype ScheduleError = QueueFull | IdExhausted

  datatype Result<+T, +E> = Ok(value: T) | Err(error: E)

  datatype State = State(
    id: nat, config: Config, latency: Estimator, gradient: Control, pacer: Pacer,
    probe: ProbeState, rng: Rng, pending: seq<Pending>, nextId: nat, inflight: nat,
    completed: nat, failures: nat, epoch: Option<Epoch>, changes: Changes)

  predicate Gentle(kind: ProbeKind) {
    match kind
    case Positive(delta) => delta >= 0.0
    case Negative(factor) => 0.8 <= factor <= 1.0
  }

  /** What keeps every pacing rate positive and representable. */
  ghost predicate Healthy(c: State) {
    && c.config.Valid()
    && c.latency.Valid() && c.latency.settings == c.config.LatencySettings()
    && c.latency.settings.minRtt as real <= c.latency.long <= RTT_LIMIT as real
    && c.gradient.Valid() && c.gradient.tuning == c.config.GradientTuning()
    && (c.probe.active.Some? ==> Gentle(c.probe.active.value.kind))
    && c.rng.Valid()
    && (c.epoch.Some? ==> 0 < c.epoch.value.expectedRtt <= RTT_LIMIT)
  }

  lemma ExpectedRttInRange(c: State)
    requires Healthy(c)
    ensures 0 < ExpectedRtt(c.latency) <= RTT_LIMIT
  {
    var low, high := c.latency.settings.minRtt, RTT_LIMIT;
    FromNanosIsMonotone(low as real, c.latency.long);
    FromNanosIsMonotone(c.latency.long, high as real);
    FromNanosKeepsWholes(low);
    FromNanosKeepsWholes(high);
  }

  function BaseRate(c: State): real
    requires ExpectedRtt(c.latency) > 0
  {
    c.gradient.concurrency / ExpectedRtt(c.latency) as real
  }

  const MINIMUM_RATE: real := 1.0 / DURATION_MAX as real * 2.0

  /** Decay stops where the spacing would no longer fit a duration. */
  function Floored(decay: real, rate: real): real
    requires rate > 0.0
  {
    var floor := MINIMUM_RATE / rate;
    var kept := if floor < 1.0 then floor else 1.0;
    if decay < kept then kept else decay
  }

  function FeedbackFactor(epoch: Option<Epoch>, halving: real -> real, now: Instant, rate: real): real
    requires rate > 0.0
    requires epoch.Some? ==> epoch.value.expectedRtt > 0
  {
    if epoch.None? then 1.0
    else
      var silence := Since(now, epoch.value.lastFeedbackAt);
      if silence <= epoch.value.expectedRtt then 1.0
      else
        var halfLives := (silence - epoch.value.expectedRtt) as real / epoch.value.expectedRtt as real;
        Floored(halving(halfLives), rate)
  }

  lemma ProbedRateBound(concurrency: real, rtt: real, factor: real, max: real)
    requires concurrency >= 0.25 && 0.0 < rtt && 5.0 * rtt <= max && factor >= 0.8
    ensures concurrency / rtt > 0.0
    ensures concurrency / rtt * factor > 0.0
    ensures concurrency / rtt * factor * max >= 1.0
  {
    var q := concurrency / rtt;
    assert q * rtt == concurrency;
    assert q > 0.0;
    Arithmetic.MultiplyOrder(5.0 * rtt, max, q);
    assert max * q >= 1.25;
    Arithmetic.MultiplyOrder(0.8, factor, max * q);
    assert q * factor * max == factor * (max * q);
  }

  lemma FlooredRateBound(rate: real, factor: real, max: real)
    requires rate > 0.0 && max > 0.0 && rate * max >= 1.0
    requires factor >= 1.0 || factor >= 1.0 / max * 2.0 / rate
    ensures rate * factor > 0.0 && rate * factor * max >= 1.0
  {
    if factor >= 1.0 {
      Arithmetic.MultiplyOrder(1.0, factor, rate);
      Arithmetic.MultiplyOrder(rate, rate * factor, max);
    } else {
      var two := 1.0 / max * 2.0;
      assert two * max == 2.0;
      Arithmetic.MultiplyOrder(two / rate, factor, rate);
      assert two / rate * rate == two;
      Arithmetic.MultiplyOrder(two, rate * factor, max);
    }
  }

  lemma RepresentableAbove(rate: real)
    requires rate > 0.0 && rate * DURATION_MAX as real >= 1.0
    ensures Representable(rate)
  {
    Arithmetic.ReciprocalUpper(rate, DURATION_MAX as real);
    RoundIsMonotone(1.0 / rate, DURATION_MAX as real);
    RoundKeepsWholes(DURATION_MAX);
  }

  lemma ProbingKeepsRate(c: State)
    requires Healthy(c)
    ensures ExpectedRtt(c.latency) > 0
    ensures EffectiveRate(c.probe, BaseRate(c)) > 0.0
    ensures EffectiveRate(c.probe, BaseRate(c)) * DURATION_MAX as real >= 1.0
  {
    ExpectedRttInRange(c);
    var concurrency, rtt, max := c.gradient.concurrency, ExpectedRtt(c.latency) as real, DURATION_MAX as real;
    ProbedRateBound(concurrency, rtt, 1.0, max);
    if c.probe.active.Some? {
      match c.probe.active.value.kind
      case Positive(delta) => Arithmetic.MultiplyOrder(concurrency / rtt, concurrency / rtt + delta, max);
      case Negative(factor) => ProbedRateBound(concurrency, rtt, factor, max);
    }
  }

  /** Little's Law, then the active probe. */
  function ProbedRate(c: State): (rate: real)
    requires Healthy(c)
    ensures rate > 0.0 && rate * DURATION_MAX as real >= 1.0
  {
    ProbingKeepsRate(c);
    EffectiveRate(c.probe, BaseRate(c))
  }

  /** The pacing rate in force at `now`; every healthy state has one. */
  function RateAt(c: State, now: Instant): (rate: real)
    requires Healthy(c)
    ensures Representable(rate)
  {
    var probed := ProbedRate(c);
    var factor := FeedbackFactor(c.epoch, c.config.halving, now, probed);
    assert factor >= 1.0 || factor >= MINIMUM_RATE / probed;
    FlooredRateBound(probed, factor, DURATION_MAX as real);
    RepresentableAbove(probed * factor);
    probed * factor
  }

  function IntervalAt(c: State, now: Instant): Interval
    requires Healthy(c)
  {
    RateToInterval(RateAt(c, now))
  }

  function WithoutExpiredProbe(c: State, now: Instant): State {
    c.(probe := Expired(c.probe, now))
  }

  /** The rate the code derives at `now`: a probe that has lapsed by then no
      longer counts, whether or not it has been dropped yet. */
  function DerivedRate(c: State, now: Instant): (rate: real)
    requires Healthy(c)
    ensures rate > 0.0 && Representable(rate)
  {
    RateAt(WithoutExpiredProbe(c, now), now)
  }

  function DerivedInterval(c: State, now: Instant): Interval
    requires Healthy(c)
  {
    RateToInterval(DerivedRate(c, now))
  }

  /** The `i`-th of the slots that start at `next` and lie one interval apart. */
  function SlotAt(next: Instant, interval: Interval, i: nat): Instant {
    if i == 0 then next else AddSat(SlotAt(next, interval, i - 1), interval)
  }

  function Rebuilt(pending: seq<Pending>, next: Instant, interval: Interval): seq<Pending> {
    seq(|pending|, i requires 0 <= i < |pending| => pending[i].(slot := SlotAt(next, interval, i)))
  }

  function NextVirtualSlot(c: State, now: Instant): Instant {
    Later(if c.pending == [] then NextAt(c.pacer, now)
          else AddSat(c.pending[|c.pending| - 1].slot, c.pacer.interval), now)
  }

  predicate ProbingHasDemand(c: State) {
    c.latency.samples > 0 || (c.inflight > 0 && c.pending != [])
  }

  function NextRefreshAt(c: State): Option<Instant> {
    if c.probe.active.Some? then Some(c.probe.active.value.until)
    else if ProbingHasDemand(c) then c.probe.nextProbeAt
    else None
  }

  /** Adopts a spacing, rebuilding the queue when it changed or fell behind. */
  function Retimed(c: State, interval: Interval, now: Instant): State {
    var pacer := SetInterval(c.pacer, interval, now);
    var next := NextAt(pacer, now);
    var headExpired := c.pending != [] && c.pending[0].slot < next;
    if interval != c.pacer.interval || headExpired then
      c.(pacer := pacer, changes := c.changes.(dispatch := true), pending := Rebuilt(c.pending, next, interval))
    else c.(pacer := pacer)
  }

  function RateUpdated(c: State, now: Instant): State
    requires Healthy(c)
  {
    var d := WithoutExpiredProbe(c, now);
    Retimed(d, DerivedInterval(c, now), now)
  }

  function ProbeConsulted(c: State, now: Instant): State
    requires c.rng.Valid()
  {
    if ProbingHasDemand(c) then
      c.(probe := MaybeStarted(c.probe, DEFAULT_SCHEDULE, c.rng.Head(), now),
         rng := if Decides(c.probe, now) then c.rng.(used := c.rng.used + 1) else c.rng)
    else c
  }

  lemma ConsultingIsHealthy(c: State, now: Instant)
    requires Healthy(c)
    ensures Healthy(ProbeConsulted(c, now))
  {}

  /** The probe decision is taken and an expired probe dropped. */
  function Prepared(c: State, now: Instant): (d: State)
    requires Healthy(c)
    ensures Healthy(d)
  {
    WithoutExpiredProbe(ProbeConsulted(c, now), now)
  }

  function Refreshed(c: State, now: Instant): State
    requires Healthy(c)
  {
    var d := RateUpdated(Prepared(c, now), now);
    d.(changes := d.changes.(dispatch := d.changes.dispatch || NextRefreshAt(c) != NextRefreshAt(d)))
  }

  predicate MaySchedule(c: State) {
    |c.pending| < c.config.queueCapacity
  }

  function Reserved(c: State, now: Instant): (State, Result<Reservation, ScheduleError>) {
    if !MaySchedule(c) then (c, Err(QueueFull))
    else if c.nextId == U64_MAX then (c, Err(IdExhausted))
    else (c.(nextId := c.nextId + 1, pending := c.pending + [Pending(c.nextId, NextVirtualSlot(c, now), false)]),
          Ok(Reservation(c.id, c.nextId)))
  }

  predicate Holds(pending: seq<Pending>, id: nat) {
    exists i :: 0 <= i < |pending| && pending[i].id == id
  }

  /** The first position of `id`, or the length when it is absent. */
  function Position(pending: seq<Pending>, id: nat): (i: nat)
    ensures i <= |pending|
    ensures i < |pending| ==> pending[i].id == id
    ensures forall j :: 0 <= j < i ==> pending[j].id != id
  {
    if pending == [] || pending[0].id == id then 0 else 1 + Position(pending[1..], id)
  }

  function Requeued(c: State, pending: seq<Pending>, now: Instant): State {
    c.(pending := Rebuilt(pending, NextAt(c.pacer, now), c.pacer.interval))
  }

  function CancelledOne(c: State, r: Reservation, now: Instant): (State, bool) {
    var i := Position(c.pending, r.id);
    if r.owner != c.id || i == |c.pending| then (c, false)
    else (Requeued(c.(changes := Changes(true, true)), c.pending[..i] + c.pending[i + 1..], now), true)
  }

  /** Refreshes, then reports where the reservation stands. */
  function Checked(c: State, r: Reservation, now: Instant): (State, DispatchState)
    requires Healthy(c)
  {
    if r.owner != c.id || c.pending == [] then (c, Cancelled)
    else if c.pending[0].id != r.id then (c, if Holds(c.pending, r.id) then WaitForPrevious else Cancelled)
    else
      var d := Refreshed(c, now);
      if d.inflight >= d.config.maxInflight then (d, InflightLimit)
      else
        var slot := d.pending[0].slot;
        if slot > now then
          var refresh := NextRefreshAt(d);
          (d.(pending := d.pending[0 := d.pending[0].(paced := true)]),
           WaitUntil(if refresh.Some? && refresh.value < slot then refresh.value else slot))
        else (d, Ready)
  }

  /** Pops the head and commits its dispatch to the pacer. */
  function Started(d: State, now: Instant): (State, InFlight)
    requires d.pending != []
  {
    var e := d.(
      epoch := if d.inflight == 0 then Some(Epoch(now, ExpectedRtt(d.latency))) else d.epoch,
      inflight := d.inflight + 1,
      changes := Changes(true, true),
      pacer := Committed(d.pacer, now));
    (Requeued(e, d.pending[1..], now), InFlight(d.id, now, d.pending[0].paced))
  }

  function Dispatched(c: State, r: Reservation, now: Instant): (State, Result<InFlight, DispatchState>)
    requires Healthy(c)
  {
    var (d, state) := Checked(c, r, now);
    if state != Ready then (d, Err(state))
    else
      var (e, token) := Started(d, now);
      (e, Ok(token))
  }

  /** The smoothed estimate, with this sample, stays where every rate derived
      from it is certain to be representable. */
  predicate Measurable(e: Estimator, outcome: Outcome, latency: Duration) {
    outcome == Success ==>
      Ewma(e.long, AtLeast(latency, e.settings.minRtt) as real, e.settings.longAlpha) <= RTT_LIMIT as real
  }

  predicate Reportable(c: State, token: InFlight, completion: Completion, now: Instant) {
    token.owner == c.id && completion == Succeeded ==> Measurable(c.latency, Success, Since(now, token.at))
  }

  function Learned(c: State, token: InFlight, outcome: Outcome, latency: Duration, now: Instant): State
    requires Healthy(c)
  {
    match outcome
    case Success =>
      var estimator := Observed(c.latency, latency, now);
      c.(latency := estimator,
         gradient := OnRtt(c.gradient, ShortRtt(estimator), BaselineRtt(estimator), c.inflight, token.paced, now).0)
    case Failure =>
      c.(failures := c.failures + 1, gradient := OnFailure(c.gradient, now))
  }

  function Released(c: State, epoch: Option<Epoch>): State
    requires c.inflight > 0
  {
    c.(inflight := c.inflight - 1, changes := c.changes.(dispatch := true), epoch := epoch)
  }

  lemma EwmaStaysBetween(previous: real, sample: real, alpha: real, low: real, high: real)
    requires 0.0 <= alpha <= 1.0 && low <= previous <= high && low <= sample <= high
    ensures low <= Ewma(previous, sample, alpha) <= high
  {
    Arithmetic.ConvexBounds(previous, sample, alpha, low, high);
  }

  lemma EwmaStaysAbove(previous: real, sample: real, alpha: real, low: real)
    requires 0.0 <= alpha <= 1.0 && low <= previous && low <= sample
    ensures low <= Ewma(previous, sample, alpha)
  {
    EwmaStaysBetween(previous, sample, alpha, low, if previous < sample then sample else previous);
  }

  /** Samples within the limit never push the estimate beyond it. */
  lemma SmallSamplesAreMeasurable(c: State, outcome: Outcome, latency: Duration)
    requires Healthy(c) && latency <= RTT_LIMIT
    ensures Measurable(c.latency, outcome, latency)
  {
    var s := c.latency.settings;
    EwmaStaysBetween(c.latency.long, AtLeast(latency, s.minRtt) as real, s.longAlpha, s.minRtt as real, RTT_LIMIT as real);
  }

  lemma HealthyGradient(g: Control, f: GradientLaws.Feedback)
    requires g.Valid()
    ensures GradientLaws.Respond(g, f).Valid() && GradientLaws.Respond(g, f).tuning == g.tuning
  {
    GradientLaws.RespondKeepsBounds(g, f);
  }

  lemma LearningIsHealthy(c: State, token: InFlight, outcome: Outcome, latency: Duration, now: Instant)
    requires Healthy(c) && Measurable(c.latency, outcome, latency)
    ensures Healthy(Learned(c, token, outcome, latency, now))
  {
    match outcome
    case Success =>
      var s := c.latency.settings;
      var estimator := Observed(c.latency, latency, now);
      EwmaStaysAbove(c.latency.long, AtLeast(latency, s.minRtt) as real, s.longAlpha, s.minRtt as real);
      HealthyGradient(c.gradient, GradientLaws.Rtt(ShortRtt(estimator), BaselineRtt(estimator), c.inflight,
          token.paced, now));
    case Failure =>
      HealthyGradient(c.gradient, GradientLaws.Failure(now));
  }

  function EpochAfterFeedback(c: State, now: Instant): Option<Epoch>
    requires c.inflight > 0
  {
    if c.inflight > 1 then Some(Epoch(now, ExpectedRtt(c.latency))) else None
  }

  function Completed(c: State, token: InFlight, outcome: Outcome, latency: Duration, now: Instant): (State, bool)
    requires Healthy(c)
    requires token.owner == c.id ==> c.inflight > 0 && Measurable(c.latency, outcome, latency)
  {
    if token.owner != c.id then (c, false)
    else
      var d := c.(completed := c.completed + 1);
      LearningIsHealthy(d, token, outcome, latency, now);
      var e := Learned(d, token, outcome, latency, now);
      ExpectedRttInRange(e);
      (RateUpdated(Released(e, EpochAfterFeedback(e, now)), now), true)
  }

  function Penalised(c: State, now: Instant): (d: State)
    requires Healthy(c)
    ensures Healthy(d)
  {
    HealthyGradient(c.gradient, GradientLaws.Failure(now));
    c.(failures := c.failures + 1, gradient := OnFailure(c.gradient, now))
  }

  function GivenUp(c: State, token: InFlight, now: Instant): (State, bool)
    requires Healthy(c)
    requires token.owner == c.id ==> c.inflight > 0
  {
    if token.owner != c.id then (c, false)
    else
      var d := Penalised(c, now);
      (RateUpdated(Released(d, if d.inflight > 1 then d.epoch else None), now), true)
  }

  function AdmissionFailed(c: State, now: Instant): State
    requires Healthy(c)
  {
    RateUpdated(Penalised(c, now), now)
  }

  function Finished(c: State, token: InFlight, completion: Completion, now: Instant): (State, bool)
    requires Healthy(c) && Reportable(c, token, completion, now)
    requires token.owner == c.id ==> c.inflight > 0
  {
    match completion
    case Succeeded => Completed(c, token, Success, Since(now, token.at), now)
    case Failed => Completed(c, token, Failure, Since(now, token.at), now)
    case Abandoned => GivenUp(c, token, now)
  }

  function PredictedCompletion(c: State, now: Instant): (State, Instant)
    requires Healthy(c)
  {
    var d := Refreshed(c, now);
    (d, AddSat(NextVirtualSlot(d, now), ExpectedRtt(d.latency)))
  }

  /** The predicted delay; the code reports it in seconds. */
  function Load(c: State, now: Instant): (State, Duration)
    requires Healthy(c)
  {
    var (d, at) := PredictedCompletion(c, now);
    (d, Since(at, now))
  }

  function Taken(c: State): (State, Changes) {
    (c.(changes := QUIET), c.changes)
  }

  lemma InitialRateFits(c: Config)
    requires c.Valid()
    ensures ExpectedRtt(Fresh(c.LatencySettings())) == c.expectedRtt
    ensures c.initialConcurrency as real / c.expectedRtt as real > 0.0
    ensures Representable(c.initialConcurrency as real / c.expectedRtt as real)
  {
    FromNanosKeepsWholes(c.expectedRtt);
    ProbedRateBound(c.initialConcurrency as real, c.expectedRtt as real, 1.0, DURATION_MAX as real);
    RepresentableAbove(c.initialConcurrency as real / c.expectedRtt as real);
  }

  function InitialState(id: nat, config: Config, rng: Rng, now: Instant): State
    requires config.Valid()
  {
    InitialRateFits(config);
    var rate := config.initialConcurrency as real / config.expectedRtt as real;
    State(id, config, Fresh(config.LatencySettings()), Initial(config.GradientTuning()),
          Pacer(RateToInterval(rate), now), ProbeState(None, None), rng, [], 0, 0, 0, 0, None, QUIET)
  }

  // ---- Every operation keeps the rates representable ------------------------

  lemma RetimedIsHealthy(c: State, interval: Interval, now: Instant)
    requires Healthy(c)
    ensures Healthy(Retimed(c, interval, now)) && |Retimed(c, interval, now).pending| == |c.pending|
  {}

  lemma RateUpdatedIsHealthy(c: State, now: Instant)
    requires Healthy(c)
    ensures Healthy(RateUpdated(c, now)) && |RateUpdated(c, now).pending| == |c.pending|
  {
    RetimedIsHealthy(WithoutExpiredProbe(c, now), DerivedInterval(c, now), now);
  }

  lemma RefreshedIsHealthy(c: State, now: Instant)
    requires Healthy(c)
    ensures Healthy(Refreshed(c, now)) && |Refreshed(c, now).pending| == |c.pending|
  {
    hide RateUpdated, MaybeStarted;
    RateUpdatedIsHealthy(Prepared(c, now), now);
  }

  lemma CheckedIsHealthy(c: State, r: Reservation, now: Instant)
    requires Healthy(c)
    ensures Healthy(Checked(c, r, now).0)
    ensures Checked(c, r, now).1 == Ready ==> Checked(c, r, now).0.pending != []
  {
    hide Refreshed;
    RefreshedIsHealthy(c, now);
  }

  lemma DispatchedIsHealthy(c: State, r: Reservation, now: Instant)
    requires Healthy(c)
    ensures Healthy(Dispatched(c, r, now).0)
  {
    hide Refreshed;
    CheckedIsHealthy(c, r, now);
    ExpectedRttInRange(Checked(c, r, now).0);
  }

  lemma CountingIsHealthy(c: State)
    requires Healthy(c)
    ensures Healthy(c.(completed := c.completed + 1))
  {}

  lemma CompletedIs(c: State, token: InFlight, outcome: Outcome, rtt: Duration, now: Instant)
    requires Healthy(c) && Measurable(c.latency, outcome, rtt) && token.owner == c.id && c.inflight > 0
    ensures var e := Learned(c.(completed := c.completed + 1), token, outcome, rtt, now);
      && Healthy(e) && e.inflight > 0 && Healthy(Released(e, EpochAfterFeedback(e, now)))
      && Completed(c, token, outcome, rtt, now) == (RateUpdated(Released(e, EpochAfterFeedback(e, now)), now), true)
  {
    LearningIsHealthy(c.(completed := c.completed + 1), token, outcome, rtt, now);
    ExpectedRttInRange(Learned(c.(completed := c.completed + 1), token, outcome, rtt, now));
  }

  lemma SlowestSpacing(q: real, rtt: real)
    requires q > 0.0 && rtt > 0.0 && q * rtt == 0.25
    ensures 1.0 / (q * 0.8) == 5.0 * rtt
  {
    assert (q * 0.8) * (5.0 * rtt) == 1.0;
  }

  /** At the lowest concurrency and under the weakest probe, a rate can be
      represented exactly when the RTT respects the limit. */
  lemma LimitIsTight(rtt: Duration)
    requires rtt > 0
    ensures 0.25 / rtt as real * 0.8 > 0.0
    ensures Representable(0.25 / rtt as real * 0.8) <==> rtt <= RTT_LIMIT
  {
    var q := 0.25 / rtt as real;
    assert q * rtt as real == 0.25;
    Arithmetic.PositiveProduct(0.25, 1.0 / rtt as real);
    assert q > 0.0;
    SlowestSpacing(q, rtt as real);
    RoundKeepsWholes(5 * rtt);
  }
}
