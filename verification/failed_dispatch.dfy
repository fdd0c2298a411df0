/** What a dispatch that fails may leave behind. */
module FailedDispatch {
  import opened Clock
  import opened Gcra
  import opened Probe
  import opened ControllerModel
  import opened VirtualQueue
  import opened ControllerRuns
  import Arithmetic
  import Latency

  /** A refresh has something to do: a probe has lapsed, a probe decision is
      due, time or feedback calls for another spacing, or the head fell behind. */
  ghost predicate RefreshDue(c: State, now: Instant)
    requires Healthy(c)
  {
    || (c.probe.active.Some? && c.probe.active.value.until <= now)
    || (ProbingHasDemand(c) && Decides(c.probe, now))
    || IntervalAt(c, now) != c.pacer.interval
    || (c.pending != [] && c.pending[0].slot < NextAt(c.pacer, now))
  }

  /** A refresh that has something to do changes the probe, its random source,
      the pacer, or the slot of the head. */
  ghost predicate Moved(c: State, d: State) {
    || d.probe != c.probe || d.rng != c.rng || d.pacer != c.pacer
    || (c.pending != [] && d.pending != [] && d.pending[0].slot != c.pending[0].slot)
  }

  lemma PreparingMoves(c: State, now: Instant)
    requires Healthy(c)
    ensures var e := Prepared(c, now);
      if (c.probe.active.Some? && c.probe.active.value.until <= now) || (ProbingHasDemand(c) && Decides(c.probe, now)) then
        e.probe != c.probe || e.rng != c.rng
      else e == c
  {
    hide Decided;
  }

  lemma RetimingMoves(c: State, interval: Interval, now: Instant)
    ensures var d := Retimed(c, interval, now);
      if interval != c.pacer.interval || (c.pending != [] && c.pending[0].slot < NextAt(c.pacer, now)) then Moved(c, d)
      else d == c
  {
    hide Wait, Phase;
  }

  lemma ExpiredOnce(p: ProbeState, now: Instant)
    ensures Expired(Expired(p, now), now) == Expired(p, now)
  {}

  lemma UnmovedTransition(c: State, now: Instant)
    requires Healthy(c) && Prepared(c, now) == c
    ensures var d := Retimed(c, IntervalAt(c, now), now);
      d == c ==> Refreshed(c, now) == c
  {
    hide RateAt, Retimed, ProbeConsulted, Expired;
    ExpiredOnce(ProbeConsulted(c, now).probe, now);
    assert WithoutExpiredProbe(c, now) == c;
    assert DerivedInterval(c, now) == IntervalAt(c, now);
  }

  lemma RefreshMovesExactly(c: State, now: Instant)
    requires Healthy(c)
    ensures RefreshDue(c, now) ==> Moved(c, Refreshed(c, now))
    ensures !RefreshDue(c, now) ==> Refreshed(c, now) == c
  {
    hide IntervalAt, Decides, ProbeConsulted, WithoutExpiredProbe, ProbingHasDemand;
    var e := Prepared(c, now);
    PreparingMoves(c, now);
    RefreshIsRetiming(c, now);
    RetimingKeeps(e, IntervalAt(e, now), now);
    if e == c {
      RetimingMoves(c, IntervalAt(c, now), now);
      UnmovedTransition(c, now);
    }
  }

  /** A dispatch that fails leaves the controller alone exactly when the
      reservation is not at the head, or no refresh is due and the head is held
      back by the cap or was told to wait before. */
  lemma FailedDispatchKeeps(c: State, r: Reservation, now: Instant)
    requires Healthy(c) && Cached(c, now) && Dispatched(c, r, now).1.Err?
    ensures Dispatched(c, r, now).0 == c <==>
      || !AtHead(c, r)
      || (!RefreshDue(c, now) && (c.inflight >= c.config.maxInflight || c.pending[0].paced))
  {
    hide Refreshed, RefreshDue;
    CheckIs(c, r, now);
    RefreshMovesExactly(c, now);
    RefreshingCaches(c, now);
    if AtHead(c, r) && !RefreshDue(c, now) && c.pending[0].paced {
      assert c.pending[0 := c.pending[0].(paced := true)] == c.pending;
    }
  }

  /** An idle endpoint at which two requests have queued up. */
  function Busy(config: Config, rng: Rng, id: nat, now: Instant): State
    requires config.Valid()
  {
    InitialRateFits(config);
    var c := InitialState(id, config, rng, now);
    var queue := [Pending(0, now, false), Pending(1, AddSat(now, c.pacer.interval), false)];
    c.(nextId := 2, pending := queue)
  }

  /** Two requests queue up at an idle endpoint. */
  lemma BusyIsReached(id: nat, config: Config, rng: Rng, now: Instant)
    requires config.Valid() && config.queueCapacity >= 2
    ensures var first := Reserved(InitialState(id, config, rng, now), now);
      var second := Reserved(first.0, now);
      && first.1 == Ok(Reservation(id, 0)) && second.1 == Ok(Reservation(id, 1))
      && second.0 == Busy(config, rng, id, now)
  {}

  lemma BusyHasRate(config: Config, rng: Rng, id: nat, now: Instant)
    requires config.Valid() && rng.Valid()
    ensures var c := Busy(config, rng, id, now);
      Healthy(c) && IntervalAt(c, now) == c.pacer.interval && Prepared(c, now) == c && !RefreshDue(c, now)
  {
    InitialRateFits(config);
    var c := Busy(config, rng, id, now);
    assert BaseRate(c) == config.initialConcurrency as real / config.expectedRtt as real;
  }

  lemma FirstLeaves(id: nat, config: Config, rng: Rng, now: Instant)
    requires config.Valid() && rng.Valid() && config.queueCapacity >= 2
    ensures var c := Busy(config, rng, id, now);
      && Healthy(c) && Cached(c, now) && Dispatched(c, Reservation(id, 0), now).1.Ok?
      && var d := Dispatched(c, Reservation(id, 0), now).0;
         && Healthy(d) && Cached(d, now) && d.config == config && d.id == id && d.inflight == 1
         && |d.pending| == 1 && d.pending[0].id == 1 && !d.pending[0].paced
         && d.pacer == Pacer(c.pacer.interval, AddSat(now, c.pacer.interval))
         && d.latency == c.latency && d.gradient == c.gradient && d.probe == c.probe && d.rng == c.rng
         && d.epoch == Some(Epoch(now, Latency.ExpectedRtt(c.latency)))
  {
    BusyHasRate(config, rng, id, now);
    var c := Busy(config, rng, id, now);
    RefreshMovesExactly(c, now);
    hide Refreshed, RefreshDue, IntervalAt;
    assert SlotAt(now, c.pacer.interval, 1) == AddSat(SlotAt(now, c.pacer.interval, 0), c.pacer.interval);
    CheckIs(c, Reservation(id, 0), now);
    DispatchingKeeps(c, Reservation(id, 0), now);
  }

  lemma SpacingRemains(p: Pacer, interval: Interval, now: Instant)
    requires p.tat == now + p.interval
    ensures SetInterval(p, interval, now).tat > now
  {
    Arithmetic.MultiplyDivide(1.0, p.interval as real);
    assert Phase(p, now) == 1.0;
    FromNanosKeepsWholes(interval);
  }

  /** A head that has to wait a whole spacing is marked. */
  lemma SecondIsMarked(d: State, r: Reservation, now: Instant)
    requires Healthy(d) && Cached(d, now) && AtHead(d, r) && d.inflight < d.config.maxInflight
    requires d.pacer.tat == now + d.pacer.interval
    ensures var (e, result) := Dispatched(d, r, now);
      result.Err? && result.error.WaitUntil? && e.pending != [] && e.pending[0].paced
  {
    hide Refreshed, IntervalAt, Healthy, SlotsCached, SetInterval;
    var e := Prepared(d, now);
    CheckIs(d, r, now);
    RefreshIsRetiming(d, now);
    RetimingKeeps(e, IntervalAt(e, now), now);
    RefreshingCaches(d, now);
    SpacingRemains(d.pacer, IntervalAt(e, now), now);
  }

  /** From a new controller: two requests are reserved, the first leaves, and
      the second is asked for at the same instant. That dispatch fails, and yet
      the head is now marked as paced. */
  lemma FailedDispatchMarks(id: nat, config: Config, rng: Rng, now: Instant)
    requires config.Valid() && rng.Valid() && config.queueCapacity >= 2 && config.maxInflight >= 2
    requires now + InitialState(id, config, rng, now).pacer.interval <= MAX_INSTANT
    ensures var (b, first) := Reserved(InitialState(id, config, rng, now), now);
      var (c, second) := Reserved(b, now);
      && first == Ok(Reservation(id, 0)) && second == Ok(Reservation(id, 1)) && Healthy(c)
      && var (d, token) := Dispatched(c, first.value, now);
         && token.Ok? && Healthy(d) && d.pending != [] && !d.pending[0].paced
         && var (e, result) := Dispatched(d, second.value, now);
            result.Err? && result.error.WaitUntil? && e.pending != [] && e.pending[0].paced
  {
    BusyIsReached(id, config, rng, now);
    FirstLeaves(id, config, rng, now);
    SecondIsMarked(Dispatched(Busy(config, rng, id, now), Reservation(id, 0), now).0, Reservation(id, 1), now);
  }
}
