/** A run after which a negative probe lapses unnoticed. */
module LapsedProbe {
  import opened Clock
  import opened Gcra
  import opened Probe
  import opened ControllerModel
  import opened VirtualQueue
  import opened ControllerRuns
  import opened Ledgers
  import opened Synchrony
  import opened FailedDispatch
  import ControllerPacing
  import Gradient
  import Latency

  lemma RunsFrom(w: World, e: Event, es: seq<Event>)
    requires Sound(w) && Allowed(w, e) && Sound(Next(w, e)) && Runs(Next(w, e), es)
    ensures Runs(w, [e] + es) && After(w, [e] + es) == After(Next(w, e), es)
  {
    hide Sound, Allowed, Next;
    assert ([e] + es)[0] == e && ([e] + es)[1..] == es;
  }

  /** Two requests are reserved, one leaves, and the controller is polled. */
  function Start(id: nat, now: Instant): seq<Event> {
    [Event(Reserve, now)]
    + ([Event(Reserve, now)] + ([Event(Dispatch(Reservation(id, 0)), now)] + ([Event(Refresh, now)] + [])))
  }

  /** What the run has done by then. */
  function Polled(id: nat, config: Config, rng: Rng, now: Instant): State
    requires config.Valid() && rng.Valid() && config.queueCapacity >= 2
  {
    FirstLeaves(id, config, rng, now);
    Refreshed(Dispatched(Busy(config, rng, id, now), Reservation(id, 0), now).0, now)
  }

  lemma StepsTo(w: World, op: Op, d: State)
    requires Sound(w) && Allowed(w, Event(op, w.now)) && Permitted(w.c, op) && d == Step(w.c, op, w.now).0
    ensures var v := Next(w, Event(op, w.now));
      Sound(v) && v.c == d && v.now == w.now
  {
    NextIsSound(w, Event(op, w.now));
    hide Sound, Step, Permitted;
  }

  lemma NothingMore(w: World)
    requires Sound(w)
    ensures Runs(w, []) && After(w, []) == w
  {}

  lemma StartRuns(id: nat, config: Config, rng: Rng, now: Instant)
    requires config.Valid() && rng.Valid() && config.queueCapacity >= 2
    ensures Runs(NewWorld(id, config, rng, now), Start(id, now))
    ensures After(NewWorld(id, config, rng, now), Start(id, now)).c == Polled(id, config, rng, now)
  {
    hide Runs, Refreshed, Dispatched, Reserved, Busy, Healthy, Balanced, Cached, After;
    BusyIsReached(id, config, rng, now);
    FirstLeaves(id, config, rng, now);
    var r := Event(Reserve, now);
    var e := Event(Dispatch(Reservation(id, 0)), now);
    var f := Event(Refresh, now);
    var w0 := NewWorld(id, config, rng, now);
    StepsTo(w0, Reserve, Reserved(w0.c, now).0);
    var w1 := Next(w0, r);
    StepsTo(w1, Reserve, Busy(config, rng, id, now));
    var w2 := Next(w1, r);
    StepsTo(w2, e.op, Dispatched(w2.c, Reservation(id, 0), now).0);
    var w3 := Next(w2, e);
    StepsTo(w3, Refresh, Polled(id, config, rng, now));
    var w4 := Next(w3, f);
    NothingMore(w4);
    RunsFrom(w3, f, []);
    RunsFrom(w2, e, [f] + []);
    RunsFrom(w1, r, [e] + ([f] + []));
    RunsFrom(w0, r, [r] + ([e] + ([f] + [])));
  }

  /** The poll starts a negative probe that lasts a second. */
  lemma PollStartsProbe(d: State, now: Instant)
    requires Healthy(d) && d.probe == ProbeState(None, None) && d.inflight > 0 && d.pending != []
    requires 0.10 <= d.rng.Head().choice < 0.15 && now + SECOND <= MAX_INSTANT
    ensures var e := Prepared(d, now);
      && e == d.(probe := e.probe, rng := e.rng)
      && e.probe.active == Some(Probe(Negative(0.8), now + SECOND))
  {}

  lemma PollKeeps(d: State, now: Instant)
    requires Healthy(d) && Cached(d, now) && d.probe == ProbeState(None, None) && d.inflight > 0 && d.pending != []
    requires 0.10 <= d.rng.Head().choice < 0.15 && now + SECOND <= MAX_INSTANT
    ensures var c := Refreshed(d, now);
      && SyncedAt(c, now) && c.probe.active == Some(Probe(Negative(0.8), now + SECOND))
      && c.latency == d.latency && c.gradient == d.gradient && c.epoch == d.epoch
  {
    hide Refreshed, Prepared, IntervalAt, Healthy, SlotsCached;
    PollStartsProbe(d, now);
    RefreshIsRetiming(d, now);
    RetimingKeeps(Prepared(d, now), IntervalAt(Prepared(d, now), now), now);
    ControllerPacing.RefreshingSyncs(d, now);
  }

  lemma PolledIs(id: nat, config: Config, rng: Rng, now: Instant)
    requires config.Valid() && rng.Valid() && config.queueCapacity >= 2
    requires 0.10 <= rng.Head().choice < 0.15 && now + SECOND <= MAX_INSTANT
    ensures var c := Polled(id, config, rng, now);
      && SyncedAt(c, now) && c.probe.active == Some(Probe(Negative(0.8), now + SECOND))
      && c.latency == Latency.Fresh(config.LatencySettings()) && c.gradient == Gradient.Initial(config.GradientTuning())
      && c.epoch == Some(Epoch(now, Latency.ExpectedRtt(c.latency)))
  {
    hide Refreshed, Dispatched, Healthy, Cached, SyncedAt;
    FirstLeaves(id, config, rng, now);
    PollKeeps(Dispatched(Busy(config, rng, id, now), Reservation(id, 0), now).0, now);
  }

  lemma ReciprocalRate(rtt: real)
    requires rtt > 0.0
    ensures 1.0 / rtt > 0.0 && 1.0 / (1.0 / rtt) == rtt
    ensures 1.0 / rtt * 0.8 > 0.0 && 1.0 / (1.0 / rtt * 0.8) == 1.25 * rtt
  {
    assert 1.0 / rtt * 0.8 * (1.25 * rtt) == 1.0;
  }

  lemma ProbedSpacing(rtt: Duration)
    requires 2 < rtt <= RTT_LIMIT
    ensures var rate := 1.0 / rtt as real;
      && Representable(rate) && RateToInterval(rate) == rtt
      && Representable(rate * 0.8) && RateToInterval(rate * 0.8) > rtt
  {
    ReciprocalRate(rtt as real);
    RoundKeepsWholes(rtt);
    RoundIsMonotone(1.25 * rtt as real, (2 * rtt) as real);
    RoundKeepsWholes(2 * rtt);
  }

  lemma ProbedRates(c: State, config: Config)
    requires Healthy(c) && config.Valid() && config.initialConcurrency == 1
    requires c.latency == Latency.Fresh(config.LatencySettings())
    requires c.gradient == Gradient.Initial(config.GradientTuning())
    ensures Latency.ExpectedRtt(c.latency) == config.expectedRtt
    ensures c.probe.active.None? ==> ProbedRate(c) == 1.0 / config.expectedRtt as real
    ensures c.probe.active.Some? && c.probe.active.value.kind == Negative(0.8) ==>
      ProbedRate(c) == 1.0 / config.expectedRtt as real * 0.8
  {
    InitialRateFits(config);
  }

  /** A run of a new controller after which, one second on, the spacing in force
      is wider than the one the code derives, until the next rate refresh. */
  lemma LapsedNegativeWitness(id: nat, config: Config, rng: Rng, now: Instant)
    requires config.Valid() && rng.Valid() && config.queueCapacity >= 2 && config.initialConcurrency == 1
    requires config.expectedRtt >= SECOND && 0.10 <= rng.Head().choice < 0.15 && now + SECOND <= MAX_INSTANT
    ensures Runs(NewWorld(id, config, rng, now), Start(id, now))
    ensures var c, later := After(NewWorld(id, config, rng, now), Start(id, now)).c, now + SECOND;
      && Healthy(c) && InStep(c, later) && LapsedNegative(c.probe, later)
      && DerivedInterval(c, later) == config.expectedRtt < c.pacer.interval
      && RateUpdated(c, later).pacer.interval == config.expectedRtt
  {
    hide Runs, After, ProbedRate, DerivedInterval, Start, Polled, Wait;
    StartRuns(id, config, rng, now);
    PolledIs(id, config, rng, now);
    var c, later := After(NewWorld(id, config, rng, now), Start(id, now)).c, now + SECOND;
    var d := WithoutExpiredProbe(c, later);
    assert InStep(c, later);
    ProbedRates(c, config);
    LapsedNegativeOvershoots(c, later);
    ProbedRates(d, config);
    ProbedSpacing(config.expectedRtt);
  }
}
