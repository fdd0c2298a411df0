/** How often a controller can probe, whatever drives it. */
module Probing {
  import opened Clock
  import opened Probe
  import opened ControllerModel
  import opened ControllerRuns
  import opened Ledgers
  import VirtualQueue
  import Pacing
  import Arithmetic

  /** A decision cannot be made before this instant. */
  function DueAt(p: ProbeState): Instant {
    if p.nextProbeAt.Some? then p.nextProbeAt.value else 0
  }

  function Running(p: ProbeState): nat {
    if p.active.Some? then 1 else 0
  }

  function Transition(p: ProbeState, q: ProbeState): nat {
    if p.active != q.active then 1 else 0
  }

  function Slowed(p: ProbeState): nat {
    if Slowing(p) then 1 else 0
  }

  function Boost(p: ProbeState, q: ProbeState): nat {
    if Boosts(p, q) then 1 else 0
  }

  /** A decision needs demand: an RTT learned, or requests both under way and
      queued. It falls due when no probe runs and its instant has come. */
  predicate DecisionDue(c: State, now: Instant) {
    && (c.latency.samples > 0 || (c.inflight > 0 && c.pending != []))
    && (c.probe.active.Some? ==> c.probe.active.value.until <= now)
    && (c.probe.nextProbeAt.Some? ==> c.probe.nextProbeAt.value <= now)
  }

  /** One draw decides: with one chance in ten a probe adds twenty requests per
      second, with one in twenty it takes a fifth off, both for one second; its
      jitter puts the next decision off. */
  predicate DrawDecides(w: Draw, p: ProbeState, now: Instant)
    requires w.Valid()
  {
    && p.active == (if w.choice < 0.1 then Some(Probe(Positive(20.0 / 1_000_000_000.0), AddSat(now, SECOND)))
                    else if w.choice < 0.15 then Some(Probe(Negative(0.8), AddSat(now, SECOND)))
                    else None)
    && p.nextProbeAt == Some(AddSat(now, RandomInterval(DEFAULT_SCHEDULE, w)))
  }

  /** The probe is dropped when it is over, and not before. */
  predicate Lapses(p: ProbeState, q: ProbeState, now: Instant) {
    && q.nextProbeAt == p.nextProbeAt
    && (q.active == p.active || (q.active == None && p.active.Some? && p.active.value.until <= now))
  }

  /** What one operation may do to the probe state and its random source: a
      decision consumes one draw, falls due, and puts the next one at least a
      minimal interval away; a probe starts only by a decision. */
  ghost predicate Probed(c: State, d: State, now: Instant) {
    var made := d.rng.used - c.rng.used;
    && c.rng.Valid() && 0 <= made <= 1
    && (if made == 1 then DueAt(c.probe) <= now && DueAt(d.probe) >= AddSat(now, DEFAULT_SCHEDULE.minInterval)
        else DueAt(d.probe) == DueAt(c.probe))
    && Transition(c.probe, d.probe) + Running(d.probe) <= Running(c.probe) + 2 * made
    && Boost(c.probe, d.probe) + Slowed(d.probe) <= Slowed(c.probe) + made
    && d.rng.stream == c.rng.stream
    && (made == 0 ==> Lapses(c.probe, d.probe, now))
    && (made == 1 ==> DecisionDue(c, now) && (now < MAX_INSTANT ==> DrawDecides(c.rng.Head(), d.probe, now)))
  }

  lemma PreparingProbes(c: State, now: Instant)
    requires Healthy(c)
    ensures Probed(c, Prepared(c, now), now)
  {}

  lemma Idle(c: State, now: Instant)
    requires c.rng.Valid()
    ensures Probed(c, c, now)
  {}

  lemma SameProbes(c: State, d: State, now: Instant)
    requires c.rng.Valid() && d.probe == c.probe && d.rng == c.rng
    ensures Probed(c, d, now)
  {}

  lemma RefreshingProbes(c: State, now: Instant)
    requires Healthy(c)
    ensures Probed(c, Refreshed(c, now), now)
    ensures c.pending != [] ==> Refreshed(c, now).pending != [] && Probed(c, MarkedPaced(Refreshed(c, now)), now)
  {
    hide IntervalAt;
    PreparingProbes(c, now);
    VirtualQueue.RefreshIsRetiming(c, now);
    VirtualQueue.RetimingKeeps(Prepared(c, now), IntervalAt(Prepared(c, now), now), now);
  }

  /** A refresh decides exactly when a decision is due, and afterwards no probe
      that is over is left. */
  lemma RefreshDecides(c: State, now: Instant)
    requires Healthy(c)
    ensures var d := Refreshed(c, now);
      && d.rng.used == c.rng.used + (if DecisionDue(c, now) then 1 else 0)
      && (d.probe.active.Some? ==> now < d.probe.active.value.until)
  {
    hide IntervalAt;
    VirtualQueue.RefreshIsRetiming(c, now);
    VirtualQueue.RetimingKeeps(Prepared(c, now), IntervalAt(Prepared(c, now), now), now);
  }

  lemma DispatchedProbes(c: State, r: Reservation, now: Instant)
    requires Healthy(c) && Probed(c, Checked(c, r, now).0, now)
    ensures Probed(c, Step(c, Dispatch(r), now).0, now)
  {
    hide Refreshed;
  }

  lemma RateUpdateProbes(c: State, d: State, now: Instant)
    requires Healthy(d) && d.probe == c.probe && d.rng == c.rng
    ensures Probed(c, RateUpdated(d, now), now)
  {
    hide IntervalAt;
    var e := WithoutExpiredProbe(d, now);
    VirtualQueue.RetimingKeeps(e, IntervalAt(e, now), now);
  }

  lemma StepProbes(c: State, op: Op, now: Instant)
    requires Healthy(c) && VirtualQueue.Cached(c, now) && Permitted(c, op)
    ensures Probed(c, Step(c, op, now).0, now)
  {
    hide Probed, MaybeStarted, RateUpdated, Refreshed, Learned;
    Idle(c, now);
    match op
    case Check(r) =>
      RefreshingProbes(c, now);
      CheckIs(c, r, now);
    case Dispatch(r) =>
      RefreshingProbes(c, now);
      CheckIs(c, r, now);
      DispatchedProbes(c, r, now);
    case Complete(token, outcome, rtt) =>
      if token.owner == c.id {
        var d := c.(completed := c.completed + 1);
        LearningTouches(d, token, outcome, rtt, now);
        CompletionIs(c, token, outcome, rtt, now);
        var e := Learned(d, token, outcome, rtt, now);
        RateUpdateProbes(c, Released(e, EpochAfterFeedback(e, now)), now);
      }
    case Abandon(token) =>
      if token.owner == c.id {
        var d := Penalised(c, now);
        RateUpdateProbes(c, Released(d, if d.inflight > 1 then d.epoch else None), now);
      }
    case FailAdmission => RateUpdateProbes(c, Penalised(c, now), now);
    case Refresh => RefreshingProbes(c, now);
    case Reserve => SameProbes(c, Step(c, op, now).0, now);
    case Cancel(_) => SameProbes(c, Step(c, op, now).0, now);
    case Take => SameProbes(c, Step(c, op, now).0, now);
  }

  lemma NextProbes(w: World, e: Event)
    requires Sound(w) && Allowed(w, e)
    ensures Probed(w.c, Next(w, e).c, e.at)
  {
    hide Step;
    AllowedIsPermitted(w, e);
    StepProbes(w.c, e.op, e.at);
  }

  lemma {:induction false} RunsKeepDue(w: World, es: seq<Event>)
    requires Sound(w) && Runs(w, es)
    ensures DueAt(w.c.probe) <= DueAt(After(w, es).c.probe)
    decreases |es|
  {
    hide Step;
    if es == [] {
    } else {
      NextIsSound(w, es[0]);
      NextProbes(w, es[0]);
      RunsKeepDue(Next(w, es[0]), es[1..]);
    }
  }

  /** Consecutive probe decisions of any run lie at least a minimal interval
      apart, however often the controller is consulted. */
  lemma {:induction false} DecisionsLieApart(v: World, first: Event, es: seq<Event>, last: Event)
    requires Sound(v) && Allowed(v, first) && Sound(Next(v, first))
    requires var w := Next(v, first);
      && w.c.rng.used > v.c.rng.used
      && Runs(w, es) && Sound(After(w, es)) && Allowed(After(w, es), last)
      && Next(After(w, es), last).c.rng.used > After(w, es).c.rng.used
    ensures last.at >= AddSat(first.at, DEFAULT_SCHEDULE.minInterval)
  {
    hide Step;
    var w := Next(v, first);
    var u := After(w, es);
    NextProbes(v, first);
    RunsKeepDue(w, es);
    NextProbes(u, last);
  }

  /** How many operations of a run start or end a probe. */
  function Transitions(w: World, es: seq<Event>): nat
    requires Sound(w) && Runs(w, es)
    decreases |es|
  {
    if es == [] then 0
    else
      NextIsSound(w, es[0]);
      var v := Next(w, es[0]);
      Transition(w.c.probe, v.c.probe) + Transitions(v, es[1..])
  }

  /** How many operations of a run start a positive probe or end a negative one. */
  function RunBoosts(w: World, es: seq<Event>): nat
    requires Sound(w) && Runs(w, es)
    decreases |es|
  {
    if es == [] then 0
    else
      NextIsSound(w, es[0]);
      var v := Next(w, es[0]);
      Boost(w.c.probe, v.c.probe) + RunBoosts(v, es[1..])
  }

  /** Every decision uses up a minimal interval of the time left, and pays for
      the two transitions, one of them a boost, of the probe it may start. */
  lemma {:induction false} TransitionBudget(w: World, es: seq<Event>, end: Instant)
    requires Sound(w) && Runs(w, es) && After(w, es).now <= end && end + DEFAULT_SCHEDULE.minInterval <= MAX_INSTANT
    ensures w.now <= end
    ensures var unit, made := DEFAULT_SCHEDULE.minInterval, After(w, es).c.rng.used - w.c.rng.used;
      && 0 <= made && Transitions(w, es) <= Running(w.c.probe) + 2 * made && RunBoosts(w, es) <= Slowed(w.c.probe) + made
      && unit * made + Pacing.AtMost(Since(DueAt(w.c.probe), w.now), unit) <= end - w.now + unit
    decreases |es|
  {
    hide Step;
    RunsStaySound(w, es);
    if es == [] {
    } else {
      NextIsSound(w, es[0]);
      NextProbes(w, es[0]);
      TransitionBudget(Next(w, es[0]), es[1..], end);
    }
  }

  /** Any span of a run holds one decision, and one more for every whole
      minimal interval. */
  lemma DecisionsAreRare(w: World, es: seq<Event>, end: Instant)
    requires Sound(w) && Runs(w, es) && After(w, es).now <= end && end + DEFAULT_SCHEDULE.minInterval <= MAX_INSTANT
    ensures w.now <= end
    ensures 0 <= After(w, es).c.rng.used - w.c.rng.used <= 1 + (end - w.now) / DEFAULT_SCHEDULE.minInterval
  {
    hide Transitions, RunBoosts, After;
    TransitionBudget(w, es, end);
    Arithmetic.PerUnit(DEFAULT_SCHEDULE.minInterval, After(w, es).c.rng.used - w.c.rng.used, 1, end - w.now);
  }

  /** So it holds at most two boosts and one more per minimal interval. */
  lemma BoostsAreRare(w: World, es: seq<Event>, end: Instant)
    requires Sound(w) && Runs(w, es) && After(w, es).now <= end && end + DEFAULT_SCHEDULE.minInterval <= MAX_INSTANT
    ensures w.now <= end && RunBoosts(w, es) <= 2 + (end - w.now) / DEFAULT_SCHEDULE.minInterval
  {
    hide Transitions, RunBoosts, After;
    TransitionBudget(w, es, end);
    DecisionsAreRare(w, es, end);
  }

  /** And at most three transitions and two more per minimal interval. */
  lemma TransitionsAreRare(w: World, es: seq<Event>, end: Instant)
    requires Sound(w) && Runs(w, es) && After(w, es).now <= end && end + DEFAULT_SCHEDULE.minInterval <= MAX_INSTANT
    ensures w.now <= end && Transitions(w, es) <= 3 + 2 * ((end - w.now) / DEFAULT_SCHEDULE.minInterval)
  {
    hide Transitions, RunBoosts, After;
    TransitionBudget(w, es, end);
    DecisionsAreRare(w, es, end);
  }
}
