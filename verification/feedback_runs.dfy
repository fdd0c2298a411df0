/** What feedback teaches a controller, over whole runs. */
module FeedbackRuns {
  import opened Clock
  import opened Latency
  import opened LatencyHistory
  import opened Gradient
  import opened GradientLaws
  import opened ControllerModel
  import VirtualQueue
  import opened ControllerRuns
  import opened Ledgers
  import Synchrony
  import Probe
  import Arithmetic

  /** Feedback that a request succeeded. */
  predicate Succeeds(id: nat, op: Op) {
    op.Complete? && op.token.owner == id && op.outcome == Outcome.Success
  }

  /** A failed response, an abandonment, or a transport that could not be made ready. */
  predicate Fails(id: nat, op: Op) {
    match op
    case Complete(token, outcome, _) => token.owner == id && outcome == Outcome.Failure
    case Abandon(token) => token.owner == id
    case FailAdmission => true
    case _ => false
  }

  lemma PenaltyCosts(c: State, now: Instant)
    requires Healthy(c)
    ensures var d := Penalised(c, now);
      d.latency == c.latency && Shrinks(0.25, c.gradient.concurrency, 0.7, d.gradient.concurrency)
  {
    hide Shrinks, OnFailure;
    FailureCosts(c.gradient, now);
  }

  /** Only feedback moves the operating point: every failure takes exactly three
      tenths off the concurrency, down to a quarter, and teaches no RTT; all but
      failures and successes leave the operating point alone. */
  lemma StepTeaches(c: State, op: Op, now: Instant)
    requires Healthy(c) && VirtualQueue.Cached(c, now) && Permitted(c, op) && !Succeeds(c.id, op)
    ensures var d := Step(c, op, now).0;
      && d.latency == c.latency
      && (if Fails(c.id, op) then
            d.failures == c.failures + 1 && Shrinks(0.25, c.gradient.concurrency, 0.7, d.gradient.concurrency)
          else d.failures == c.failures && d.gradient == c.gradient)
  {
    hide RateUpdated, Refreshed, Shrinks, OnFailure;
    StepKeeps(c, op, now);
    match op
    case Check(r) =>
      CheckIs(c, r, now);
      Synchrony.RefreshingTeachesNothing(c, now);
    case Dispatch(r) =>
      CheckIs(c, r, now);
      Synchrony.RefreshingTeachesNothing(c, now);
    case Refresh => Synchrony.RefreshingTeachesNothing(c, now);
    case Complete(token, outcome, rtt) =>
      if token.owner == c.id {
        CompletionIs(c, token, outcome, rtt, now);
        var d := c.(completed := c.completed + 1);
        var e := Learned(d, token, outcome, rtt, now);
        FailureCosts(c.gradient, now);
        Synchrony.UpdatingTeachesNothing(Released(e, EpochAfterFeedback(e, now)), now);
      }
    case Abandon(token) =>
      if token.owner == c.id {
        PenaltyCosts(c, now);
        var d := Penalised(c, now);
        Synchrony.UpdatingTeachesNothing(Released(d, if d.inflight > 1 then d.epoch else None), now);
      }
    case FailAdmission =>
      PenaltyCosts(c, now);
      Synchrony.UpdatingTeachesNothing(Penalised(c, now), now);
    case _ =>
  }

  /** The response was held back by the pacer, at least half the concurrency was
      in use, and the update interval since the last update is over. */
  predicate MayUpdate(c: State, token: InFlight, now: Instant) {
    && token.paced && c.gradient.concurrency <= 2.0 * c.inflight as real
    && (c.gradient.nextUpdate.Some? ==> now >= c.gradient.nextUpdate.value)
  }

  /** How far one update moves the concurrency: a fiftieth up while the short
      RTT is within the tolerance of the rolling minimum, and otherwise a fifth
      of the way to a tenth above the concurrency in proportion. */
  predicate Updated(before: real, short: Duration, baseline: Duration, tolerance: Duration, cap: nat, after: real) {
    if short <= baseline + tolerance then Nearest(before + 0.1 * 0.2, 0.25, cap as real, after)
    else MovesTowards(before, Ratio(baseline + tolerance, short), 0.1, 0.2, 0.25, cap as real, after)
  }

  lemma UpdateIs(g: Control, short: Duration, baseline: Duration, inflight: nat, paced: bool, now: Instant)
    requires g.Valid() && g.tuning.gain == 0.1 && g.tuning.smoothing == 0.2 && g.tuning.min == 0.25
    requires g.tuning.max >= 1.0 && g.tuning.max == g.tuning.max.Floor as real
    ensures var (d, updated) := OnRtt(g, short, baseline, inflight, paced, now);
      && (updated <==> paced && g.concurrency <= 2.0 * inflight as real
                       && (g.nextUpdate.Some? ==> now >= g.nextUpdate.value))
      && (if updated then
            && Updated(g.concurrency, short, baseline, g.tuning.tolerance, g.tuning.max.Floor, d.concurrency)
            && d.nextUpdate == Some(AddSat(now, g.tuning.updateInterval))
          else d.concurrency == g.concurrency && d.nextUpdate == g.nextUpdate)
  {
    hide BoundedGradient, Smoothed, Nearest, Ratio, MovesTowards;
    if OnRtt(g, short, baseline, inflight, paced, now).1 {
      if short <= baseline + g.tuning.tolerance {
        ToleratedGrowth(g, short, baseline, inflight, now);
      } else {
        CongestedUpdate(g, short, baseline, inflight, now);
      }
    }
  }

  /** A success takes each RTT estimate towards its sample by that estimate's
      own weight, and then, if it may, updates the concurrency once per two
      configured RTTs by the short RTT against the rolling minimum, the sample
      included in both; the request itself still counts as under way. */
  lemma LearningUpdates(c: State, token: InFlight, rtt: Duration, now: Instant)
    requires Healthy(c) && Measurable(c.latency, Outcome.Success, rtt)
    ensures var d := Learned(c, token, Outcome.Success, rtt, now);
      var v := (if rtt < c.latency.settings.minRtt then c.latency.settings.minRtt else rtt) as real;
      && d.latency.samples == c.latency.samples + 1
      && Arithmetic.Keeps(c.latency.long, d.latency.long, v, 1.0 - c.config.longAlpha)
      && Arithmetic.Keeps(c.latency.short, d.latency.short, v, 1.0 - c.config.shortAlpha)
      && d.failures == c.failures
      && (if MayUpdate(c, token, now) then
            && Updated(c.gradient.concurrency, ShortRtt(d.latency), BaselineRtt(d.latency), c.config.queueTolerance,
                       c.config.maxInflight, d.gradient.concurrency)
            && d.gradient.nextUpdate == Some(AddSat(now, SatMul(c.config.expectedRtt, 2)))
          else d.gradient.concurrency == c.gradient.concurrency && d.gradient.nextUpdate == c.gradient.nextUpdate)
  {
    hide OnRtt, Observed, Arithmetic.Keeps, Updated;
    ObservingMoves(c.latency, rtt, now);
    var e := Observed(c.latency, rtt, now);
    UpdateIs(c.gradient, ShortRtt(e), BaselineRtt(e), c.inflight, token.paced, now);
  }

  lemma SuccessTeaches(c: State, token: InFlight, rtt: Duration, now: Instant)
    requires Healthy(c) && VirtualQueue.Cached(c, now) && token.owner == c.id
    requires Permitted(c, Complete(token, Outcome.Success, rtt))
    ensures var d, e := Step(c, Complete(token, Outcome.Success, rtt), now).0, Learned(c, token, Outcome.Success, rtt, now);
      d.latency == e.latency && d.gradient == e.gradient && d.failures == c.failures
  {
    hide RateUpdated, OnRtt, Observed;
    var b := c.(completed := c.completed + 1);
    CompletionIs(c, token, Outcome.Success, rtt, now);
    LearningTouches(b, token, Outcome.Success, rtt, now);
    StepKeeps(c, Complete(token, Outcome.Success, rtt), now);
    var e := Learned(b, token, Outcome.Success, rtt, now);
    Synchrony.UpdatingTeachesNothing(Released(e, EpochAfterFeedback(e, now)), now);
  }

  // ---- Over runs ------------------------------------------------------------

  predicate NoSuccess(id: nat, es: seq<Event>) {
    forall i :: 0 <= i < |es| ==> !Succeeds(id, es[i].op)
  }

  lemma ShrinksByOne(before: real, once: real, after: real, fails: bool, n: nat)
    requires before >= 0.25 && Shrinks(0.25, once, Arithmetic.Power(0.7, n), after)
    requires if fails then Shrinks(0.25, before, 0.7, once) else once == before
    ensures Shrinks(0.25, before, Arithmetic.Power(0.7, if fails then n + 1 else n), after)
  {
    hide Shrinks, Arithmetic.Power;
    if fails {
      ShrinksPower(0.25, before, 0.7, n, once, after);
    }
  }

  lemma ConcurrencyIsBounded(c: State)
    requires Healthy(c)
    ensures 0.25 <= c.gradient.concurrency <= c.config.maxInflight as real
  {}

  lemma NothingLost(c: real)
    requires c >= 0.25
    ensures Shrinks(0.25, c, Arithmetic.Power(0.7, 0), c)
  {
    assert Arithmetic.Power(0.7, 0) == 1.0;
    ShrinksNot(0.25, c);
  }

  /** However a run mixes polls, reservations, dispatches and failures, as long
      as nothing succeeds the RTT estimate stands, and the concurrency has lost
      three tenths for each failure counted, down to a quarter. */
  lemma {:induction false} EachFailureCosts(w: World, es: seq<Event>)
    requires Sound(w) && Runs(w, es) && NoSuccess(w.c.id, es)
    ensures var c, d := w.c, After(w, es).c;
      && d.latency == c.latency && d.failures >= c.failures
      && Shrinks(0.25, c.gradient.concurrency, Arithmetic.Power(0.7, d.failures - c.failures), d.gradient.concurrency)
    decreases |es|
  {
    hide Step, Shrinks, Healthy, Balanced, Arithmetic.Power;
    ConcurrencyIsBounded(w.c);
    if es == [] {
      NothingLost(w.c.gradient.concurrency);
    } else {
      var e, v := es[0], Ledgers.Next(w, es[0]);
      AllowedIsPermitted(w, e);
      NextIsSound(w, e);
      StepKeeps(w.c, e.op, e.at);
      StepTeaches(w.c, e.op, e.at);
      assert NoSuccess(v.c.id, es[1..]);
      EachFailureCosts(v, es[1..]);
      ShrinksByOne(w.c.gradient.concurrency, v.c.gradient.concurrency, After(w, es).c.gradient.concurrency,
                   Fails(w.c.id, e.op), After(w, es).c.failures - v.c.failures);
    }
  }

  /** The RTTs that the successes of a run report. */
  function Samples(id: nat, es: seq<Event>): seq<Sample> {
    if es == [] then []
    else
      (if Succeeds(id, es[0].op) then [Sample(es[0].op.rtt, es[0].at)] else []) + Samples(id, es[1..])
  }

  lemma {:induction false} ObserveFirst(e: Estimator, x: Sample, h: seq<Sample>)
    requires e.Valid()
    ensures ObserveAll(Observed(e, x.rtt, x.at), h) == ObserveAll(e, [x] + h)
    decreases |h|
  {
    hide Observed;
    var all := [x] + h;
    if h == [] {
      assert all == [x] && all[..0] == [];
      assert ObserveAll(e, [x]) == Observed(ObserveAll(e, []), x.rtt, x.at);
    } else {
      var n := |h| - 1;
      assert all[..|all| - 1] == [x] + h[..n] && all[|all| - 1] == h[n];
      ObserveFirst(e, x, h[..n]);
    }
  }

  lemma StepObserves(c: State, op: Op, now: Instant)
    requires Healthy(c) && VirtualQueue.Cached(c, now) && Permitted(c, op)
    ensures c.latency.Valid()
    ensures Step(c, op, now).0.latency == if Succeeds(c.id, op) then Observed(c.latency, op.rtt, now) else c.latency
    ensures Step(c, op, now).0.latency.Valid()
  {
    hide Step, Observed, OnRtt;
    if Succeeds(c.id, op) {
      SuccessTeaches(c, op.token, op.rtt, now);
    } else {
      StepTeaches(c, op, now);
    }
  }

  /** After any run the estimator has observed exactly the RTTs of its
      successes, in order. */
  lemma {:induction false} RunsObserve(w: World, es: seq<Event>)
    requires Sound(w) && Runs(w, es) && w.c.latency.Valid()
    ensures After(w, es).c.latency == ObserveAll(w.c.latency, Samples(w.c.id, es))
    decreases |es|
  {
    hide Step, Healthy, Balanced, Observed;
    if es == [] {
    } else {
      var e, v := es[0], Ledgers.Next(w, es[0]);
      AllowedIsPermitted(w, e);
      NextIsSound(w, e);
      StepKeeps(w.c, e.op, e.at);
      StepObserves(w.c, e.op, e.at);
      RunsObserve(v, es[1..]);
      if Succeeds(w.c.id, e.op) {
        ObserveFirst(w.c.latency, Sample(e.op.rtt, e.at), Samples(w.c.id, es[1..]));
      } else {
        assert [] + Samples(w.c.id, es[1..]) == Samples(w.c.id, es[1..]);
      }
    }
  }

  lemma {:induction false} SamplesInOrder(w: World, es: seq<Event>)
    requires Sound(w) && Runs(w, es)
    ensures Ordered(Samples(w.c.id, es))
    ensures forall x <- Samples(w.c.id, es) :: w.now <= x.at
    decreases |es|
  {
    hide Step, Healthy, Balanced;
    if es == [] {
    } else {
      AllowedIsPermitted(w, es[0]);
      NextIsSound(w, es[0]);
      StepKeeps(w.c, es[0].op, es[0].at);
      SamplesInOrder(Ledgers.Next(w, es[0]), es[1..]);
    }
  }

  /** In every run of a new controller the baseline that congestion is measured
      against is the least success within a window between seven and eight
      eighths of 1200 configured RTTs, or of a minute if that is longer. */
  lemma RunsKeepRollingMinimum(id: nat, config: Config, rng: Probe.Rng, start: Instant, es: seq<Event>)
    requires config.Valid() && rng.Valid() && Runs(NewWorld(id, config, rng, start), es) && Samples(id, es) != []
    ensures var c, h := After(NewWorld(id, config, rng, start), es).c, Samples(id, es);
      var window := if 1_200 * config.expectedRtt < 60_000_000_000 then 60_000_000_000 else
          if 1_200 * config.expectedRtt > DURATION_MAX then DURATION_MAX else 1_200 * config.expectedRtt;
      var least := if config.expectedRtt < 1_000 then config.expectedRtt else 1_000;
      var baseline, now := BaselineRtt(c.latency), h[|h| - 1].at;
      && (forall i :: 0 <= i < |h| && now - h[i].at <= 7 * (window / 8) ==>
            baseline <= if h[i].rtt < least then least else h[i].rtt)
      && (exists i :: 0 <= i < |h| && now - h[i].at < 8 * (window / 8)
                      && baseline == if h[i].rtt < least then least else h[i].rtt)
  {
    hide Runs, After, Samples, ObserveAll, BaselineRtt;
    RunsObserve(NewWorld(id, config, rng, start), es);
    SamplesInOrder(NewWorld(id, config, rng, start), es);
    RollingMinimum(config.LatencySettings(), Samples(id, es));
  }
}
