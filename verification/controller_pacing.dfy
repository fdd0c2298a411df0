/** Every controller run drives the pacer through a legal history. */
module ControllerPacing {
  import opened Clock
  import opened Gcra
  import Latency
  import opened ControllerModel
  import opened VirtualQueue
  import opened ControllerRuns
  import opened Ledgers
  import Pacing

  /** The operations that re-derive the pacing rate. */
  predicate Touches(c: State, op: Op) {
    match op
    case Check(r) => AtHead(c, r)
    case Dispatch(r) => AtHead(c, r)
    case Complete(token, _, _) => token.owner == c.id
    case Abandon(token) => token.owner == c.id
    case FailAdmission => true
    case Refresh => true
    case _ => false
  }

  predicate ClockMatchesLoad(c: State) {
    c.epoch.Some? <==> c.inflight > 0
  }

  lemma SameBase(c: State, d: State)
    requires d.latency == c.latency && d.gradient == c.gradient && Latency.ExpectedRtt(c.latency) > 0
    ensures BaseRate(d) == BaseRate(c)
  {}

  lemma SameProbed(c: State, d: State)
    requires Healthy(c) && Healthy(d) && d.latency == c.latency && d.gradient == c.gradient
    requires d.probe.active == c.probe.active
    ensures ProbedRate(d) == ProbedRate(c)
  {
    ExpectedRttInRange(c);
    SameBase(c, d);
    hide BaseRate, Healthy;
  }

  lemma RateIs(c: State, now: Instant)
    requires Healthy(c)
    ensures ProbedRate(c) > 0.0 && (c.epoch.Some? ==> c.epoch.value.expectedRtt > 0)
    ensures RateAt(c, now) == ProbedRate(c) * FeedbackFactor(c.epoch, c.config.halving, now, ProbedRate(c))
  {
    hide FeedbackFactor, ProbedRate;
  }

  lemma SameRate(c: State, d: State, now: Instant)
    requires Healthy(c) && Healthy(d) && d.config == c.config && d.latency == c.latency
    requires d.gradient == c.gradient && d.probe.active == c.probe.active && d.epoch == c.epoch
    ensures RateAt(d, now) == RateAt(c, now)
  {
    hide RateAt, ProbedRate, FeedbackFactor, Healthy;
    SameProbed(c, d);
    RateIs(c, now);
    RateIs(d, now);
  }

  lemma RetimingSyncs(c: State, now: Instant)
    requires Healthy(c)
    ensures var d := RateUpdated(c, now);
      && Healthy(d) && d.pacer.interval == IntervalAt(d, now)
      && d.pacer == SetInterval(c.pacer, d.pacer.interval, now)
  {
    var e := WithoutExpiredProbe(c, now);
    RetimingKeeps(e, IntervalAt(e, now), now);
    SameRate(e, RateUpdated(c, now), now);
  }

  lemma RefreshingSyncs(c: State, now: Instant)
    requires Healthy(c)
    ensures var d := Refreshed(c, now);
      && Healthy(d) && d.pacer.interval == IntervalAt(d, now)
      && d.pacer == SetInterval(c.pacer, d.pacer.interval, now)
  {
    RetimingSyncs(Prepared(c, now), now);
    SameRate(RateUpdated(Prepared(c, now), now), Refreshed(c, now), now);
  }

  lemma NoSilenceYet(now: Instant, rtt: Interval, halving: real -> real, rate: real)
    requires rate > 0.0
    ensures FeedbackFactor(Some(Epoch(now, rtt)), halving, now, rate) == FeedbackFactor(None, halving, now, rate)
  {}

  lemma StartedIsHealthy(d: State, now: Instant)
    requires Healthy(d) && d.pending != []
    ensures var e := Started(d, now).0;
      && Healthy(e) && e.latency == d.latency && e.gradient == d.gradient && e.probe == d.probe && e.config == d.config
      && e.pacer == Committed(d.pacer, now)
      && e.epoch == if d.inflight == 0 then Some(Epoch(now, Latency.ExpectedRtt(d.latency))) else d.epoch
  {
    ExpectedRttInRange(d);
  }

  lemma OpeningKeepsRate(d: State, e: State, now: Instant)
    requires Healthy(d) && Healthy(e) && ClockMatchesLoad(d) && Latency.ExpectedRtt(d.latency) > 0
    requires e.latency == d.latency && e.gradient == d.gradient && e.probe == d.probe && e.config == d.config
    requires e.epoch == if d.inflight == 0 then Some(Epoch(now, Latency.ExpectedRtt(d.latency))) else d.epoch
    ensures RateAt(e, now) == RateAt(d, now)
  {
    hide RateAt, ProbedRate, FeedbackFactor, Healthy;
    SameProbed(d, e);
    RateIs(d, now);
    RateIs(e, now);
    NoSilenceYet(now, Latency.ExpectedRtt(d.latency), d.config.halving, ProbedRate(d));
  }

  /** Opening a busy period does not change the rate. */
  lemma StartingKeepsRate(d: State, now: Instant)
    requires Healthy(d) && d.pending != [] && ClockMatchesLoad(d)
    ensures var e := Started(d, now).0;
      Healthy(e) && RateAt(e, now) == RateAt(d, now) && e.pacer == Committed(d.pacer, now)
  {
    ExpectedRttInRange(d);
    StartedIsHealthy(d, now);
    hide RateAt, Healthy, Started;
    OpeningKeepsRate(d, Started(d, now).0, now);
  }

  lemma CheckSyncs(c: State, r: Reservation, now: Instant)
    requires Healthy(c) && Cached(c, now) && AtHead(c, r)
    ensures var d := Checked(c, r, now).0;
      && Healthy(d) && d.pacer.interval == IntervalAt(d, now)
      && d.pacer == SetInterval(c.pacer, d.pacer.interval, now)
  {
    CheckIs(c, r, now);
    RefreshingSyncs(c, now);
    SameRate(Refreshed(c, now), Checked(c, r, now).0, now);
  }

  lemma DispatchSyncs(c: State, r: Reservation, now: Instant)
    requires Healthy(c) && Cached(c, now) && AtHead(c, r) && ClockMatchesLoad(c)
    ensures var (d, note) := Step(c, Dispatch(r), now);
      && Healthy(d) && d.pacer.interval == IntervalAt(d, now)
      && var retimed := SetInterval(c.pacer, d.pacer.interval, now);
         if note.NewDispatch? then retimed.tat <= now && d.pacer == Committed(retimed, now)
         else d.pacer == retimed
  {
    CheckSyncs(c, r, now);
    RefreshingCaches(c, now);
    CheckIs(c, r, now);
    var (d, state) := Checked(c, r, now);
    if state == Ready {
      StartingKeepsRate(d, now);
    }
  }

  lemma CompleteSyncs(c: State, token: InFlight, outcome: Outcome, rtt: Duration, now: Instant)
    requires Healthy(c) && Permitted(c, Complete(token, outcome, rtt)) && token.owner == c.id
    ensures var d := Step(c, Complete(token, outcome, rtt), now).0;
      && Healthy(d) && d.pacer.interval == IntervalAt(d, now)
      && d.pacer == SetInterval(c.pacer, d.pacer.interval, now)
  {
    CompletionIs(c, token, outcome, rtt, now);
    var e := Learned(c.(completed := c.completed + 1), token, outcome, rtt, now);
    LearningTouches(c.(completed := c.completed + 1), token, outcome, rtt, now);
    RetimingSyncs(Released(e, EpochAfterFeedback(e, now)), now);
  }

  lemma PenaltySyncs(c: State, op: Op, now: Instant)
    requires Healthy(c) && Permitted(c, op) && (op.Abandon? || op.FailAdmission?) && Touches(c, op)
    ensures var d := Step(c, op, now).0;
      && Healthy(d) && d.pacer.interval == IntervalAt(d, now)
      && d.pacer == SetInterval(c.pacer, d.pacer.interval, now)
  {
    hide IntervalAt;
    var d := Penalised(c, now);
    match op
    case Abandon(token) => RetimingSyncs(Released(d, if d.inflight > 1 then d.epoch else None), now);
    case FailAdmission => RetimingSyncs(d, now);
  }

  /** What one operation does to the pacer: nothing, or a change to the rate
      of the resulting state, followed by a commit if a request dispatched. */
  lemma StepPaces(c: State, op: Op, now: Instant)
    requires Healthy(c) && Cached(c, now) && Permitted(c, op) && ClockMatchesLoad(c)
    ensures var (d, note) := Step(c, op, now);
      if Touches(c, op) then
        && Healthy(d) && d.pacer.interval == IntervalAt(d, now)
        && var retimed := SetInterval(c.pacer, d.pacer.interval, now);
           if note.NewDispatch? then retimed.tat <= now && d.pacer == Committed(retimed, now)
           else d.pacer == retimed
      else !note.NewDispatch? && d.pacer == c.pacer
  {
    hide IntervalAt, SetInterval, Healthy, Cached, Refreshed, Started, RateUpdated, Learned, Penalised, Released;
    match op
    case Check(r) =>
      if AtHead(c, r) {
        CheckSyncs(c, r, now);
      }
    case Dispatch(r) =>
      if AtHead(c, r) {
        DispatchSyncs(c, r, now);
      }
    case Complete(token, outcome, rtt) =>
      if token.owner == c.id {
        CompleteSyncs(c, token, outcome, rtt, now);
      }
    case Abandon(token) =>
      if token.owner == c.id {
        PenaltySyncs(c, op, now);
      }
    case FailAdmission => PenaltySyncs(c, op, now);
    case Refresh => RefreshingSyncs(c, now);
    case _ =>
  }

  function PacerEvents(c: State, op: Op, now: Instant): seq<Pacing.PacerEvent>
    requires Healthy(c) && Permitted(c, op)
  {
    var (d, note) := Step(c, op, now);
    if Touches(c, op) then
      [Pacing.Retime(d.pacer.interval, now)] + (if note.NewDispatch? then [Pacing.Admit(now)] else [])
    else []
  }

  function Trace(w: World, es: seq<Event>): seq<Pacing.PacerEvent>
    requires Sound(w) && Runs(w, es)
    decreases |es|
  {
    if es == [] then []
    else
      AllowedIsPermitted(w, es[0]);
      NextIsSound(w, es[0]);
      PacerEvents(w.c, es[0].op, es[0].at) + Trace(Next(w, es[0]), es[1..])
  }

  predicate AllAt(es: seq<Pacing.PacerEvent>, now: Instant) {
    forall i :: 0 <= i < |es| ==> es[i].at == now
  }

  lemma {:induction false} LegalConcat(p: Pacer, since: Instant, es: seq<Pacing.PacerEvent>,
      now: Instant, fs: seq<Pacing.PacerEvent>)
    requires Pacing.Legal(p, since, es) && AllAt(es, now) && since <= now
    requires Pacing.Legal(Pacing.After(p, es), now, fs)
    ensures Pacing.Legal(p, since, es + fs)
    ensures Pacing.After(p, es + fs) == Pacing.After(Pacing.After(p, es), fs)
    ensures Pacing.Admissions(es + fs) == Pacing.Admissions(es) + Pacing.Admissions(fs)
    decreases |es|
  {
    if es == [] {
      assert es + fs == fs;
      assert fs != [] ==> now <= fs[0].at;
    } else {
      assert (es + fs)[0] == es[0] && (es + fs)[1..] == es[1..] + fs;
      assert AllAt(es[1..], now) && es[0].at == now;
      LegalConcat(Pacing.Apply(p, es[0]), now, es[1..], now, fs);
    }
  }

  lemma EventsAreLegal(p: Pacer, since: Instant, interval: Interval, now: Instant, dispatched: bool)
    requires since <= now && (dispatched ==> SetInterval(p, interval, now).tat <= now)
    ensures var es := [Pacing.Retime(interval, now)] + (if dispatched then [Pacing.Admit(now)] else []);
      && AllAt(es, now) && Pacing.Legal(p, since, es)
      && Pacing.After(p, es) == (if dispatched then Committed(SetInterval(p, interval, now), now) else SetInterval(p,
          interval, now))
      && Pacing.Admissions(es) == if dispatched then 1 else 0
  {
    var es := [Pacing.Retime(interval, now)] + (if dispatched then [Pacing.Admit(now)] else []);
    if dispatched {
      var q := SetInterval(p, interval, now);
      assert es[1..] == [Pacing.Admit(now)] && es[1..][1..] == [];
      assert Pacing.After(q, [Pacing.Admit(now)]) == Pacing.After(Committed(q, now), []);
      assert Pacing.Admissions([Pacing.Admit(now)]) == 1;
    } else {
      assert es[1..] == [];
    }
  }

  lemma {:induction false} StepIsLegal(w: World, e: Event)
    requires Sound(w) && Allowed(w, e)
    ensures Permitted(w.c, e.op)
    ensures var es := PacerEvents(w.c, e.op, e.at);
      && AllAt(es, e.at) && Pacing.Legal(w.c.pacer, w.now, es)
      && Pacing.After(w.c.pacer, es) == Next(w, e).c.pacer
      && Next(w, e).l.dispatched == w.l.dispatched + Pacing.Admissions(es)
  {
    hide Step;
    AllowedIsPermitted(w, e);
    StepPaces(w.c, e.op, e.at);
    var (d, note) := Step(w.c, e.op, e.at);
    if Touches(w.c, e.op) {
      EventsAreLegal(w.c.pacer, w.now, d.pacer.interval, e.at, note.NewDispatch?);
    }
  }

  /** The pacer of any run went through the run's trace, which is legal and
      admits once for every dispatch. */
  lemma {:induction false} RunsPace(w: World, es: seq<Event>)
    requires Sound(w) && Runs(w, es)
    ensures var trace := Trace(w, es);
      && Pacing.Legal(w.c.pacer, w.now, trace)
      && Pacing.After(w.c.pacer, trace) == After(w, es).c.pacer
      && After(w, es).l.dispatched == w.l.dispatched + Pacing.Admissions(trace)
    decreases |es|
  {
    if es == [] {
    } else {
      StepIsLegal(w, es[0]);
      NextIsSound(w, es[0]);
      RunsPace(Next(w, es[0]), es[1..]);
      LegalConcat(w.c.pacer, w.now, PacerEvents(w.c, es[0].op, es[0].at), es[0].at, Trace(Next(w, es[0]), es[1..]));
    }
  }
}
