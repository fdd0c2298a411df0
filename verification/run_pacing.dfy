/** The pacer's guarantees, stated for arbitrary runs of a controller. */
module RunPacing {
  import opened Clock
  import opened Gcra
  import opened ControllerModel
  import opened ControllerRuns
  import opened Ledgers
  import opened ControllerPacing
  import Pacing
  import Probe
  import Arithmetic

  lemma CountFromBudget(m: Interval, count: nat, speedups: nat, span: int, length: nat)
    requires m * count <= span + m * speedups + m && span <= length
    ensures count <= 1 + speedups + length / m
  {
    Arithmetic.Distribute(m, speedups);
    Arithmetic.PerUnit(m, count, 1 + speedups, length);
  }

  /** A window of a pacer history that opens with a rate change. */
  lemma OpenWindow(p: Pacer, since: Instant, es: seq<Pacing.PacerEvent>, m: Interval, start: int, length: nat)
    requires Pacing.Legal(p, since, es) && Pacing.SpacedBy(m, es) && (es != [] ==> es[0].Retime?)
    requires forall i :: 0 <= i < |es| ==> start <= es[i].at <= start + length
    requires start + length + m <= MAX_INSTANT
    ensures Pacing.Admissions(es) <= 1 + Pacing.Speedups(p, es) + length / m
  {
    if es != [] {
      var q, rest := Pacing.Apply(p, es[0]), es[1..];
      Pacing.AdmissionBudget(q, es[0].at, rest, m, start + length);
      CountFromBudget(m, Pacing.Admissions(rest), Pacing.Speedups(q, rest), start + length - es[0].at, length);
    }
  }

  /** The same, with the rounding of rate changes instead of speed-ups. */
  lemma OpenWindowByRounding(p: Pacer, since: Instant, es: seq<Pacing.PacerEvent>, m: Interval, start: int, length: nat)
    requires Pacing.Legal(p, since, es) && Pacing.SpacedBy(m, es) && (es != [] ==> es[0].Retime?)
    requires forall i :: 0 <= i < |es| ==> start <= es[i].at <= start + length
    requires Pacing.Owing(p, since) && start + length <= MAX_INSTANT && Pacing.AllFit(es, start + length)
    ensures 2 * (m * Pacing.Admissions(es)) <= 2 * length + 2 * m + Pacing.RateChanges(p, es)
  {
    if es == [] {
    } else {
      hide SetInterval;
      var q, rest := Pacing.Apply(p, es[0]), es[1..];
      Pacing.EventOwes(p, since, es[0]);
      assert Pacing.AllFit(rest, start + length) && Pacing.Fits(q, rest, start + length);
      Pacing.RoundingAllowance(q, es[0].at, rest, m, start + length);
    }
  }

  /** How often the spacing shrank during a run. */
  function RunSpeedups(w: World, es: seq<Event>): nat
    requires Sound(w) && Runs(w, es)
  {
    Pacing.Speedups(w.c.pacer, Trace(w, es))
  }

  function DispatchesIn(w: World, es: seq<Event>): int
    requires Sound(w) && Runs(w, es)
  {
    After(w, es).l.dispatched - w.l.dispatched
  }

  /** How often the spacing changed during a run. */
  function RunRateChanges(w: World, es: seq<Event>): nat
    requires Sound(w) && Runs(w, es)
  {
    Pacing.RateChanges(w.c.pacer, Trace(w, es))
  }

  lemma SpeedupsUnfold(w: World, es: seq<Event>)
    requires Sound(w) && Runs(w, es) && es != []
    ensures Permitted(w.c, es[0].op) && Sound(Next(w, es[0]))
    ensures RunSpeedups(w, es)
            == Pacing.Speedups(w.c.pacer, PacerEvents(w.c, es[0].op, es[0].at)) + RunSpeedups(Next(w, es[0]), es[1..])
  {
    hide Step, Touches;
    var e := es[0];
    StepIsLegal(w, e);
    NextIsSound(w, e);
    RunsPace(Next(w, e), es[1..]);
    Pacing.CountsAdd(w.c.pacer, PacerEvents(w.c, e.op, e.at), Trace(Next(w, e), es[1..]));
  }

  lemma {:induction false} TraceSplits(w: World, es: seq<Event>, i: nat)
    requires Sound(w) && Runs(w, es) && i <= |es|
    ensures Runs(w, es[..i])
    ensures var v := After(w, es[..i]);
      && Sound(v) && Runs(v, es[i..]) && After(v, es[i..]) == After(w, es)
      && Trace(w, es) == Trace(w, es[..i]) + Trace(v, es[i..])
    decreases i
  {
    hide Step, PacerEvents, Healthy, Balanced, Allowed, Next;
    if i == 0 {
      assert es[..0] == [] && es[0..] == es;
    } else {
      var e, rest := es[0], es[1..];
      AllowedIsPermitted(w, e);
      NextIsSound(w, e);
      TraceSplits(Next(w, e), rest, i - 1);
      assert es[..i][0] == e && es[..i][1..] == rest[..i - 1] && es[i..] == rest[i - 1..];
    }
  }

  /** Every run may be cut anywhere, and the counts add up. */
  lemma SplitRun(w: World, es: seq<Event>, i: nat)
    requires Sound(w) && Runs(w, es) && i <= |es|
    ensures Runs(w, es[..i])
    ensures var v := After(w, es[..i]);
      && Sound(v) && Runs(v, es[i..]) && After(v, es[i..]) == After(w, es)
      && Trace(w, es) == Trace(w, es[..i]) + Trace(v, es[i..])
      && RunSpeedups(w, es) == RunSpeedups(w, es[..i]) + RunSpeedups(v, es[i..])
      && RunRateChanges(w, es) == RunRateChanges(w, es[..i]) + RunRateChanges(v, es[i..])
      && DispatchesIn(w, es) == DispatchesIn(w, es[..i]) + DispatchesIn(v, es[i..])
  {
    TraceSplits(w, es, i);
    hide Runs, Sound, Trace, After;
    RunsPace(w, es[..i]);
    Pacing.CountsAdd(w.c.pacer, Trace(w, es[..i]), Trace(After(w, es[..i]), es[i..]));
  }

  predicate InWindow(es: seq<Event>, start: int, end: int) {
    forall i :: 0 <= i < |es| ==> start <= es[i].at <= end
  }

  lemma EventsShape(c: State, op: Op, now: Instant)
    requires Healthy(c) && Permitted(c, op)
    ensures var es := PacerEvents(c, op, now);
      AllAt(es, now) && (es != [] ==> es[0].Retime?)
  {
    hide Step, Touches;
  }

  lemma {:induction false} TraceShape(w: World, es: seq<Event>, start: int, end: int)
    requires Sound(w) && Runs(w, es) && InWindow(es, start, end)
    ensures var trace := Trace(w, es);
      && (trace != [] ==> trace[0].Retime?)
      && forall i :: 0 <= i < |trace| ==> start <= trace[i].at <= end
    decreases |es|
  {
    hide Step, PacerEvents, Healthy, Balanced;
    if es == [] {
    } else {
      AllowedIsPermitted(w, es[0]);
      NextIsSound(w, es[0]);
      EventsShape(w.c, es[0].op, es[0].at);
      TraceShape(Next(w, es[0]), es[1..], start, end);
    }
  }

  lemma {:induction false} RunTimes(w: World, es: seq<Event>)
    requires Sound(w) && Runs(w, es)
    ensures forall i :: 0 <= i < |es| ==> w.now <= es[i].at <= After(w, es).now
    ensures forall i, j :: 0 <= i <= j < |es| ==> es[i].at <= es[j].at
    ensures w.now <= After(w, es).now
    decreases |es|
  {
    hide Step;
    if es == [] {
    } else {
      NextIsSound(w, es[0]);
      RunTimes(Next(w, es[0]), es[1..]);
    }
  }

  /** A run that begins with at most one spacing owed ends so. */
  lemma RunsOwe(w: World, es: seq<Event>)
    requires Sound(w) && Runs(w, es) && Pacing.Owing(w.c.pacer, w.now)
    ensures Pacing.Owing(After(w, es).c.pacer, After(w, es).now)
  {
    hide Runs, Sound, Trace, Pacing.Owing;
    RunTimes(w, es);
    RunsPace(w, es);
    TraceShape(w, es, w.now, After(w, es).now);
    Pacing.HistoryOwes(w.c.pacer, w.now, Trace(w, es), After(w, es).now);
  }

  /** In every run of a new controller at most one spacing is ever owed. */
  lemma EveryRunOwes(id: nat, config: Config, rng: Probe.Rng, start: Instant, es: seq<Event>)
    requires config.Valid() && rng.Valid() && Runs(NewWorld(id, config, rng, start), es)
    ensures var w := After(NewWorld(id, config, rng, start), es);
      Pacing.Owing(w.c.pacer, w.now)
  {
    hide Runs, After;
    RunsOwe(NewWorld(id, config, rng, start), es);
  }

  /** Any stretch of a run, however it begins: one dispatch, one per speed-up,
      and what the smallest spacing adopted allows. */
  lemma WindowOfRun(w: World, es: seq<Event>, m: Interval, start: Instant, length: nat)
    requires Sound(w) && Runs(w, es) && InWindow(es, start, start + length)
    requires Pacing.SpacedBy(m, Trace(w, es)) && start + length + m <= MAX_INSTANT
    ensures DispatchesIn(w, es) <= 1 + RunSpeedups(w, es) + length / m
  {
    hide Runs, Sound, Trace;
    TraceShape(w, es, start, start + length);
    RunsPace(w, es);
    OpenWindow(w.c.pacer, w.now, Trace(w, es), m, start, length);
  }

  /** Any stretch of a run: one dispatch, what the smallest spacing adopted
      allows, and half a nanosecond for every rate change. */
  lemma WindowOfRunByRounding(w: World, es: seq<Event>, m: Interval, start: Instant, length: nat)
    requires Sound(w) && Runs(w, es) && InWindow(es, start, start + length) && Pacing.Owing(w.c.pacer, w.now)
    requires Pacing.SpacedBy(m, Trace(w, es)) && start + length <= MAX_INSTANT
    requires Pacing.AllFit(Trace(w, es), start + length)
    ensures 2 * (m * DispatchesIn(w, es)) <= 2 * length + 2 * m + RunRateChanges(w, es)
  {
    hide Runs, Sound, Trace;
    TraceShape(w, es, start, start + length);
    RunsPace(w, es);
    OpenWindowByRounding(w.c.pacer, w.now, Trace(w, es), m, start, length);
  }

  /** While the spacing stays I, any window of length W holds at most 1 + W/I. */
  lemma ConstantSpacingWindow(w: World, es: seq<Event>, start: Instant, length: nat)
    requires Sound(w) && Runs(w, es) && InWindow(es, start, start + length)
    requires Pacing.Constant(w.c.pacer.interval, Trace(w, es)) && start + length + w.c.pacer.interval <= MAX_INSTANT
    ensures DispatchesIn(w, es) <= 1 + length / w.c.pacer.interval
  {
    hide Runs, Sound, Trace;
    Pacing.ConstantNeverSpeedsUp(w.c.pacer, Trace(w, es));
    WindowOfRun(w, es, w.c.pacer.interval, start, length);
  }

  /** An event that dispatches a request. */
  predicate Dispatching(w: World, e: Event)
    requires Sound(w) && Allowed(w, e)
  {
    AllowedIsPermitted(w, e);
    Step(w.c, e.op, e.at).1.NewDispatch?
  }

  lemma DispatchCommits(w: World, e: Event)
    requires Sound(w) && Allowed(w, e) && Dispatching(w, e)
    ensures var interval := Next(w, e).c.pacer.interval;
      var retimed := SetInterval(w.c.pacer, interval, e.at);
      retimed.tat <= e.at && Next(w, e).c.pacer == Committed(retimed, e.at) && retimed.interval == interval
  {
    hide Step, IntervalAt;
    AllowedIsPermitted(w, e);
    StepPaces(w.c, e.op, e.at);
  }

  /** The rate changes from after one dispatch up to the next. */
  function ChangesUpTo(w: World, es: seq<Event>, last: Event): seq<Pacing.PacerEvent>
    requires Sound(w) && Runs(w, es) && Sound(After(w, es)) && Allowed(After(w, es), last)
  {
    Trace(w, es) + [Pacing.Retime(Next(After(w, es), last).c.pacer.interval, last.at)]
  }

  lemma {:induction false} LegalAppend(p: Pacer, since: Instant, es: seq<Pacing.PacerEvent>, interval: Interval,
      now: Instant)
    requires Pacing.Legal(p, since, es) && Pacing.EndsBy(now, es) && since <= now
    ensures var fs := es + [Pacing.Retime(interval, now)];
      && Pacing.Legal(p, since, fs) && Pacing.EndsBy(now, fs)
      && Pacing.Admissions(fs) == Pacing.Admissions(es)
      && Pacing.After(p, fs) == SetInterval(Pacing.After(p, es), interval, now)
    decreases |es|
  {
    var e := Pacing.Retime(interval, now);
    if es == [] {
      assert [e][1..] == [] && es + [e] == [e];
    } else {
      assert (es + [e])[0] == es[0] && (es + [e])[1..] == es[1..] + [e];
      LegalAppend(Pacing.Apply(p, es[0]), es[0].at, es[1..], interval, now);
    }
  }

  /** Between two consecutive dispatches at least one whole spacing elapses,
      each stretch of time counted by the spacing then in force, less half a
      nanosecond of the new spacing for each rate change. */
  lemma ConsecutiveDispatches(v: World, first: Event, es: seq<Event>, last: Event)
    requires Sound(v) && Allowed(v, first) && Dispatching(v, first) && Sound(Next(v, first))
    requires var w := Next(v, first);
      && Runs(w, es) && DispatchesIn(w, es) == 0
      && Sound(After(w, es)) && Allowed(After(w, es), last) && Dispatching(After(w, es), last)
      && Pacing.Fits(w.c.pacer, ChangesUpTo(w, es, last), last.at)
    ensures var w := Next(v, first);
      var changes := ChangesUpTo(w, es, last);
      && first.at <= last.at && Pacing.Legal(w.c.pacer, first.at, changes) && Pacing.EndsBy(last.at, changes)
      && Pacing.Elapsed(w.c.pacer, first.at, changes, last.at) + Pacing.Slack(w.c.pacer, changes) >= 1.0
  {
    hide Step, Runs, Sound, Trace, Dispatching;
    var w := Next(v, first);
    var u := After(w, es);
    DispatchCommits(v, first);
    DispatchCommits(u, last);
    RunsPace(w, es);
    RunTimes(w, es);
    TraceShape(w, es, w.now, u.now);
    var interval := Next(u, last).c.pacer.interval;
    LegalAppend(w.c.pacer, w.now, Trace(w, es), interval, last.at);
    var retimed := SetInterval(v.c.pacer, w.c.pacer.interval, first.at);
    Pacing.PacingAcrossRateChanges(retimed, first.at, ChangesUpTo(w, es, last), last.at);
  }

  /** A window that opens with a dispatch: that one, one per speed-up, and what
      the smallest spacing adopted allows. */
  lemma WindowFromDispatch(v: World, first: Event, es: seq<Event>, m: Interval, end: Instant)
    requires Sound(v) && Allowed(v, first) && Dispatching(v, first) && Sound(Next(v, first))
    requires var w := Next(v, first);
      && Runs(w, es) && InWindow(es, first.at, end) && first.at <= end && end + m <= MAX_INSTANT
      && w.c.pacer.interval >= m && Pacing.SpacedBy(m, Trace(w, es))
    ensures var w := Next(v, first);
      1 + DispatchesIn(w, es) <= 1 + RunSpeedups(w, es) + (end - first.at) / m
  {
    hide Step, Runs, Sound, Trace, Dispatching, SetInterval;
    var w := Next(v, first);
    DispatchCommits(v, first);
    RunsPace(w, es);
    TraceShape(w, es, first.at, end);
    var retimed := SetInterval(v.c.pacer, w.c.pacer.interval, first.at);
    Pacing.WindowBound(retimed, first.at, Trace(w, es), m, end);
  }

  /** A window that opens with a dispatch, across arbitrary rate changes: the
      further dispatches cost one smallest spacing each, and rounding forgives
      at most half a nanosecond per rate change. */
  lemma WindowAfterDispatch(v: World, first: Event, es: seq<Event>, m: Interval, end: Instant)
    requires Sound(v) && Allowed(v, first) && Dispatching(v, first) && Sound(Next(v, first))
    requires var w := Next(v, first);
      && Runs(w, es) && InWindow(es, first.at, end) && first.at <= end
      && w.c.pacer.interval >= m && Pacing.SpacedBy(m, Trace(w, es))
      && Pacing.Fits(w.c.pacer, Trace(w, es), end)
    ensures var w := Next(v, first);
      2 * (m * DispatchesIn(w, es)) <= 2 * (end - first.at) + Pacing.RateChanges(w.c.pacer, Trace(w, es))
  {
    hide Step, Runs, Sound, Trace, Dispatching;
    var w := Next(v, first);
    DispatchCommits(v, first);
    RunsPace(w, es);
    TraceShape(w, es, first.at, end);
    var retimed := SetInterval(v.c.pacer, w.c.pacer.interval, first.at);
    Pacing.WindowAcrossRateChanges(retimed, first.at, Trace(w, es), m, end);
  }
}
