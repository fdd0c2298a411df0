/** How much work an endpoint that went silent can be sent. */
module Exposure {
  import opened Clock
  import opened Gcra
  import opened ControllerModel
  import opened ControllerRuns
  import opened Ledgers
  import opened ControllerPacing
  import opened Silence
  import opened Synchrony
  import opened RunPacing
  import opened Probing
  import Latency
  import Pacing
  import Arithmetic

  /** No feedback arrives, work stays under way, and the probed rate stays at
      most one request every `pace` nanoseconds. */
  ghost predicate SilentStep(w: World, e: Event, pace: Interval)
    requires Sound(w) && Allowed(w, e)
  {
    NextIsSound(w, e);
    var d := Next(w, e).c;
    && !(e.op.Complete? && e.op.token.owner == w.c.id)
    && d.inflight > 0
    && ProbedRate(d) * pace as real <= 1.0
  }

  ghost predicate SilentRun(w: World, es: seq<Event>, pace: Interval)
    requires Sound(w) && Runs(w, es)
    decreases |es|
  {
    es != [] ==> SilentStep(w, es[0], pace) && (NextIsSound(w, es[0]); SilentRun(Next(w, es[0]), es[1..], pace))
  }

  predicate Within(es: seq<Event>, from: int, until: int) {
    forall i :: 0 <= i < |es| ==> from <= es[i].at < until
  }

  lemma SilenceKeepsEpoch(w: World, e: Event, pace: Interval)
    requires Sound(w) && Allowed(w, e) && w.c.inflight > 0 && SilentStep(w, e, pace)
    ensures Next(w, e).c.epoch == w.c.epoch && Next(w, e).c.config == w.c.config
  {
    hide Step;
    AllowedIsPermitted(w, e);
    StepKeeps(w.c, e.op, e.at);
    NoteNamesTheToken(w.c, e.op, e.at);
  }

  /** Spacing in force `k` expected RTTs beyond the grace period. */
  function PaceAfter(pace: Interval, k: nat): (r: nat)
    ensures r >= 1
  {
    if k == 0 then pace else 2 * PaceAfter(pace, k - 1)
  }

  /** The instant `n` RTTs after `start`. */
  function Mark(start: Instant, rtt: Interval, n: nat): nat {
    if n == 0 then start else Mark(start, rtt, n - 1) + rtt
  }

  lemma {:induction false} PaceInClosedForm(pace: Interval, k: nat)
    ensures PaceAfter(pace, k) == pace * Pow2(k)
  {
    if k == 0 {
    } else {
      PaceInClosedForm(pace, k - 1);
    }
  }

  lemma {:induction false} MarkInClosedForm(start: Instant, rtt: Interval, n: nat)
    ensures Mark(start, rtt, n) == start + rtt * n
  {
    if n == 0 {
    } else {
      MarkInClosedForm(start, rtt, n - 1);
      Arithmetic.Distribute(rtt, n - 1);
    }
  }

  /** From `from` on, the spacing is at least `m`: either the initial pace or,
      once `k` RTTs of decay have passed, the pace doubled `k` times. */
  predicate DecayedTo(epoch: Option<Epoch>, from: int, pace: Interval, m: Interval, k: nat) {
    && 2 * PaceAfter(pace, k) <= DURATION_MAX
    && (m == pace || (m == PaceAfter(pace, k) && epoch.Some? && epoch.value.expectedRtt > 0
                      && from >= Mark(epoch.value.lastFeedbackAt, epoch.value.expectedRtt, k + 1)))
  }

  lemma SilentSpacing(d: State, now: Instant, pace: Interval, m: Interval, k: nat, from: int)
    requires Healthy(d) && Halves(d.config.halving) && ProbedRate(d) * pace as real <= 1.0
    requires from <= now && DecayedTo(d.epoch, from, pace, m, k)
    ensures IntervalAt(d, now) >= m
  {
    hide RateAt, ProbedRate, IntervalAt, Halves, Pow2, PaceAfter, Mark;
    PaceInClosedForm(pace, k);
    if m == pace {
      Arithmetic.ProductOrder(1, Pow2(k), pace);
      SpacingAtLeastPace(d, now, pace);
    } else {
      var epoch := d.epoch.value;
      MarkInClosedForm(epoch.lastFeedbackAt, epoch.expectedRtt, k + 1);
      SilenceWidensSpacing(d, now, pace, k);
    }
  }

  lemma SilentStepSpacing(w: World, e: Event, pace: Interval, m: Interval, k: nat, from: int)
    requires Sound(w) && Allowed(w, e) && w.c.inflight > 0 && SilentStep(w, e, pace)
    requires Halves(w.c.config.halving) && from <= e.at && DecayedTo(w.c.epoch, from, pace, m, k)
    requires Permitted(w.c, e.op) && Touches(w.c, e.op)
    ensures Next(w, e).c.pacer.interval >= m
  {
    hide Step, Touches, RateAt, ProbedRate, IntervalAt, Halves, Healthy, DecayedTo;
    AllowedIsPermitted(w, e);
    StepPaces(w.c, e.op, e.at);
    NextIsSound(w, e);
    SilenceKeepsEpoch(w, e, pace);
    SilentSpacing(Next(w, e).c, e.at, pace, m, k, from);
  }

  /** What one silent step contributes to the pacer's history. */
  lemma SilentEvents(w: World, e: Event, pace: Interval, m: Interval, k: nat, from: int)
    requires Sound(w) && Allowed(w, e) && w.c.inflight > 0 && SilentStep(w, e, pace)
    requires Halves(w.c.config.halving) && from <= e.at && DecayedTo(w.c.epoch, from, pace, m, k)
    requires Permitted(w.c, e.op)
    ensures var events := PacerEvents(w.c, e.op, e.at);
      Pacing.SpacedBy(m, events) && AllAt(events, e.at) && (events != [] ==> events[0].Retime?)
  {
    hide Step, Touches, SilentStep, Halves, DecayedTo, Healthy, Sound;
    if Touches(w.c, e.op) {
      SilentStepSpacing(w, e, pace, m, k, from);
    }
  }

  /** A stretch of silence all of whose events lie `k` RTTs into the decay. */
  lemma {:induction false} SilentTraceIsSpaced(w: World, es: seq<Event>, pace: Interval, m: Interval, k: nat,
      from: int, until: int)
    requires Sound(w) && Runs(w, es) && w.c.inflight > 0 && SilentRun(w, es, pace) && Within(es, from, until)
    requires Halves(w.c.config.halving) && DecayedTo(w.c.epoch, from, pace, m, k)
    ensures var trace := Trace(w, es);
      && Pacing.SpacedBy(m, trace) && (trace != [] ==> trace[0].Retime?)
      && (forall i :: 0 <= i < |trace| ==> from <= trace[i].at < until)
    decreases |es|
  {
    hide Step, Touches, Halves, DecayedTo, Healthy, PacerEvents, Balanced;
    if es == [] {
    } else {
      var e := es[0];
      AllowedIsPermitted(w, e);
      NextIsSound(w, e);
      SilenceKeepsEpoch(w, e, pace);
      SilentEvents(w, e, pace, m, k, from);
      assert Within(es[1..], from, until);
      SilentTraceIsSpaced(Next(w, e), es[1..], pace, m, k, from, until);
    }
  }

  /** One window of silence holds one dispatch, one per speed-up, and as many
      as the spacing allows. */
  lemma SilentWindow(w: World, es: seq<Event>, pace: Interval, m: Interval, k: nat, from: int, length: Interval)
    requires Sound(w) && Runs(w, es) && w.c.inflight > 0 && SilentRun(w, es, pace) && Within(es, from, from + length)
    requires Halves(w.c.config.halving) && DecayedTo(w.c.epoch, from, pace, m, k)
    requires 0 <= from && from + length + m <= MAX_INSTANT
    ensures DispatchesIn(w, es) <= 1 + RunSpeedups(w, es) + length / m
  {
    hide Halves, SilentRun, Runs, Trace, DecayedTo;
    SilentTraceIsSpaced(w, es, pace, m, k, from, from + length);
    RunsPace(w, es);
    OpenWindow(w.c.pacer, w.now, Trace(w, es), m, from, length - 1);
    Arithmetic.QuotientOrder(length - 1, length, m);
  }

  /** The number of leading events before `t`. */
  function EventsBefore(es: seq<Event>, t: int): (i: nat)
    ensures i <= |es| && (i < |es| ==> es[i].at >= t)
    ensures forall j :: 0 <= j < i ==> es[j].at < t
  {
    if es == [] || es[0].at >= t then 0 else 1 + EventsBefore(es[1..], t)
  }

  /** The parts of a silent run are silent. */
  lemma {:induction false} SplitSilentRun(w: World, es: seq<Event>, i: nat, pace: Interval)
    requires Sound(w) && Runs(w, es) && i <= |es| && w.c.inflight > 0 && SilentRun(w, es, pace)
    requires Runs(w, es[..i]) && Sound(After(w, es[..i])) && Runs(After(w, es[..i]), es[i..])
    ensures SilentRun(w, es[..i], pace)
    ensures var v := After(w, es[..i]);
      SilentRun(v, es[i..], pace) && v.c.inflight > 0 && v.c.epoch == w.c.epoch && v.c.config == w.c.config
    decreases i
  {
    hide Step, Touches, Healthy, Balanced, Allowed, Next;
    if i == 0 {
      assert es[..0] == [] && es[0..] == es;
    } else {
      var e, rest := es[0], es[1..];
      NextIsSound(w, e);
      SilenceKeepsEpoch(w, e, pace);
      assert es[..i][0] == e && es[..i][1..] == rest[..i - 1] && es[i..] == rest[i - 1..];
      SplitSilentRun(Next(w, e), rest, i - 1, pace);
    }
  }

  /** Every run may be cut at any instant. */
  lemma {:induction false} CutAt(w: World, es: seq<Event>, from: int, edge: int, until: int) returns (i: nat)
    requires Sound(w) && Runs(w, es) && Within(es, from, until)
    ensures i <= |es| && Within(es[..i], from, edge) && Within(es[i..], edge, until)
  {
    hide Runs, Sound;
    RunTimes(w, es);
    i := EventsBefore(es, edge);
  }

  /** What the spacing allows over `n` + 1 RTTs: the pace during the first two,
      then half as much in each further one. */
  function SilentBudget(rtt: Interval, pace: Interval, n: nat): int {
    if n == 0 then rtt / pace else SilentBudget(rtt, pace, n - 1) + rtt / PaceAfter(pace, n - 1)
  }

  lemma HalfQuotient(w: nat, m: nat)
    requires m > 0
    ensures 2 * (w / (2 * m)) <= w / m
  {
    var q := w / (2 * m);
    Arithmetic.Quotient(w, 2 * m);
    Arithmetic.Quotient(w, m);
    assert 2 * m * q == m * (2 * q);
    Arithmetic.FactorOrder(m, 2 * q, w / m);
  }

  lemma {:induction false} BudgetPlusRest(rtt: Interval, pace: Interval, n: nat)
    ensures SilentBudget(rtt, pace, n) + 2 * (rtt / PaceAfter(pace, n)) <= 3 * (rtt / pace)
  {
    if n == 0 {
    } else {
      BudgetPlusRest(rtt, pace, n - 1);
      HalfQuotient(rtt, PaceAfter(pace, n - 1));
    }
  }

  /** The clock reaches past the last RTT, and the spacing there is above the floor. */
  predicate WithinReach(start: Instant, rtt: Interval, pace: Interval, n: nat) {
    && 2 * PaceAfter(pace, n) <= DURATION_MAX
    && Mark(start, rtt, n + 1) + PaceAfter(pace, n) <= MAX_INSTANT
  }

  /** The last of `n` + 1 RTTs: all of it, or all but the earlier ones. */
  lemma LastWindow(w: World, es: seq<Event>, pace: Interval, n: nat, start: Instant, rtt: Interval)
    requires Sound(w) && Runs(w, es) && w.c.inflight > 0 && SilentRun(w, es, pace) && Halves(w.c.config.halving)
    requires w.c.epoch == Some(Epoch(start, rtt)) && WithinReach(start, rtt, pace, n)
    requires Within(es, Mark(start, rtt, n), Mark(start, rtt, n + 1))
    ensures DispatchesIn(w, es) <= 1 + RunSpeedups(w, es) + (if n == 0 then rtt / pace else rtt / PaceAfter(pace, n - 1))
  {
    hide Halves, SilentRun, Runs, RunSpeedups, DispatchesIn;
    var k, m := if n == 0 then 0 else n - 1, if n == 0 then pace else PaceAfter(pace, n - 1);
    assert PaceAfter(pace, k) <= PaceAfter(pace, n) && m <= PaceAfter(pace, n);
    SilentWindow(w, es, pace, m, k, Mark(start, rtt, n), rtt);
  }

  lemma {:induction false} ExposureWithinBudget(w: World, es: seq<Event>, pace: Interval, n: nat,
      start: Instant, rtt: Interval)
    requires Sound(w) && Runs(w, es) && w.c.inflight > 0 && SilentRun(w, es, pace) && Halves(w.c.config.halving)
    requires w.c.epoch == Some(Epoch(start, rtt)) && WithinReach(start, rtt, pace, n)
    requires Within(es, start, Mark(start, rtt, n + 1))
    ensures DispatchesIn(w, es) <= n + 1 + RunSpeedups(w, es) + SilentBudget(rtt, pace, n)
    decreases n
  {
    hide Halves, SilentRun, Runs, RunSpeedups, DispatchesIn, Sound, After, Within, Trace;
    if n == 0 {
      assert Mark(start, rtt, 0) == start;
      LastWindow(w, es, pace, 0, start, rtt);
    } else {
      var i := CutAt(w, es, start, Mark(start, rtt, n), Mark(start, rtt, n + 1));
      SplitRun(w, es, i);
      SplitSilentRun(w, es, i, pace);
      ExposureWithinBudget(w, es[..i], pace, n - 1, start, rtt);
      LastWindow(After(w, es[..i]), es[i..], pace, n, start, rtt);
    }
  }

  lemma StaysInStep(c: State, now: Instant, later: Instant)
    requires InStep(c, now) && now <= later
    ensures InStep(c, later)
  {
    hide SyncedAt;
  }

  lemma OneSpeedup(p: Gcra.Pacer, es: seq<Pacing.PacerEvent>)
    requires |es| <= 2 && (es != [] ==> es[0].Retime?) && (|es| == 2 ==> es[1].Admit?)
    ensures Pacing.Speedups(p, es) == if es != [] && es[0].interval < p.interval then 1 else 0
  {
    if es != [] {
      var q, rest := Pacing.Apply(p, es[0]), es[1..];
      if |es| == 2 {
        assert rest[1..] == [];
        assert Pacing.Speedups(q, rest) == Pacing.Speedups(Pacing.Apply(q, rest[0]), []);
      }
    }
  }

  lemma StepSpeedups(w: World, e: Event, pace: Interval)
    requires Sound(w) && Allowed(w, e) && w.c.inflight > 0 && SilentStep(w, e, pace)
    requires Halves(w.c.config.halving) && InStep(w.c, w.now) && Permitted(w.c, e.op)
    ensures InStep(Next(w, e).c, e.at)
    ensures Pacing.Speedups(w.c.pacer, PacerEvents(w.c, e.op, e.at))
            <= Boost(w.c.probe, Next(w, e).c.probe)
  {
    hide Step, Touches, Halves, Healthy, InStep;
    AllowedIsPermitted(w, e);
    StepStaysInStep(w.c, e.op, w.now, e.at);
    StaysInStep(w.c, w.now, e.at);
    SilenceKeepsEpoch(w, e, pace);
    var d := Next(w, e).c;
    OneSpeedup(w.c.pacer, PacerEvents(w.c, e.op, e.at));
    if !Probe.Boosts(w.c.probe, d.probe) {
      SilenceNeverSpeedsUp(w.c, e.op, e.at);
    }
  }

  /** During silence only a probe can speed an endpoint up, and only where a
      positive one starts or a negative one ends. */
  lemma {:induction false} SpeedupsAreProbes(w: World, es: seq<Event>, pace: Interval)
    requires Sound(w) && Runs(w, es) && w.c.inflight > 0 && SilentRun(w, es, pace)
    requires Halves(w.c.config.halving) && InStep(w.c, w.now)
    ensures RunSpeedups(w, es) <= RunBoosts(w, es)
    decreases |es|
  {
    hide Step, Touches, Halves, Healthy, InStep, PacerEvents;
    if es == [] {
    } else {
      var e := es[0];
      AllowedIsPermitted(w, e);
      NextIsSound(w, e);
      SilenceKeepsEpoch(w, e, pace);
      StepSpeedups(w, e, pace);
      SpeedupsUnfold(w, es);
      SpeedupsAreProbes(Next(w, e), es[1..], pace);
    }
  }

  /** An endpoint that stops answering after feedback, while its probed rate
      stays at most one request every `pace` nanoseconds, receives in the first
      n + 1 expected RTTs from then on at most n + 1 requests, one per boost, and
      three RTTs' worth at that rate, however often the controller is polled. A
      boost may set free one request whose wait the slow-downs before it had
      rounded down. Where a dispatch opens the silence, OpenedExposure counts
      that request as well. */
  lemma {:induction false} BlackholeExposure(w: World, es: seq<Event>, pace: Interval, n: nat, start: Instant,
      rtt: Interval)
    requires Sound(w) && Runs(w, es) && w.c.inflight > 0 && SilentRun(w, es, pace)
    requires Halves(w.c.config.halving) && InStep(w.c, w.now)
    requires w.c.epoch == Some(Epoch(start, rtt)) && WithinReach(start, rtt, pace, n)
    requires Within(es, start, Mark(start, rtt, n + 1))
    ensures Mark(start, rtt, n + 1) == start + rtt * (n + 1)
    ensures DispatchesIn(w, es) <= n + 1 + RunBoosts(w, es) + 3 * (rtt / pace)
  {
    hide *;
    MarkInClosedForm(start, rtt, n + 1);
    ExposureWithinBudget(w, es, pace, n, start, rtt);
    SpeedupsAreProbes(w, es, pace);
    BudgetPlusRest(rtt, pace, n);
  }

  /** The same bound with the boosts counted by the clock: at most two, and one
      more per second. */
  lemma BlackholeExposureByTheClock(w: World, es: seq<Event>, pace: Interval, n: nat, start: Instant, rtt: Interval)
    requires Sound(w) && Runs(w, es) && w.c.inflight > 0 && SilentRun(w, es, pace)
    requires Halves(w.c.config.halving) && InStep(w.c, w.now)
    requires w.c.epoch == Some(Epoch(start, rtt)) && WithinReach(start, rtt, pace, n)
    requires Within(es, start, Mark(start, rtt, n + 1))
    requires After(w, es).now + Probe.SECOND <= MAX_INSTANT
    ensures After(w, es).now >= w.now
    ensures DispatchesIn(w, es) <= n + 3 + (After(w, es).now - w.now) / Probe.SECOND + 3 * (rtt / pace)
  {
    hide Sound, Runs, SilentRun, Halves, InStep, DispatchesIn, RunBoosts, After, Within, WithinReach, Mark;
    BlackholeExposure(w, es, pace, n, start, rtt);
    BoostsAreRare(w, es, After(w, es).now);
  }

  /** A value halved `j` times. */
  function Share(r: real, j: nat): real
    decreases j
  {
    if j == 0 then r else Share(r / 2.0, j - 1)
  }

  lemma {:induction false} SharesHalve(r: real, j: nat)
    ensures Share(r, j + 1) == Share(r, j) / 2.0
    decreases j
  {
    if j == 0 {
      assert Share(r, 1) == Share(r / 2.0, 0);
    } else {
      SharesHalve(r / 2.0, j - 1);
    }
  }

  /** The time allowed over `n` + 1 RTTs, each share counted at the pace. */
  function TimeBudget(rtt: real, n: nat): real {
    if n == 0 then rtt else TimeBudget(rtt, n - 1) + Share(rtt, n - 1)
  }

  lemma {:induction false} TimeBudgetPlusRest(rtt: real, n: nat)
    ensures TimeBudget(rtt, n) + 2.0 * Share(rtt, n) == 3.0 * rtt
  {
    if n == 0 {
    } else {
      TimeBudgetPlusRest(rtt, n - 1);
      SharesHalve(rtt, n - 1);
    }
  }

  lemma {:induction false} SharesArePositive(r: real, j: nat)
    requires r >= 0.0
    ensures Share(r, j) >= 0.0
    decreases j
  {
    if j == 0 {
    } else {
      SharesArePositive(r / 2.0, j - 1);
    }
  }

  /** A bound at the decayed spacing, counted at the pace. */
  lemma {:induction false} CountedAtPace(pace: Interval, j: nat, x: int, r: real, c: real)
    requires 2.0 * (PaceAfter(pace, j) * x) as real <= 2.0 * r + c && c >= 0.0
    ensures 2.0 * (pace * x) as real <= 2.0 * Share(r, j) + c
    decreases j
  {
    if j == 0 {
    } else {
      var m := PaceAfter(pace, j - 1);
      assert PaceAfter(pace, j) * x == 2 * (m * x) by {
        assert 2 * m * x == 2 * (m * x);
      }
      CountedAtPace(pace, j - 1, x, r / 2.0, c);
    }
  }

  lemma CountAboveOne(m: Interval, count: int, span: int, changes: nat)
    requires 2 * (m * count) <= 2 * span + 2 * m + changes
    ensures 2.0 * (m * (count - 1)) as real <= 2.0 * span as real + changes as real
  {
    assert m * (count - 1) == m * count - m;
  }

  lemma SilentWindowByRounding(w: World, es: seq<Event>, pace: Interval, m: Interval, k: nat, from: int,
      length: Interval)
    requires Sound(w) && Runs(w, es) && w.c.inflight > 0 && SilentRun(w, es, pace) && Within(es, from, from + length)
    requires Halves(w.c.config.halving) && DecayedTo(w.c.epoch, from, pace, m, k) && Pacing.Owing(w.c.pacer, w.now)
    requires 0 <= from && from + length <= MAX_INSTANT && Pacing.AllFit(Trace(w, es), from + length)
    ensures 2.0 * (m * (DispatchesIn(w, es) - 1)) as real <= 2.0 * length as real + RunRateChanges(w, es) as real
  {
    hide Halves, SilentRun, Runs, Trace, DecayedTo;
    SilentTraceIsSpaced(w, es, pace, m, k, from, from + length);
    WindowOfRunByRounding(w, es, m, from, length);
    CountAboveOne(m, DispatchesIn(w, es), length, RunRateChanges(w, es));
  }

  lemma LastWindowByRounding(w: World, es: seq<Event>, pace: Interval, n: nat, start: Instant, rtt: Interval)
    requires Sound(w) && Runs(w, es) && w.c.inflight > 0 && SilentRun(w, es, pace) && Halves(w.c.config.halving)
    requires w.c.epoch == Some(Epoch(start, rtt)) && WithinReach(start, rtt, pace, n) && Pacing.Owing(w.c.pacer, w.now)
    requires Within(es, Mark(start, rtt, n), Mark(start, rtt, n + 1))
    requires Pacing.AllFit(Trace(w, es), Mark(start, rtt, n + 1))
    ensures 2.0 * (pace * (DispatchesIn(w, es) - 1)) as real
            <= 2.0 * (if n == 0 then rtt as real else Share(rtt as real, n - 1)) + RunRateChanges(w, es) as real
  {
    hide Halves, SilentRun, Runs, RunRateChanges, DispatchesIn, Trace, Pacing.Owing, Pacing.AllFit;
    var k, m := if n == 0 then 0 else n - 1, if n == 0 then pace else PaceAfter(pace, n - 1);
    assert PaceAfter(pace, k) <= PaceAfter(pace, n) && m <= PaceAfter(pace, n);
    SilentWindowByRounding(w, es, pace, m, k, Mark(start, rtt, n), rtt);
    CountedAtPace(pace, k, DispatchesIn(w, es) - 1, rtt as real, RunRateChanges(w, es) as real);
  }

  lemma {:induction false} EarlierMark(start: Instant, rtt: Interval, n: nat)
    ensures Mark(start, rtt, n) <= Mark(start, rtt, n + 1)
  {}

  lemma PartsFit(es: seq<Pacing.PacerEvent>, fs: seq<Pacing.PacerEvent>, early: int, end: int)
    requires Pacing.AllFit(es + fs, end) && early <= end
    ensures Pacing.AllFit(es, early) && Pacing.AllFit(fs, end)
  {
    forall i | 0 <= i < |es| && es[i].Retime?
      ensures early + es[i].interval <= MAX_INSTANT
    {
      assert (es + fs)[i] == es[i];
    }
    forall i | 0 <= i < |fs| && fs[i].Retime?
      ensures end + fs[i].interval <= MAX_INSTANT
    {
      assert (es + fs)[|es| + i] == fs[i];
    }
  }

  lemma SumOfParts(pace: Interval, n: int, x: int, y: int)
    ensures pace * (x + y - (n + 1)) == pace * (x - n) + pace * (y - 1)
  {}

  lemma {:induction false} ExposureInTime(w: World, es: seq<Event>, pace: Interval, n: nat, start: Instant,
      rtt: Interval)
    requires Sound(w) && Runs(w, es) && w.c.inflight > 0 && SilentRun(w, es, pace) && Halves(w.c.config.halving)
    requires w.c.epoch == Some(Epoch(start, rtt)) && WithinReach(start, rtt, pace, n) && Pacing.Owing(w.c.pacer, w.now)
    requires Within(es, start, Mark(start, rtt, n + 1)) && Pacing.AllFit(Trace(w, es), Mark(start, rtt, n + 1))
    ensures 2.0 * (pace * (DispatchesIn(w, es) - (n + 1))) as real
            <= 2.0 * TimeBudget(rtt as real, n) + RunRateChanges(w, es) as real
    decreases n
  {
    hide Halves, SilentRun, Runs, RunRateChanges, DispatchesIn, Sound, After, Within, Trace, Pacing.Owing, Pacing.AllFit;
    if n == 0 {
      assert Mark(start, rtt, 0) == start;
      LastWindowByRounding(w, es, pace, 0, start, rtt);
    } else {
      var i := CutAt(w, es, start, Mark(start, rtt, n), Mark(start, rtt, n + 1));
      SplitRun(w, es, i);
      SplitSilentRun(w, es, i, pace);
      var v := After(w, es[..i]);
      EarlierMark(start, rtt, n);
      PartsFit(Trace(w, es[..i]), Trace(v, es[i..]), Mark(start, rtt, n), Mark(start, rtt, n + 1));
      RunsOwe(w, es[..i]);
      ExposureInTime(w, es[..i], pace, n - 1, start, rtt);
      LastWindowByRounding(v, es[i..], pace, n, start, rtt);
      SumOfParts(pace, n, DispatchesIn(w, es[..i]), DispatchesIn(v, es[i..]));
    }
  }

  /** What a silent endpoint receives in the first n + 1 expected RTTs after
      feedback costs, beyond the first n + 1 requests, a whole `pace` nanoseconds each. Whatever
      the probes do, the three RTTs of time are all there is, but for half a
      nanosecond lost to rounding at each rate change. */
  lemma {:induction false} BlackholeExposureByRounding(w: World, es: seq<Event>, pace: Interval, n: nat,
      start: Instant, rtt: Interval)
    requires Sound(w) && Runs(w, es) && w.c.inflight > 0 && SilentRun(w, es, pace) && Halves(w.c.config.halving)
    requires w.c.epoch == Some(Epoch(start, rtt)) && WithinReach(start, rtt, pace, n) && Pacing.Owing(w.c.pacer, w.now)
    requires Within(es, start, Mark(start, rtt, n + 1)) && Pacing.AllFit(Trace(w, es), Mark(start, rtt, n + 1))
    ensures Mark(start, rtt, n + 1) == start + rtt * (n + 1)
    ensures 2 * (pace * (DispatchesIn(w, es) - (n + 1))) <= 6 * rtt + RunRateChanges(w, es)
  {
    hide *;
    MarkInClosedForm(start, rtt, n + 1);
    ExposureInTime(w, es, pace, n, start, rtt);
    TimeBudgetPlusRest(rtt as real, n);
    SharesArePositive(rtt as real, n);
  }

  // ---- Silence that a dispatch opens ----------------------------------------

  /** A dispatch that leaves the controller with this epoch and a rate of at
      most one request every `pace` nanoseconds, and a silent run after it. */
  ghost predicate Opened(v: World, first: Event, es: seq<Event>, pace: Interval, rtt: Interval)
    requires Sound(v) && Allowed(v, first)
  {
    NextIsSound(v, first);
    var w := Next(v, first);
    && Dispatching(v, first) && w.c.epoch == Some(Epoch(first.at, rtt))
    && ProbedRate(w.c) * pace as real <= 1.0
    && w.c.inflight > 0 && Runs(w, es) && SilentRun(w, es, pace) && Halves(w.c.config.halving)
  }

  /** Every dispatch of an idle endpoint opens an epoch with the RTT it expects. */
  lemma IdleDispatchOpens(v: World, first: Event)
    requires Sound(v) && Allowed(v, first) && Dispatching(v, first) && v.c.inflight == 0
    ensures var c := Next(v, first).c;
      c.inflight == 1 && c.epoch == Some(Epoch(first.at, Latency.ExpectedRtt(c.latency)))
  {
    hide Step, Healthy;
    AllowedIsPermitted(v, first);
    StepKeeps(v.c, first.op, first.at);
  }

  /** The dispatch leaves the pacer spaced by at least the pace. */
  lemma OpeningIsSpaced(v: World, first: Event, es: seq<Event>, pace: Interval, rtt: Interval)
    requires Sound(v) && Allowed(v, first) && Opened(v, first, es, pace, rtt) && 2 * pace <= DURATION_MAX
    ensures Next(v, first).c.pacer.interval >= pace
  {
    hide Step, IntervalAt, ProbedRate, Halves, SilentRun, Runs, SetInterval, Touches;
    AllowedIsPermitted(v, first);
    StepPaces(v.c, first.op, first.at);
    SpacingAtLeastPace(Next(v, first).c, first.at, pace);
  }

  lemma OpeningIsSilent(v: World, first: Event, es: seq<Event>, pace: Interval, rtt: Interval)
    requires Sound(v) && Allowed(v, first) && Opened(v, first, es, pace, rtt)
    ensures Dispatching(v, first)
    ensures var w := Next(v, first);
      && w.now == first.at && w.c.epoch == Some(Epoch(first.at, rtt))
      && Sound(w) && Runs(w, es) && w.c.inflight > 0 && SilentRun(w, es, pace) && Halves(w.c.config.halving)
  {
    NextIsSound(v, first);
    hide Sound, Allowed, Next, Halves;
  }

  lemma OpeningOwes(v: World, first: Event)
    requires Sound(v) && Allowed(v, first) && Dispatching(v, first)
    ensures var w := Next(v, first);
      Pacing.Owing(w.c.pacer, w.now)
  {
    hide Step, SetInterval, Sound;
    DispatchCommits(v, first);
  }

  /** The first RTT, counting the dispatch that opens it. */
  lemma OpenedWindow(v: World, first: Event, es: seq<Event>, pace: Interval, rtt: Interval)
    requires Sound(v) && Allowed(v, first) && Opened(v, first, es, pace, rtt) && Sound(Next(v, first))
    requires Within(es, first.at, first.at + rtt)
    requires 2 * pace <= DURATION_MAX && first.at + rtt + pace <= MAX_INSTANT
    ensures var w := Next(v, first);
      1 + DispatchesIn(w, es) <= 1 + RunSpeedups(w, es) + rtt / pace
  {
    hide Opened, Halves, SilentRun, Runs, Trace, Dispatching, Sound, Next, Pacing.SpacedBy;
    var w := Next(v, first);
    OpeningIsSilent(v, first, es, pace, rtt);
    OpeningIsSpaced(v, first, es, pace, rtt);
    SilentTraceIsSpaced(w, es, pace, pace, 0, first.at, first.at + rtt);
    WindowFromDispatch(v, first, es, pace, first.at + rtt - 1);
    Arithmetic.QuotientOrder(rtt - 1, rtt, pace);
  }

  lemma {:induction false} OpenedWithinBudget(v: World, first: Event, es: seq<Event>, pace: Interval, n: nat,
      rtt: Interval)
    requires Sound(v) && Allowed(v, first) && Opened(v, first, es, pace, rtt) && Sound(Next(v, first))
    requires WithinReach(first.at, rtt, pace, n) && Within(es, first.at, Mark(first.at, rtt, n + 1))
    ensures var w := Next(v, first);
      1 + DispatchesIn(w, es) <= n + 1 + RunSpeedups(w, es) + SilentBudget(rtt, pace, n)
    decreases n
  {
    hide Halves, SilentRun, Runs, RunSpeedups, DispatchesIn, Sound, After, Within, Trace, Next, Dispatching, ProbedRate;
    var w, start := Next(v, first), first.at;
    if n == 0 {
      assert Mark(start, rtt, 1) == start + rtt;
      OpenedWindow(v, first, es, pace, rtt);
    } else {
      var i := CutAt(w, es, start, Mark(start, rtt, n), Mark(start, rtt, n + 1));
      SplitRun(w, es, i);
      SplitSilentRun(w, es, i, pace);
      OpenedWithinBudget(v, first, es[..i], pace, n - 1, rtt);
      LastWindow(After(w, es[..i]), es[i..], pace, n, start, rtt);
    }
  }

  lemma OpeningStaysInStep(v: World, first: Event)
    requires Sound(v) && Allowed(v, first) && InStep(v.c, v.now)
    ensures var w := Next(v, first);
      w.now == first.at && InStep(w.c, w.now)
  {
    hide Step, InStep;
    AllowedIsPermitted(v, first);
    StepStaysInStep(v.c, first.op, v.now, first.at);
  }

  /** An endpoint that stops answering from a dispatch on that opens its silence
      receives, this dispatch included, at most n + 1 requests, one per boost,
      and three RTTs' worth at the pace, in the first n + 1 expected RTTs. */
  lemma {:induction false} OpenedExposure(v: World, first: Event, es: seq<Event>, pace: Interval, n: nat, rtt: Interval)
    requires Sound(v) && Allowed(v, first) && Opened(v, first, es, pace, rtt) && Sound(Next(v, first))
    requires InStep(v.c, v.now)
    requires WithinReach(first.at, rtt, pace, n) && Within(es, first.at, Mark(first.at, rtt, n + 1))
    ensures Mark(first.at, rtt, n + 1) == first.at + rtt * (n + 1)
    ensures var w := Next(v, first);
      1 + DispatchesIn(w, es) <= n + 1 + RunBoosts(w, es) + 3 * (rtt / pace)
  {
    hide *;
    OpeningIsSilent(v, first, es, pace, rtt);
    MarkInClosedForm(first.at, rtt, n + 1);
    OpenedWithinBudget(v, first, es, pace, n, rtt);
    OpeningStaysInStep(v, first);
    SpeedupsAreProbes(Next(v, first), es, pace);
    BudgetPlusRest(rtt, pace, n);
  }

  /** The same with the boosts counted by the clock. */
  lemma OpenedExposureByTheClock(v: World, first: Event, es: seq<Event>, pace: Interval, n: nat, rtt: Interval)
    requires Sound(v) && Allowed(v, first) && Opened(v, first, es, pace, rtt) && Sound(Next(v, first))
    requires InStep(v.c, v.now)
    requires WithinReach(first.at, rtt, pace, n) && Within(es, first.at, Mark(first.at, rtt, n + 1))
    requires After(Next(v, first), es).now + Probe.SECOND <= MAX_INSTANT
    ensures var w := Next(v, first);
      && After(w, es).now >= first.at
      && 1 + DispatchesIn(w, es) <= n + 3 + (After(w, es).now - first.at) / Probe.SECOND + 3 * (rtt / pace)
  {
    hide Sound, Runs, SilentRun, Halves, InStep, DispatchesIn, RunBoosts, After, Within, WithinReach, Mark, Next,
         Dispatching, ProbedRate;
    OpenedExposure(v, first, es, pace, n, rtt);
    OpeningStaysInStep(v, first);
    BoostsAreRare(Next(v, first), es, After(Next(v, first), es).now);
  }

  /** The first RTT by rounding, counting the dispatch that opens it. */
  lemma OpenedWindowByRounding(v: World, first: Event, es: seq<Event>, pace: Interval, rtt: Interval)
    requires Sound(v) && Allowed(v, first) && Opened(v, first, es, pace, rtt) && Sound(Next(v, first))
    requires Within(es, first.at, first.at + rtt) && 2 * pace <= DURATION_MAX && first.at + rtt <= MAX_INSTANT
    requires var w := Next(v, first);
      Pacing.Fits(w.c.pacer, Trace(w, es), first.at + rtt)
    ensures var w := Next(v, first);
      2 * (pace * DispatchesIn(w, es)) <= 2 * rtt + RunRateChanges(w, es)
  {
    hide Halves, SilentRun, Runs, Trace, Dispatching, ProbedRate, Pacing.Fits;
    var w := Next(v, first);
    OpeningIsSpaced(v, first, es, pace, rtt);
    SilentTraceIsSpaced(w, es, pace, pace, 0, first.at, first.at + rtt);
    WindowAfterDispatch(v, first, es, pace, first.at + rtt);
  }

  lemma {:induction false} OpenedInTime(v: World, first: Event, es: seq<Event>, pace: Interval, n: nat, rtt: Interval)
    requires Sound(v) && Allowed(v, first) && Opened(v, first, es, pace, rtt) && Sound(Next(v, first))
    requires WithinReach(first.at, rtt, pace, n) && Within(es, first.at, Mark(first.at, rtt, n + 1))
    requires var w := Next(v, first);
      Pacing.Fits(w.c.pacer, Trace(w, es), Mark(first.at, rtt, n + 1))
    ensures var w := Next(v, first);
      2.0 * (pace * (1 + DispatchesIn(w, es) - (n + 1))) as real
      <= 2.0 * TimeBudget(rtt as real, n) + RunRateChanges(w, es) as real
    decreases n
  {
    hide Halves, SilentRun, Runs, RunRateChanges, DispatchesIn, Sound, After, Within, Trace, Next, Dispatching,
         ProbedRate, Pacing.Owing, Pacing.AllFit;
    var w, start := Next(v, first), first.at;
    if n == 0 {
      assert Mark(start, rtt, 1) == start + rtt;
      OpenedWindowByRounding(v, first, es, pace, rtt);
    } else {
      var i := CutAt(w, es, start, Mark(start, rtt, n), Mark(start, rtt, n + 1));
      SplitRun(w, es, i);
      SplitSilentRun(w, es, i, pace);
      var u := After(w, es[..i]);
      EarlierMark(start, rtt, n);
      PartsFit(Trace(w, es[..i]), Trace(u, es[i..]), Mark(start, rtt, n), Mark(start, rtt, n + 1));
      OpeningOwes(v, first);
      RunsOwe(w, es[..i]);
      OpenedInTime(v, first, es[..i], pace, n - 1, rtt);
      LastWindowByRounding(u, es[i..], pace, n, start, rtt);
      SumOfParts(pace, n, 1 + DispatchesIn(w, es[..i]), DispatchesIn(u, es[i..]));
    }
  }

  /** Whatever the probes do: beyond the first n + 1 requests, the opening one
      included, each costs a whole pace out of three RTTs, but for half a
      nanosecond lost to rounding at each rate change. */
  lemma {:induction false} OpenedExposureByRounding(v: World, first: Event, es: seq<Event>, pace: Interval, n: nat,
      rtt: Interval)
    requires Sound(v) && Allowed(v, first) && Opened(v, first, es, pace, rtt) && Sound(Next(v, first))
    requires WithinReach(first.at, rtt, pace, n) && Within(es, first.at, Mark(first.at, rtt, n + 1))
    requires var w := Next(v, first);
      Pacing.Fits(w.c.pacer, Trace(w, es), Mark(first.at, rtt, n + 1))
    ensures Mark(first.at, rtt, n + 1) == first.at + rtt * (n + 1)
    ensures var w := Next(v, first);
      2 * (pace * (1 + DispatchesIn(w, es) - (n + 1))) <= 6 * rtt + RunRateChanges(w, es)
  {
    hide *;
    OpeningIsSilent(v, first, es, pace, rtt);
    MarkInClosedForm(first.at, rtt, n + 1);
    OpenedInTime(v, first, es, pace, n, rtt);
    TimeBudgetPlusRest(rtt as real, n);
    SharesArePositive(rtt as real, n);
  }
}
