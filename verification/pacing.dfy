/** What any history of rate changes and dispatches does to a pacer. */
module Pacing {
  import opened Clock
  import opened Gcra
  import Arithmetic

  datatype PacerEvent =
    | Retime(interval: Interval, at: Instant)
    | Admit(at: Instant)

  function Apply(p: Pacer, e: PacerEvent): Pacer {
    match e
    case Retime(interval, at) => SetInterval(p, interval, at)
    case Admit(at) => Committed(p, at)
  }

  function After(p: Pacer, es: seq<PacerEvent>): Pacer
    decreases |es|
  {
    if es == [] then p else After(Apply(p, es[0]), es[1..])
  }

  /** Time never runs backward and nothing is admitted before its slot. */
  predicate Legal(p: Pacer, since: Instant, es: seq<PacerEvent>)
    decreases |es|
  {
    es != [] ==>
      && since <= es[0].at
      && (es[0].Admit? ==> p.tat <= es[0].at)
      && Legal(Apply(p, es[0]), es[0].at, es[1..])
  }

  function Admissions(es: seq<PacerEvent>): nat {
    if es == [] then 0 else (if es[0].Admit? then 1 else 0) + Admissions(es[1..])
  }

  /** How often the spacing shrank. */
  function Speedups(p: Pacer, es: seq<PacerEvent>): nat
    decreases |es|
  {
    if es == [] then 0
    else (if es[0].Retime? && es[0].interval < p.interval then 1 else 0) + Speedups(Apply(p, es[0]), es[1..])
  }

  predicate SpacedBy(m: Interval, es: seq<PacerEvent>) {
    forall i :: 0 <= i < |es| && es[i].Retime? ==> es[i].interval >= m
  }

  predicate EndsBy(end: Instant, es: seq<PacerEvent>) {
    forall i :: 0 <= i < |es| ==> es[i].at <= end
  }

  function AtMost(d: nat, m: nat): nat {
    if d < m then d else m
  }

  /** One event: waiting pays, an admission costs `m`, a speed-up forgives `m`. */
  lemma {:induction false} EventBudget(p: Pacer, since: Instant, e: PacerEvent, m: Interval)
    requires since <= e.at && e.at + m <= MAX_INSTANT && p.interval >= m
    requires e.Retime? ==> e.interval >= m
    requires e.Admit? ==> p.tat <= e.at
    ensures var left := AtMost(Since(Apply(p, e).tat, e.at), m) + e.at - since;
      var before := AtMost(Since(p.tat, since), m);
      match e
      case Admit(_) => left >= before + m
      case Retime(interval, _) => (if interval < p.interval then left + m else left) >= before
  {
    if e.Retime? && e.interval >= p.interval {
      SlowingKeepsWait(p, e.interval, e.at);
    }
  }

  /** While every spacing is at least `m`, each admission costs `m`
      nanoseconds. A speed-up may forgive at most one of them; polling, however
      often, forgives nothing. */
  lemma {:induction false} AdmissionBudget(p: Pacer, since: Instant, es: seq<PacerEvent>, m: Interval, end: Instant)
    requires Legal(p, since, es) && since <= end && EndsBy(end, es)
    requires p.interval >= m && SpacedBy(m, es)
    requires end + m <= MAX_INSTANT
    ensures m * Admissions(es) + AtMost(Since(p.tat, since), m) <= end - since + m * Speedups(p, es) + m
    decreases |es|
  {
    if es == [] {
    } else {
      var e, q, rest := es[0], Apply(p, es[0]), es[1..];
      assert e.at <= end && SpacedBy(m, rest) && EndsBy(end, rest);
      assert e.Retime? ==> e.interval >= m;
      EventBudget(p, since, e, m);
      AdmissionBudget(q, e.at, rest, m, end);
      Arithmetic.Distribute(m, Speedups(q, rest));
      Arithmetic.Distribute(m, Admissions(rest));
    }
  }

  /** A window that opens with an admission and in which the spacing never
      drops below `m` holds at most 1 + speed-ups + length/m admissions. */
  lemma {:induction false} WindowBound(p: Pacer, start: Instant, es: seq<PacerEvent>, m: Interval, end: Instant)
    requires p.tat <= start <= end && end + m <= MAX_INSTANT
    requires p.interval >= m && SpacedBy(m, es)
    requires Legal(Committed(p, start), start, es) && EndsBy(end, es)
    ensures 1 + Admissions(es) <= 1 + Speedups(Committed(p, start), es) + (end - start) / m
  {
    var q := Committed(p, start);
    AdmissionBudget(q, start, es, m, end);
    Arithmetic.PerUnit(m, Admissions(es), Speedups(q, es), end - start);
  }

  predicate Constant(interval: Interval, es: seq<PacerEvent>) {
    forall i :: 0 <= i < |es| && es[i].Retime? ==> es[i].interval == interval
  }

  lemma {:induction false} ConstantNeverSpeedsUp(p: Pacer, es: seq<PacerEvent>)
    requires Constant(p.interval, es)
    ensures Speedups(p, es) == 0
    decreases |es|
  {
    if es == [] {
    } else {
      assert es[0].Retime? ==> es[0].interval == p.interval;
      assert Constant(p.interval, es[1..]);
      ConstantNeverSpeedsUp(Apply(p, es[0]), es[1..]);
    }
  }

  /** At a constant rate a window of length w holds at most 1 + w/interval. */
  lemma {:induction false} ConstantRateWindow(p: Pacer, start: Instant, es: seq<PacerEvent>, end: Instant)
    requires p.tat <= start <= end && end + p.interval <= MAX_INSTANT
    requires Constant(p.interval, es)
    requires Legal(Committed(p, start), start, es) && EndsBy(end, es)
    ensures 1 + Admissions(es) <= 1 + (end - start) / p.interval
  {
    ConstantNeverSpeedsUp(Committed(p, start), es);
    WindowBound(p, start, es, p.interval, end);
  }

  /** `n` admissions, each as soon as the pacer grants it. */
  function Prompt(p: Pacer, now: Instant, n: nat): seq<PacerEvent>
    decreases n
  {
    if n == 0 then []
    else
      var at := NextAt(p, now);
      [Admit(at)] + Prompt(Committed(p, at), at, n - 1)
  }

  lemma {:induction false} PromptNeverRetimes(p: Pacer, now: Instant, n: nat)
    ensures forall i :: 0 <= i < |Prompt(p, now, n)| ==> Prompt(p, now, n)[i].Admit?
    decreases n
  {
    if n == 0 {
    } else {
      PromptNeverRetimes(Committed(p, NextAt(p, now)), NextAt(p, now), n - 1);
    }
  }

  /** The pacer grants what the bound allows: a spacing after an admission it is
      due again, so a window can hold one admission for every spacing in it. */
  lemma {:induction false} PromptAdmissions(p: Pacer, now: Instant, n: nat)
    requires p.tat >= now && p.tat + p.interval * n <= MAX_INSTANT
    ensures var es := Prompt(p, now, n);
      && Legal(p, now, es) && Admissions(es) == n
      && After(p, es) == Pacer(p.interval, p.tat + p.interval * n)
      && (n > 0 ==> EndsBy(p.tat + p.interval * (n - 1), es))
    decreases n
  {
    if n == 0 {
    } else {
      Arithmetic.Distribute(p.interval, n - 1);
      var q := Committed(p, p.tat);
      PromptAdmissions(q, p.tat, n - 1);
      if n > 1 {
        Arithmetic.Distribute(p.interval, n - 2);
      }
    }
  }

  lemma PromptIsConstant(p: Pacer, now: Instant, n: nat, interval: Interval)
    ensures Constant(interval, Prompt(p, now, n))
  {
    PromptNeverRetimes(p, now, n);
  }

  lemma PromptNothing(p: Pacer, now: Instant)
    ensures Prompt(p, now, 0) == []
  {}

  /** The constant-rate bound is attained: a window of `n` spacings that opens
      with an admission can hold `n` more of them. */
  lemma BoundIsAttained(p: Pacer, start: Instant, n: nat)
    requires p.tat <= start && start + p.interval + p.interval * n <= MAX_INSTANT
    ensures var q := Committed(p, start);
      var es := Prompt(q, start, n);
      && Legal(q, start, es) && EndsBy(start + p.interval * n, es) && Constant(p.interval, es)
      && Admissions(es) == n
  {
    hide Legal, Admissions, Constant, Prompt, After;
    var q := Committed(p, start);
    PromptAdmissions(q, start, n);
    PromptIsConstant(q, start, n, p.interval);
    if n > 0 {
      Arithmetic.Distribute(p.interval, n - 1);
    } else {
      assert Prompt(q, start, 0) == [] by {
        PromptNothing(q, start);
      }
    }
  }

  /** Time measured in spacings: every stretch counts by the spacing in force. */
  function Elapsed(p: Pacer, since: Instant, es: seq<PacerEvent>, end: Instant): real
    requires since <= end && Legal(p, since, es) && EndsBy(end, es)
    decreases |es|
  {
    if es == [] then (end - since) as real / p.interval as real
    else
      assert EndsBy(end, es[1..]);
      (es[0].at - since) as real / p.interval as real + Elapsed(Apply(p, es[0]), es[0].at, es[1..], end)
  }

  /** Half a nanosecond of the new spacing for every actual rate change. */
  function Slack(p: Pacer, es: seq<PacerEvent>): real
    decreases |es|
  {
    if es == [] then 0.0
    else
      (if es[0].Retime? && es[0].interval != p.interval then 0.5 / es[0].interval as real else 0.0)
      + Slack(Apply(p, es[0]), es[1..])
  }

  predicate AllFit(es: seq<PacerEvent>, end: int) {
    forall i :: 0 <= i < |es| && es[i].Retime? ==> end + es[i].interval <= MAX_INSTANT
  }

  /** Every spacing adopted still fits before the end of the clock. */
  predicate Fits(p: Pacer, es: seq<PacerEvent>, end: Instant) {
    end + p.interval <= MAX_INSTANT && AllFit(es, end)
  }

  /** At most one spacing is ever owed. */
  predicate Owing(p: Pacer, now: Instant) {
    Since(p.tat, now) <= p.interval
  }

  lemma QuotientAtMostOne(a: real, b: real)
    requires 0.0 <= a <= b && b > 0.0
    ensures 0.0 <= a / b <= 1.0
  {}

  lemma PhaseAtMostOne(p: Pacer, now: Instant)
    requires Owing(p, now)
    ensures 0.0 <= Phase(p, now) <= 1.0
  {
    QuotientAtMostOne(Since(p.tat, now) as real, p.interval as real);
  }

  lemma WaitAtMost(phase: real, interval: Interval)
    requires phase * interval as real <= interval as real
    ensures Wait(phase, interval) <= interval
  {
    FromNanosIsMonotone(phase * interval as real, interval as real);
    FromNanosKeepsWholes(interval);
  }

  lemma WaitWithinSpacing(phase: real, interval: Interval)
    requires 0.0 <= phase <= 1.0
    ensures 0.0 <= phase * interval as real <= interval as real
    ensures Wait(phase, interval) <= interval
  {
    Arithmetic.ShareOf(interval as real, phase);
    WaitAtMost(phase, interval);
  }

  /** Rounding a rescaled phase never makes it exceed one whole spacing. */
  lemma RetimingOwes(p: Pacer, interval: Interval, now: Instant)
    requires Owing(p, now)
    ensures Owing(SetInterval(p, interval, now), now)
    ensures now + interval <= MAX_INSTANT ==> Exact(p, interval, now)
  {
    hide Wait, Phase;
    PhaseAtMostOne(p, now);
    WaitWithinSpacing(Phase(p, now), interval);
    assert Phase(p, now) * interval as real <= DURATION_MAX as real;
  }

  lemma {:induction false} EventOwes(p: Pacer, since: Instant, e: PacerEvent)
    requires Owing(p, since) && since <= e.at && (e.Admit? ==> p.tat <= e.at)
    ensures Owing(Apply(p, e), e.at)
    ensures e.Retime? && e.at + e.interval <= MAX_INSTANT ==> Exact(p, e.interval, e.at)
  {
    hide SetInterval, Exact;
    if e.Retime? {
      RetimingOwes(p, e.interval, e.at);
    }
  }

  /** Whatever the rates, never more than one whole spacing is owed. */
  lemma {:induction false} HistoryOwes(p: Pacer, since: Instant, es: seq<PacerEvent>, end: Instant)
    requires Legal(p, since, es) && since <= end && EndsBy(end, es) && Owing(p, since)
    ensures Owing(After(p, es), end)
    decreases |es|
  {
    hide SetInterval;
    if es == [] {
    } else {
      EventOwes(p, since, es[0]);
      HistoryOwes(Apply(p, es[0]), es[0].at, es[1..], end);
    }
  }

  lemma {:induction false} PhaseFalls(p: Pacer, since: Instant, at: Instant)
    requires since <= at
    ensures Phase(p, at) >= Phase(p, since) - (at - since) as real / p.interval as real
    ensures p.tat <= at ==> Phase(p, at) == 0.0
  {
    var i := p.interval as real;
    var before, gone, left := Since(p.tat, since), at - since, Since(p.tat, at);
    Arithmetic.DivideSum(before as real, gone as real, i);
    Arithmetic.DivideOrder(before as real - gone as real, left as real, i);
  }

  /** Whatever the rate does on the way, the phase is worked off in full, up to
      the rounding of the changes. */
  lemma {:induction false} PhaseIsWorkedOff(p: Pacer, since: Instant, es: seq<PacerEvent>, end: Instant)
    requires since <= end && Legal(p, since, es) && EndsBy(end, es) && Fits(p, es, end) && Owing(p, since)
    requires Admissions(es) == 0 && After(p, es).tat <= end
    ensures Elapsed(p, since, es, end) + Slack(p, es) >= Phase(p, since)
    decreases |es|
  {
    if es == [] {
      PhaseFalls(p, since, end);
    } else {
      var e := es[0];
      assert EndsBy(end, es[1..]) && Fits(Apply(p, e), es[1..], end);
      PhaseFalls(p, since, e.at);
      EventOwes(p, since, e);
      RateChangeKeepsPhase(p, e.interval, e.at);
      PhaseIsWorkedOff(Apply(p, e), e.at, es[1..], end);
    }
  }

  /** Between two consecutive dispatches, at `start` and at `end`, at least one
      whole spacing elapses. */
  lemma {:induction false} PacingAcrossRateChanges(p: Pacer, start: Instant, es: seq<PacerEvent>, end: Instant)
    requires p.tat <= start <= end
    requires Legal(Committed(p, start), start, es) && EndsBy(end, es) && Fits(p, es, end)
    requires Admissions(es) == 0 && After(Committed(p, start), es).tat <= end
    ensures Elapsed(Committed(p, start), start, es, end) + Slack(Committed(p, start), es) >= 1.0
  {
    var q := Committed(p, start);
    Arithmetic.MultiplyDivide(1.0, p.interval as real);
    PhaseIsWorkedOff(q, start, es, end);
  }

  function RateChanges(p: Pacer, es: seq<PacerEvent>): nat
    decreases |es|
  {
    if es == [] then 0
    else (if es[0].Retime? && es[0].interval != p.interval then 1 else 0) + RateChanges(Apply(p, es[0]), es[1..])
  }

  /** The phase counted in nanoseconds of the smallest spacing. */
  function Debt(p: Pacer, now: Instant, m: Interval): real {
    m as real * Phase(p, now)
  }

  lemma DebtFalls(m: real, before: real, after: real, gone: real, i: real)
    requires 0.0 < m <= i && gone >= 0.0 && after >= before - gone / i
    ensures m * after >= m * before - gone
  {
    Arithmetic.ScaledDown(gone, i, m);
    Arithmetic.MultiplyOrder(before - gone / i, after, m);
    assert m * (before - gone / i) == m * before - m * (gone / i);
  }

  lemma WaitingPays(p: Pacer, since: Instant, at: Instant, m: Interval)
    requires since <= at && p.interval >= m
    ensures Debt(p, at, m) + (at - since) as real >= Debt(p, since, m)
  {
    hide Phase;
    PhaseFalls(p, since, at);
    DebtFalls(m as real, Phase(p, since), Phase(p, at), (at - since) as real, p.interval as real);
  }

  lemma AdmissionCosts(p: Pacer, at: Instant, m: Interval)
    requires p.tat <= at && at + p.interval <= MAX_INSTANT
    ensures Debt(p, at, m) == 0.0 && Debt(Committed(p, at), at, m) == m as real
  {
    PhaseFalls(p, at, at);
    Arithmetic.MultiplyDivide(1.0, p.interval as real);
    assert Phase(Committed(p, at), at) == 1.0;
  }

  lemma RoundingCosts(p: Pacer, interval: Interval, at: Instant, m: Interval)
    requires Exact(p, interval, at) && interval >= m
    ensures var lost := if interval != p.interval then 0.5 else 0.0;
      Debt(SetInterval(p, interval, at), at, m) + lost >= Debt(p, at, m)
  {
    hide Phase, Exact;
    if interval != p.interval {
      RateChangeKeepsPhase(p, interval, at);
      var q := SetInterval(p, interval, at);
      DebtFalls(m as real, Phase(p, at), Phase(q, at), 0.5, interval as real);
    }
  }

  /** One event: waiting pays its length, an admission costs `m`, and the
      rounding of a rate change costs at most half a nanosecond. */
  lemma {:induction false} EventDebt(p: Pacer, since: Instant, e: PacerEvent, m: Interval)
    requires Owing(p, since) && since <= e.at && p.interval >= m && e.at + p.interval <= MAX_INSTANT
    requires e.Retime? ==> e.interval >= m && e.at + e.interval <= MAX_INSTANT
    requires e.Admit? ==> p.tat <= e.at
    ensures var left := Debt(Apply(p, e), e.at, m) + (e.at - since) as real;
      match e
      case Admit(_) => left >= Debt(p, since, m) + m as real
      case Retime(interval, _) => left + (if interval != p.interval then 0.5 else 0.0) >= Debt(p, since, m)
  {
    hide Debt, Exact, SetInterval;
    WaitingPays(p, since, e.at, m);
    match e
    case Admit(at) =>
      AdmissionCosts(p, at, m);
    case Retime(interval, at) =>
      EventOwes(p, since, e);
      RoundingCosts(p, interval, at, m);
  }

  lemma DebtAtMost(p: Pacer, now: Instant, m: Interval)
    requires Owing(p, now)
    ensures Debt(p, now, m) <= m as real
  {
    hide Phase;
    PhaseAtMostOne(p, now);
    Arithmetic.MultiplyOrder(Phase(p, now), 1.0, m as real);
  }

  lemma {:induction false} RoundingBudget(p: Pacer, since: Instant, es: seq<PacerEvent>, m: Interval, end: Instant)
    requires Legal(p, since, es) && since <= end && EndsBy(end, es) && Fits(p, es, end) && Owing(p, since)
    requires p.interval >= m && SpacedBy(m, es)
    ensures (m * Admissions(es)) as real + Debt(p, since, m)
            <= (end - since + m) as real + 0.5 * RateChanges(p, es) as real
    decreases |es|
  {
    hide Debt, Exact;
    if es == [] {
      DebtAtMost(p, since, m);
    } else {
      var e, q, rest := es[0], Apply(p, es[0]), es[1..];
      assert e.at <= end && SpacedBy(m, rest) && EndsBy(end, rest) && Fits(q, rest, end);
      EventOwes(p, since, e);
      EventDebt(p, since, e, m);
      RoundingBudget(q, e.at, rest, m, end);
      Arithmetic.Distribute(m, Admissions(rest));
    }
  }

  lemma DebtAtLeastNothing(p: Pacer, now: Instant, m: Interval)
    requires Owing(p, now)
    ensures Debt(p, now, m) >= 0.0
  {
    hide Phase;
    PhaseAtMostOne(p, now);
    Arithmetic.MultiplyOrder(0.0, Phase(p, now), m as real);
  }

  /** The budget without the initial debt, in whole nanoseconds. */
  lemma RoundingAllowance(p: Pacer, since: Instant, es: seq<PacerEvent>, m: Interval, end: Instant)
    requires Legal(p, since, es) && since <= end && EndsBy(end, es) && Fits(p, es, end) && Owing(p, since)
    requires p.interval >= m && SpacedBy(m, es)
    ensures 2 * (m * Admissions(es)) <= 2 * (end - since) + 2 * m + RateChanges(p, es)
  {
    hide Debt;
    RoundingBudget(p, since, es, m, end);
    DebtAtLeastNothing(p, since, m);
  }

  /** Across arbitrary rate changes, a window of length w that opens with an
      admission and in which the spacing never drops below `m` holds at most
      1 + (w + changes / 2) / m admissions. */
  lemma {:induction false} WindowAcrossRateChanges(p: Pacer, start: Instant, es: seq<PacerEvent>, m: Interval,
      end: Instant)
    requires p.tat <= start <= end && p.interval >= m && SpacedBy(m, es)
    requires Legal(Committed(p, start), start, es) && EndsBy(end, es) && Fits(p, es, end)
    ensures 2 * (m * Admissions(es)) <= 2 * (end - start) + RateChanges(Committed(p, start), es)
  {
    var q := Committed(p, start);
    Arithmetic.MultiplyDivide(1.0, p.interval as real);
    assert Debt(q, start, m) == m as real;
    RoundingBudget(q, start, es, m, end);
  }

  /** Both counts add up over the parts of a history. */
  lemma {:induction false} CountsAdd(p: Pacer, es: seq<PacerEvent>, fs: seq<PacerEvent>)
    ensures Speedups(p, es + fs) == Speedups(p, es) + Speedups(After(p, es), fs)
    ensures RateChanges(p, es + fs) == RateChanges(p, es) + RateChanges(After(p, es), fs)
    decreases |es|
  {
    if es == [] {
      assert es + fs == fs;
    } else {
      assert (es + fs)[0] == es[0] && (es + fs)[1..] == es[1..] + fs;
      CountsAdd(Apply(p, es[0]), es[1..], fs);
    }
  }

  lemma WitnessWaits(x: real, y: real, z: real)
    requires x == 0.4 && y == 3.0 / 11.0 && z == 0.25
    ensures Wait(x, 11) == 4 && Wait(y, 12) == 3 && Wait(z, 10) == 2
  {}

  lemma WitnessRetimings()
    requires MAX_INSTANT >= 30
    ensures SetInterval(Pacer(10, 10), 11, 6) == Pacer(11, 10)
    ensures SetInterval(Pacer(11, 10), 12, 7) == Pacer(12, 10)
    ensures SetInterval(Pacer(12, 10), 10, 7) == Pacer(10, 9)
  {
    WitnessWaits(0.4, 3.0 / 11.0, 0.25);
    assert Phase(Pacer(10, 10), 6) == 0.4 && Phase(Pacer(11, 10), 7) == 3.0 / 11.0 && Phase(Pacer(12, 10), 7) == 0.25;
    hide Wait, Phase;
  }

  /** The allowance for rounding is needed: two slow-downs whose waits round
      down, then a speed-up, let two admissions lie 9 apart although every
      spacing is at least 10. */
  lemma RoundingForgives()
    requires MAX_INSTANT >= 30
    ensures var p, es := Pacer(10, 0), [Retime(11, 6), Retime(12, 7), Retime(10, 7), Admit(9)];
      && p.tat <= 0 && p.interval >= 10 && SpacedBy(10, es) && Legal(Committed(p, 0), 0, es) && EndsBy(9, es)
      && 1 + Admissions(es) > 1 + 9 / 10
  {
    hide SetInterval;
    WitnessRetimings();
    var q, es := Pacer(10, 10), [Retime(11, 6), Retime(12, 7), Retime(10, 7), Admit(9)];
    assert es[1..] == [Retime(12, 7), Retime(10, 7), Admit(9)];
    assert es[1..][1..] == [Retime(10, 7), Admit(9)];
    assert es[1..][1..][1..] == [Admit(9)] && es[1..][1..][1..][1..] == [];
    assert Legal(Pacer(10, 9), 7, [Admit(9)]);
    assert Legal(Pacer(12, 10), 7, es[1..][1..]);
    assert Legal(Pacer(11, 10), 6, es[1..]);
    assert Admissions([Admit(9)]) == 1 && Admissions(es[1..][1..]) == 1 && Admissions(es[1..]) == 1;
  }
}
