/** The fractional operating point: a clamped, time-gated control law. */
module Gradient {
  import opened Clock

  datatype Tuning = Tuning(
    initial: real, min: real, max: real, tolerance: Duration,
    gain: real, smoothing: real, updateInterval: Duration, failureFactor: real)
  {
    predicate Valid() {
      && 0.0 < min <= initial <= max
      && gain > 0.0
      && 0.0 < smoothing <= 1.0
      && updateInterval > 0
      && 0.0 < failureFactor <= 1.0
    }
  }

  datatype Control = Control(
    tuning: Tuning, concurrency: real, lastGradient: real, updates: nat, nextUpdate: Option<Instant>)
  {
    predicate Valid() {
      tuning.Valid() && tuning.min <= concurrency <= tuning.max
    }
  }

  function Initial(t: Tuning): Control {
    Control(t, t.initial, 1.0, 0, None)
  }

  function Clamp(x: real, lo: real, hi: real): real {
    if x < lo then lo else if x > hi then hi else x
  }

  /** A zero RTT stands for the smallest positive float, which any reference
      RTT exceeds. */
  function BoundedGradient(current: Duration, reference: Duration, tolerance: Duration): real {
    if current == 0 then 1.0
    else Clamp((reference + tolerance) as real / current as real, 0.5, 1.0)
  }

  function Smoothed(t: Tuning, concurrency: real, gradient: real): real {
    var estimate := concurrency * gradient + t.gain;
    Clamp(concurrency * (1.0 - t.smoothing) + estimate * t.smoothing, t.min, t.max)
  }

  predicate ApplicationLimited(c: Control, inflight: nat, paced: bool) {
    !paced || inflight as real < c.concurrency / 2.0
  }

  predicate Gated(c: Control, now: Instant) {
    c.nextUpdate.Some? && now < c.nextUpdate.value
  }

  function OnRtt(c: Control, current: Duration, reference: Duration, inflight: nat, paced: bool, now: Instant)
    : (r: (Control, bool))
  {
    if ApplicationLimited(c, inflight, paced) then (c, false)
    else
      var g := BoundedGradient(current, reference, c.tuning.tolerance);
      var seen := c.(lastGradient := g);
      if Gated(c, now) then (seen, false)
      else
        (seen.(concurrency := Smoothed(c.tuning, c.concurrency, g),
               updates := c.updates + 1,
               nextUpdate := Some(AddSat(now, c.tuning.updateInterval))), true)
  }

  function OnFailure(c: Control, now: Instant): Control {
    c.(concurrency := Clamp(c.concurrency * c.tuning.failureFactor, c.tuning.min, c.tuning.max),
       lastGradient := 0.0,
       updates := c.updates + 1,
       nextUpdate := Some(AddSat(now, c.tuning.updateInterval)))
  }

  class Gradient2 {
    const tuning: Tuning
    var concurrency: real
    var lastGradient: real
    var updates: nat
    var nextUpdate: Option<Instant>

    function Model(): Control
      reads this
    {
      Control(tuning, concurrency, lastGradient, updates, nextUpdate)
    }

    constructor (t: Tuning)
      requires t.Valid()
      ensures Model() == Initial(t) && Model().Valid()
    {
      tuning := t;
      concurrency, lastGradient, updates, nextUpdate := t.initial, 1.0, 0, None;
    }

    method OnRttAt(current: Duration, reference: Duration, inflight: nat, paced: bool, now: Instant)
      returns (updated: bool)
      modifies this
      ensures (Model(), updated) == OnRtt(old(Model()), current, reference, inflight, paced, now)
    {
      if !paced || inflight as real < concurrency / 2.0 {
        return false;
      }
      lastGradient := BoundedGradient(current, reference, tuning.tolerance);
      if nextUpdate.Some? && now < nextUpdate.value {
        return false;
      }
      concurrency := Smoothed(tuning, concurrency, lastGradient);
      updates := updates + 1;
      var next := SaturatingAdd(now, tuning.updateInterval);
      nextUpdate := Some(next);
      return true;
    }

    method OnFailureAt(now: Instant)
      modifies this
      ensures Model() == OnFailure(old(Model()), now)
    {
      concurrency := Clamp(concurrency * tuning.failureFactor, tuning.min, tuning.max);
      lastGradient := 0.0;
      updates := updates + 1;
      var next := SaturatingAdd(now, tuning.updateInterval);
      nextUpdate := Some(next);
    }
  }
}

/** What the control law guarantees over whole runs of feedback. */
module GradientLaws {
  import opened Clock
  import opened Gradient
  import Arithmetic

  datatype Feedback =
    | Rtt(current: Duration, reference: Duration, inflight: nat, paced: bool, at: Instant)
    | Failure(at: Instant)

  function Respond(c: Control, f: Feedback): Control {
    match f
    case Rtt(current, reference, inflight, paced, at) => OnRtt(c, current, reference, inflight, paced, at).0
    case Failure(at) => OnFailure(c, at)
  }

  function RespondAll(c: Control, fs: seq<Feedback>): Control
    decreases |fs|
  {
    if fs == [] then c else RespondAll(Respond(c, fs[0]), fs[1..])
  }

  predicate InOrder(since: Instant, fs: seq<Feedback>, end: Instant)
    decreases |fs|
  {
    if fs == [] then since <= end
    else since <= fs[0].at && InOrder(fs[0].at, fs[1..], end)
  }

  lemma {:induction false} OrderedBefore(since: Instant, fs: seq<Feedback>, end: Instant)
    requires InOrder(since, fs, end)
    ensures since <= end
    decreases |fs|
  {
    if fs == [] {
    } else {
      OrderedBefore(fs[0].at, fs[1..], end);
    }
  }

  lemma {:induction false} HealthyChange(c: real, g: real, gain: real, s: real)
    requires c >= 0.0 && 0.0 <= g <= 1.0 && 0.0 <= s
    ensures c * (1.0 - s) + (c * g + gain) * s <= c + gain * s
  {
    Arithmetic.NonNegativeProduct(c, 1.0 - g);
    Arithmetic.NonNegativeProduct(c * (1.0 - g), s);
    assert c * (1.0 - s) + (c * g + gain) * s == c + gain * s - c * (1.0 - g) * s;
  }

  lemma {:induction false} HealthyClamp(c: real, g: real, gain: real, s: real, lo: real, hi: real)
    requires 0.0 <= lo <= c <= hi && 0.0 <= g <= 1.0 && 0.0 <= s && 0.0 <= gain
    ensures lo <= Clamp(c * (1.0 - s) + (c * g + gain) * s, lo, hi) <= hi
    ensures Clamp(c * (1.0 - s) + (c * g + gain) * s, lo, hi) <= c + gain * s
  {
    HealthyChange(c, g, gain, s);
    Arithmetic.NonNegativeProduct(gain, s);
  }

  lemma {:induction false} HealthyStep(t: Tuning, c: real, g: real)
    requires t.Valid() && t.min <= c <= t.max && 0.0 <= g <= 1.0
    ensures t.min <= Smoothed(t, c, g) <= t.max
    ensures Smoothed(t, c, g) <= c + t.gain * t.smoothing
  {
    HealthyClamp(c, g, t.gain, t.smoothing, t.min, t.max);
  }

  lemma {:induction false} FailureClamp(c: real, f: real, lo: real, hi: real)
    requires 0.0 <= f <= 1.0 && 0.0 <= lo <= c <= hi
    ensures lo <= Clamp(c * f, lo, hi) <= c
  {
    Arithmetic.ShareOf(c, f);
    assert c * f == f * c;
  }

  lemma {:induction false} FailureStep(c: Control, at: Instant)
    requires c.Valid()
    ensures OnFailure(c, at).Valid() && OnFailure(c, at).concurrency <= c.concurrency
  {
    FailureClamp(c.concurrency, c.tuning.failureFactor, c.tuning.min, c.tuning.max);
  }

  lemma {:induction false} RespondKeepsBounds(c: Control, f: Feedback)
    requires c.Valid()
    ensures Respond(c, f).Valid() && Respond(c, f).tuning == c.tuning
    ensures Respond(c, f).concurrency <= c.concurrency
            || (f.Rtt? && !Gated(c, f.at) && Respond(c, f).concurrency <= c.concurrency + c.tuning.gain * c.tuning.smoothing)
  {
    match f
    case Rtt(current, reference, _, _, _) =>
      HealthyStep(c.tuning, c.concurrency, BoundedGradient(current, reference, c.tuning.tolerance));
    case Failure(at) =>
      FailureStep(c, at);
  }

  lemma {:induction false} ConcurrencyStaysInBounds(c: Control, fs: seq<Feedback>)
    requires c.Valid()
    ensures RespondAll(c, fs).Valid() && RespondAll(c, fs).tuning == c.tuning
    decreases |fs|
  {
    if fs == [] {
    } else {
      RespondKeepsBounds(c, fs[0]);
      ConcurrencyStaysInBounds(Respond(c, fs[0]), fs[1..]);
    }
  }

  /** Whether feedback leads to an update. */
  predicate Updates(c: Control, f: Feedback) {
    match f
    case Rtt(current, reference, inflight, paced, at) => OnRtt(c, current, reference, inflight, paced, at).1
    case Failure(_) => true
  }

  /** When the last update was made: during `fs`, or else at `before`. */
  function LastUpdate(c: Control, fs: seq<Feedback>, before: Option<Instant>): Option<Instant>
    decreases |fs|
  {
    if fs == [] then before
    else LastUpdate(Respond(c, fs[0]), fs[1..], if Updates(c, fs[0]) then Some(fs[0].at) else before)
  }

  /** The stored gate is one interval after the given update. */
  predicate GateAfter(c: Control, last: Option<Instant>) {
    c.nextUpdate == if last.Some? then Some(AddSat(last.value, c.tuning.updateInterval)) else None
  }

  lemma {:induction false} GateFollowsUpdates(c: Control, fs: seq<Feedback>, before: Option<Instant>)
    requires c.Valid() && GateAfter(c, before)
    ensures RespondAll(c, fs).tuning == c.tuning && GateAfter(RespondAll(c, fs), LastUpdate(c, fs, before))
    decreases |fs|
  {
    if fs == [] {
    } else {
      RespondKeepsBounds(c, fs[0]);
      GateFollowsUpdates(Respond(c, fs[0]), fs[1..], if Updates(c, fs[0]) then Some(fs[0].at) else before);
    }
  }

  lemma {:induction false} LastUpdateIsPast(c: Control, since: Instant, fs: seq<Feedback>, before: Option<Instant>,
      end: Instant)
    requires InOrder(since, fs, end) && (before.Some? ==> before.value <= since)
    ensures var last := LastUpdate(c, fs, before);
      last.Some? ==> last.value <= end
    decreases |fs|
  {
    if fs == [] {
    } else {
      LastUpdateIsPast(Respond(c, fs[0]), fs[0].at, fs[1..], if Updates(c, fs[0]) then Some(fs[0].at) else before, end);
    }
  }

  /** Whatever feedback came before, an RTT leads to an update exactly when the
      caller is not application limited and a whole update interval has passed
      since the last update, if there was any. Otherwise only the gradient
      reported for metrics may change. */
  lemma {:induction false} HealthyUpdateGate(t: Tuning, fs: seq<Feedback>, current: Duration, reference: Duration,
      inflight: nat, paced: bool, now: Instant)
    requires t.Valid()
    ensures var c, last := RespondAll(Initial(t), fs), LastUpdate(Initial(t), fs, None);
      var (d, updated) := OnRtt(c, current, reference, inflight, paced, now);
      && (updated <==> paced && c.concurrency <= 2.0 * inflight as real
                       && (last.Some? ==> now >= AddSat(last.value, t.updateInterval)))
      && (!updated ==> d == c.(lastGradient := d.lastGradient))
  {
    GateFollowsUpdates(Initial(t), fs, None);
  }

  /** How many healthy updates still fit before `end`. */
  function Allowance(c: Control, since: Instant, end: Instant): nat
    requires c.tuning.Valid()
  {
    var first := if Gated(c, since) then c.nextUpdate.value else since;
    if first > end then 0 else 1 + (end - first) / c.tuning.updateInterval
  }

  lemma {:induction false} AllowanceAtMost(c: Control, since: Instant, end: Instant)
    requires c.tuning.Valid() && since <= end
    ensures Allowance(c, since, end) <= 1 + (end - since) / c.tuning.updateInterval
  {
    if Gated(c, since) && c.nextUpdate.value <= end {
      Arithmetic.QuotientOrder(end - c.nextUpdate.value, end - since, c.tuning.updateInterval);
    }
  }

  lemma {:induction false} AllowanceShrinks(c: Control, since: Instant, f: Feedback, end: Instant)
    requires c.Valid() && since <= f.at <= end && end + c.tuning.updateInterval <= MAX_INSTANT
    requires c.nextUpdate.Some? ==> c.nextUpdate.value <= since + c.tuning.updateInterval
    ensures var d := Respond(c, f);
      && (d.nextUpdate.Some? ==> d.nextUpdate.value <= f.at + c.tuning.updateInterval)
      && Allowance(d, f.at, end) <= Allowance(c, since, end)
      && (d.concurrency > c.concurrency ==> Allowance(d, f.at, end) < Allowance(c, since, end))
  {
    RespondKeepsBounds(c, f);
    var unit := c.tuning.updateInterval;
    var first := if Gated(c, since) then c.nextUpdate.value else since;
    if first <= end {
      if f.at + unit <= end {
        Arithmetic.OneFewer(end - f.at, unit);
      }
      if first <= f.at {
        Arithmetic.QuotientOrder(end - f.at, end - first, unit);
      } else {
        if f.at + unit <= end {
          Arithmetic.QuotientOrder(end - f.at - unit, end - first, unit);
        }
      }
    }
  }

  function Ceiling(c: Control, since: Instant, end: Instant, unit: real): real
    requires c.tuning.Valid()
  {
    c.concurrency + unit * Allowance(c, since, end) as real
  }

  lemma {:induction false} CeilingOrder(c: Control, since: Instant, d: Control, at: Instant, end: Instant, unit: real)
    requires c.tuning.Valid() && d.tuning.Valid() && unit >= 0.0
    requires Allowance(d, at, end) <= Allowance(c, since, end)
    requires d.concurrency <= c.concurrency
      || (Allowance(d, at, end) < Allowance(c, since, end) && d.concurrency <= c.concurrency + unit)
    ensures Ceiling(d, at, end, unit) <= Ceiling(c, since, end, unit)
  {
    Arithmetic.UnitsOrder(unit, Allowance(d, at, end), Allowance(c, since, end), d.concurrency, c.concurrency);
  }

  lemma {:induction false} CeilingFalls(c: Control, since: Instant, f: Feedback, end: Instant, unit: real)
    requires c.Valid() && since <= f.at <= end && end + c.tuning.updateInterval <= MAX_INSTANT
    requires c.nextUpdate.Some? ==> c.nextUpdate.value <= since + c.tuning.updateInterval
    requires unit == c.tuning.gain * c.tuning.smoothing && unit >= 0.0
    ensures var d := Respond(c, f);
      && d.Valid() && d.tuning == c.tuning
      && (d.nextUpdate.Some? ==> d.nextUpdate.value <= f.at + c.tuning.updateInterval)
      && Ceiling(d, f.at, end, unit) <= Ceiling(c, since, end, unit)
  {
    RespondKeepsBounds(c, f);
    AllowanceShrinks(c, since, f, end);
    CeilingOrder(c, since, Respond(c, f), f.at, end, unit);
  }

  /** Over any run ending at `end`, growth is limited by elapsed time, however
      many responses arrive. */
  lemma {:induction false} GrowthWithinAllowance(c: Control, since: Instant, fs: seq<Feedback>, end: Instant,
      unit: real)
    requires c.Valid() && InOrder(since, fs, end) && end + c.tuning.updateInterval <= MAX_INSTANT
    requires c.nextUpdate.Some? ==> c.nextUpdate.value <= since + c.tuning.updateInterval
    requires unit == c.tuning.gain * c.tuning.smoothing && unit >= 0.0
    ensures RespondAll(c, fs).concurrency <= Ceiling(c, since, end, unit)
    decreases |fs|
  {
    if fs == [] {
      Arithmetic.UnitsOrder(unit, 0, Allowance(c, since, end), c.concurrency, c.concurrency);
    } else {
      var f, d := fs[0], Respond(c, fs[0]);
      OrderedBefore(f.at, fs[1..], end);
      CeilingFalls(c, since, f, end, unit);
      GrowthWithinAllowance(d, f.at, fs[1..], end, unit);
    }
  }

  /** From whatever control earlier feedback led to, growth over a span is at
      most gain * smoothing * (1 + span / update interval). */
  lemma {:induction false} GrowthIsTimeLimited(t: Tuning, since: Instant, before: seq<Feedback>, start: Instant,
      fs: seq<Feedback>, end: Instant)
    requires t.Valid() && InOrder(since, before, start)
    requires InOrder(start, fs, end) && end + t.updateInterval <= MAX_INSTANT
    ensures start <= end
    ensures var c := RespondAll(Initial(t), before);
      RespondAll(c, fs).concurrency
      <= c.concurrency + (t.gain * t.smoothing) * (1 + (end - start) / t.updateInterval) as real
  {
    var c, unit := RespondAll(Initial(t), before), t.gain * t.smoothing;
    assert unit >= 0.0;
    OrderedBefore(start, fs, end);
    ConcurrencyStaysInBounds(Initial(t), before);
    GateFollowsUpdates(Initial(t), before, None);
    LastUpdateIsPast(Initial(t), since, before, None, start);
    GrowthWithinAllowance(c, start, fs, end, unit);
    AllowanceAtMost(c, start, end);
    Arithmetic.UnitsOrder(unit, Allowance(c, start, end), 1 + (end - start) / t.updateInterval, c.concurrency, c.concurrency);
  }

  lemma {:induction false} FullGradient(current: Duration, reference: Duration, tolerance: Duration)
    requires current <= reference + tolerance
    ensures BoundedGradient(current, reference, tolerance) == 1.0
  {
    if current > 0 {
      Arithmetic.DivideOrder(current as real, (reference + tolerance) as real, current as real);
      Arithmetic.MultiplyDivide(1.0, current as real);
    }
  }

  lemma {:induction false} FullGrowth(t: Tuning, c: real)
    requires t.Valid() && t.min <= c <= t.max
    ensures Smoothed(t, c, 1.0) >= c
  {
    Arithmetic.NonNegativeProduct(t.gain, t.smoothing);
    assert c * (1.0 - t.smoothing) + (c * 1.0 + t.gain) * t.smoothing == c + t.gain * t.smoothing;
  }

  /** A response within the tolerance of its reference never costs concurrency,
      and a response that was not paced never changes it. */
  lemma {:induction false} OnlyCongestionCosts(c: Control, current: Duration, reference: Duration, inflight: nat,
      paced: bool, now: Instant)
    requires c.Valid()
    ensures var d := OnRtt(c, current, reference, inflight, paced, now).0;
      && (current <= reference + c.tuning.tolerance ==> d.concurrency >= c.concurrency)
      && (!paced ==> d == c)
  {
    if current <= reference + c.tuning.tolerance {
      FullGradient(current, reference, c.tuning.tolerance);
      FullGrowth(c.tuning, c.concurrency);
    }
  }

  lemma {:induction false} Above(c: real, goal: real, d: real, r: real, raw: real)
    requires 0.0 <= r <= 1.0 && d == c - goal && raw == c - r * d && c >= goal
    ensures goal <= raw <= c
  {
    Arithmetic.ShareOf(d, r);
  }

  lemma {:induction false} Between(c: real, goal: real, d: real, r: real, raw: real)
    requires 0.0 <= r <= 1.0 && d == c - goal && raw == c - r * d
    ensures c <= goal ==> c <= raw <= goal
    ensures c >= goal ==> goal <= raw <= c
  {
    if c >= goal {
      Above(c, goal, d, r, raw);
    } else {
      assert r * (goal - c) == -(r * d);
      Above(-c, -goal, goal - c, r, -raw);
    }
  }

  lemma {:induction false} ContractionStep(c: real, goal: real, d: real, g: real, gain: real, s: real, r: real)
    requires goal * (1.0 - g) == gain && d == c - goal && r == s * (1.0 - g)
    ensures c * (1.0 - s) + (c * g + gain) * s == c - r * d
    ensures c * (1.0 - s) + (c * g + gain) * s - goal == (1.0 - r) * d
  {
    assert c * g + gain == c - (1.0 - g) * d;
    assert (c - (1.0 - g) * d) * s == c * s - r * d;
  }

  lemma {:induction false} ContractionClamp(c: real, goal: real, g: real, gain: real, s: real, lo: real, hi: real)
    requires lo <= c <= hi && lo <= goal <= hi && 0.5 <= g < 1.0 && 0.0 < s <= 1.0
    requires goal * (1.0 - g) == gain
    ensures Clamp(c * (1.0 - s) + (c * g + gain) * s, lo, hi) - goal == (1.0 - s * (1.0 - g)) * (c - goal)
    ensures c <= goal ==> c <= Clamp(c * (1.0 - s) + (c * g + gain) * s, lo, hi) <= goal
    ensures c >= goal ==> goal <= Clamp(c * (1.0 - s) + (c * g + gain) * s, lo, hi) <= c
  {
    Arithmetic.ShareOf(1.0 - g, s);
    ContractionStep(c, goal, c - goal, g, gain, s, s * (1.0 - g));
    Between(c, goal, c - goal, s * (1.0 - g), c * (1.0 - s) + (c * g + gain) * s);
  }

  /** Under a fixed gradient below one the operating point contracts towards
      gain / (1 - gradient) by the same factor each time, and never crosses it. */
  lemma {:induction false} Contraction(t: Tuning, c: real, g: real, goal: real)
    requires t.Valid() && t.min <= c <= t.max && 0.5 <= g < 1.0
    requires goal * (1.0 - g) == t.gain && t.min <= goal <= t.max
    ensures Smoothed(t, c, g) - goal == (1.0 - t.smoothing * (1.0 - g)) * (c - goal)
    ensures c <= goal ==> c <= Smoothed(t, c, g) <= goal
    ensures c >= goal ==> goal <= Smoothed(t, c, g) <= c
  {
    ContractionClamp(c, goal, g, t.gain, t.smoothing, t.min, t.max);
  }

  /** `x` brought into the range from `lo` to `hi`. */
  predicate Nearest(x: real, lo: real, hi: real, y: real) {
    lo <= y <= hi && (y == x || (y == lo && x < lo) || (y == hi && x > hi))
  }

  lemma {:induction false} TolerableUpdate(t: Tuning, c: real, g: real)
    requires t.Valid() && t.min <= c <= t.max && g == 1.0
    ensures Nearest(c + t.gain * t.smoothing, t.min, t.max, Smoothed(t, c, g))
  {
    assert c * (1.0 - t.smoothing) + (c * 1.0 + t.gain) * t.smoothing == c + t.gain * t.smoothing;
  }

  /** An update whose RTT is within the tolerance of its reference adds exactly
      one gain, weighted by the smoothing, up to the maximum. */
  lemma {:induction false} ToleratedGrowth(c: Control, current: Duration, reference: Duration, inflight: nat,
      now: Instant)
    requires c.Valid() && current <= reference + c.tuning.tolerance
    requires OnRtt(c, current, reference, inflight, true, now).1
    ensures var d := OnRtt(c, current, reference, inflight, true, now).0;
      Nearest(c.concurrency + c.tuning.gain * c.tuning.smoothing, c.tuning.min, c.tuning.max, d.concurrency)
  {
    FullGradient(current, reference, c.tuning.tolerance);
    TolerableUpdate(c.tuning, c.concurrency, 1.0);
  }

  /** The ratio of what is allowed to what was measured, but at least a half. */
  function Ratio(allowed: nat, current: Interval): real {
    if 2 * allowed >= current then allowed as real / current as real else 0.5
  }

  lemma {:induction false} CongestedGradient(current: Interval, reference: Duration, tolerance: Duration)
    requires reference + tolerance < current
    ensures BoundedGradient(current, reference, tolerance) == Ratio(reference + tolerance, current)
  {
    var a, b := (reference + tolerance) as real, current as real;
    Arithmetic.MultiplyDivide(1.0, b);
    Arithmetic.MultiplyDivide(0.5, b);
    Arithmetic.DivideOrder(a, b, b);
    if 2 * (reference + tolerance) >= current {
      Arithmetic.DivideOrder(0.5 * b, a, b);
    } else {
      Arithmetic.DivideOrder(a, 0.5 * b, b);
    }
  }

  /** One update moves `share` of the way to `gain` above the concurrency in
      proportion, within bounds. */
  predicate MovesTowards(before: real, ratio: real, gain: real, share: real, lo: real, hi: real, after: real) {
    Nearest(before + share * (before * ratio + gain - before), lo, hi, after)
  }

  lemma SmoothingMoves(t: Tuning, c: real, ratio: real)
    requires t.Valid()
    ensures MovesTowards(c, ratio, t.gain, t.smoothing, t.min, t.max, Smoothed(t, c, ratio))
  {
    var estimate, s := c * ratio + t.gain, t.smoothing;
    assert c * (1.0 - s) + estimate * s == c + s * (estimate - c);
  }

  /** An update whose RTT exceeds what is allowed moves a share of the way, the
      smoothing, to one gain above the concurrency scaled by that ratio. */
  lemma {:induction false} CongestedUpdate(c: Control, current: Interval, reference: Duration, inflight: nat,
      now: Instant)
    requires c.Valid() && current > reference + c.tuning.tolerance
    requires OnRtt(c, current, reference, inflight, true, now).1
    ensures var d, t := OnRtt(c, current, reference, inflight, true, now).0, c.tuning;
      MovesTowards(c.concurrency, Ratio(reference + t.tolerance, current), t.gain, t.smoothing, t.min, t.max, d.concurrency)
  {
    hide Ratio, BoundedGradient, MovesTowards, Smoothed;
    CongestedGradient(current, reference, c.tuning.tolerance);
    SmoothingMoves(c.tuning, c.concurrency, Ratio(reference + c.tuning.tolerance, current));
  }

  predicate AllFailures(fs: seq<Feedback>) {
    forall i :: 0 <= i < |fs| ==> fs[i].Failure?
  }

  function Larger(a: real, b: real): real {
    if a < b then b else a
  }

  /** The share of a concurrency that is left, but never less than the minimum. */
  predicate Shrinks(min: real, before: real, share: real, after: real) {
    after == Larger(min, before * share)
  }

  lemma ClampingShrinks(c: real, f: real, lo: real, hi: real)
    requires 0.0 <= f <= 1.0 && 0.0 <= lo <= c <= hi
    ensures Shrinks(lo, c, f, Clamp(c * f, lo, hi))
  {
    Arithmetic.ShareOf(c, f);
    assert c * f == f * c;
  }

  lemma {:induction false} FailureCosts(c: Control, at: Instant)
    requires c.Valid()
    ensures Shrinks(c.tuning.min, c.concurrency, c.tuning.failureFactor, OnFailure(c, at).concurrency)
  {
    hide Shrinks;
    ClampingShrinks(c.concurrency, c.tuning.failureFactor, c.tuning.min, c.tuning.max);
  }

  lemma ProductsRegroup(c: real, f: real, p: real)
    ensures c * f * p == c * (f * p)
  {}

  lemma FloorStays(min: real, x: real, p: real)
    requires x < min && 0.0 < min && 0.0 <= p <= 1.0
    ensures x * p <= min && min * p <= min
  {
    Arithmetic.ShareOf(min, p);
    Arithmetic.MultiplyOrder(x, min, p);
    assert min * p == p * min;
  }

  lemma SameProduct(a: real, b: real, p: real)
    requires a == b
    ensures a * p == b * p
  {}

  lemma LargerOf(min: real, x: real, twice: real, rest: real, once: real, after: real)
    requires once == Larger(min, x) && after == Larger(min, rest)
    requires if x < min then rest <= min && twice <= min else rest == twice
    ensures after == Larger(min, twice)
  {}

  lemma ShrinksTwice(min: real, c: real, f: real, p: real, once: real, after: real)
    requires 0.0 < min <= c && 0.0 <= f <= 1.0 && 0.0 <= p <= 1.0
    requires Shrinks(min, c, f, once) && Shrinks(min, once, p, after)
    ensures Shrinks(min, c, f * p, after)
  {
    ProductsRegroup(c, f, p);
    if c * f < min {
      FloorStays(min, c * f, p);
      SameProduct(once, min, p);
    } else {
      SameProduct(once, c * f, p);
    }
    LargerOf(min, c * f, c * (f * p), once * p, once, after);
  }

  lemma ShrinksPower(min: real, c: real, f: real, n: nat, once: real, after: real)
    requires 0.0 < min <= c && 0.0 <= f <= 1.0
    requires Shrinks(min, c, f, once) && Shrinks(min, once, Arithmetic.Power(f, n), after)
    ensures Shrinks(min, c, Arithmetic.Power(f, n + 1), after)
  {
    var p := Arithmetic.Power(f, n);
    assert Arithmetic.Power(f, n + 1) == f * p;
    Arithmetic.PowerOfFraction(f, n);
    ShrinksTwice(min, c, f, p, once, after);
  }

  lemma ShrinksNot(min: real, c: real)
    requires min <= c
    ensures Shrinks(min, c, 1.0, c)
  {}

  /** After n failures in a row the concurrency is what it was times the n-th
      power of the failure factor, but never below the minimum. */
  lemma {:induction false} FailuresCompound(c: Control, fs: seq<Feedback>)
    requires c.Valid() && AllFailures(fs)
    ensures Shrinks(c.tuning.min, c.concurrency, Arithmetic.Power(c.tuning.failureFactor, |fs|), RespondAll(c, fs).concurrency)
    decreases |fs|
  {
    hide OnFailure, OnRtt, Shrinks;
    if fs == [] {
      ShrinksNot(c.tuning.min, c.concurrency);
    } else {
      var d := Respond(c, fs[0]);
      assert fs[0].Failure? && AllFailures(fs[1..]);
      RespondKeepsBounds(c, fs[0]);
      FailureCosts(c, fs[0].at);
      FailuresCompound(d, fs[1..]);
      ShrinksPower(c.tuning.min, c.concurrency, c.tuning.failureFactor, |fs| - 1, d.concurrency,
                   RespondAll(c, fs).concurrency);
    }
  }

  lemma RatioIsBounded(allowed: nat, current: Interval)
    requires allowed < current
    ensures 0.5 <= Ratio(allowed, current)
  {
    if 2 * allowed >= current {
      Arithmetic.MultiplyDivide(0.5, current as real);
      Arithmetic.DivideOrder(0.5 * current as real, allowed as real, current as real);
    }
  }

  /** Every response reports the same congestion, and each leads to an update. */
  predicate SteadilyCongested(c: Control, fs: seq<Feedback>, current: Interval, reference: Duration)
    decreases |fs|
  {
    fs != [] ==>
      && fs[0].Rtt? && fs[0].current == current && fs[0].reference == reference && Updates(c, fs[0])
      && SteadilyCongested(Respond(c, fs[0]), fs[1..], current, reference)
  }

  /** The share of the distance to the equilibrium that one update leaves. */
  function ShareLeft(t: Tuning, ratio: real): real {
    1.0 - t.smoothing * (1.0 - ratio)
  }

  lemma {:induction false} CongestionContracts(c: Control, f: Feedback, goal: real)
    requires c.Valid() && f.Rtt? && Updates(c, f) && f.current > f.reference + c.tuning.tolerance
    requires var t, ratio := c.tuning, Ratio(f.reference + c.tuning.tolerance, f.current);
      ratio < 1.0 && goal * (1.0 - ratio) == t.gain && t.min <= goal <= t.max
    ensures var t, ratio := c.tuning, Ratio(f.reference + c.tuning.tolerance, f.current);
      Arithmetic.Keeps(c.concurrency, Respond(c, f).concurrency, goal, ShareLeft(t, ratio))
  {
    hide Ratio, BoundedGradient, Smoothed;
    var ratio := Ratio(f.reference + c.tuning.tolerance, f.current);
    CongestedGradient(f.current, f.reference, c.tuning.tolerance);
    assert 0.5 <= ratio by {
      RatioIsBounded(f.reference + c.tuning.tolerance, f.current);
    }
    Contraction(c.tuning, c.concurrency, ratio, goal);
  }

  /** Under steady congestion n updates leave the n-th power of the same share
      of the distance to the equilibrium, gain / (1 - ratio). */
  lemma {:induction false} ConcurrencyConverges(c: Control, fs: seq<Feedback>, current: Interval, reference: Duration,
      goal: real)
    requires c.Valid() && SteadilyCongested(c, fs, current, reference) && current > reference + c.tuning.tolerance
    requires var t, ratio := c.tuning, Ratio(reference + c.tuning.tolerance, current);
      ratio < 1.0 && goal * (1.0 - ratio) == t.gain && t.min <= goal <= t.max
    ensures var t, ratio := c.tuning, Ratio(reference + c.tuning.tolerance, current);
      Arithmetic.Keeps(c.concurrency, RespondAll(c, fs).concurrency, goal,
                       Arithmetic.Power(ShareLeft(t, ratio), |fs|))
    decreases |fs|
  {
    hide OnRtt, Ratio, ShareLeft, Arithmetic.Keeps, Arithmetic.Power;
    if fs == [] {
      Arithmetic.KeepsNothing(c.concurrency, goal, ShareLeft(c.tuning, Ratio(reference + c.tuning.tolerance, current)));
    } else {
      var d := Respond(c, fs[0]);
      RespondKeepsBounds(c, fs[0]);
      CongestionContracts(c, fs[0], goal);
      ConcurrencyConverges(d, fs[1..], current, reference, goal);
      Arithmetic.KeepsFirst(c.concurrency, d.concurrency, RespondAll(c, fs).concurrency, goal,
                            ShareLeft(c.tuning, Ratio(reference + c.tuning.tolerance, current)), |fs| - 1);
    }
  }
}
