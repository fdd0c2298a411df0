/** Temporary rate perturbations, decided at randomised instants. */
module Probe {
  import opened Clock
  import Arithmetic

  datatype ProbeKind = Positive(delta: real) | Negative(factor: real)

  datatype Probe = Probe(kind: ProbeKind, until: Instant)

  datatype ProbeState = ProbeState(active: Option<Probe>, nextProbeAt: Option<Instant>)

  /** One decision's randomness: both numbers are drawn from [0, 1). */
  datatype Draw = Draw(jitter: real, choice: real) {
    predicate Valid() {
      0.0 <= jitter < 1.0 && 0.0 <= choice < 1.0
    }
  }

  /** A random source is the stream of draws it will deliver. */
  datatype Rng = Rng(stream: nat -> Draw, used: nat) {
    ghost predicate Valid() {
      forall i :: stream(i).Valid()
    }

    function Head(): Draw {
      stream(used)
    }
  }

  datatype Schedule = Schedule(
    positiveProbability: real, negativeProbability: real, delta: real, factor: real,
    duration: Duration, minInterval: Duration, maxInterval: Duration)
  {
    predicate Valid() {
      && 0.0 <= positiveProbability && 0.0 <= negativeProbability
      && positiveProbability + negativeProbability <= 1.0
      && delta > 0.0
      && 0.0 <= factor < 1.0
      && duration > 0
      && 0 < minInterval <= maxInterval
    }
  }

  const SECOND: Duration := 1_000_000_000

  /** Rates are per nanosecond, so 20 requests per second appear scaled. */
  const DEFAULT_SCHEDULE: Schedule :=
    Schedule(0.10, 0.05, 20.0 / 1_000_000_000.0, 0.8, SECOND, SECOND, 5 * SECOND)

  function Expired(p: ProbeState, now: Instant): ProbeState {
    if p.active.Some? && p.active.value.until <= now then p.(active := None) else p
  }

  function EffectiveRate(p: ProbeState, base: real): real {
    match p.active
    case None => base
    case Some(Probe(Positive(delta), _)) => base + delta
    case Some(Probe(Negative(factor), _)) => base * factor
  }

  predicate Slowing(p: ProbeState) {
    p.active.Some? && p.active.value.kind.Negative?
  }

  predicate Speeding(p: ProbeState) {
    p.active.Some? && p.active.value.kind.Positive?
  }

  /** A probe speeds an endpoint up where a positive one starts or a negative
      one ends. */
  predicate Boosts(p: ProbeState, q: ProbeState) {
    p.active != q.active && (Slowing(p) || Speeding(q))
  }

  /** The part of a span that the jitter takes, before rounding. */
  function Part(span: real, jitter: real): real {
    span * jitter
  }

  lemma PartIsWithin(span: real, jitter: real)
    requires span >= 0.0 && 0.0 <= jitter <= 1.0
    ensures 0.0 <= Part(span, jitter) <= span
  {
    Arithmetic.ShareOf(span, jitter);
  }

  /** Spread evenly over the span, and rounded to whole nanoseconds. */
  function RandomInterval(s: Schedule, d: Draw): (i: Duration)
    requires s.Valid() && d.Valid()
    ensures s.minInterval <= i <= s.maxInterval
  {
    var span := s.maxInterval - s.minInterval;
    if span == 0 then s.minInterval
    else
      var jitter := FromNanos(Part(span as real, d.jitter));
      s.minInterval + (if jitter < span then jitter else span)
  }

  lemma FromNanosWithin(x: real, d: Duration)
    requires 0.0 <= x <= d as real
    ensures FromNanos(x) <= d && x - 0.5 <= FromNanos(x) as real <= x + 0.5
  {
    FromNanosRounds(x);
    FromNanosIsMonotone(x, d as real);
    FromNanosKeepsWholes(d);
  }

  /** The wait is the shortest one, and of the span what the jitter says. */
  lemma IntervalFollowsJitter(s: Schedule, d: Draw)
    requires s.Valid() && d.Valid()
    ensures var wait := s.minInterval as real + Part((s.maxInterval - s.minInterval) as real, d.jitter);
      wait - 0.5 <= RandomInterval(s, d) as real <= wait + 0.5
  {
    hide Part, FromNanos;
    var span := s.maxInterval - s.minInterval;
    PartIsWithin(span as real, d.jitter);
    FromNanosWithin(Part(span as real, d.jitter), span);
  }

  function Decided(p: ProbeState, s: Schedule, d: Draw, now: Instant): ProbeState
    requires s.Valid() && d.Valid()
  {
    var next := Some(AddSat(now, RandomInterval(s, d)));
    var until := AddSat(now, s.duration);
    if d.choice < s.positiveProbability then
      ProbeState(Some(Probe(Positive(s.delta), until)), next)
    else if d.choice < s.positiveProbability + s.negativeProbability then
      ProbeState(Some(Probe(Negative(s.factor), until)), next)
    else p.(nextProbeAt := next)
  }

  /** Whether this consultation makes a decision, consuming one draw. */
  predicate Decides(p: ProbeState, now: Instant) {
    var q := Expired(p, now);
    q.active.None? && (q.nextProbeAt.None? || q.nextProbeAt.value <= now)
  }

  function MaybeStarted(p: ProbeState, s: Schedule, d: Draw, now: Instant): ProbeState
    requires s.Valid() && d.Valid()
  {
    if Decides(p, now) then Decided(Expired(p, now), s, d, now) else Expired(p, now)
  }

  class Prober {
    const stream: nat -> Draw
    var used: nat
    var active: Option<Probe>
    var nextProbeAt: Option<Instant>

    function Model(): ProbeState
      reads this
    {
      ProbeState(active, nextProbeAt)
    }

    function Source(): Rng
      reads this
    {
      Rng(stream, used)
    }

    constructor (draws: nat -> Draw)
      ensures Model() == ProbeState(None, None) && Source() == Rng(draws, 0)
    {
      stream, used := draws, 0;
      active, nextProbeAt := None, None;
    }

    method Active(now: Instant) returns (probe: Option<Probe>)
      modifies this
      ensures Model() == Expired(old(Model()), now) && probe == active
      ensures Source() == old(Source())
    {
      if active.Some? && active.value.until <= now {
        active := None;
      }
      probe := active;
    }

    method MaybeStart(s: Schedule, now: Instant)
      requires s.Valid() && Source().Valid()
      modifies this
      ensures Model() == MaybeStarted(old(Model()), s, old(Source().Head()), now)
      ensures used == old(used) + (if Decides(old(Model()), now) then 1 else 0)
    {
      var probe := Active(now);
      if probe.Some? {
        return;
      }
      if nextProbeAt.Some? && nextProbeAt.value > now {
        return;
      }
      var d := stream(used);
      used := used + 1;
      var next := SaturatingAdd(now, RandomInterval(s, d));
      nextProbeAt := Some(next);
      var until := SaturatingAdd(now, s.duration);
      if d.choice < s.positiveProbability {
        active := Some(Probe(Positive(s.delta), until));
      } else if d.choice < s.positiveProbability + s.negativeProbability {
        active := Some(Probe(Negative(s.factor), until));
      }
    }
  }
}
