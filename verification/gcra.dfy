/** The single-rate pacer: a theoretical arrival time and a spacing. */
module Gcra {
  import opened Clock
  import Arithmetic

  datatype Pacer = Pacer(interval: Interval, tat: Instant)

  function NextAt(p: Pacer, now: Instant): Instant {
    Later(p.tat, now)
  }

  /** Rates are per nanosecond. A rate is accepted when its spacing fits a
      duration; the code panics on every other rate. */
  predicate Representable(rate: real) {
    rate > 0.0 && Round(1.0 / rate) <= DURATION_MAX
  }

  function RateToInterval(rate: real): Interval
    requires Representable(rate)
  {
    var n := Round(1.0 / rate);
    if n < 1 then 1 else n
  }

  /** The share of one spacing still to be waited for. */
  function Phase(p: Pacer, now: Instant): real {
    Since(p.tat, now) as real / p.interval as real
  }

  /** The wait that is `phase` spacings long. */
  function Wait(phase: real, interval: Interval): Duration {
    FromNanos(phase * interval as real)
  }

  function SetInterval(p: Pacer, interval: Interval, now: Instant): Pacer {
    if interval == p.interval then p
    else Pacer(interval, AddSat(now, Wait(Phase(p, now), interval)))
  }

  function Committed(p: Pacer, at: Instant): Pacer {
    p.(tat := AddSat(NextAt(p, at), p.interval))
  }

  class GcraPacer {
    var interval: Interval
    var tat: Instant

    function Model(): Pacer
      reads this
    {
      Pacer(interval, tat)
    }

    constructor (rate: real, now: Instant)
      requires Representable(rate)
      ensures Model() == Pacer(RateToInterval(rate), now)
    {
      interval := RateToInterval(rate);
      tat := now;
    }

    method SetRate(rate: real, now: Instant)
      requires Representable(rate)
      modifies this
      ensures Model() == SetInterval(old(Model()), RateToInterval(rate), now)
    {
      var next := RateToInterval(rate);
      if next == interval {
        return;
      }
      var phase := Since(tat, now) as real / interval as real;
      interval := next;
      var remaining := Wait(phase, next);
      tat := SaturatingAdd(now, remaining);
    }

    method Commit(at: Instant)
      modifies this
      ensures Model() == Committed(old(Model()), at)
    {
      var base := Later(tat, at);
      tat := SaturatingAdd(base, interval);
    }
  }

  lemma SlowerRateWidens(fast: real, slow: real)
    requires 0.0 < slow <= fast && Representable(slow)
    ensures Representable(fast) && RateToInterval(fast) <= RateToInterval(slow)
  {
    Arithmetic.ReciprocalOrder(slow, fast);
    RoundIsMonotone(1.0 / fast, 1.0 / slow);
  }

  /** A rate of at most one request every `n` nanoseconds spaces by at least `n`. */
  lemma SpacingAtLeast(rate: real, n: Interval)
    requires Representable(rate) && rate * n as real <= 1.0
    ensures RateToInterval(rate) >= n
  {
    Arithmetic.ReciprocalBound(rate, n as real);
    RoundIsMonotone(n as real, 1.0 / rate);
    RoundKeepsWholes(n);
  }

  lemma WaitAtLeast(remaining: Duration, phase: real, to: Interval)
    requires phase * to as real >= remaining as real
    ensures Wait(phase, to) >= remaining
  {
    FromNanosIsMonotone(remaining as real, phase * to as real);
    FromNanosKeepsWholes(remaining);
  }

  lemma WaitGrows(remaining: Duration, from: Interval, to: Interval)
    requires from <= to
    ensures Wait(remaining as real / from as real, to) >= remaining
  {
    Arithmetic.StretchGrows(remaining as real, from as real, to as real);
    WaitAtLeast(remaining, remaining as real / from as real, to);
  }

  /** Slowing down never brings the next slot closer. */
  lemma SlowingKeepsWait(p: Pacer, interval: Interval, now: Instant)
    requires interval >= p.interval
    ensures SetInterval(p, interval, now).tat >= p.tat
  {
    WaitGrows(Since(p.tat, now), p.interval, interval);
  }

  lemma WaitIsNearPhase(phase: real, interval: Interval)
    requires 0.0 <= phase * interval as real <= DURATION_MAX as real
    ensures var i := interval as real;
      phase - 0.5 / i <= Wait(phase, interval) as real / i <= phase + 0.5 / i
  {
    FromNanosRounds(phase * interval as real);
    Arithmetic.QuotientNear(phase, interval as real, Wait(phase, interval) as real, 0.5);
  }

  /** Nothing is cut off at the end of the clock or of a duration. */
  predicate Exact(p: Pacer, interval: Interval, now: Instant) {
    0.0 <= Phase(p, now) * interval as real <= DURATION_MAX as real
    && now + Wait(Phase(p, now), interval) <= MAX_INSTANT
  }

  /** A rate change keeps the phase up to half a nanosecond of the new spacing. */
  lemma RateChangeKeepsPhase(p: Pacer, interval: Interval, now: Instant)
    requires Exact(p, interval, now)
    ensures var q := SetInterval(p, interval, now);
      var slack := if interval == p.interval then 0.0 else 0.5 / interval as real;
      Phase(p, now) - slack <= Phase(q, now) <= Phase(p, now) + slack
  {
    WaitIsNearPhase(Phase(p, now), interval);
  }
}
