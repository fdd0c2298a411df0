/** Instants, durations and the two roundings the pacing code performs.

    Both are counted in nanoseconds. `MAX_INSTANT` is left open: the platform
    decides how far its clock reaches, and the code only ever probes for it.
    Differences of instants are durations, hence its type. */
module Clock {
  const DURATION_MAX: nat := 0xFFFF_FFFF_FFFF_FFFF * 1_000_000_000 + 999_999_999

  type Duration = d: nat | d <= DURATION_MAX
  type Interval = d: Duration | d >= 1 witness 1

  const MAX_INSTANT: Duration

  type Instant = t: nat | t <= MAX_INSTANT

  datatype Option<+T> = None | Some(value: T)

  function CheckedAdd(t: Instant, d: nat): Option<Instant> {
    if t + d <= MAX_INSTANT then Some(t + d) else None
  }

  /** The furthest representable instant no later than `t + d`. */
  function AddSat(t: Instant, d: nat): Instant {
    if t + d <= MAX_INSTANT then t + d else MAX_INSTANT
  }

  function Later(s: Instant, t: Instant): Instant {
    if s < t then t else s
  }

  function Since(later: Instant, earlier: Instant): Duration {
    if later > earlier then later - earlier else 0
  }

  /** Searches for the largest representable offset when the sum overflows. */
  method SaturatingAdd(t: Instant, d: Duration) returns (r: Instant)
    ensures t <= r && r - t <= d
    ensures r - t == d || r == MAX_INSTANT
    ensures r == AddSat(t, d)
  {
    var sum := CheckedAdd(t, d);
    if sum.Some? {
      return sum.value;
    }
    var lower, upper := 0, d;
    while lower < upper
      invariant 0 <= lower <= upper <= d
      invariant t + lower <= MAX_INSTANT < t + upper + 1
    {
      var middle := lower + (upper - lower + 1) / 2;
      if CheckedAdd(t, middle).Some? {
        lower := middle;
      } else {
        upper := middle - 1;
      }
    }
    r := t + lower;
  }

  /** Nearest whole number; a tie goes to the even neighbour. */
  function Round(x: real): (n: int)
    ensures n as real - 0.5 <= x <= n as real + 0.5
  {
    var whole := x.Floor;
    var rest := x - whole as real;
    if rest < 0.5 || (rest == 0.5 && whole % 2 == 0) then whole else whole + 1
  }

  lemma RoundIsMonotone(x: real, y: real)
    requires x <= y
    ensures Round(x) <= Round(y)
  {}

  lemma RoundKeepsWholes(n: int)
    ensures Round(n as real) == n
  {}

  /** Halfway between two whole numbers, the even one is taken. */
  lemma TiesGoToEven(n: int)
    ensures var r := Round(n as real + 0.5); r % 2 == 0 && n <= r <= n + 1
  {
    assert (n as real + 0.5).Floor == n;
  }

  /** A real number of nanoseconds as a duration, saturating at both ends. */
  function FromNanos(x: real): Duration {
    var n := Round(x);
    if x <= 0.0 then 0 else if n <= DURATION_MAX then n else DURATION_MAX
  }

  lemma FromNanosIsMonotone(x: real, y: real)
    requires x <= y
    ensures FromNanos(x) <= FromNanos(y)
  {
    RoundIsMonotone(x, y);
  }

  lemma FromNanosKeepsWholes(d: Duration)
    ensures FromNanos(d as real) == d
  {
    RoundKeepsWholes(d);
  }

  lemma FromNanosRounds(x: real)
    requires 0.0 <= x <= DURATION_MAX as real
    ensures x - 0.5 <= FromNanos(x) as real <= x + 0.5
  {
    RoundIsMonotone(x, DURATION_MAX as real);
    RoundKeepsWholes(DURATION_MAX);
    if x == 0.0 {
      RoundKeepsWholes(0);
    }
  }

  /** Beyond either end of its range a duration stays at that end. */
  lemma FromNanosSaturates(x: real)
    ensures x <= 0.0 ==> FromNanos(x) == 0
    ensures x >= DURATION_MAX as real ==> FromNanos(x) == DURATION_MAX
  {
    if x >= DURATION_MAX as real {
      FromNanosIsMonotone(DURATION_MAX as real, x);
      FromNanosKeepsWholes(DURATION_MAX);
    }
  }
}
