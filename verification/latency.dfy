/** Smoothed RTT estimates and a rolling minimum kept in eight buckets. */
module Latency {
  import opened Clock

  const BUCKETS: nat := 8

  type Bucket = Option<Duration>

  /** `shortAlpha` and `longAlpha` come from a power function of the configured
      concurrency; only their range matters here. */
  datatype Settings = Settings(
    initialRtt: Duration, shortAlpha: real, longAlpha: real, minRtt: Duration, window: Duration)
  {
    predicate Valid() {
      && 0 < minRtt <= initialRtt
      && 0.0 < shortAlpha <= 1.0
      && 0.0 < longAlpha <= 1.0
      && window >= BUCKETS
    }

    function BucketDuration(): Interval
      requires Valid()
    {
      window / BUCKETS
    }
  }

  /** Estimates are real nanoseconds; an empty bucket stands for infinity. */
  datatype Estimator = Estimator(
    settings: Settings, short: real, long: real, baseline: Bucket,
    buckets: seq<Bucket>, bucket: nat, started: Option<Instant>, samples: nat)
  {
    predicate Valid() {
      settings.Valid() && |buckets| == BUCKETS && bucket < BUCKETS
    }
  }

  function Fresh(s: Settings): Estimator {
    Estimator(s, s.initialRtt as real, s.initialRtt as real, None, seq(BUCKETS, _ => None), 0, None, 0)
  }

  function AtLeast(d: Duration, floor: Duration): Duration {
    if d < floor then floor else d
  }

  function Ewma(previous: real, sample: real, alpha: real): real {
    (1.0 - alpha) * previous + alpha * sample
  }

  function Lower(b: Bucket, v: Duration): Bucket {
    if b.Some? && b.value <= v then b else Some(v)
  }

  function Least(bs: seq<Bucket>): Bucket {
    if bs == [] then None
    else
      var rest := Least(bs[1..]);
      if bs[0].None? then rest else Lower(rest, bs[0].value)
  }

  function Next(bucket: nat): nat {
    (bucket + 1) % BUCKETS
  }

  /** The buckets and the current index after `steps` rotations. */
  function Rotated(bs: seq<Bucket>, bucket: nat, steps: nat): (r: (seq<Bucket>, nat))
    requires |bs| == BUCKETS && bucket < BUCKETS
    ensures |r.0| == BUCKETS && r.1 < BUCKETS
  {
    if steps == 0 then (bs, bucket)
    else
      var (bs', k) := Rotated(bs, bucket, steps - 1);
      (bs'[Next(k) := None], Next(k))
  }

  function SatMul(d: Duration, n: nat): Duration {
    if d * n <= DURATION_MAX then d * n else DURATION_MAX
  }

  function Advanced(e: Estimator, now: Instant): (r: Estimator)
    requires e.Valid()
    ensures r.Valid()
  {
    if e.started.None? then e.(started := Some(now))
    else
      var size := e.settings.BucketDuration();
      var steps := Since(now, e.started.value) / size;
      if steps >= BUCKETS then
        e.(buckets := seq(BUCKETS, _ => None), bucket := 0, started := Some(now), baseline := None)
      else if steps > 0 then
        var (bs, k) := Rotated(e.buckets, e.bucket, steps);
        e.(buckets := bs, bucket := k, started := Some(AddSat(e.started.value, SatMul(size, steps))))
      else e
  }

  function Recorded(e: Estimator, value: Duration): Estimator
    requires e.Valid()
  {
    var bs := e.buckets[e.bucket := Lower(e.buckets[e.bucket], value)];
    var least := Least(bs);
    e.(buckets := bs,
       baseline := if least.Some? then Some(AtLeast(least.value, e.settings.minRtt)) else None,
       samples := e.samples + 1)
  }

  function Observed(e: Estimator, sample: Duration, now: Instant): (r: Estimator)
    requires e.Valid()
    ensures r.Valid()
  {
    var value := AtLeast(sample, e.settings.minRtt);
    var smoothed := e.(
      short := Ewma(e.short, value as real, e.settings.shortAlpha),
      long := Ewma(e.long, value as real, e.settings.longAlpha));
    Recorded(Advanced(smoothed, now), value)
  }

  function ExpectedRtt(e: Estimator): Duration {
    FromNanos(if e.long < e.settings.minRtt as real then e.settings.minRtt as real else e.long)
  }

  function ShortRtt(e: Estimator): Duration {
    FromNanos(e.short)
  }

  function BaselineRtt(e: Estimator): Duration {
    AtLeast(if e.baseline.Some? then e.baseline.value else e.settings.initialRtt, e.settings.minRtt)
  }

  class LatencyEstimator {
    const settings: Settings
    const buckets: array<Bucket>
    var short: real
    var long: real
    var baseline: Bucket
    var bucket: nat
    var started: Option<Instant>
    var samples: nat

    function Model(): Estimator
      reads this, buckets
    {
      Estimator(settings, short, long, baseline, buckets[..], bucket, started, samples)
    }

    constructor (s: Settings)
      requires s.Valid()
      ensures Model() == Fresh(s) && Model().Valid() && fresh(buckets)
    {
      settings := s;
      short, long := s.initialRtt as real, s.initialRtt as real;
      baseline, bucket, started, samples := None, 0, None, 0;
      buckets := new Bucket[BUCKETS](_ => None);
    }

    method ObserveAt(sample: Duration, now: Instant)
      requires Model().Valid()
      modifies this, buckets
      ensures Model() == Observed(old(Model()), sample, now)
      ensures Model().Valid()
    {
      var value := if sample < settings.minRtt then settings.minRtt else sample;
      short := Ewma(short, value as real, settings.shortAlpha);
      long := Ewma(long, value as real, settings.longAlpha);
      AdvanceBaselineWindow(now);
      ghost var advanced := Model();
      buckets[bucket] := Lower(buckets[bucket], value);
      assert buckets[..] == advanced.buckets[bucket := Lower(advanced.buckets[bucket], value)];
      var least := LeastBucket();
      baseline := if least.Some? then Some(AtLeast(least.value, settings.minRtt)) else None;
      samples := samples + 1;
    }

    method LeastBucket() returns (least: Bucket)
      ensures least == Least(buckets[..])
    {
      var i := buckets.Length;
      least := None;
      while i > 0
        invariant 0 <= i <= buckets.Length
        invariant least == Least(buckets[i..])
      {
        i := i - 1;
        assert buckets[i..][1..] == buckets[i + 1..];
        if buckets[i].Some? {
          least := Lower(least, buckets[i].value);
        }
      }
    }

    method AdvanceBaselineWindow(now: Instant)
      requires Model().Valid()
      modifies this, buckets
      ensures Model() == Advanced(old(Model()), now)
    {
      var size := settings.BucketDuration();
      if started.None? {
        started := Some(now);
        return;
      }
      var steps := Since(now, started.value) / size;
      if steps >= BUCKETS {
        forall i | 0 <= i < buckets.Length {
          buckets[i] := None;
        }
        bucket, started, baseline := 0, Some(now), None;
        assert buckets[..] == seq(BUCKETS, _ => None);
        return;
      }
      if steps > 0 {
        ghost var was := Model();
        var done := 0;
        while done < steps
          invariant 0 <= done <= steps
          invariant Model() == was.(buckets := Rotated(was.buckets, was.bucket, done).0,
                                    bucket := Rotated(was.buckets, was.bucket, done).1)
        {
          ghost var before := buckets[..];
          bucket := (bucket + 1) % BUCKETS;
          buckets[bucket] := None;
          assert buckets[..] == before[bucket := None];
          done := done + 1;
        }
        started := Some(AddSat(started.value, SatMul(size, steps)));
      }
    }
  }
}
