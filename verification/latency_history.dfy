/** The eight buckets against the full sample history they summarise. */
module LatencyHistory {
  import opened Clock
  import opened Latency
  import Arithmetic

  datatype Sample = Sample(rtt: Duration, at: Instant)

  predicate Ordered(h: seq<Sample>) {
    forall i, j :: 0 <= i <= j < |h| ==> h[i].at <= h[j].at
  }

  function ObserveAll(e: Estimator, h: seq<Sample>): (r: Estimator)
    requires e.Valid()
    ensures r.Valid()
  {
    if h == [] then e
    else
      var last := |h| - 1;
      Observed(ObserveAll(e, h[..last]), h[last].rtt, h[last].at)
  }

  /** The start of the bucket that was current `age` buckets ago. */
  function Edge(start: int, size: nat, age: nat): int {
    if age == 0 then start else Edge(start, size, age - 1) - size
  }

  predicate InSlot(start: int, size: nat, age: nat, t: int) {
    Edge(start, size, age) <= t < Edge(start, size, age) + size
  }

  function Aged(bs: seq<Bucket>, bucket: nat, age: nat): Bucket
    requires |bs| == BUCKETS && bucket < BUCKETS && age < BUCKETS
  {
    bs[(bucket + BUCKETS - age) % BUCKETS]
  }

  /** Every bucket is a lower bound for, and one of, the samples of its slot. */
  predicate Tracks(bs: seq<Bucket>, bucket: nat, start: int, size: nat, floor: Duration, h: seq<Sample>)
    requires |bs| == BUCKETS && bucket < BUCKETS
  {
    && (forall i :: 0 <= i < |h| ==> h[i].at < start + size)
    && (forall i, age: nat :: 0 <= i < |h| && age < BUCKETS && InSlot(start, size, age, h[i].at) ==>
          Aged(bs, bucket, age).Some? && Aged(bs, bucket, age).value <= AtLeast(h[i].rtt, floor))
    && (forall age: nat :: age < BUCKETS && Aged(bs, bucket, age).Some? ==>
          exists i :: 0 <= i < |h| && InSlot(start, size, age, h[i].at)
                      && AtLeast(h[i].rtt, floor) == Aged(bs, bucket, age).value)
  }

  predicate Agrees(e: Estimator, h: seq<Sample>)
    requires e.Valid()
  {
    match e.started
    case None => h == [] && e.buckets == seq(BUCKETS, _ => None)
    case Some(start) =>
      && h != [] && start <= h[|h| - 1].at
      && Tracks(e.buckets, e.bucket, start, e.settings.BucketDuration(), e.settings.minRtt, h)
  }

  lemma {:induction false} EdgeIs(start: int, size: nat, age: nat)
    ensures Edge(start, size, age) == start - size * age
  {
    if age == 0 {
    } else {
      EdgeIs(start, size, age - 1);
      Arithmetic.Distribute(size, age - 1);
    }
  }

  lemma {:induction false} EdgesFall(start: int, size: nat, low: nat, high: nat)
    requires low <= high
    ensures Edge(start, size, high) <= Edge(start, size, low)
  {
    if low == high {
    } else {
      EdgesFall(start, size, low, high - 1);
    }
  }

  lemma {:induction false} EdgeShifts(start: int, size: nat, age: nat)
    ensures Edge(start + size, size, age + 1) == Edge(start, size, age)
  {
    if age == 0 {
    } else {
      EdgeShifts(start, size, age - 1);
    }
  }

  lemma {:induction false} EarlierSlot(start: int, size: nat, age: nat, t: int)
    requires t < start + size && InSlot(start + size, size, age, t)
    ensures age > 0 && InSlot(start, size, age - 1, t)
  {
    if age > 0 {
      EdgeShifts(start, size, age - 1);
    }
  }

  lemma {:induction false} RotationTracks(bs: seq<Bucket>, bucket: nat,
      start: int, size: nat, floor: Duration, h: seq<Sample>)
    requires |bs| == BUCKETS && bucket < BUCKETS
    requires Tracks(bs, bucket, start, size, floor, h)
    ensures Tracks(bs[Next(bucket) := None], Next(bucket), start + size, size, floor, h)
  {
    var bs', k := bs[Next(bucket) := None], Next(bucket);
    forall age: nat | age < BUCKETS
      ensures Aged(bs', k, age) == if age == 0 then None else Aged(bs, bucket, age - 1)
    {}
    var next := start + size;
    forall i, age: nat | 0 <= i < |h| && age < BUCKETS && InSlot(next, size, age, h[i].at)
      ensures age > 0 && InSlot(start, size, age - 1, h[i].at)
    {
      EarlierSlot(start, size, age, h[i].at);
    }
    forall age: nat | age < BUCKETS && Aged(bs', k, age).Some?
      ensures exists i :: 0 <= i < |h| && InSlot(start + size, size, age, h[i].at)
                          && AtLeast(h[i].rtt, floor) == Aged(bs', k, age).value
    {
      var i :| 0 <= i < |h| && InSlot(start, size, age - 1, h[i].at)
               && AtLeast(h[i].rtt, floor) == Aged(bs, bucket, age - 1).value;
      EdgeShifts(start, size, age - 1);
    }
  }

  function Ahead(start: int, size: nat, steps: nat): int {
    if steps == 0 then start else Ahead(start, size, steps - 1) + size
  }

  lemma {:induction false} AheadIs(start: int, size: nat, steps: nat)
    ensures Ahead(start, size, steps) == start + size * steps
  {
    if steps == 0 {
    } else {
      AheadIs(start, size, steps - 1);
      Arithmetic.Distribute(size, steps - 1);
    }
  }

  lemma {:induction false} RotationsTrack(bs: seq<Bucket>, bucket: nat, start: int, size: nat, floor: Duration,
                                          h: seq<Sample>, steps: nat)
    requires |bs| == BUCKETS && bucket < BUCKETS
    requires Tracks(bs, bucket, start, size, floor, h)
    ensures var r := Rotated(bs, bucket, steps);
      Tracks(r.0, r.1, Ahead(start, size, steps), size, floor, h)
  {
    if steps == 0 {
    } else {
      RotationsTrack(bs, bucket, start, size, floor, h, steps - 1);
      var r := Rotated(bs, bucket, steps - 1);
      RotationTracks(r.0, r.1, Ahead(start, size, steps - 1), size, floor, h);
    }
  }

  /** Whole buckets elapsed since `start`, and where the current one begins. */
  lemma {:induction false} StepsElapsed(start: Instant, size: Interval, now: Instant)
    requires start <= now
    ensures var steps := Since(now, start) / size;
      && AddSat(start, SatMul(size, steps)) == start + size * steps <= now < start + size * steps + size
      && (steps >= BUCKETS ==> start + size <= now - 7 * size)
  {
    var steps := Since(now, start) / size;
    Arithmetic.Quotient(now - start, size);
    Arithmetic.CommuteProduct(size, steps);
    if steps >= BUCKETS {
      Arithmetic.ProductOrder(8, steps, size);
    }
  }

  /** After a full reset no earlier sample belongs to any slot. */
  lemma {:induction false} NothingRecent(h: seq<Sample>, now: Instant, size: Interval)
    requires forall i :: 0 <= i < |h| ==> h[i].at < now - 7 * size
    ensures forall i, age: nat :: 0 <= i < |h| && age < BUCKETS ==> !InSlot(now, size, age, h[i].at)
  {
    forall i, age: nat | 0 <= i < |h| && age < BUCKETS
      ensures !InSlot(now, size, age, h[i].at)
    {
      EdgesFall(now, size, age, 7);
      EdgeIs(now, size, 7);
    }
  }

  /** Advancing re-aligns the buckets so that `now` falls in the current one. */
  lemma {:induction false} AdvancingTracks(e: Estimator, h: seq<Sample>, now: Instant)
    requires e.Valid() && Agrees(e, h)
    requires forall i :: 0 <= i < |h| ==> h[i].at <= now
    ensures var a, size := Advanced(e, now), e.settings.BucketDuration();
      && a.started.Some? && a.started.value <= now < a.started.value + size
      && Tracks(a.buckets, a.bucket, a.started.value, size, e.settings.minRtt, h)
  {
    var size := e.settings.BucketDuration();
    if e.started.Some? {
      var start := e.started.value;
      var steps := Since(now, start) / size;
      StepsElapsed(start, size, now);
      if steps >= BUCKETS {
        NothingRecent(h, now, size);
      } else {
        RotationsTrack(e.buckets, e.bucket, start, size, e.settings.minRtt, h, steps);
        AheadIs(start, size, steps);
      }
    }
  }

  /** Recording a sample in the current bucket. */
  lemma {:induction false} RecordingTracks(bs: seq<Bucket>, bucket: nat,
      start: int, size: nat, floor: Duration, h: seq<Sample>, x: Sample)
    requires |bs| == BUCKETS && bucket < BUCKETS && start <= x.at < start + size
    requires Tracks(bs, bucket, start, size, floor, h)
    ensures Tracks(bs[bucket := Lower(bs[bucket], AtLeast(x.rtt, floor))], bucket, start, size, floor, h + [x])
  {
    var v := AtLeast(x.rtt, floor);
    var bs', h' := bs[bucket := Lower(bs[bucket], v)], h + [x];
    forall age: nat | age < BUCKETS
      ensures Aged(bs', bucket, age) == if age == 0 then Lower(Aged(bs, bucket, 0), v) else Aged(bs, bucket, age)
    {}
    forall age: nat | age < BUCKETS && InSlot(start, size, age, x.at)
      ensures age == 0
    {
      if age > 0 {
        EdgesFall(start, size, 1, age);
      }
    }
    forall age: nat | age < BUCKETS && Aged(bs', bucket, age).Some?
      ensures exists i :: 0 <= i < |h'| && InSlot(start, size, age, h'[i].at)
                          && AtLeast(h'[i].rtt, floor) == Aged(bs', bucket, age).value
    {
      if Aged(bs, bucket, age) == Aged(bs', bucket, age) {
        var i :| 0 <= i < |h| && InSlot(start, size, age, h[i].at)
                 && AtLeast(h[i].rtt, floor) == Aged(bs, bucket, age).value;
        assert h'[i] == h[i];
      } else {
        assert h'[|h|] == x;
      }
    }
  }

  lemma {:induction false} ObservingAgrees(e: Estimator, h: seq<Sample>, x: Sample)
    requires e.Valid() && Agrees(e, h)
    requires forall i :: 0 <= i < |h| ==> h[i].at <= x.at
    ensures var o := Observed(e, x.rtt, x.at);
      Agrees(o, h + [x]) && x.at < o.started.value + o.settings.BucketDuration()
  {
    var smoothed := e.(
      short := Ewma(e.short, AtLeast(x.rtt, e.settings.minRtt) as real, e.settings.shortAlpha),
      long := Ewma(e.long, AtLeast(x.rtt, e.settings.minRtt) as real, e.settings.longAlpha));
    AdvancingTracks(smoothed, h, x.at);
    var a := Advanced(smoothed, x.at);
    RecordingTracks(a.buckets, a.bucket, a.started.value, e.settings.BucketDuration(), e.settings.minRtt, h, x);
  }

  lemma {:induction false} HistoryAgrees(s: Settings, h: seq<Sample>)
    requires s.Valid() && Ordered(h)
    ensures var e := ObserveAll(Fresh(s), h);
      && Agrees(e, h) && e.settings == s
      && (h != [] ==> h[|h| - 1].at < e.started.value + s.BucketDuration())
  {
    if h == [] {
    } else {
      var last := |h| - 1;
      HistoryAgrees(s, h[..last]);
      ObservingAgrees(ObserveAll(Fresh(s), h[..last]), h[..last], h[last]);
      assert h[..last] + [h[last]] == h;
    }
  }

  lemma {:induction false} LeastIsLeast(bs: seq<Bucket>)
    ensures forall i :: 0 <= i < |bs| && bs[i].Some? ==> Least(bs).Some? && Least(bs).value <= bs[i].value
    ensures Least(bs).Some? ==> exists i :: 0 <= i < |bs| && bs[i] == Least(bs)
  {
    if bs == [] {
    } else {
      LeastIsLeast(bs[1..]);
      var rest := Least(bs[1..]);
      forall i | 0 <= i < |bs| && bs[i].Some?
        ensures Least(bs).Some? && Least(bs).value <= bs[i].value
      {
        if i > 0 {
          assert bs[1..][i - 1] == bs[i];
        }
      }
      if rest.Some? {
        var i :| 0 <= i < |bs[1..]| && bs[1..][i] == rest;
        assert bs[i + 1] == rest;
      }
    }
  }

  /** Which slot a sample of the last few bucket durations is in. */
  lemma {:induction false} SlotOf(start: int, size: nat, t: int, oldest: nat) returns (age: nat)
    requires Edge(start, size, oldest) <= t < start + size
    ensures age <= oldest && InSlot(start, size, age, t)
  {
    age := oldest;
    if oldest > 0 && Edge(start, size, oldest - 1) <= t {
      age := SlotOf(start, size, t, oldest - 1);
    }
  }

  /** Every filled bucket holds a sample of the last eight bucket durations. */
  lemma {:induction false} BucketHasSample(bs: seq<Bucket>, bucket: nat,
      start: int, size: nat, floor: Duration, h: seq<Sample>, b: nat)
    requires |bs| == BUCKETS && bucket < BUCKETS && b < BUCKETS && bs[b].Some?
    requires Tracks(bs, bucket, start, size, floor, h)
    ensures exists i :: 0 <= i < |h| && start - 7 * size <= h[i].at && AtLeast(h[i].rtt, floor) == bs[b].value
  {
    var age := (bucket + BUCKETS - b) % BUCKETS;
    assert Aged(bs, bucket, age) == bs[b];
    var i :| 0 <= i < |h| && InSlot(start, size, age, h[i].at) && AtLeast(h[i].rtt, floor) == bs[b].value;
    EdgesFall(start, size, age, 7);
    EdgeIs(start, size, 7);
  }

  /** Every sample of the last seven bucket durations bounds a filled bucket. */
  lemma {:induction false} SampleHasBucket(bs: seq<Bucket>, bucket: nat,
      start: int, size: Interval, floor: Duration, h: seq<Sample>,
                        now: Instant, i: nat)
    requires |bs| == BUCKETS && bucket < BUCKETS && i < |h|
    requires Tracks(bs, bucket, start, size, floor, h)
    requires start <= now < start + size && now - h[i].at <= 7 * size
    ensures exists b :: 0 <= b < BUCKETS && bs[b].Some? && bs[b].value <= AtLeast(h[i].rtt, floor)
  {
    EdgeIs(start, size, 7);
    var age := SlotOf(start, size, h[i].at, 7);
    assert Aged(bs, bucket, age).Some?;
  }

  /** The stored baseline is the least bucket; clamping it changes nothing. */
  lemma {:induction false} BaselineIsLeast(s: Settings, h: seq<Sample>)
    requires s.Valid() && Ordered(h) && h != []
    ensures var e := ObserveAll(Fresh(s), h);
      e.baseline == Least(e.buckets) && e.baseline.Some? && BaselineRtt(e) == e.baseline.value
  {
    HistoryAgrees(s, h);
    var e, now := ObserveAll(Fresh(s), h), h[|h| - 1].at;
    var start, size := e.started.value, s.BucketDuration();
    LeastIsLeast(e.buckets);
    SampleHasBucket(e.buckets, e.bucket, start, size, s.minRtt, h, now, |h| - 1);
    var b :| 0 <= b < |e.buckets| && e.buckets[b] == Least(e.buckets);
    BucketHasSample(e.buckets, e.bucket, start, size, s.minRtt, h, b);
  }

  /** After any samples in time order, the baseline is the (clamped) value of a
      sample younger than eight bucket durations, and no sample of age up to
      seven bucket durations is below it. */
  lemma {:induction false} RollingMinimum(s: Settings, h: seq<Sample>)
    requires s.Valid() && Ordered(h) && h != []
    ensures var baseline, now, size := BaselineRtt(ObserveAll(Fresh(s), h)), h[|h| - 1].at, s.BucketDuration();
      && (forall i :: 0 <= i < |h| && now - h[i].at <= 7 * size ==> baseline <= AtLeast(h[i].rtt, s.minRtt))
      && (exists i :: 0 <= i < |h| && now - h[i].at < 8 * size && baseline == AtLeast(h[i].rtt, s.minRtt))
  {
    HistoryAgrees(s, h);
    BaselineIsLeast(s, h);
    var e, now, size := ObserveAll(Fresh(s), h), h[|h| - 1].at, s.BucketDuration();
    var start := e.started.value;
    LeastIsLeast(e.buckets);
    forall i | 0 <= i < |h| && now - h[i].at <= 7 * size
      ensures e.baseline.value <= AtLeast(h[i].rtt, s.minRtt)
    {
      SampleHasBucket(e.buckets, e.bucket, start, size, s.minRtt, h, now, i);
    }
    var b :| 0 <= b < |e.buckets| && e.buckets[b] == e.baseline;
    BucketHasSample(e.buckets, e.bucket, start, size, s.minRtt, h, b);
  }

  // ---- The two smoothed estimates -------------------------------------------

  /** Every sample counts as `v`: it is `v`, or lies below the minimum RTT `v`. */
  predicate CountsAs(h: seq<Sample>, minRtt: Duration, v: Duration) {
    forall i :: 0 <= i < |h| ==> v == if h[i].rtt < minRtt then minRtt else h[i].rtt
  }

  /** One sample takes each estimate towards it by its own weight. */
  lemma ObservingMoves(e: Estimator, sample: Duration, now: Instant)
    requires e.Valid()
    ensures var r := Observed(e, sample, now);
      var v := (if sample < e.settings.minRtt then e.settings.minRtt else sample) as real;
      && r.settings == e.settings && r.samples == e.samples + 1
      && Arithmetic.Keeps(e.long, r.long, v, 1.0 - e.settings.longAlpha)
      && Arithmetic.Keeps(e.short, r.short, v, 1.0 - e.settings.shortAlpha)
  {
    hide Rotated, Least;
  }

  /** After n samples of the same value each estimate has kept exactly the n-th
      power of one minus its weight of its distance from that value. */
  lemma {:induction false} EstimatesConverge(e: Estimator, h: seq<Sample>, v: Duration)
    requires e.Valid() && CountsAs(h, e.settings.minRtt, v)
    ensures var r := ObserveAll(e, h);
      && r.settings == e.settings && r.samples == e.samples + |h|
      && Arithmetic.Keeps(e.long, r.long, v as real, Arithmetic.Power(1.0 - e.settings.longAlpha, |h|))
      && Arithmetic.Keeps(e.short, r.short, v as real, Arithmetic.Power(1.0 - e.settings.shortAlpha, |h|))
    decreases |h|
  {
    hide Observed, Arithmetic.Keeps;
    if h == [] {
      Arithmetic.KeepsNothing(e.long, v as real, 1.0 - e.settings.longAlpha);
      Arithmetic.KeepsNothing(e.short, v as real, 1.0 - e.settings.shortAlpha);
    } else {
      var n := |h| - 1;
      var r, s := ObserveAll(e, h[..n]), e.settings;
      assert CountsAs(h[..n], s.minRtt, v);
      EstimatesConverge(e, h[..n], v);
      ObservingMoves(r, h[n].rtt, h[n].at);
      var d := ObserveAll(e, h);
      Arithmetic.KeepsPower(e.long, r.long, d.long, v as real, 1.0 - s.longAlpha, n);
      Arithmetic.KeepsPower(e.short, r.short, d.short, v as real, 1.0 - s.shortAlpha, n);
    }
  }
}
