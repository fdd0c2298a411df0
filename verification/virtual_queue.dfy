/** The slots of the queue are an exact cache of what the pacer will grant. */
module VirtualQueue {
  import opened Clock
  import opened Gcra
  import opened ControllerModel
  import Arithmetic

  predicate OrderedIds(pending: seq<Pending>, nextId: nat) {
    && (forall i, j :: 0 <= i < j < |pending| ==> pending[i].id < pending[j].id)
    && (forall i :: 0 <= i < |pending| ==> pending[i].id < nextId)
  }

  /** The head lies between the pacer's arrival time and the present, slots are
      at least one interval apart, and none lies beyond the pacer's schedule. */
  predicate SlotsCached(pending: seq<Pending>, pacer: Pacer, now: Instant) {
    && (pending != [] ==> pacer.tat <= pending[0].slot)
    && (forall i :: 0 < i < |pending| ==> AddSat(pending[i - 1].slot, pacer.interval) <= pending[i].slot)
    && (forall i :: 0 <= i < |pending| ==> pending[i].slot <= SlotAt(NextAt(pacer, now), pacer.interval, i))
  }

  predicate Cached(c: State, now: Instant) {
    && |c.pending| <= c.config.queueCapacity
    && c.nextId <= U64_MAX
    && OrderedIds(c.pending, c.nextId)
    && SlotsCached(c.pending, c.pacer, now)
  }

  /** The pacer's schedule in closed form: repeated saturating additions of the
      interval are one saturating addition. */
  lemma {:induction false} ScheduleInClosedForm(next: Instant, interval: Interval, i: nat)
    ensures SlotAt(next, interval, i) == AddSat(next, interval * i)
  {
    if i == 0 {
    } else {
      ScheduleInClosedForm(next, interval, i - 1);
      Arithmetic.Distribute(interval, i - 1);
    }
  }

  lemma {:induction false} ScheduleIsMonotone(next: Instant, interval: Interval, next': Instant, interval': Interval,
      i: nat)
    requires next <= next' && interval <= interval'
    ensures next <= SlotAt(next, interval, i) <= SlotAt(next', interval', i)
  {
    if i == 0 {
    } else {
      ScheduleIsMonotone(next, interval, next', interval', i - 1);
    }
  }

  lemma {:induction false} ScheduleShifts(next: Instant, interval: Interval, i: nat)
    ensures SlotAt(AddSat(next, interval), interval, i) == SlotAt(next, interval, i + 1)
  {
    if i == 0 {
    } else {
      ScheduleShifts(next, interval, i - 1);
    }
  }

  lemma TimePasses(pending: seq<Pending>, pacer: Pacer, now: Instant, later: Instant)
    requires SlotsCached(pending, pacer, now) && now <= later
    ensures SlotsCached(pending, pacer, later)
  {
    forall i | 0 <= i < |pending|
      ensures pending[i].slot <= SlotAt(NextAt(pacer, later), pacer.interval, i)
    {
      ScheduleIsMonotone(NextAt(pacer, now), pacer.interval, NextAt(pacer, later), pacer.interval, i);
    }
  }

  lemma RebuildingCaches(pending: seq<Pending>, pacer: Pacer, now: Instant)
    ensures SlotsCached(Rebuilt(pending, NextAt(pacer, now), pacer.interval), pacer, now)
  {}

  lemma AppendingCaches(pending: seq<Pending>, pacer: Pacer, now: Instant, last: Pending)
    requires SlotsCached(pending, pacer, now)
    requires pending == [] ==> last.slot == NextAt(pacer, now)
    requires pending != [] ==> last.slot == Later(AddSat(pending[|pending| - 1].slot, pacer.interval), now)
    ensures SlotsCached(pending + [last], pacer, now)
  {
    ScheduleIsMonotone(NextAt(pacer, now), pacer.interval, NextAt(pacer, now), pacer.interval, |pending|);
  }

  lemma ReservingCaches(c: State, now: Instant)
    requires Cached(c, now)
    ensures Cached(Reserved(c, now).0, now)
  {
    if Reserved(c, now).1.Ok? {
      AppendingCaches(c.pending, c.pacer, now, Pending(c.nextId, NextVirtualSlot(c, now), false));
    }
  }

  lemma RemovingKeepsOrder(pending: seq<Pending>, nextId: nat, i: nat)
    requires i < |pending| && OrderedIds(pending, nextId)
    ensures OrderedIds(pending[..i] + pending[i + 1..], nextId)
  {}

  lemma CancellingCaches(c: State, r: Reservation, now: Instant)
    requires Cached(c, now)
    ensures Cached(CancelledOne(c, r, now).0, now)
  {
    hide SlotsCached, SlotAt;
    var (d, removed) := CancelledOne(c, r, now);
    if removed {
      var i := Position(c.pending, r.id);
      RemovingKeepsOrder(c.pending, c.nextId, i);
      RebuildingCaches(c.pending[..i] + c.pending[i + 1..], c.pacer, now);
    }
  }

  /** After a rate refresh the head's slot is exactly what the pacer grants. */
  lemma RetimingCaches(c: State, interval: Interval, now: Instant)
    requires Cached(c, now)
    ensures var d := Retimed(c, interval, now);
      Cached(d, now) && (d.pending != [] ==> d.pending[0].slot == NextAt(d.pacer, now))
  {
    RebuildingCaches(c.pending, SetInterval(c.pacer, interval, now), now);
  }

  lemma StartingCaches(d: State, now: Instant)
    requires Cached(d, now) && d.pending != []
    ensures Cached(Started(d, now).0, now)
  {
    RebuildingCaches(d.pending[1..], Committed(d.pacer, now), now);
  }

  /** A refresh touches only the probe, the pacer, the slots and the flags. */
  ghost predicate RefreshKeeps(c: State, d: State) {
    && d == c.(probe := d.probe, rng := d.rng, pacer := d.pacer, pending := d.pending, changes := d.changes)
    && |d.pending| == |c.pending|
    && forall i :: 0 <= i < |c.pending| ==> d.pending[i] == c.pending[i].(slot := d.pending[i].slot)
  }

  lemma RetimingKeeps(c: State, interval: Interval, now: Instant)
    ensures RefreshKeeps(c, Retimed(c, interval, now))
  {}

  /** A refresh is a probe decision followed by one rate change. */
  lemma RefreshIsRetiming(c: State, now: Instant)
    requires Healthy(c)
    ensures var d := Refreshed(c, now);
      d == Retimed(Prepared(c, now), IntervalAt(Prepared(c, now), now), now).(changes := d.changes)
  {
    var d := Prepared(c, now);
    assert WithoutExpiredProbe(d, now) == d;
  }

  lemma RefreshingCaches(c: State, now: Instant)
    requires Healthy(c) && Cached(c, now)
    ensures var d := Refreshed(c, now);
      && RefreshKeeps(c, d) && Healthy(d) && Cached(d, now)
      && (d.pending != [] ==> d.pending[0].slot == NextAt(d.pacer, now))
  {
    var e := Prepared(c, now);
    RefreshIsRetiming(c, now);
    RetimingKeeps(e, IntervalAt(e, now), now);
    RetimingCaches(e, IntervalAt(e, now), now);
  }

  lemma RateUpdateCaches(c: State, now: Instant)
    requires Healthy(c) && Cached(c, now)
    ensures var d := RateUpdated(c, now);
      && RefreshKeeps(c, d) && Healthy(d) && Cached(d, now)
      && (d.pending != [] ==> d.pending[0].slot == NextAt(d.pacer, now))
  {
    var e := WithoutExpiredProbe(c, now);
    RetimingKeeps(e, IntervalAt(e, now), now);
    RetimingCaches(e, IntervalAt(e, now), now);
  }

  /** Ready means: at the head, below the cap, and due at the pacer. */
  lemma ReadyExactly(c: State, r: Reservation, now: Instant)
    requires Healthy(c) && Cached(c, now)
    ensures Checked(c, r, now).1 == Ready <==>
      && r.owner == c.id && c.pending != [] && c.pending[0].id == r.id
      && c.inflight < c.config.maxInflight
      && Refreshed(c, now).pacer.tat <= now
  {
    RefreshingCaches(c, now);
  }

  /** After a refresh, the next probe transition lies strictly ahead. */
  lemma TransitionIsAhead(c: State, now: Instant)
    requires Healthy(c) && now < MAX_INSTANT
    ensures var next := NextRefreshAt(Refreshed(c, now));
      next.Some? ==> now < next.value
  {}

  /** A deadline is strictly in the future, and it is the earlier of the
      pacer's own arrival time and the next probe transition. */
  lemma DeadlineExactly(c: State, r: Reservation, now: Instant)
    requires Healthy(c) && Cached(c, now)
    requires Checked(c, r, now).1.WaitUntil?
    ensures var (d, deadline) := (Refreshed(c, now), Checked(c, r, now).1.at);
      && now < deadline <= d.pacer.tat == d.pending[0].slot
      && (deadline == d.pacer.tat || NextRefreshAt(d) == Some(deadline))
      && (NextRefreshAt(d).Some? ==> deadline <= NextRefreshAt(d).value)
  {
    RefreshingCaches(c, now);
    TransitionIsAhead(c, now);
  }
}
