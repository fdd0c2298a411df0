/** What a load reading promises about the reservation it priced. */
module Prediction {
  import opened Clock
  import opened Gcra
  import opened ControllerModel
  import opened VirtualQueue
  import opened ControllerRuns
  import opened Ledgers
  import Latency

  lemma PositionOf(pending: seq<Pending>, i: nat, nextId: nat)
    requires OrderedIds(pending, nextId) && i < |pending|
    ensures Holds(pending, pending[i].id) && Position(pending, pending[i].id) == i
  {}

  /** A load reading prices exactly the slot that a reservation made right
      after it receives. */
  lemma LoadPricesTheSlot(c: State, now: Instant)
    requires Healthy(c) && Cached(c, now)
    ensures var (d, price) := Load(c, now);
      var (e, r) := Reserved(d, now);
      r.Ok? ==>
        && Holds(e.pending, r.value.id)
        && var slot := e.pending[Position(e.pending, r.value.id)].slot;
           now <= slot && price == Since(AddSat(slot, Latency.ExpectedRtt(e.latency)), now)
  {
    hide Refreshed;
    RefreshingCaches(c, now);
    var d := Refreshed(c, now);
    var (e, r) := Reserved(d, now);
    if r.Ok? {
      PositionOf(e.pending, |d.pending|, e.nextId);
    }
  }

  /** The queued entry `j` keeps its id and is due no earlier than before. */
  ghost predicate NoEarlier(c: State, i: nat, d: State, j: nat)
    requires i < |c.pending|
  {
    j < |d.pending| && d.pending[j].id == c.pending[i].id && d.pending[j].slot >= c.pending[i].slot
  }

  lemma RetimingDelays(c: State, interval: Interval, now: Instant, i: nat)
    requires Cached(c, now) && interval >= c.pacer.interval && i < |c.pending|
    ensures NoEarlier(c, i, Retimed(c, interval, now), i)
  {
    SlowingKeepsWait(c.pacer, interval, now);
    ScheduleIsMonotone(NextAt(c.pacer, now), c.pacer.interval,
                       NextAt(SetInterval(c.pacer, interval, now), now), interval, i);
  }

  lemma RefreshingDelays(c: State, now: Instant, i: nat)
    requires Healthy(c) && Cached(c, now) && i < |c.pending|
    requires Refreshed(c, now).pacer.interval >= c.pacer.interval
    ensures NoEarlier(c, i, Refreshed(c, now), i)
  {
    var e := Prepared(c, now);
    RefreshIsRetiming(c, now);
    RetimingDelays(e, IntervalAt(e, now), now, i);
  }

  lemma RateUpdateDelays(c: State, now: Instant, i: nat)
    requires Healthy(c) && Cached(c, now) && i < |c.pending|
    requires RateUpdated(c, now).pacer.interval >= c.pacer.interval
    ensures NoEarlier(c, i, RateUpdated(c, now), i)
  {
    var e := WithoutExpiredProbe(c, now);
    RetimingDelays(e, IntervalAt(e, now), now, i);
  }

  /** Dispatching the head leaves every later slot where the pacer had it. */
  lemma StartingDelays(d: State, now: Instant, i: nat)
    requires Cached(d, now) && 0 < i < |d.pending|
    ensures NoEarlier(d, i, Started(d, now).0, i - 1)
  {
    var next := NextAt(d.pacer, now);
    ScheduleShifts(next, d.pacer.interval, i - 1);
  }

  lemma CancellingDelays(c: State, r: Reservation, now: Instant, i: nat)
    requires Cached(c, now) && i < |c.pending|
    requires r.owner == c.id ==> i <= Position(c.pending, r.id)
    requires !(r.owner == c.id && c.pending[i].id == r.id)
    ensures NoEarlier(c, i, CancelledOne(c, r, now).0, i)
  {
    var removed := Position(c.pending, r.id);
  }

  lemma CheckingDelays(c: State, r: Reservation, now: Instant, i: nat)
    requires Healthy(c) && Cached(c, now) && i < |c.pending|
    requires Checked(c, r, now).0.pacer.interval >= c.pacer.interval
    ensures NoEarlier(c, i, Checked(c, r, now).0, i)
  {
    hide Refreshed;
    CheckIs(c, r, now);
    if AtHead(c, r) {
      RefreshingDelays(c, now, i);
    }
  }

  lemma DispatchingDelays(c: State, r: Reservation, now: Instant, i: nat)
    requires Healthy(c) && Cached(c, now) && i < |c.pending|
    requires Step(c, Dispatch(r), now).0.pacer.interval >= c.pacer.interval
    ensures var (d, note) := Step(c, Dispatch(r), now);
      if !note.NewDispatch? then NoEarlier(c, i, d, i)
      else if i > 0 then NoEarlier(c, i, d, i - 1)
      else r.owner == c.id && r.id == c.pending[0].id && c.pending[0].slot <= now
  {
    hide Refreshed;
    CheckIs(c, r, now);
    RefreshingCaches(c, now);
    var (d, state) := Checked(c, r, now);
    CheckingDelays(c, r, now, i);
    if state == Ready && i > 0 {
      StartingDelays(d, now, i);
    }
  }

  lemma CompletingDelays(c: State, token: InFlight, outcome: Outcome, rtt: Duration, now: Instant, i: nat)
    requires Healthy(c) && Cached(c, now) && i < |c.pending|
    requires Permitted(c, Complete(token, outcome, rtt)) && token.owner == c.id
    requires Step(c, Complete(token, outcome, rtt), now).0.pacer.interval >= c.pacer.interval
    ensures NoEarlier(c, i, Step(c, Complete(token, outcome, rtt), now).0, i)
  {
    var e := Learned(c.(completed := c.completed + 1), token, outcome, rtt, now);
    LearningTouches(c.(completed := c.completed + 1), token, outcome, rtt, now);
    hide Learned, RateUpdated;
    CompletionIs(c, token, outcome, rtt, now);
    RateUpdateDelays(Released(e, EpochAfterFeedback(e, now)), now, i);
  }

  /** The operation cancels a reservation ahead of position `i`. */
  predicate CancelsAhead(c: State, op: Op, i: nat) {
    op.Cancel? && op.r.owner == c.id && Position(c.pending, op.r.id) < i
  }

  /** The operation takes the reservation at position `i` out of the queue. */
  predicate Withdraws(c: State, op: Op, i: nat)
    requires i < |c.pending|
  {
    op.Cancel? && op.r == Reservation(c.id, c.pending[i].id)
  }

  lemma Unmoved(c: State, d: State, i: nat)
    requires i < |c.pending| && c.pending <= d.pending
    ensures NoEarlier(c, i, d, i)
  {}

  lemma SlotsMatch(c: State, d: State, i: nat, e: State, j: nat)
    requires i < |c.pending| && c.pending == d.pending && NoEarlier(d, i, e, j)
    ensures NoEarlier(c, i, e, j)
  {}

  /** While the spacing does not shrink and nothing ahead is cancelled, one
      operation leaves a queued reservation where it is or moves it up one
      place, never to an earlier slot, and dispatches it only when its slot has
      come. */
  lemma StepDelays(c: State, op: Op, now: Instant, i: nat)
    requires Healthy(c) && Cached(c, now) && Permitted(c, op) && i < |c.pending|
    requires Step(c, op, now).0.pacer.interval >= c.pacer.interval
    requires !CancelsAhead(c, op, i) && !Withdraws(c, op, i)
    ensures var (d, note) := Step(c, op, now);
      if !note.NewDispatch? then NoEarlier(c, i, d, i)
      else if i > 0 then NoEarlier(c, i, d, i - 1)
      else op == Dispatch(Reservation(c.id, c.pending[0].id)) && c.pending[0].slot <= now
  {
    hide RateUpdated, Refreshed, Learned, Rebuilt, Started, NoEarlier;
    match op
    case Cancel(r) => CancellingDelays(c, r, now, i);
    case Check(r) => CheckingDelays(c, r, now, i);
    case Dispatch(r) => DispatchingDelays(c, r, now, i);
    case Complete(token, outcome, rtt) =>
      if token.owner == c.id {
        CompletionIs(c, token, outcome, rtt, now);
        CompletingDelays(c, token, outcome, rtt, now, i);
      } else {
        Unmoved(c, c, i);
      }
    case Abandon(token) =>
      if token.owner == c.id {
        var d := Penalised(c, now);
        RateUpdateDelays(Released(d, if d.inflight > 1 then d.epoch else None), now, i);
        Unmoved(c, Released(d, if d.inflight > 1 then d.epoch else None), i);
        SlotsMatch(c, Released(d, if d.inflight > 1 then d.epoch else None), i, Step(c, op, now).0, i);
      } else {
        Unmoved(c, c, i);
      }
    case FailAdmission =>
      RateUpdateDelays(Penalised(c, now), now, i);
      SlotsMatch(c, Penalised(c, now), i, Step(c, op, now).0, i);
    case Refresh => RefreshingDelays(c, now, i);
    case Reserve => Unmoved(c, Step(c, op, now).0, i);
    case Take => Unmoved(c, Step(c, op, now).0, i);
  }

  /** Every step of the run keeps to the terms of the prediction for `id`. */
  ghost predicate Steady(w: World, es: seq<Event>, id: nat)
    requires Sound(w) && Runs(w, es)
    decreases |es|
  {
    if es == [] then true
    else
      NextIsSound(w, es[0]);
      var v := Next(w, es[0]);
      && v.c.pacer.interval >= w.c.pacer.interval
      && (Holds(w.c.pending, id) ==>
            !CancelsAhead(w.c, es[0].op, Position(w.c.pending, id)) && !Withdraws(w.c, es[0].op, Position(w.c.pending, id)))
      && Steady(v, es[1..], id)
  }

  /** When the run takes `id` off the queue. */
  function LeavesAt(w: World, es: seq<Event>, id: nat): Option<Instant>
    requires Sound(w) && Runs(w, es)
    decreases |es|
  {
    if es == [] || !Holds(w.c.pending, id) then None
    else
      NextIsSound(w, es[0]);
      var v := Next(w, es[0]);
      if !Holds(v.c.pending, id) then Some(es[0].at) else LeavesAt(v, es[1..], id)
  }

  function SlotOf(c: State, id: nat): Instant
    requires Holds(c.pending, id)
  {
    c.pending[Position(c.pending, id)].slot
  }

  /** A dispatch takes its own reservation off the queue. */
  lemma DispatchedIsGone(c: State, op: Op, now: Instant, id: nat)
    requires Healthy(c) && Cached(c, now) && Permitted(c, op) && Step(c, op, now).1.NewDispatch?
    requires c.pending != [] && c.pending[0].id == id
    ensures !Holds(Step(c, op, now).0.pending, id)
  {
    hide Refreshed;
    CheckIs(c, op.r, now);
    RefreshingCaches(c, now);
  }

  lemma StepDelaysById(w: World, e: Event, id: nat)
    requires Sound(w) && Allowed(w, e) && Holds(w.c.pending, id) && Next(w, e).c.pacer.interval >= w.c.pacer.interval
    requires var i := Position(w.c.pending, id); !CancelsAhead(w.c, e.op, i) && !Withdraws(w.c, e.op, i)
    ensures Sound(Next(w, e))
    ensures var v := Next(w, e);
      if Holds(v.c.pending, id) then SlotOf(v.c, id) >= SlotOf(w.c, id) else SlotOf(w.c, id) <= e.at
  {
    hide Step, CancelsAhead, Withdraws, Balanced;
    var i := Position(w.c.pending, id);
    AllowedIsPermitted(w, e);
    NextIsSound(w, e);
    StepDelays(w.c, e.op, e.at, i);
    var v := Next(w, e);
    if Step(w.c, e.op, e.at).1.NewDispatch? {
      if i > 0 {
        PositionOf(v.c.pending, i - 1, v.c.nextId);
      } else if Holds(v.c.pending, id) {
        DispatchedIsGone(w.c, e.op, e.at, id);
      }
    } else {
      PositionOf(v.c.pending, i, v.c.nextId);
    }
  }

  /** In every run in which the spacing never shrinks and no earlier
      reservation is cancelled, a reservation's slot never falls, so it is
      never dispatched before the slot that was predicted for it. */
  lemma {:induction false} PredictionHolds(w: World, es: seq<Event>, id: nat, slot: Instant)
    requires Sound(w) && Runs(w, es) && Steady(w, es, id)
    requires Holds(w.c.pending, id) && slot <= SlotOf(w.c, id)
    ensures match LeavesAt(w, es, id)
      case Some(at) => slot <= at
      case None => Holds(After(w, es).c.pending, id) && slot <= SlotOf(After(w, es).c, id)
    decreases |es|
  {
    hide Step, CancelsAhead, Withdraws, Balanced, Healthy, SlotOf, Holds;
    if es == [] {
    } else {
      StepDelaysById(w, es[0], id);
      var v := Next(w, es[0]);
      if Holds(v.c.pending, id) {
        PredictionHolds(v, es[1..], id, slot);
      }
    }
  }
}
