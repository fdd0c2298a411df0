/** Reserving at the cheaper of two endpoints. */
module Pairs {
  import opened Clock
  import opened ControllerModel
  import opened VirtualQueue
  import opened ControllerRuns
  import opened QueueIds
  import opened Controller

  datatype PairChoice = First | Second

  datatype PairResult = PairResult(first: State, second: State, outcome: Result<(PairChoice, Reservation), ScheduleError>)

  function PairReserved(first: State, second: State, now: Instant): PairResult
    requires Healthy(first) && Healthy(second)
  {
    var (a, aLoad) := Load(first, now);
    var (b, bLoad) := Load(second, now);
    var (c, atFirst) := Reserved(a, now);
    var (d, atSecond) := Reserved(b, now);
    if aLoad <= bLoad then
      if atFirst.Ok? then PairResult(c, b, Ok((First, atFirst.value)))
      else PairResult(a, d, match atSecond case Ok(r) => Ok((Second, r)) case Err(e) => Err(e))
    else
      if atSecond.Ok? then PairResult(a, d, Ok((Second, atSecond.value)))
      else PairResult(c, b, match atFirst case Ok(r) => Ok((First, r)) case Err(e) => Err(e))
  }

  lemma RejectionChangesNothing(c: State, now: Instant)
    ensures Reserved(c, now).1.Err? ==> Reserved(c, now).0 == c
  {}

  method ReservePair(first: EndpointController, second: EndpointController, now: Instant)
    returns (outcome: Result<(PairChoice, Reservation), ScheduleError>)
    requires first.Valid() && second.Valid() && first.Repr !! second.Repr
    modifies first.Repr, second.Repr
    ensures PairResult(first.Model(), second.Model(), outcome)
            == PairReserved(old(first.Model()), old(second.Model()), now)
  {
    hide Load, Reserved, Healthy;
    var firstLoad := first.LoadAt(now);
    var secondLoad := second.LoadAt(now);
    RejectionChangesNothing(first.Model(), now);
    RejectionChangesNothing(second.Model(), now);
    if firstLoad <= secondLoad {
      var r := first.Reserve(now);
      if r.Ok? {
        return Ok((First, r.value));
      }
      var s := second.Reserve(now);
      return match s case Ok(t) => Ok((Second, t)) case Err(e) => Err(e);
    } else {
      var r := second.Reserve(now);
      if r.Ok? {
        return Ok((Second, r.value));
      }
      var s := first.Reserve(now);
      return match s case Ok(t) => Ok((First, t)) case Err(e) => Err(e);
    }
  }

  lemma LoadKeepsQueue(c: State, now: Instant)
    requires Healthy(c) && Cached(c, now)
    ensures var d := Load(c, now).0;
      && Healthy(d) && Cached(d, now) && SameIds(c.pending, d.pending)
      && d.id == c.id && d.config == c.config && d.nextId == c.nextId
  {
    hide Refreshed;
    RefreshingCaches(c, now);
  }

  /** `d` holds the same reservations as `c`, and `r` besides. */
  ghost predicate Gained(c: State, d: State, r: Reservation) {
    && r.owner == c.id && !Holds(c.pending, r.id)
    && |d.pending| == |c.pending| + 1
    && forall id :: Holds(d.pending, id) <==> Holds(c.pending, id) || id == r.id
  }

  predicate CanReserve(c: State) {
    MaySchedule(c) && c.nextId < U64_MAX
  }

  lemma LoadedReserve(c: State, now: Instant)
    requires Healthy(c) && Cached(c, now)
    ensures var d := Load(c, now).0;
      var (e, result) := Reserved(d, now);
      && SameIds(c.pending, d.pending)
      && (result.Ok? <==> CanReserve(c))
      && (match result case Ok(r) => Gained(c, e, r) case Err(_) => e == d)
  {
    hide Load, NextVirtualSlot;
    LoadKeepsQueue(c, now);
    var d := Load(c, now).0;
    StepQueue(d, Reserve, now);
    SameIdsHold(c.pending, d.pending);
  }

  /** A pair reservation succeeds exactly when one of the two has room; then it
      adds one reservation to the cheaper endpoint, or to the other one if the
      cheaper one has no room, and leaves the remaining queue alone. A failure
      leaves both queues alone. */
  lemma PairReservesOnce(first: State, second: State, now: Instant)
    requires Healthy(first) && Cached(first, now) && Healthy(second) && Cached(second, now)
    ensures var p := PairReserved(first, second, now);
      && (p.outcome.Ok? <==> CanReserve(first) || CanReserve(second))
      && match p.outcome
         case Ok((First, r)) =>
           && Gained(first, p.first, r) && SameIds(second.pending, p.second.pending)
           && (Load(first, now).1 <= Load(second, now).1 || !CanReserve(second))
         case Ok((Second, r)) =>
           && Gained(second, p.second, r) && SameIds(first.pending, p.first.pending)
           && (Load(second, now).1 < Load(first, now).1 || !CanReserve(first))
         case Err(_) =>
           SameIds(first.pending, p.first.pending) && SameIds(second.pending, p.second.pending)
  {
    hide Load, Reserved;
    LoadedReserve(first, now);
    LoadedReserve(second, now);
  }

  /** A reservation that is cancelled again leaves the queue as it was. */
  lemma CancelUndoesReserve(c: State, now: Instant, later: Instant)
    requires Healthy(c) && Cached(c, now) && now <= later
    ensures var (d, result) := Reserved(c, now);
      result.Ok? ==>
        var (e, removed) := CancelledOne(d, result.value, later);
        removed && Healthy(e) && Cached(e, later) && forall id :: Holds(e.pending, id) == Holds(c.pending, id)
  {
    hide NextVirtualSlot, CancelledOne;
    var (d, result) := Reserved(c, now);
    if result.Ok? {
      StepKeeps(c, Reserve, now);
      StepQueue(c, Reserve, now);
      TimePasses(d.pending, d.pacer, now, later);
      CancellingKeeps(d, result.value, later);
      CancellingQueue(d, result.value, later);
      assert Holds(d.pending, result.value.id);
    }
  }
}
