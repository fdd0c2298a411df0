/** Selecting a resolved address while the answer set may be replaced. */
module Selection {
  import opened Clock
  import opened ControllerModel
  import opened VirtualQueue
  import opened ControllerRuns
  import opened Ledgers
  import opened QueueIds
  import opened Pairs

  /** The controllers of every address ever resolved; a snapshot names some. */
  type Pool = map<nat, State>

  /** What other tasks try at each endpoint. */
  type Others = nat -> seq<Event>

  /** One pass of the selection loop: the snapshot it selects from, the two
      random draws, and the snapshot in force when it looks again. Other tasks
      go on before the pass begins and before it looks again. */
  datatype Pass = Pass(snapshot: seq<nat>, first: nat, second: nat, current: seq<nat>, at: Instant, later: Instant,
                       before: Others, meanwhile: Others)

  datatype Selected = Chosen(endpoint: nat, r: Reservation) | Rejected(error: ScheduleError) | StillMoving

  predicate Distinct(snapshot: seq<nat>) {
    forall i, j :: 0 <= i < j < |snapshot| ==> snapshot[i] != snapshot[j]
  }

  /** The second of two distinct positions. */
  function Other(p: Pass): nat {
    if p.second >= p.first then p.second + 1 else p.second
  }

  predicate Drawn(p: Pass, pool: Pool) {
    && p.snapshot != [] && Distinct(p.snapshot) && (forall e <- p.snapshot :: e in pool)
    && p.first < |p.snapshot| && (|p.snapshot| > 1 ==> p.second < |p.snapshot| - 1)
    && p.at <= p.later
  }

  ghost predicate Fit(pool: Pool, now: Instant) {
    forall e | e in pool :: Healthy(pool[e]) && Cached(pool[e], now)
  }

  /** The same reservations are queued. */
  ghost predicate SameQueue(c: State, d: State) {
    d.id == c.id && forall id :: Holds(d.pending, id) == Holds(c.pending, id)
  }

  ghost predicate SameQueues(pool: Pool, after: Pool) {
    after.Keys == pool.Keys && forall e | e in pool :: SameQueue(pool[e], after[e])
  }

  /** No id issued so far comes back once it has left the queue. */
  ghost predicate Onward(c: State, d: State) {
    d.id == c.id && d.nextId >= c.nextId && forall id: nat :: id < c.nextId && Holds(d.pending, id) ==> Holds(c.pending, id)
  }

  ghost predicate AllOnward(pool: Pool, after: Pool) {
    after.Keys == pool.Keys && forall e | e in pool :: Onward(pool[e], after[e])
  }

  /** Endpoint `e` gained `r`, and nothing else changed hands. */
  ghost predicate OneGained(pool: Pool, after: Pool, e: nat, r: Reservation) {
    && after.Keys == pool.Keys && e in pool
    && r.owner == pool[e].id && after[e].id == pool[e].id && !Holds(pool[e].pending, r.id) && r.id < after[e].nextId
    && (forall id :: Holds(after[e].pending, id) <==> Holds(pool[e].pending, id) || id == r.id)
    && forall f | f in pool && f != e :: SameQueue(pool[f], after[f])
  }

  lemma SingleReserve(c: State, now: Instant)
    requires Healthy(c) && Cached(c, now)
    ensures var d := Refreshed(c, now);
      var (e, result) := Reserved(d, now);
      && Healthy(e) && Cached(e, now) && Onward(c, e)
      && (match result
          case Ok(r) =>
            && r.owner == c.id && r.id < e.nextId && !Holds(c.pending, r.id)
            && forall id :: Holds(e.pending, id) <==> Holds(c.pending, id) || id == r.id
          case Err(_) => forall id :: Holds(e.pending, id) == Holds(c.pending, id))
      && (result.Ok? <==> CanReserve(c))
  {
    hide Refreshed, NextVirtualSlot;
    RefreshingCaches(c, now);
    var d := Refreshed(c, now);
    SameIdsHold(c.pending, d.pending);
    StepKeeps(d, Reserve, now);
    StepQueue(d, Reserve, now);
  }

  lemma KeptByLoad(c: State, now: Instant)
    requires Healthy(c) && Cached(c, now)
    ensures var d := Load(c, now).0;
      var e := Reserved(d, now).0;
      && Healthy(d) && Cached(d, now) && Onward(c, d)
      && Healthy(e) && Cached(e, now) && Onward(c, e)
      && (Reserved(d, now).1.Ok? ==> Reserved(d, now).1.value.id < e.nextId)
  {
    hide Load, NextVirtualSlot;
    LoadKeepsQueue(c, now);
    var d := Load(c, now).0;
    SameIdsHold(c.pending, d.pending);
    StepKeeps(d, Reserve, now);
    StepQueue(d, Reserve, now);
  }

  /** The first of two has the lower load, or the other one has no room. */
  predicate Preferred(first: State, second: State, now: Instant)
    requires Healthy(first) && Healthy(second)
  {
    Load(first, now).1 <= Load(second, now).1 || !CanReserve(second)
  }

  /** What the draws of a pass select: the only endpoint, or the preferred one
      of two distinct ones, and none when neither has room. */
  ghost predicate Selects(pool: Pool, p: Pass, choice: Option<nat>)
    requires Drawn(p, pool) && Fit(pool, p.at)
  {
    if |p.snapshot| == 1 then
      choice == if CanReserve(pool[p.snapshot[0]]) then Some(p.snapshot[0]) else None
    else
      var a, b := p.snapshot[p.first], p.snapshot[Other(p)];
      && a != b
      && match choice
         case None => !CanReserve(pool[a]) && !CanReserve(pool[b])
         case Some(e) =>
           && e in p.snapshot && CanReserve(pool[e])
           && e == if Preferred(pool[a], pool[b], p.at) && CanReserve(pool[a]) then a else b
  }

  lemma PairSelects(first: State, second: State, now: Instant)
    requires Healthy(first) && Cached(first, now) && Healthy(second) && Cached(second, now)
    ensures match PairReserved(first, second, now).outcome
      case Ok((First, _)) => Preferred(first, second, now) && CanReserve(first)
      case Ok((Second, _)) => !(Preferred(first, second, now) && CanReserve(first)) && CanReserve(second)
      case Err(_) => !CanReserve(first) && !CanReserve(second)
  {
    hide Load, Reserved, Healthy, Cached, CanReserve;
    LoadedReserve(first, now);
    LoadedReserve(second, now);
  }

  lemma PairReserve(first: State, second: State, now: Instant)
    requires Healthy(first) && Cached(first, now) && Healthy(second) && Cached(second, now)
    ensures var p := PairReserved(first, second, now);
      && Healthy(p.first) && Cached(p.first, now) && Onward(first, p.first)
      && Healthy(p.second) && Cached(p.second, now) && Onward(second, p.second)
      && match p.outcome
         case Ok((First, r)) => Gained(first, p.first, r) && r.id < p.first.nextId && SameQueue(second, p.second)
         case Ok((Second, r)) => Gained(second, p.second, r) && r.id < p.second.nextId && SameQueue(first, p.first)
         case Err(_) => SameQueue(first, p.first) && SameQueue(second, p.second)
  {
    hide Load, Reserved, Healthy, Cached;
    PairReservesOnce(first, second, now);
    var p := PairReserved(first, second, now);
    KeptByLoad(first, now);
    KeptByLoad(second, now);
    if SameIds(first.pending, p.first.pending) {
      SameIdsHold(first.pending, p.first.pending);
    }
    if SameIds(second.pending, p.second.pending) {
      SameIdsHold(second.pending, p.second.pending);
    }
  }

  /** Reserves at the only endpoint, or at the cheaper of two distinct ones. */
  method ReserveP2c(pool0: Pool, p: Pass) returns (pool: Pool, outcome: Result<(nat, Reservation), ScheduleError>)
    requires Drawn(p, pool0) && Fit(pool0, p.at)
    ensures Fit(pool, p.at) && AllOnward(pool0, pool)
    ensures match outcome
      case Ok((e, r)) => e in p.snapshot && OneGained(pool0, pool, e, r) && Selects(pool0, p, Some(e))
      case Err(_) => SameQueues(pool0, pool) && Selects(pool0, p, None)
  {
    hide Healthy, Cached, Refreshed, Reserved, PairReserved, Preferred, CanReserve;
    if |p.snapshot| == 1 {
      var e := p.snapshot[0];
      SingleReserve(pool0[e], p.at);
      var (c, result) := Reserved(Refreshed(pool0[e], p.at), p.at);
      pool := pool0[e := c];
      outcome := match result case Ok(r) => Ok((e, r)) case Err(error) => Err(error);
    } else {
      var i := p.first;
      var j := if p.second >= p.first then p.second + 1 else p.second;
      var a, b := p.snapshot[i], p.snapshot[j];
      PairReserve(pool0[a], pool0[b], p.at);
      PairSelects(pool0[a], pool0[b], p.at);
      var result := PairReserved(pool0[a], pool0[b], p.at);
      pool := pool0[a := result.first][b := result.second];
      outcome := match result.outcome
        case Ok((First, r)) => Ok((a, r))
        case Ok((Second, r)) => Ok((b, r))
        case Err(error) => Err(error);
    }
  }

  lemma CancelRestores(before: Pool, pool: Pool, e: nat, r: Reservation, later: Instant)
    requires OneGained(before, pool, e, r) && Fit(pool, later)
    ensures var after := pool[e := CancelledOne(pool[e], r, later).0]; SameQueues(before, after)
  {
    hide CancelledOne, Healthy, Cached;
    CancellingKeeps(pool[e], r, later);
    CancellingQueue(pool[e], r, later);
    assert Holds(pool[e].pending, r.id);
  }

  lemma QueuesSameTwice(a: Pool, b: Pool, c: Pool)
    requires SameQueues(a, b) && SameQueues(b, c)
    ensures SameQueues(a, c)
  {}

  lemma GainedThrough(a: Pool, b: Pool, c: Pool, e: nat, r: Reservation)
    requires SameQueues(a, b) && OneGained(b, c, e, r)
    ensures OneGained(a, c, e, r)
  {}

  lemma SameQueueHolds(c: State, op: Op, d: State, note: Note, r: Reservation)
    requires QueueFollows(c, op, d, note) && r.owner == c.id && Holds(c.pending, r.id)
    requires op != Cancel(r) && op != Dispatch(r)
    ensures Holds(d.pending, r.id)
  {
    if SameIds(c.pending, d.pending) {
      SameIdsHold(c.pending, d.pending);
    }
  }

  /** Whatever other tasks do meanwhile, a reservation stays queued until its
      own holder cancels or dispatches it, so the cancellation finds it. */
  lemma {:induction false} OnlyItsHolderRemovesIt(w: World, es: seq<Event>, r: Reservation)
    requires Sound(w) && Runs(w, es) && r.owner == w.c.id && Holds(w.c.pending, r.id)
    requires forall i :: 0 <= i < |es| ==> es[i].op != Cancel(r) && es[i].op != Dispatch(r)
    ensures var c := After(w, es).c; c.id == w.c.id && Holds(c.pending, r.id)
    decreases |es|
  {
    hide Step, Healthy, Balanced;
    if es == [] {
    } else {
      var e := es[0];
      AllowedIsPermitted(w, e);
      NextIsSound(w, e);
      StepKeeps(w.c, e.op, e.at);
      StepQueue(w.c, e.op, e.at);
      SameQueueHolds(w.c, e.op, Step(w.c, e.op, e.at).0, Step(w.c, e.op, e.at).1, r);
      OnlyItsHolderRemovesIt(Next(w, e), es[1..], r);
    }
  }

  /** Not the holder's own cancellation or dispatch of `mine`. */
  predicate Spared(op: Op, mine: Option<Reservation>) {
    mine.Some? ==> op != Cancel(mine.value) && op != Dispatch(mine.value)
  }

  function Clamped(t: Instant, now: Instant, later: Instant): (at: Instant)
    requires now <= later
    ensures now <= at <= later
  {
    if t < now then now else if t > later then later else t
  }

  /** Other tasks operate on an endpoint between two instants: whatever they try
      that the controller permits and that is not the holder's to do. */
  function Disturbed(c: State, es: seq<Event>, mine: Option<Reservation>, now: Instant, later: Instant): State
    requires Healthy(c) && Cached(c, now) && now <= later
    decreases |es|
  {
    if es == [] then c
    else
      var at := Clamped(es[0].at, now, later);
      TimePasses(c.pending, c.pacer, now, at);
      if Spared(es[0].op, mine) && Permitted(c, es[0].op) then
        StepKeeps(c, es[0].op, at);
        Disturbed(Step(c, es[0].op, at).0, es[1..], mine, at, later)
      else Disturbed(c, es[1..], mine, at, later)
  }

  lemma StillCached(c: State, now: Instant, later: Instant)
    requires Cached(c, now) && now <= later
    ensures Cached(c, later)
  {
    TimePasses(c.pending, c.pacer, now, later);
  }

  lemma QueuedWasIssued(c: State, now: Instant, id: nat)
    requires Cached(c, now) && Holds(c.pending, id)
    ensures id < c.nextId
  {}

  lemma NewIdIsNext(c: State, op: Op, now: Instant)
    requires Healthy(c) && Permitted(c, op)
    ensures Step(c, op, now).1.NewReservation? ==> Step(c, op, now).1.id == c.nextId
  {}

  lemma StepIsOnward(c: State, op: Op, now: Instant)
    requires Healthy(c) && Cached(c, now) && Permitted(c, op)
    ensures Onward(c, Step(c, op, now).0)
  {
    hide Step, Healthy, Cached, Permitted;
    StepKeeps(c, op, now);
    StepQueue(c, op, now);
    NewIdIsNext(c, op, now);
    var d := Step(c, op, now).0;
    if SameIds(c.pending, d.pending) {
      SameIdsHold(c.pending, d.pending);
    }
  }

  /** Whatever the others do, the reservation is still queued. */
  lemma {:induction false} DisturbedKeeps(c: State, es: seq<Event>, mine: Option<Reservation>, now: Instant,
      later: Instant)
    requires Healthy(c) && Cached(c, now) && now <= later
    ensures var d := Disturbed(c, es, mine, now, later);
      && Healthy(d) && Cached(d, later) && Onward(c, d)
      && (mine.Some? && mine.value.owner == c.id && Holds(c.pending, mine.value.id) ==> Holds(d.pending, mine.value.id))
    decreases |es|
  {
    hide Step, Healthy, Cached, Permitted;
    if es == [] {
      StillCached(c, now, later);
    } else {
      var op, at := es[0].op, Clamped(es[0].at, now, later);
      StillCached(c, now, at);
      if Spared(op, mine) && Permitted(c, op) {
        StepKeeps(c, op, at);
        StepIsOnward(c, op, at);
        StepQueue(c, op, at);
        var (d, note) := Step(c, op, at);
        if mine.Some? && mine.value.owner == c.id && Holds(c.pending, mine.value.id) {
          SameQueueHolds(c, op, d, note, mine.value);
        }
        DisturbedKeeps(d, es[1..], mine, at, later);
      } else {
        DisturbedKeeps(c, es[1..], mine, at, later);
      }
    }
  }

  /** Other tasks operate on every endpoint. */
  function Meanwhile(pool: Pool, others: Others, mine: Option<Reservation>, now: Instant, later: Instant): Pool
    requires Fit(pool, now) && now <= later
  {
    map e | e in pool :: Disturbed(pool[e], others(e), mine, now, later)
  }

  lemma MeanwhileKeeps(pool: Pool, others: Others, mine: Option<Reservation>, now: Instant, later: Instant)
    requires Fit(pool, now) && now <= later
    ensures var after := Meanwhile(pool, others, mine, now, later);
      && Fit(after, later) && AllOnward(pool, after) && after.Keys == pool.Keys
      && forall e | e in pool && mine.Some? && mine.value.owner == pool[e].id && Holds(pool[e].pending, mine.value.id) ::
           Holds(after[e].pending, mine.value.id)
  {
    hide Healthy, Cached, Disturbed, Onward;
    forall e | e in pool
      ensures var d := Disturbed(pool[e], others(e), mine, now, later);
        && Healthy(d) && Cached(d, later) && Onward(pool[e], d)
        && (mine.Some? && mine.value.owner == pool[e].id && Holds(pool[e].pending, mine.value.id) ==>
              Holds(d.pending, mine.value.id))
    {
      DisturbedKeeps(pool[e], others(e), mine, now, later);
    }
  }

  /** The reservation was made, and has left the queue for good. */
  ghost predicate Gone(pool: Pool, e: nat, r: Reservation) {
    e in pool && r.owner == pool[e].id && r.id < pool[e].nextId && !Holds(pool[e].pending, r.id)
  }

  /** Whatever happened at the endpoint since, a cancellation by the holder finds
      its reservation and takes it off the queue for good. */
  lemma CancelFindsIt(pool: Pool, e: nat, r: Reservation, later: Instant)
    requires Fit(pool, later) && e in pool && r.owner == pool[e].id && Holds(pool[e].pending, r.id)
    ensures CancelledOne(pool[e], r, later).1
    ensures var after := pool[e := CancelledOne(pool[e], r, later).0];
      Fit(after, later) && AllOnward(pool, after) && Gone(after, e, r)
  {
    hide CancelledOne, Healthy, Cached;
    CancellingKeeps(pool[e], r, later);
    CancellingQueue(pool[e], r, later);
    QueuedWasIssued(pool[e], later, r.id);
  }

  lemma OnwardTwice(a: Pool, b: Pool, c: Pool)
    requires AllOnward(a, b) && AllOnward(b, c)
    ensures AllOnward(a, c)
  {}

  lemma GoneStaysGone(pool: Pool, after: Pool, dropped: seq<(nat, Reservation)>)
    requires AllOnward(pool, after) && forall d <- dropped :: Gone(pool, d.0, d.1)
    ensures forall d <- dropped :: Gone(after, d.0, d.1)
  {}

  /** Passes follow each other in time. */
  predicate Successive(passes: seq<Pass>, pool: Pool) {
    && (forall i :: 0 <= i < |passes| ==> Drawn(passes[i], pool))
    && forall i :: 0 < i < |passes| ==> passes[i - 1].later <= passes[i].at
  }

  /** No other task touches any endpoint. */
  ghost predicate Alone(passes: seq<Pass>) {
    forall i, e :: 0 <= i < |passes| ==> passes[i].before(e) == [] && passes[i].meanwhile(e) == []
  }

  lemma AloneMeanwhile(pool: Pool, others: Others, mine: Option<Reservation>, now: Instant, later: Instant)
    requires Fit(pool, now) && now <= later && forall e: nat :: others(e) == []
    ensures Meanwhile(pool, others, mine, now, later) == pool
  {
    hide Healthy, Cached;
  }

  /** The draws of the pass that ends the loop decide. */
  ghost predicate Decides(before: Pool, passes: seq<Pass>, i: nat, choice: Option<nat>) {
    && i < |passes|
    && Drawn(passes[i], before) && Fit(before, passes[i].at) && Selects(before, passes[i], choice)
  }

  /** One pass up to where it looks again. */
  method Attempt(pool0: Pool, p: Pass) returns (pool: Pool, outcome: Result<(nat, Reservation), ScheduleError>)
    requires Drawn(p, pool0) && Fit(pool0, p.at)
    ensures AllOnward(pool0, pool) && pool.Keys == pool0.Keys
    ensures match outcome
      case Ok((e, r)) =>
        && Fit(pool, p.later)
        && e in p.snapshot && e in pool && Selects(pool0, p, Some(e))
        && r.owner == pool[e].id && Holds(pool[e].pending, r.id)
        && ((forall f: nat :: p.meanwhile(f) == []) ==> OneGained(pool0, pool, e, r))
      case Err(_) => SameQueues(pool0, pool) && Selects(pool0, p, None)
  {
    hide Healthy, Cached, Selects, Disturbed;
    pool, outcome := ReserveP2c(pool0, p);
    if outcome.Ok? {
      var (e, r) := outcome.value;
      assert Holds(pool[e].pending, r.id);
      MeanwhileKeeps(pool, p.meanwhile, Some(r), p.at, p.later);
      if forall f: nat :: p.meanwhile(f) == [] {
        AloneMeanwhile(pool, p.meanwhile, Some(r), p.at, p.later);
      }
      ghost var reserved := pool;
      pool := Meanwhile(pool, p.meanwhile, Some(r), p.at, p.later);
      OnwardTwice(pool0, reserved, pool);
    }
  }

  /** The endpoints as a pass finds them. */
  method LookUp(pool0: Pool, p: Pass, now: Instant, ghost dropped: seq<(nat, Reservation)>) returns (pool: Pool)
    requires Fit(pool0, now) && now <= p.at && forall d <- dropped :: Gone(pool0, d.0, d.1)
    ensures Fit(pool, p.at) && pool.Keys == pool0.Keys && forall d <- dropped :: Gone(pool, d.0, d.1)
    ensures (forall e: nat :: p.before(e) == []) ==> pool == pool0
  {
    hide Healthy, Cached, AllOnward, Meanwhile, Gone;
    MeanwhileKeeps(pool0, p.before, None, now, p.at);
    if forall e: nat :: p.before(e) == [] {
      AloneMeanwhile(pool0, p.before, None, now, p.at);
    }
    pool := Meanwhile(pool0, p.before, None, now, p.at);
    GoneStaysGone(pool0, pool, dropped);
  }

  /** Cancels a reservation whose address is no longer in the answer set. */
  method GiveBack(pool0: Pool, e: nat, r: Reservation, later: Instant, ghost before: Pool,
      ghost dropped: seq<(nat, Reservation)>) returns (pool: Pool)
    requires Fit(pool0, later) && e in pool0 && r.owner == pool0[e].id && Holds(pool0[e].pending, r.id)
    requires forall d <- dropped :: Gone(pool0, d.0, d.1)
    ensures Fit(pool, later) && pool.Keys == pool0.Keys
    ensures Gone(pool, e, r) && forall d <- dropped :: Gone(pool, d.0, d.1)
    ensures OneGained(before, pool0, e, r) ==> SameQueues(before, pool)
  {
    hide Healthy, Cached, CancelledOne, Gone, Onward, OneGained, SameQueues, Holds;
    CancelFindsIt(pool0, e, r, later);
    if OneGained(before, pool0, e, r) {
      CancelRestores(before, pool0, e, r, later);
    }
    pool := pool0[e := CancelledOne(pool0[e], r, later).0];
    GoneStaysGone(pool0, pool, dropped);
  }

  lemma NothingGained(pool: Pool)
    ensures SameQueues(pool, pool)
  {}

  /** The selection loop, amid whatever other tasks do: an address is published
      only if it is still in the answer set after the same pass reserved its
      slot, which is then still queued. Every earlier pass has cancelled its
      reservation, which has left the queue for good. Where no other task
      interferes, exactly the chosen endpoint has gained exactly one
      reservation, or no endpoint has gained any. The ghost results are the last
      pass, the controllers it found, and the reservations dropped before. */
  method Select(pool0: Pool, passes: seq<Pass>, start: Instant)
    returns (pool: Pool, outcome: Selected, ghost i: nat, ghost before: Pool, ghost dropped: seq<(nat, Reservation)>)
    requires Successive(passes, pool0) && Fit(pool0, start) && (passes != [] ==> start <= passes[0].at)
    ensures match outcome
      case Chosen(e, r) =>
        && e in pool && r.owner == pool[e].id && Holds(pool[e].pending, r.id)
        && (Alone(passes) ==> OneGained(pool0, pool, e, r))
      case Rejected(_) => Alone(passes) ==> SameQueues(pool0, pool)
      case StillMoving => Alone(passes) ==> SameQueues(pool0, pool)
    ensures match outcome
      case Chosen(e, r) => Decides(before, passes, i, Some(e)) && e in passes[i].snapshot && e in passes[i].current
      case Rejected(_) => Decides(before, passes, i, None)
      case StillMoving => i == |passes|
    ensures |dropped| == i <= |passes| && forall d <- dropped :: Gone(pool, d.0, d.1)
    ensures forall j :: 0 <= j < i ==> dropped[j].0 in passes[j].snapshot && dropped[j].0 !in passes[j].current
  {
    hide Healthy, Cached, Selects, AllOnward, Gone, SameQueues, OneGained, Holds;
    NothingGained(pool0);
    pool, before := pool0, pool0;
    dropped := [];
    var now: Instant := start;
    var k := 0;
    i := 0;
    while k < |passes|
      invariant 0 <= k <= |passes| && i == k == |dropped| && pool.Keys == pool0.Keys && Fit(pool, now)
      invariant Alone(passes) ==> SameQueues(pool0, pool)
      invariant forall d <- dropped :: Gone(pool, d.0, d.1)
      invariant forall j :: 0 <= j < k ==> dropped[j].0 in passes[j].snapshot && dropped[j].0 !in passes[j].current
      invariant k < |passes| ==> now <= passes[k].at
    {
      var p := passes[k];
      var found := LookUp(pool, p, now, dropped);
      before := found;
      var result;
      pool, result := Attempt(found, p);
      GoneStaysGone(before, pool, dropped);
      if result.Err? {
        if Alone(passes) {
          QueuesSameTwice(pool0, before, pool);
        }
        return pool, Rejected(result.error), k, before, dropped;
      }
      var (e, r) := result.value;
      if e in p.current {
        if Alone(passes) {
          GainedThrough(pool0, before, pool, e, r);
        }
        return pool, Chosen(e, r), k, before, dropped;
      }
      pool := GiveBack(pool, e, r, p.later, before, dropped);
      if Alone(passes) {
        QueuesSameTwice(pool0, before, pool);
      }
      dropped := dropped + [(e, r)];
      now := p.later;
      k := k + 1;
      i := k;
    }
    return pool, StillMoving, k, before, dropped;
  }
}
