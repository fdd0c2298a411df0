/** Every interleaving of a Tower endpoint keeps its invariant. */
module TowerSafety {
  import opened Clock
  import opened ControllerModel
  import opened VirtualQueue
  import opened ControllerRuns
  import opened QueueIds
  import opened Synchrony
  import opened Ownership
  import opened Sleepers
  import opened TowerProtocol

  // ---- One request moves on, part by part of the invariant ------------------

  lemma LockKept(requests: map<nat, Request>, t: nat, q: Request)
    requires LockedOnce(requests)
    requires Holding(q) ==> (t in requests && Holding(requests[t])) || LockFree(requests)
    ensures LockedOnce(requests[t := q])
  {
    hide Holding;
  }

  lemma OnlyHolder(requests: map<nat, Request>, t: nat)
    requires LockedOnce(requests) && t in requests && Holding(requests[t])
    ensures forall u | u in requests && u != t :: !Holding(requests[u])
  {
    hide Holding;
  }

  lemma ClosingKept(failed: bool, log: seq<Contact>, requests: map<nat, Request>, t: nat, q: Request)
    requires Closing(failed, log, requests)
    requires Broke in log ==> !InContact(q)
    requires q.Broken? <==> t in requests && requests[t].Broken?
    ensures Closing(failed, log, requests[t := q])
  {
    hide InContact;
    if u :| u in requests && requests[u].Broken? {
      assert requests[t := q][u].Broken?;
    }
  }

  /** Queued ids are old ones or new ones beyond every id given out. */
  ghost predicate Follows(c: State, d: State) {
    && c.nextId <= d.nextId
    && forall k :: 0 <= k < |d.pending| ==> Holds(c.pending, d.pending[k].id) || d.pending[k].id >= c.nextId
  }

  lemma StaysBehind(id: nat, c: State, d: State)
    requires Behind(id, c) && Follows(c, d)
    ensures Behind(id, d)
  {}

  ghost predicate BehindCalls(log: seq<Contact>, id: nat) {
    forall i :: 0 <= i < |log| && log[i].Called? ==> log[i].id < id
  }

  lemma OrderKept(c: State, d: State, log: seq<Contact>, requests: map<nat, Request>, t: nat, q: Request)
    requires InOrder(c, log, requests) && Follows(c, d)
    requires Due(q).Some? ==> || (t in requests && Due(requests[t]) == Due(q))
                              || (Behind(Due(q).value, d) && BehindCalls(log, Due(q).value))
    ensures InOrder(d, log, requests[t := q])
  {
    hide Behind, Follows, Due;
    forall i | 0 <= i < |log| && log[i].Called?
      ensures Behind(log[i].id, d)
    {
      StaysBehind(log[i].id, c, d);
    }
    forall u | u in requests && Due(requests[u]).Some?
      ensures Behind(Due(requests[u]).value, d)
    {
      StaysBehind(Due(requests[u]).value, c, d);
    }
  }

  /** Every other sleeper keeps a standing decision, or will be notified. */
  ghost predicate Spares(s: System, t: nat, q: Request, d: State) {
    && (forall u | u in s.requests && u != t && Sleeping(s.requests[u])
        && Stands(s.c, s.requests[u].r, s.requests[u].decision) ::
          Stands(d, s.requests[u].r, s.requests[u].decision) || Notifies(q))
    && (Sleeping(q) ==> !s.failed && Stands(d, q.r, q.decision))
    && (Notifies(RequestOf(s, t)) ==> Notifies(q))
  }

  lemma SleepersKept(s: System, t: nat, q: Request, d: State)
    requires SleepersAreSafe(s.c, s.failed, s.requests) && Spares(s, t, q, d)
    ensures SleepersAreSafe(d, s.failed, s.requests[t := q])
  {
    hide Stands, Notifies;
    var after := s.requests[t := q];
    if Notifies(q) {
      assert Notifies(after[t]);
    }
    if NotifyComing(s.requests) {
      var u :| u in s.requests && Notifies(s.requests[u]);
      assert Notifies(after[u]);
    }
  }

  /** What the change means for the owner. */
  ghost predicate OwnerSpared(s: System, t: nat, q: Request, d: State, waker: bool) {
    && (waker ==> s.waker && !MaySchedule(d))
    && (s.waker && !waker ==> Wakes(q))
    && (Wakes(RequestOf(s, t)) ==> Wakes(q))
    && (s.granted && !s.failed ==> MaySchedule(d))
  }

  lemma OwnerKept(s: System, t: nat, q: Request, d: State, waker: bool)
    requires OwnerIsSafe(s) && OwnerSpared(s, t, q, d, waker)
    ensures OwnerIsSafe(Became(s, t, q).(c := d, waker := waker))
  {
    hide MaySchedule, Wakes;
    var after := s.requests[t := q];
    if Wakes(q) {
      assert Wakes(after[t]);
    }
    if WakeComing(s.requests) {
      var u :| u in s.requests && Wakes(s.requests[u]);
      assert Wakes(after[u]);
    }
  }

  lemma BooksBecome(s: System, t: nat, q: Request)
    ensures HeldIn(Became(s, t, q).requests) == HeldIn(s.requests)[t := Held(q)]
    ensures TokensIn(Became(s, t, q).requests) == TokensIn(s.requests)[t := Token(q)]
  {}

  ghost predicate ContactKept(s: System, t: nat, q: Request) {
    && (Holding(q) ==> Holding(RequestOf(s, t)) || LockFree(s.requests))
    && (Broke in s.log ==> !InContact(q))
    && (q.Broken? <==> RequestOf(s, t).Broken?)
  }

  ghost predicate DueKept(s: System, t: nat, q: Request, d: State) {
    Due(q).Some? ==> Due(RequestOf(s, t)) == Due(q) || (Behind(Due(q).value, d) && BehindCalls(s.log, Due(q).value))
  }

  lemma BooksMoved(s: System, t: nat, q: Request, d: State)
    requires Owned(s.c, HeldIn(s.requests)) && Counted(s.c, TokensIn(s.requests)) && d.id == s.c.id
    requires QueueMatches(s.c, d, Held(RequestOf(s, t)), Held(q))
    requires d.inflight == s.c.inflight - One(Token(RequestOf(s, t))) + One(Token(q))
    requires Token(q).Some? ==> Token(q).value.owner == s.c.id
    ensures Owned(d, HeldIn(s.requests[t := q])) && Counted(d, TokensIn(s.requests[t := q]))
  {
    hide QueueMatches, Owned, Counted;
    BooksBecome(s, t, q);
    OwnedAfter(s.c, d, HeldIn(s.requests), t, Held(q));
    CountedAfter(s.c, d, TokensIn(s.requests), t, Token(q));
  }

  lemma ContactMoved(s: System, t: nat, q: Request, d: State)
    requires LockedOnce(s.requests) && Closing(s.failed, s.log, s.requests) && InOrder(s.c, s.log, s.requests)
    requires ContactKept(s, t, q) && DueKept(s, t, q, d) && Follows(s.c, d)
    ensures LockedOnce(s.requests[t := q]) && Closing(s.failed, s.log, s.requests[t := q])
    ensures InOrder(d, s.log, s.requests[t := q])
  {
    hide LockedOnce, Closing, InOrder, Follows, LockFree, Behind, BehindCalls, InContact;
    LockKept(s.requests, t, q);
    ClosingKept(s.failed, s.log, s.requests, t, q);
    OrderKept(s.c, d, s.log, s.requests, t, q);
  }

  lemma PanicsKept(s: System, t: nat, q: Request, d: State)
    requires NobodyPanicked(s.c, s.requests) && Fit(d, s.now) && Follows(s.c, d) && (q.Panicked? ==> d.nextId == U64_MAX)
    ensures NobodyPanicked(d, s.requests[t := q])
  {
    hide Healthy, InStep;
  }

  /** One request changes the controller and itself; everything else stands. */
  lemma Moved(s: System, t: nat, q: Request, d: State, waker: bool)
    requires Inv(s) && Fit(d, s.now) && (q.Panicked? ==> d.nextId == U64_MAX)
    requires QueueMatches(s.c, d, Held(RequestOf(s, t)), Held(q)) && Follows(s.c, d)
    requires d.inflight == s.c.inflight - One(Token(RequestOf(s, t))) + One(Token(q))
    requires Token(q).Some? ==> Token(q).value.owner == s.c.id
    requires ContactKept(s, t, q) && DueKept(s, t, q, d) && Spares(s, t, q, d) && OwnerSpared(s, t, q, d, waker)
    ensures Inv(Became(s, t, q).(c := d, waker := waker))
  {
    assert d.id == s.c.id;
    hide Fit, QueueMatches, Follows, Owned, Counted, One, Closing, InOrder, LockedOnce, SleepersAreSafe, Spares,
      OwnerIsSafe, OwnerSpared, Held, Token, HeldIn, TokensIn, ContactKept, DueKept, NobodyPanicked;
    BooksMoved(s, t, q, d);
    ContactMoved(s, t, q, d);
    PanicsKept(s, t, q, d);
    SleepersKept(s, t, q, d);
    OwnerKept(s, t, q, d, waker);
  }

  lemma HeldIsQueued(s: System, t: nat)
    requires Owned(s.c, HeldIn(s.requests)) && Counted(s.c, TokensIn(s.requests))
    ensures var held := Held(RequestOf(s, t));
      held.Some? ==> held.value.owner == s.c.id && Holds(s.c.pending, held.value.id)
    ensures var token := Token(RequestOf(s, t));
      token.Some? ==> token.value.owner == s.c.id
  {
    if t in s.requests {
      assert HeldIn(s.requests)[t] == Held(s.requests[t]) && TokensIn(s.requests)[t] == Token(s.requests[t]);
    }
  }

  lemma FollowsItself(c: State)
    ensures Follows(c, c)
  {
    forall k | 0 <= k < |c.pending|
      ensures Holds(c.pending, c.pending[k].id)
    {}
  }

  /** A step that touches neither the queue nor the controller. */
  lemma Stepped(s: System, t: nat, q: Request)
    requires Inv(s) && !q.Panicked?
    requires Held(q) == Held(RequestOf(s, t)) && Token(q) == Token(RequestOf(s, t))
        && (Due(q).Some? ==> Due(q) == Due(RequestOf(s, t)))
    requires !Sleeping(q) && !Notifies(RequestOf(s, t)) && !Wakes(RequestOf(s, t))
    requires ContactKept(s, t, q)
    ensures Inv(Became(s, t, q))
  {
    hide Stands, MaySchedule, ContactKept, Follows, Fit, Owned, Counted, Closing, InOrder, LockedOnce, SleepersAreSafe,
      NobodyPanicked, WakeComing;
    HeldIsQueued(s, t);
    FollowsItself(s.c);
    assert QueueMatches(s.c, s.c, Held(RequestOf(s, t)), Held(q));
    assert Became(s, t, q) == Became(s, t, q).(c := s.c, waker := s.waker);
    assert OwnerSpared(s, t, q, s.c, s.waker) by {
      assert OwnerIsSafe(s);
    }
    Moved(s, t, q, s.c, s.waker);
  }

  // ---- Critical sections ----------------------------------------------------

  lemma NewIdIsNext(c: State, op: Op, now: Instant)
    requires Healthy(c) && Permitted(c, op)
    ensures var note := Step(c, op, now).1; note.NewReservation? ==> op.Reserve? && note.id == c.nextId
  {
    hide Completed, GivenUp, Dispatched, AdmissionFailed;
  }

  lemma StepFollows(c: State, op: Op, now: Instant)
    requires Healthy(c) && Cached(c, now) && Permitted(c, op)
    ensures Follows(c, Step(c, op, now).0)
  {
    hide Step;
    StepKeeps(c, op, now);
    StepQueue(c, op, now);
    var (d, note) := Step(c, op, now);
    forall k | 0 <= k < |d.pending|
      ensures Holds(c.pending, d.pending[k].id) || d.pending[k].id >= c.nextId
    {
      assert Holds(d.pending, d.pending[k].id);
      match note
      case NewReservation(n) => NewIdIsNext(c, op, now);
      case NewCancellation =>
      case NewDispatch(_) =>
      case _ => SameIdsHold(c.pending, d.pending);
    }
  }

  lemma FollowsDrained(c: State, d: State)
    requires Follows(c, d)
    ensures Follows(c, Taken(d).0)
  {}

  /** A courteous critical section whose flags and waker are about to be delivered. */
  lemma SectionKeeps(s: System, t: nat, d: State, next: Continuation)
    requires Inv(s) && Kept(d, s.now) && Courteous(s.c, d) && Follows(s.c, d)
    requires MaySchedule(s.c) ==> MaySchedule(d)
    requires !Notifies(RequestOf(s, t)) && !Wakes(RequestOf(s, t))
    requires var q, e := RequestOf(Unlocked(s, t, d, next), t), Taken(d).0;
      && QueueMatches(s.c, e, Held(RequestOf(s, t)), Held(q))
      && d.inflight == s.c.inflight - One(Token(RequestOf(s, t))) + One(Token(q))
      && (Token(q).Some? ==> Token(q).value.owner == s.c.id)
      && ContactKept(s, t, q) && DueKept(s, t, q, e)
    ensures Inv(Unlocked(s, t, d, next))
  {
    hide QueueMatches, Healthy, Cached, InStep, Stands, One, Owned, Counted, Closing, InOrder, LockedOnce, ContactKept,
      DueKept, SleepersAreSafe, Follows, Held, Token, Holding;
    var e, waker := Taken(d).0, s.waker && !d.changes.admission;
    var q := Announcing(d.changes, d.changes.admission && s.waker, next);
    assert Kept(e, s.now) by {
      StepKept(d, Take, s.now);
    }
    FollowsDrained(s.c, d);
    forall u | u in s.requests && u != t && Sleeping(s.requests[u]) && Stands(s.c, s.requests[u].r, s.requests[u].decision)
      ensures Stands(e, s.requests[u].r, s.requests[u].decision) || d.changes.dispatch
    {
      if !d.changes.dispatch {
        DrainedStands(d, s.requests[u].r, s.requests[u].decision);
      }
    }
    assert Spares(s, t, q, e);
    assert OwnerSpared(s, t, q, e, waker);
    Moved(s, t, q, e, waker);
    assert Unlocked(s, t, d, next) == Became(s, t, q).(c := e, waker := waker);
  }

  lemma RefreshedState(c: State, now: Instant)
    requires Kept(c, now)
    ensures var d := Refreshed(c, now);
      && Kept(d, now) && Courteous(c, d) && Follows(c, d) && d.id == c.id
      && d.config == c.config && d.inflight == c.inflight && |d.pending| == |c.pending|
      && forall id :: Holds(d.pending, id) == Holds(c.pending, id)
  {
    hide Refreshed, Healthy, Cached, InStep, Courteous, Follows;
    StepKept(c, Refresh, now);
    StepIsCourteous(c, Refresh, now);
    StepKeeps(c, Refresh, now);
    StepQueue(c, Refresh, now);
    StepFollows(c, Refresh, now);
    SameIdsHold(c.pending, Refreshed(c, now).pending);
  }

  lemma ReadKeeps(s: System, t: nat)
    requires Inv(s) && t !in s.requests && Healthy(s.c)
    ensures Inv(Unlocked(s, t, Refreshed(s.c, s.now), ToEnd(Observed)))
  {
    hide Refreshed, Owned, Counted, Closing, InOrder, LockedOnce, SleepersAreSafe, OwnerIsSafe, NobodyPanicked, Healthy,
      Cached, InStep, Courteous, Follows;
    RefreshedState(s.c, s.now);
    SectionKeeps(s, t, Refreshed(s.c, s.now), ToEnd(Observed));
  }

  lemma CancelledState(c: State, r: Reservation, now: Instant)
    requires Kept(c, now) && r.owner == c.id && Holds(c.pending, r.id)
    ensures var d := CancelledOne(c, r, now).0;
      && Kept(d, now) && Courteous(c, d) && Follows(c, d) && d.id == c.id
      && d.config == c.config && d.inflight == c.inflight && |d.pending| < |c.pending|
      && forall id :: Holds(d.pending, id) <==> Holds(c.pending, id) && id != r.id
  {
    hide CancelledOne, Healthy, Cached, InStep, Courteous, Follows;
    StepKept(c, Cancel(r), now);
    StepIsCourteous(c, Cancel(r), now);
    StepKeeps(c, Cancel(r), now);
    StepFollows(c, Cancel(r), now);
    CancellingQueue(c, r, now);
  }

  lemma ReleaseKeeps(s: System, t: nat)
    requires Inv(s) && (RequestOf(s, t).Failing? || RequestOf(s, t).Dropping?)
    ensures var ending := if RequestOf(s, t).Failing? then SharedError else Withdrawn;
      Inv(Unlocked(s, t, CancelledOne(s.c, RequestOf(s, t).r, s.now).0, ToEnd(ending)))
  {
    hide CancelledOne, Owned, Counted, Closing, InOrder, LockedOnce, SleepersAreSafe, OwnerIsSafe, NobodyPanicked, Kept,
      Courteous, Follows;
    HeldIsQueued(s, t);
    CancelledState(s.c, RequestOf(s, t).r, s.now);
    SectionKeeps(s, t, CancelledOne(s.c, RequestOf(s, t).r, s.now).0,
                 ToEnd(if RequestOf(s, t).Failing? then SharedError else Withdrawn));
  }

  lemma ReportedState(c: State, token: InFlight, completion: Completion, now: Instant)
    requires Kept(c, now) && token.owner == c.id && c.inflight > 0
    requires Reportable(c, token, completion, now)
    ensures var d := Finished(c, token, completion, now).0;
      && Kept(d, now) && Courteous(c, d) && Follows(c, d) && d.id == c.id
      && d.config == c.config && d.inflight == c.inflight - 1 && |d.pending| == |c.pending|
      && forall id :: Holds(d.pending, id) == Holds(c.pending, id)
  {
    hide Completed, GivenUp, Healthy, Cached, InStep, Courteous, Follows;
    var op := Report(token, completion, now);
    ReportIsStep(c, token, completion, now);
    hide Finished;
    StepKept(c, op, now);
    StepIsCourteous(c, op, now);
    StepKeeps(c, op, now);
    StepQueue(c, op, now);
    StepFollows(c, op, now);
    SameIdsHold(c.pending, Step(c, op, now).0.pending);
  }

  /** The request's token is accounted for, and its slot was free already. */
  lemma ReportedKeeps(s: System, t: nat, d: State, ending: Ending)
    requires Inv(s) && RequestOf(s, t).Served?
    requires Kept(d, s.now) && Courteous(s.c, d) && Follows(s.c, d) && d.id == s.c.id && d.config == s.c.config
    requires d.inflight == s.c.inflight - 1 && |d.pending| == |s.c.pending|
    requires forall id :: Holds(d.pending, id) == Holds(s.c.pending, id)
    ensures Inv(Unlocked(s, t, d, ToEnd(ending)))
  {
    hide Owned, Counted, Closing, InOrder, LockedOnce, SleepersAreSafe, OwnerIsSafe, NobodyPanicked, Kept, Courteous, Follows;
    SectionKeeps(s, t, d, ToEnd(ending));
  }

  lemma RespondKeeps(s: System, t: nat, completion: Completion)
    requires Inv(s) && RequestOf(s, t).Served? && Kept(s.c, s.now) && Healthy(s.c)
    requires Reportable(s.c, RequestOf(s, t).token, completion, s.now)
    requires RequestOf(s, t).token.owner == s.c.id && s.c.inflight > 0
    ensures var ending := if completion == Abandoned then Withdrawn else Answered;
      Inv(Unlocked(s, t, Finished(s.c, RequestOf(s, t).token, completion, s.now).0, ToEnd(ending)))
  {
    hide Inv, Finished, Healthy, Kept, Courteous, Follows;
    ReportedState(s.c, RequestOf(s, t).token, completion, s.now);
    ReportedKeeps(s, t, Finished(s.c, RequestOf(s, t).token, completion, s.now).0,
                  if completion == Abandoned then Withdrawn else Answered);
  }

  /** A dispatched id is behind everything still queued and ahead of every call. */
  lemma DispatchIsNext(s: System, r: Reservation, e: State)
    requires Inv(s) && Fit(e, s.now) && s.c.pending != [] && s.c.pending[0].id == r.id
    requires s.c.nextId <= e.nextId
    requires forall id :: Holds(e.pending, id) <==> Holds(s.c.pending, id) && id != r.id
    ensures Behind(r.id, e) && BehindCalls(s.log, r.id)
  {
    hide Healthy, InStep;
    forall k | 0 <= k < |e.pending|
      ensures r.id < e.pending[k].id
    {
      assert Holds(e.pending, e.pending[k].id);
      var j :| 0 <= j < |s.c.pending| && s.c.pending[j].id == e.pending[k].id;
    }
  }

  lemma DispatchedState(c: State, r: Reservation, now: Instant)
    requires Kept(c, now) && r.owner == c.id
    ensures var (d, result) := Dispatched(c, r, now);
      && Kept(d, now) && Fit(Taken(d).0, now) && Courteous(c, d) && Follows(c, d) && d.id == c.id && d.config == c.config
      && |d.pending| <= |c.pending| && c.nextId <= d.nextId
      && (match result
          case Ok(token) =>
            && c.pending != [] && c.pending[0].id == r.id && token.owner == c.id && d.inflight == c.inflight + 1
            && forall id :: Holds(d.pending, id) <==> Holds(c.pending, id) && id != r.id
          case Err(_) => d.inflight == c.inflight && forall id :: Holds(d.pending, id) == Holds(c.pending, id))
  {
    hide Dispatched, Healthy, Cached, InStep, Courteous, Follows;
    var op := Dispatch(r);
    StepKept(c, op, now);
    StepIsCourteous(c, op, now);
    StepKeeps(c, op, now);
    StepQueue(c, op, now);
    StepFollows(c, op, now);
    var (d, result) := Dispatched(c, r, now);
    StepKept(d, Take, now);
    if result.Ok? {
      DispatchPopsHead(c, r, now);
    } else {
      SameIdsHold(c.pending, d.pending);
    }
  }

  lemma HolderInContact(s: System, t: nat)
    requires Inv(s) && t in s.requests && InContact(s.requests[t])
    ensures Broke !in s.log && !s.failed
  {
    hide Fit, InContact;
  }

  lemma CommitSucceeds(s: System, t: nat, d: State, token: InFlight)
    requires Inv(s) && RequestOf(s, t).Committing? && Healthy(s.c)
    requires Dispatched(s.c, RequestOf(s, t).r, s.now) == (d, Ok(token))
    ensures Inv(Unlocked(s, t, d, ToCall(RequestOf(s, t).r.id, token)))
  {
    hide Dispatched, Owned, Counted, Closing, InOrder, LockedOnce, SleepersAreSafe, OwnerIsSafe, NobodyPanicked, Healthy,
      Cached, InStep, Courteous, Follows, Behind, BehindCalls;
    var r := RequestOf(s, t).r;
    HeldIsQueued(s, t);
    HolderInContact(s, t);
    DispatchedState(s.c, r, s.now);
    DispatchIsNext(s, r, Taken(d).0);
    SectionKeeps(s, t, d, ToCall(r.id, token));
  }

  lemma CommitFails(s: System, t: nat, d: State, state: DispatchState)
    requires Inv(s) && RequestOf(s, t).Committing? && Healthy(s.c)
    requires Dispatched(s.c, RequestOf(s, t).r, s.now) == (d, Err(state))
    ensures Inv(Unlocked(s, t, d, ToWait(RequestOf(s, t).r)))
  {
    hide Dispatched, Owned, Counted, Closing, InOrder, LockedOnce, SleepersAreSafe, OwnerIsSafe, NobodyPanicked, Healthy,
      Cached, InStep, Courteous, Follows, Behind, BehindCalls;
    HeldIsQueued(s, t);
    HolderInContact(s, t);
    DispatchedState(s.c, RequestOf(s, t).r, s.now);
    SectionKeeps(s, t, d, ToWait(RequestOf(s, t).r));
  }

  lemma CommitKeeps(s: System, t: nat)
    requires Inv(s) && RequestOf(s, t).Committing? && Healthy(s.c)
    ensures Inv(Committed(s, t))
  {
    hide Inv, Dispatched, Healthy, Unlocked;
    var (d, result) := Dispatched(s.c, RequestOf(s, t).r, s.now);
    match result
    case Ok(token) => CommitSucceeds(s, t, d, token);
    case Err(state) => CommitFails(s, t, d, state);
  }

  lemma OthersStand(s: System, t: nat)
    requires Inv(s) && RequestOf(s, t).Registered?
    ensures var e := Taken(Checked(s.c, RequestOf(s, t).r, s.now).0).0;
      forall u | u in s.requests && u != t && Sleeping(s.requests[u])
          && Stands(s.c, s.requests[u].r, s.requests[u].decision) ::
        Stands(e, s.requests[u].r, s.requests[u].decision)
  {
    hide Checked, Counted, Closing, InOrder, LockedOnce, SleepersAreSafe, Healthy, Cached, InStep, Stands;
    var r := RequestOf(s, t).r;
    var d := Checked(s.c, r, s.now).0;
    forall u | u in s.requests && u != t && Sleeping(s.requests[u]) && Stands(s.c, s.requests[u].r, s.requests[u].decision)
      ensures Stands(Taken(d).0, s.requests[u].r, s.requests[u].decision)
    {
      HeldIsQueued(s, u);
      HeldIsQueued(s, t);
      assert HeldIn(s.requests)[u] == Some(s.requests[u].r) && HeldIn(s.requests)[t] == Some(r);
      CheckSpares(s.c, r, s.now, s.requests[u].r, s.requests[u].decision);
      DrainedStands(d, s.requests[u].r, s.requests[u].decision);
    }
  }

  /** The controller after a check whose flags were drained and dropped. */
  lemma CheckedState(s: System, r: Reservation)
    requires Inv(s) && r.owner == s.c.id && Holds(s.c.pending, r.id)
    ensures var (d, state) := Checked(s.c, r, s.now);
      var e := Taken(d).0;
      && Fit(e, s.now) && Follows(s.c, e) && e.id == s.c.id && e.config == s.c.config && e.inflight == s.c.inflight
      && |e.pending| == |s.c.pending| && (forall id :: Holds(e.pending, id) == Holds(s.c.pending, id))
      && state != Cancelled && (state != Ready ==> Stands(e, r, state))
  {
    hide Checked, Owned, Counted, Closing, InOrder, LockedOnce, SleepersAreSafe, Healthy, Cached, InStep, Stands, Follows;
    var op := Check(r);
    StepKept(s.c, op, s.now);
    StepKeeps(s.c, op, s.now);
    StepQueue(s.c, op, s.now);
    StepFollows(s.c, op, s.now);
    var (d, state) := Checked(s.c, r, s.now);
    SameIdsHold(s.c.pending, d.pending);
    StepKept(d, Take, s.now);
    FollowsDrained(s.c, d);
    CheckStands(s.c, r, s.now);
    if state != Ready {
      DrainedStands(d, r, state);
    }
  }

  lemma CheckKeeps(s: System, t: nat)
    requires Inv(s) && RequestOf(s, t).Registered? && !s.failed && Healthy(s.c)
    ensures Inv(Inspected(s, t))
  {
    hide Checked, Owned, Counted, Closing, InOrder, LockedOnce, SleepersAreSafe, NobodyPanicked, WakeComing, Healthy, Cached,
      InStep, Stands, Follows;
    var q := RequestOf(s, t);
    HeldIsQueued(s, t);
    CheckedState(s, q.r);
    if q.holding {
      HolderInContact(s, t);
    }
    OthersStand(s, t);
    var after, e := RequestOf(Inspected(s, t), t), Inspected(s, t).c;
    assert QueueMatches(s.c, e, Held(q), Held(after));
    Moved(s, t, after, e, s.waker);
    assert Inspected(s, t) == Became(s, t, after).(c := e, waker := s.waker);
  }

  lemma InspectKeeps(s: System, t: nat)
    requires Inv(s) && RequestOf(s, t).Registered? && Healthy(s.c)
    ensures Inv(Inspected(s, t))
  {
    hide Inv, Checked, Healthy, LockFree;
    if s.failed {
      Stepped(s, t, Failing(RequestOf(s, t).r));
    } else {
      CheckKeeps(s, t);
    }
  }

  // ---- Failure and contact with the inner service ---------------------------

  lemma AcquireKeeps(s: System, t: nat)
    requires Inv(s) && Enabled(s, Acquire(t))
    ensures Inv(Do(s, Acquire(t)))
  {
    hide Fit;
    Stepped(s, t, Locked(RequestOf(s, t).r));
  }

  lemma FailureIsPublished(s: System, t: nat)
    requires Inv(s) && RequestOf(s, t).Locked?
    ensures Broke in s.log ==> s.failed
  {
    hide Fit, Owned, Counted, InOrder, SleepersAreSafe;
    OnlyHolder(s.requests, t);
  }

  /** Whoever gets the lock after a failure finds it published. */
  lemma CheckClosureKeeps(s: System, t: nat)
    requires Inv(s) && Enabled(s, CheckClosure(t))
    ensures Inv(Do(s, CheckClosure(t)))
  {
    hide Inv, LockFree;
    FailureIsPublished(s, t);
    Stepped(s, t, if s.failed then Failing(RequestOf(s, t).r) else Polling(RequestOf(s, t).r));
  }

  lemma PolledKeeps(s: System, t: nat)
    requires Inv(s) && RequestOf(s, t).Polling?
    ensures Inv(s.(log := s.log + [Polled]))
  {
    hide Fit, Owned, Counted, LockedOnce, SleepersAreSafe, Behind, Due;
    var log := s.log + [Polled];
    assert InContact(s.requests[t]);
    assert Broke !in log;
    assert Closing(s.failed, log, s.requests);
    assert InOrder(s.c, log, s.requests);
  }

  lemma BreakCloses(s: System, t: nat, q: Request)
    requires Closing(s.failed, s.log, s.requests) && LockedOnce(s.requests) && RequestOf(s, t).Polling? && q.Broken?
    ensures Closing(s.failed, s.log + [Broke], s.requests[t := q])
  {
    var log, after := s.log + [Broke], s.requests[t := q];
    assert InContact(s.requests[t]) && after[t].Broken?;
    assert log[|s.log|] == Broke;
    OnlyHolder(s.requests, t);
  }

  lemma BooksSame(s: System, t: nat, q: Request)
    requires Owned(s.c, HeldIn(s.requests)) && Counted(s.c, TokensIn(s.requests)) && t in s.requests
    requires Held(q) == Held(s.requests[t]) && Token(q) == Token(s.requests[t])
    ensures HeldIn(s.requests[t := q]) == HeldIn(s.requests) && TokensIn(s.requests[t := q]) == TokensIn(s.requests)
  {}

  lemma BreakOrders(c: State, log: seq<Contact>, requests: map<nat, Request>)
    requires InOrder(c, log, requests)
    ensures InOrder(c, log + [Broke], requests)
  {
    hide Behind, Due;
  }

  lemma OwnerUntouched(s: System, t: nat, q: Request)
    requires OwnerIsSafe(s) && !Wakes(RequestOf(s, t))
    ensures OwnerIsSafe(Became(s, t, q))
  {
    hide MaySchedule;
    assert Became(s, t, q) == Became(s, t, q).(c := s.c, waker := s.waker);
    OwnerKept(s, t, q, s.c, s.waker);
  }

  /** A readiness error is the last contact. */
  lemma BreakKeeps(s: System, t: nat)
    requires Inv(s) && RequestOf(s, t).Polling?
    ensures Inv(Became(s, t, Broken(RequestOf(s, t).r)).(log := s.log + [Broke]))
  {
    hide Owned, Counted, SleepersAreSafe, LockedOnce, Closing, Stands, Behind, MaySchedule, WakeComing,
        NobodyPanicked, Follows;
    var q := Broken(RequestOf(s, t).r);
    FollowsItself(s.c);
    PanicsKept(s, t, q, s.c);
    hide Fit;
    BooksBecome(s, t, q);
    BooksSame(s, t, q);
    LockKept(s.requests, t, q);
    BreakCloses(s, t, q);
    SleepersKept(s, t, q, s.c);
    OwnerUntouched(s, t, q);
    OrderKept(s.c, s.c, s.log, s.requests, t, q);
    BreakOrders(s.c, s.log, s.requests[t := q]);
  }

  lemma OpenKeeps(s: System, t: nat)
    requires Inv(s) && RequestOf(s, t).Polling?
    ensures Inv(Became(s, t, Committing(RequestOf(s, t).r)))
  {
    hide Fit;
    HolderInContact(s, t);
    Stepped(s, t, Committing(RequestOf(s, t).r));
  }

  lemma PollInnerKeeps(s: System, t: nat, answer: Readiness)
    requires Inv(s) && Enabled(s, PollInner(t, answer))
    ensures Inv(Do(s, PollInner(t, answer)))
  {
    hide Inv;
    var u := s.(log := s.log + [Polled]);
    PolledKeeps(s, t);
    match answer
    case Pending =>
    case Open =>
      OpenKeeps(u, t);
    case Error =>
      BreakKeeps(u, t);
      assert u.log + [Broke] == s.log + [Polled, Broke];
  }

  lemma CallLogged(c: State, failed: bool, log: seq<Contact>, requests: map<nat, Request>, id: nat)
    requires Closing(failed, log, requests) && InOrder(c, log, requests) && Broke !in log
    requires Behind(id, c) && BehindCalls(log, id) && forall t | t in requests :: Due(requests[t]).None?
    ensures Closing(failed, log + [Called(id)], requests) && InOrder(c, log + [Called(id)], requests)
  {
    hide Behind, Due, InContact;
    assert Broke !in log + [Called(id)];
  }

  lemma CallIsNext(s: System, t: nat)
    requires InOrder(s.c, s.log, s.requests) && LockedOnce(s.requests) && RequestOf(s, t).Calling?
    ensures Behind(RequestOf(s, t).id, s.c) && BehindCalls(s.log, RequestOf(s, t).id)
    ensures forall u | u in s.requests && u != t :: Due(s.requests[u]).None?
  {
    hide Behind;
    assert Due(s.requests[t]) == Some(s.requests[t].id);
    OnlyHolder(s.requests, t);
  }

  lemma OwnerWithLog(s: System, log: seq<Contact>)
    requires OwnerIsSafe(s)
    ensures OwnerIsSafe(s.(log := log))
  {}

  /** The inner service is called right after the dispatch, under the lock. */
  lemma CallInnerKeeps(s: System, t: nat)
    requires Inv(s) && Enabled(s, CallInner(t))
    ensures Inv(Do(s, CallInner(t)))
  {
    hide Fit, Owned, Counted, LockedOnce, Closing, InOrder, SleepersAreSafe, OwnerIsSafe, NobodyPanicked, Behind, BehindCalls;
    var id, q := RequestOf(s, t).id, Served(RequestOf(s, t).token);
    HolderInContact(s, t);
    CallIsNext(s, t);
    Stepped(s, t, q);
    var u := Became(s, t, q);
    CallLogged(u.c, u.failed, u.log, u.requests, id);
    OwnerWithLog(u, u.log + [Called(id)]);
  }

  lemma FailureState(c: State, now: Instant)
    requires Kept(c, now)
    ensures var e := Taken(AdmissionFailed(c, now)).0;
      && Fit(e, now) && Follows(c, e) && e.id == c.id && e.config == c.config && e.inflight == c.inflight
      && |e.pending| == |c.pending| && forall id :: Holds(e.pending, id) == Holds(c.pending, id)
  {
    hide AdmissionFailed, Healthy, Cached, InStep, Follows;
    StepKept(c, FailAdmission, now);
    StepKeeps(c, FailAdmission, now);
    StepFollows(c, FailAdmission, now);
    StepQueue(c, FailAdmission, now);
    var d := AdmissionFailed(c, now);
    SameIdsHold(c.pending, d.pending);
    StepKept(d, Take, now);
    FollowsDrained(c, d);
  }

  lemma PublishCloses(s: System, t: nat, q: Request)
    requires Closing(s.failed, s.log, s.requests) && LockedOnce(s.requests) && RequestOf(s, t).Broken? && q.Publishing?
    ensures Closing(true, s.log, s.requests[t := q])
  {
    assert s.requests[t].Broken?;
    OnlyHolder(s.requests, t);
  }

  /** Publishing the failure closes admission in the same critical section. */
  lemma PublishKeeps(s: System, t: nat)
    requires Inv(s) && Enabled(s, Publish(t))
    ensures Inv(Do(s, Publish(t)))
  {
    hide Healthy, Cached, InStep, Follows, Owned, Counted, Behind, Stands, AdmissionFailed, Closing, InOrder, LockedOnce,
      NobodyPanicked;
    var r := RequestOf(s, t).r;
    var e, q := Taken(AdmissionFailed(s.c, s.now)).0, Publishing(r, s.waker);
    HeldIsQueued(s, t);
    FailureState(s.c, s.now);
    BooksMoved(s, t, q, e);
    LockKept(s.requests, t, q);
    PublishCloses(s, t, q);
    OrderKept(s.c, e, s.log, s.requests, t, q);
    PanicsKept(s, t, q, e);
    var after := s.requests[t := q];
    assert Notifies(after[t]);
    if s.waker {
      assert Wakes(after[t]);
    } else if WakeComing(s.requests) {
      var u :| u in s.requests && Wakes(s.requests[u]);
      assert Wakes(after[u]);
    }
  }

  // ---- The owner, notifications and time ------------------------------------

  lemma PollReadyKeeps(s: System)
    requires Inv(s)
    ensures Inv(OwnerPolled(s))
  {
    hide Fit, Owned, Counted, Closing, InOrder, LockedOnce, SleepersAreSafe;
  }

  lemma CourtesyOf(c: State, d: State)
    requires Courteous(c, d) && d.changes == QUIET
    ensures forall r, decision | Stands(c, r, decision) :: Stands(d, r, decision)
    ensures !MaySchedule(c) ==> !MaySchedule(d)
  {
    hide Stands, MaySchedule;
  }

  lemma ReservedState(c: State, now: Instant)
    requires Fit(c, now)
    ensures var (d, result) := Reserved(c, now);
      && Fit(d, now) && Follows(c, d) && d.id == c.id && d.inflight == c.inflight
      && (forall r, decision | Stands(c, r, decision) :: Stands(d, r, decision))
      && (!MaySchedule(c) ==> !MaySchedule(d))
      && (match result
          case Ok(r) =>
            && r.owner == c.id && !Holds(c.pending, r.id)
            && forall id :: Holds(d.pending, id) <==> Holds(c.pending, id) || id == r.id
          case Err(_) => d == c && (MaySchedule(c) ==> c.nextId == U64_MAX))
  {
    hide NextVirtualSlot, InStep, Stands, Follows, Courteous;
    StepKept(c, Reserve, now);
    StepIsCourteous(c, Reserve, now);
    StepKeeps(c, Reserve, now);
    StepFollows(c, Reserve, now);
    StepQueue(c, Reserve, now);
    CourtesyOf(c, Reserved(c, now).0);
  }

  lemma CallKeeps(s: System, t: nat)
    requires Inv(s) && Enabled(s, Call(t))
    ensures Inv(Do(s, Call(t)))
  {
    hide Reserved, Owned, Counted, Closing, InOrder, LockedOnce, SleepersAreSafe, Healthy, Cached, InStep, Stands, Follows;
    var u := s.(granted := false);
    assert Inv(u);
    if s.failed {
      Stepped(u, t, Ended(SharedError));
    } else {
      ReservedState(s.c, s.now);
      var (d, result) := Reserved(s.c, s.now);
      var q := if result.Ok? then Waiting(result.value, false) else Panicked;
      assert OwnerSpared(u, t, q, d, s.waker);
      Moved(u, t, q, d, s.waker);
      assert CallMade(s, t) == Became(u, t, q).(c := d, waker := s.waker);
    }
  }

  lemma NoticingKeepsBooks(s: System, t: nat, q: Request)
    requires t in s.requests && Held(q) == Held(s.requests[t]) && Token(q) == Token(s.requests[t])
    ensures HeldIn(AllNoticed(s.requests)[t := q]) == HeldIn(s.requests)
    ensures TokensIn(AllNoticed(s.requests)[t := q]) == TokensIn(s.requests)
  {}

  lemma NoticingKeepsOwner(s: System, t: nat, q: Request)
    requires t in s.requests && !q.Panicked? && (Wakes(s.requests[t]) ==> Wakes(q))
    requires OwnerIsSafe(s) && NobodyPanicked(s.c, s.requests)
    ensures var u := s.(requests := AllNoticed(s.requests)[t := q]); OwnerIsSafe(u) && NobodyPanicked(u.c, u.requests)
  {
    hide MaySchedule;
    var after := AllNoticed(s.requests)[t := q];
    if WakeComing(s.requests) {
      var u :| u in s.requests && Wakes(s.requests[u]);
      assert Wakes(after[u]);
    }
    forall u | u in after
      ensures after[u].Panicked? ==> s.requests[u].Panicked?
    {}
  }

  lemma NoticingKeepsContact(s: System, t: nat, q: Request)
    requires t in s.requests && Due(q) == Due(s.requests[t]) && !q.Broken? && !s.requests[t].Broken?
    requires Holding(q) ==> Holding(s.requests[t])
    requires InContact(q) ==> InContact(s.requests[t])
    requires LockedOnce(s.requests) && Closing(s.failed, s.log, s.requests) && InOrder(s.c, s.log, s.requests)
    ensures var after := AllNoticed(s.requests)[t := q];
      LockedOnce(after) && Closing(s.failed, s.log, after) && InOrder(s.c, s.log, after)
  {
    hide Behind;
    var after := AllNoticed(s.requests)[t := q];
    forall u | u in after
      ensures Holding(after[u]) ==> Holding(s.requests[u])
      ensures InContact(after[u]) ==> InContact(s.requests[u])
      ensures after[u].Broken? <==> s.requests[u].Broken?
      ensures Due(after[u]) == Due(s.requests[u])
    {}
    if u :| u in s.requests && s.requests[u].Broken? {
      assert after[u].Broken?;
    }
  }

  /** Every dispatch waiter has been told, so none of them sleeps any more. */
  lemma NoticeKeeps(s: System, t: nat, q: Request)
    requires Inv(s) && t in s.requests && !q.Panicked?
    requires Held(q) == Held(s.requests[t]) && Token(q) == Token(s.requests[t]) && Due(q) == Due(s.requests[t])
    requires !Sleeping(q) && !q.Broken? && !s.requests[t].Broken?
    requires Holding(q) ==> Holding(s.requests[t])
    requires InContact(q) ==> InContact(s.requests[t])
    requires Wakes(s.requests[t]) ==> Wakes(q)
    ensures Inv(s.(requests := AllNoticed(s.requests)[t := q]))
  {
    hide Fit, Stands, MaySchedule, Owned, Counted, LockedOnce, Closing, InOrder, Held, Token, Due, Holding, InContact;
    NoticingKeepsBooks(s, t, q);
    NoticingKeepsContact(s, t, q);
    NoticingKeepsOwner(s, t, q);
  }

  lemma SameLock(p: Request, q: Request)
    requires (p.Announcing? || p.Publishing?) && (q.Announcing? || q.Publishing?) && q == p.(wake := q.wake)
    ensures Holding(q) == Holding(p) && InContact(q) == InContact(p)
  {}

  lemma WakeDelivered(s: System, t: nat)
    requires Inv(s) && Enabled(s, Notify(t)) && RequestOf(s, t).wake
    ensures Inv(Delivered(s, t))
  {
    hide Stands, Behind, MaySchedule, Owned, Counted, LockedOnce, Closing, InOrder, SleepersAreSafe, Follows, NobodyPanicked,
      Holding, InContact;
    var q := RequestOf(s, t).(wake := false);
    FollowsItself(s.c);
    PanicsKept(s, t, q, s.c);
    hide Fit;
    SameLock(RequestOf(s, t), q);
    if InContact(s.requests[t]) {
      HolderInContact(s, t);
    }
    BooksSame(s, t, q);
    LockKept(s.requests, t, q);
    ClosingKept(s.failed, s.log, s.requests, t, q);
    OrderKept(s.c, s.c, s.log, s.requests, t, q);
    SleepersKept(s, t, q, s.c);
  }

  lemma ResumeKeeps(s: System, t: nat)
    requires Inv(s) && RequestOf(s, t).Announcing? && !Notifies(RequestOf(s, t)) && !Wakes(RequestOf(s, t))
    ensures Inv(Became(s, t, Resumed(RequestOf(s, t).next)))
  {
    hide Inv, LockFree;
    var q := Resumed(RequestOf(s, t).next);
    if Holding(q) {
      HolderInContact(s, t);
    }
    Stepped(s, t, q);
  }

  lemma NotifyKeeps(s: System, t: nat)
    requires Inv(s) && Enabled(s, Notify(t))
    ensures Inv(Do(s, Notify(t)))
  {
    hide Inv;
    var q := RequestOf(s, t);
    if q.wake {
      WakeDelivered(s, t);
    } else if q.Publishing? {
      NoticeKeeps(s, t, Failing(q.r));
    } else if q.changes.dispatch {
      NoticeKeeps(s, t, q.(changes := q.changes.(dispatch := false)));
    } else {
      ResumeKeeps(s, t);
    }
  }

  lemma TickKeeps(s: System, to: Instant)
    requires Inv(s) && s.now <= to
    ensures Inv(s.(now := to))
  {
    hide Healthy, SyncedAt, Owned, Counted, Closing, InOrder, LockedOnce, SleepersAreSafe;
    TimePasses(s.c.pending, s.c.pacer, s.now, to);
  }

  lemma WaitingKeeps(s: System, t: nat, q: Request)
    requires Inv(s) && t in s.requests && (s.requests[t].Waiting? || s.requests[t].Asleep?)
    requires q == Waiting(s.requests[t].r, s.requests[t].holding) || q == Registered(s.requests[t].r,
        s.requests[t].holding, false)
    ensures Inv(Became(s, t, q))
  {
    hide Fit;
    if Holding(q) {
      HolderInContact(s, t);
    }
    Stepped(s, t, q);
  }

  lemma DropKeeps(s: System, t: nat)
    requires Inv(s) && Enabled(s, Drop(t))
    ensures Inv(Do(s, Drop(t)))
  {
    hide Inv, LockFree;
    Stepped(s, t, Dropping(RequestOf(s, t).r));
  }

  lemma ControllerIsKept(s: System)
    requires Inv(s)
    ensures Kept(s.c, s.now) && Healthy(s.c)
  {
    hide Owned, Counted, Closing, InOrder, SleepersAreSafe;
  }

  lemma RespondTokenIsOurs(s: System, t: nat)
    requires Inv(s) && RequestOf(s, t).Served?
    ensures RequestOf(s, t).token.owner == s.c.id && s.c.inflight > 0
  {
    ServedIsCounted(s, t);
  }

  /** Every step of the owner and of every request keeps the invariant. */
  lemma DoKeeps(s: System, a: Action)
    requires Inv(s) && Enabled(s, a)
    ensures Inv(Do(s, a))
  {
    hide Inv, Unlocked, Committed, Inspected;
    ControllerIsKept(s);
    match a
    case PollReady => PollReadyKeeps(s);
    case Call(t) => CallKeeps(s, t);
    case Read(t) => ReadKeeps(s, t);
    case Register(t) => WaitingKeeps(s, t, Registered(RequestOf(s, t).r, RequestOf(s, t).holding, false));
    case Inspect(t) => InspectKeeps(s, t);
    case Wake(t) => WaitingKeeps(s, t, Waiting(RequestOf(s, t).r, RequestOf(s, t).holding));
    case Acquire(t) => AcquireKeeps(s, t);
    case CheckClosure(t) => CheckClosureKeeps(s, t);
    case PollInner(t, answer) => PollInnerKeeps(s, t, answer);
    case Publish(t) => PublishKeeps(s, t);
    case Commit(t) => CommitKeeps(s, t);
    case CallInner(t) => CallInnerKeeps(s, t);
    case Respond(t, completion) =>
      RespondTokenIsOurs(s, t);
      RespondKeeps(s, t, completion);
    case Release(t) => ReleaseKeeps(s, t);
    case Drop(t) => DropKeeps(s, t);
    case Notify(t) => NotifyKeeps(s, t);
    case Tick(to) => TickKeeps(s, to);
  }
}
