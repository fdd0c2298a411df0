/** What may change under a sleeper, and what every adapter must keep. */
module Sleepers {
  import opened Clock
  import opened ControllerModel
  import opened VirtualQueue
  import opened ControllerRuns
  import opened Wakeups
  import opened ControllerPacing
  import opened Synchrony

  ghost predicate Kept(c: State, now: Instant) {
    Healthy(c) && Cached(c, now) && InStep(c, now) && ClockMatchesLoad(c)
  }

  /** Flags are drained whenever the lock is free. */
  ghost predicate Fit(c: State, now: Instant) {
    Kept(c, now) && c.changes == QUIET
  }

  /** The decision a sleeper went to sleep with is still the right one. */
  predicate Stands(c: State, r: Reservation, decision: DispatchState) {
    match decision
    case WaitForPrevious => c.pending != [] && c.pending[0].id != r.id
    case InflightLimit => AtHead(c, r) && c.inflight >= c.config.maxInflight
    case WaitUntil(deadline) =>
      && AtHead(c, r) && deadline <= c.pending[0].slot
      && (match NextRefreshAt(c) case Some(at) => deadline <= at case None => !ProbingHasDemand(c))
    case _ => false
  }

  /** Once refreshed, a controller that probes knows when it will again. */
  lemma TransitionIsKnown(c: State, now: Instant)
    requires Healthy(c)
    ensures var d := Refreshed(c, now); NextRefreshAt(d).None? ==> !ProbingHasDemand(d)
  {
    var e := Prepared(c, now);
    RefreshIsRetiming(c, now);
    RetimingKeeps(e, IntervalAt(e, now), now);
  }

  /** Unless it raises the dispatch flag, an operation leaves a waiting head's
      refresh deadline alone. */
  lemma DeadlineStands(c: State, op: Op, now: Instant)
    requires Healthy(c) && Cached(c, now) && Permitted(c, op) && !op.FailAdmission?
    ensures var d := Step(c, op, now).0;
      c.pending != [] && !d.changes.dispatch && (!op.Take? || !c.changes.dispatch) ==>
        NextRefreshAt(d) == NextRefreshAt(c) && ProbingHasDemand(d) == ProbingHasDemand(c)
  {
    hide RateUpdated, Refreshed, Learned;
    match op
    case Check(r) =>
      CheckIs(c, r, now);
      RefreshingFlags(c, now);
      RefreshingCaches(c, now);
    case Dispatch(r) =>
      CheckIs(c, r, now);
      RefreshingFlags(c, now);
      RefreshingCaches(c, now);
    case Complete(token, outcome, rtt) =>
      if token.owner == c.id {
        CompletingFlags(c, token, outcome, rtt, now);
      }
    case Abandon(token) =>
      if token.owner == c.id {
        var d := Penalised(c, now);
        RateUpdateFlags(Released(d, if d.inflight > 1 then d.epoch else None), now);
      }
    case Refresh =>
      RefreshingFlags(c, now);
      RefreshingCaches(c, now);
    case _ =>
  }

  /** An operation that leaves the dispatch flag down leaves every cached
      decision standing. */
  lemma DecisionStands(c: State, op: Op, now: Instant, r: Reservation, decision: DispatchState)
    requires Healthy(c) && Cached(c, now) && Permitted(c, op) && !op.FailAdmission? && !op.Take?
    requires Stands(c, r, decision) && !Step(c, op, now).0.changes.dispatch
    ensures Stands(Step(c, op, now).0, r, decision)
  {
    hide Step, NextRefreshAt, ProbingHasDemand;
    StepFlags(c, op, now);
    StepKeeps(c, op, now);
    DeadlineStands(c, op, now);
  }

  /** A live reservation is ready or gets one of the three waiting decisions,
      and the decision stands. */
  lemma CheckStands(c: State, r: Reservation, now: Instant)
    requires Healthy(c) && Cached(c, now) && r.owner == c.id && Holds(c.pending, r.id)
    ensures var (d, state) := Checked(c, r, now);
      state != Cancelled && (state != Ready ==> Stands(d, r, state))
  {
    hide Refreshed;
    CheckIs(c, r, now);
    RefreshingCaches(c, now);
    TransitionIsKnown(c, now);
    if Checked(c, r, now).1.WaitUntil? {
      DeadlineExactly(c, r, now);
    }
  }

  /** Only the head refreshes, and everyone else waits for it: whatever a check
      changes, nobody else's decision depends on it. */
  lemma CheckSpares(c: State, r: Reservation, now: Instant, other: Reservation, decision: DispatchState)
    requires Healthy(c) && Cached(c, now) && r.owner == c.id && Holds(c.pending, r.id)
    requires Stands(c, other, decision) && other != r && other.owner == c.id
    ensures Stands(Checked(c, r, now).0, other, decision)
  {
    hide Refreshed;
    CheckIs(c, r, now);
    RefreshingCaches(c, now);
  }

  lemma AttemptStands(c: State, r: Reservation, now: Instant)
    requires Healthy(c) && Cached(c, now) && r.owner == c.id && Holds(c.pending, r.id)
    ensures var (d, result) := Dispatched(c, r, now);
      result.Err? ==> result.error != Ready && result.error != Cancelled && Stands(d, r, result.error)
  {
    hide Checked;
    CheckStands(c, r, now);
  }

  /** A failed attempt drops its flags, and may do so. */
  lemma FailedAttemptSpares(c: State, r: Reservation, now: Instant, other: Reservation, decision: DispatchState)
    requires Healthy(c) && Cached(c, now) && r.owner == c.id && Holds(c.pending, r.id)
    requires Dispatched(c, r, now).1.Err? && Stands(c, other, decision) && other != r && other.owner == c.id
    ensures Stands(Dispatched(c, r, now).0, other, decision)
  {
    hide Checked;
    CheckSpares(c, r, now, other, decision);
  }

  lemma StepKept(c: State, op: Op, now: Instant)
    requires Kept(c, now) && Permitted(c, op)
    ensures Kept(Step(c, op, now).0, now)
  {
    hide Step, InStep;
    StepKeeps(c, op, now);
    StepStaysInStep(c, op, now, now);
  }

  /** A change to the controller that leaves sleepers alone or raises a flag. */
  ghost predicate Courteous(c: State, d: State) {
    && d.id == c.id
    && (c.changes.dispatch ==> d.changes.dispatch)
    && (c.changes.admission ==> d.changes.admission)
    && (forall r, decision | Stands(c, r, decision) :: d.changes.dispatch || Stands(d, r, decision))
    && (!MaySchedule(c) ==> d.changes.admission || !MaySchedule(d))
  }

  lemma StepIsCourteous(c: State, op: Op, now: Instant)
    requires Kept(c, now) && Permitted(c, op) && !op.FailAdmission? && !op.Take?
    ensures Courteous(c, Step(c, op, now).0)
  {
    hide Step, Stands;
    StepKeeps(c, op, now);
    StepFlags(c, op, now);
    var d := Step(c, op, now).0;
    forall r, decision | Stands(c, r, decision)
      ensures d.changes.dispatch || Stands(d, r, decision)
    {
      if !d.changes.dispatch {
        DecisionStands(c, op, now, r, decision);
      }
    }
  }

  lemma CourteousTwice(c: State, d: State, e: State)
    requires Courteous(c, d) && Courteous(d, e)
    ensures Courteous(c, e)
  {
    hide Stands, MaySchedule;
  }

  lemma DrainedStands(d: State, r: Reservation, decision: DispatchState)
    requires Stands(d, r, decision)
    ensures Stands(Taken(d).0, r, decision)
  {}

  /** A request reports back: the controller's part as one operation. */
  function Report(token: InFlight, completion: Completion, now: Instant): Op {
    match completion
    case Succeeded => Complete(token, Success, Since(now, token.at))
    case Failed => Complete(token, Failure, Since(now, token.at))
    case Abandoned => Abandon(token)
  }

  lemma ReportIsStep(c: State, token: InFlight, completion: Completion, now: Instant)
    requires Healthy(c) && token.owner == c.id && c.inflight > 0
    requires Reportable(c, token, completion, now)
    ensures var op := Report(token, completion, now);
      && Permitted(c, op)
      && Finished(c, token, completion, now).0 == Step(c, op, now).0
      && (Step(c, op, now).1.NewCompletion? || Step(c, op, now).1.NewAbandonment?)
  {
    hide RateUpdated, Learned;
  }
}
