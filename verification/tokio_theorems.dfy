/** What the protocol's invariant means for whoever waits. */
module TokioTheorems {
  import opened Clock
  import opened Gcra
  import opened ControllerModel
  import opened VirtualQueue
  import opened ControllerRuns
  import opened Synchrony
  import opened Silence
  import opened Ownership
  import opened Sleepers
  import opened TokioProtocol
  import opened TokioSafety
  import opened Probe

  ghost function NewEndpoint(id: nat, config: Config, rng: Rng, now: Instant): (s: System)
    requires config.Valid() && rng.Valid()
    ensures Inv(s)
  {
    NewWorldIsInStep(id, config, rng, now);
    System(InitialState(id, config, rng, now), now, map[])
  }

  /** An interleaving: any enabled step may come next. */
  ghost predicate Interleaves(s: System, actions: seq<Action>)
    requires Inv(s)
    decreases |actions|
  {
    if actions == [] then true
    else Enabled(s, actions[0]) && (DoKeeps(s, actions[0]); Interleaves(Do(s, actions[0]), actions[1..]))
  }

  ghost function AfterAll(s: System, actions: seq<Action>): (u: System)
    requires Inv(s) && Interleaves(s, actions)
    ensures Inv(u)
    decreases |actions|
  {
    if actions == [] then s
    else
      DoKeeps(s, actions[0]);
      AfterAll(Do(s, actions[0]), actions[1..])
  }

  lemma ReserveKeepsConfig(c: State, now: Instant)
    requires Healthy(c) && Cached(c, now)
    ensures Reserved(Refreshed(c, now), now).0.config == c.config
  {
    hide Refreshed, Healthy, Cached;
    RefreshingKeeps(c, now);
    ReservingKeeps(Refreshed(c, now), now);
  }

  lemma FinishKeepsConfig(c: State, token: InFlight, completion: Completion, now: Instant)
    requires Healthy(c) && Cached(c, now) && token.owner == c.id && c.inflight > 0
    requires Reportable(c, token, completion, now)
    ensures Finished(c, token, completion, now).0.config == c.config
  {
    hide Completed, GivenUp, Healthy, Cached;
    ReportIsStep(c, token, completion, now);
    StepKeeps(c, Report(token, completion, now), now);
  }

  lemma DispatchKeepsConfig(c: State, r: Reservation, now: Instant)
    requires Healthy(c) && Cached(c, now)
    ensures Dispatched(c, r, now).0.config == c.config
  {
    hide Dispatched;
    DispatchingKeeps(c, r, now);
  }

  lemma StepKeepsConfig(s: System, a: Action)
    requires Inv(s) && Enabled(s, a)
    ensures Do(s, a).c.config == s.c.config
  {
    hide Refreshed, Reserved, Finished, CancelledOne, Dispatched, Owned, Healthy, Cached, InStep;
    match a
    case TryReserve(_) => ReserveKeepsConfig(s.c, s.now);
    case Read(_) => RefreshingKeeps(s.c, s.now);
    case Attempt(t) => DispatchKeepsConfig(s.c, TaskOf(s, t).r, s.now);
    case Drop(t) => CancellingKeeps(s.c, TaskOf(s, t).r, s.now);
    case Finish(t, completion) =>
      RunnerIsCounted(s, t);
      FinishKeepsConfig(s.c, TaskOf(s, t).token, completion, s.now);
    case _ =>
  }

  lemma {:induction false} ConfigStays(s: System, actions: seq<Action>)
    requires Inv(s) && Interleaves(s, actions)
    ensures AfterAll(s, actions).c.config == s.c.config
    decreases |actions|
  {
    hide Inv, Do;
    if actions == [] {
    } else {
      DoKeeps(s, actions[0]);
      StepKeepsConfig(s, actions[0]);
      ConfigStays(Do(s, actions[0]), actions[1..]);
    }
  }

  /** In every interleaving of any number of tasks, an un-notified dispatch
      sleeper's reservation is queued and its cached decision is still valid, or
      a dispatch notification is on its way; an un-notified `ready` sleeper
      faces a full queue, or an admission notification is on its way; and no
      live reservation is ever told that it was cancelled. */
  lemma NoLostWakeup(id: nat, config: Config, rng: Rng, start: Instant, actions: seq<Action>, t: nat)
    requires config.Valid() && rng.Valid()
    requires Interleaves(NewEndpoint(id, config, rng, start), actions)
    ensures var s := AfterAll(NewEndpoint(id, config, rng, start), actions);
      t in s.tasks ==>
        var task := s.tasks[t];
        && (task.Asleep? && !task.notified ==>
              && Holds(s.c.pending, task.r.id)
              && (|| DispatchAnnounced(s.tasks)
                  || (task.decision == WaitForPrevious && s.c.pending[0].id != task.r.id)
                  || (task.decision == InflightLimit && s.c.pending[0].id == task.r.id && s.c.inflight >= config.maxInflight)
                  || (task.decision.WaitUntil? && s.c.pending[0].id == task.r.id
                      && task.decision.at <= s.c.pending[0].slot
                      && (NextRefreshAt(s.c).Some? ==> task.decision.at <= NextRefreshAt(s.c).value))))
        && (task.RoomAsleep? && !task.notified ==> !MaySchedule(s.c) || AdmissionAnnounced(s.tasks))
        && !task.Panicked?
  {
    var s := AfterAll(NewEndpoint(id, config, rng, start), actions);
    ConfigStays(NewEndpoint(id, config, rng, start), actions);
    hide NextRefreshAt, ProbingHasDemand, AfterAll, Interleaves, Fit;
    HeldIsQueued(s, t);
  }

  lemma PreparingIsIdle(c: State, now: Instant)
    requires Healthy(c)
    requires match NextRefreshAt(c) case Some(at) => now < at case None => !ProbingHasDemand(c)
    ensures Prepared(c, now) == c
  {}

  lemma NothingLapsed(c: State, now: Instant)
    requires match NextRefreshAt(c) case Some(at) => now < at case None => !ProbingHasDemand(c)
    requires Healthy(c)
    ensures DerivedInterval(c, now) == IntervalAt(c, now) && !LapsedNegative(c.probe, now)
  {
    hide RateAt, Healthy;
    assert WithoutExpiredProbe(c, now) == c;
  }

  /** Before its deadline a standing decision cannot have turned into
      readiness: the probe stays as it is and silence only slows down. */
  lemma TooEarly(c: State, r: Reservation, deadline: Instant, now: Instant)
    requires Kept(c, now) && Halves(c.config.halving) && Stands(c, r, WaitUntil(deadline)) && now < deadline
    ensures Checked(c, r, now).1 != Ready
  {
    hide IntervalAt, DerivedInterval, Refreshed, Halves, InStep;
    PreparingIsIdle(c, now);
    NothingLapsed(c, now);
    RefreshIsRetiming(c, now);
    SpacingLags(c, now);
    SlowingKeepsWait(c.pacer, IntervalAt(c, now), now);
    assert c.pacer.tat > now;
    ReadyExactly(c, r, now);
  }

  /** Nobody sleeps through readiness: if an un-notified sleeper could dispatch
      now, and no notification is on its way, then its own timer is due. */
  lemma NoMissedReadiness(s: System, t: nat)
    requires Inv(s) && Halves(s.c.config.halving)
    requires t in s.tasks && Sleeping(s.tasks[t]) && !DispatchAnnounced(s.tasks)
    requires Dispatched(s.c, s.tasks[t].r, s.now).1.Ok?
    ensures s.tasks[t].decision.WaitUntil? && Enabled(s, Wake(t))
  {
    hide Refreshed, Halves, InStep;
    var task := s.tasks[t];
    ReadyExactly(s.c, task.r, s.now);
    if task.decision.WaitUntil? && s.now < task.decision.at {
      TooEarly(s.c, task.r, task.decision.at, s.now);
    }
  }

  lemma CapIsPositive(s: System)
    requires Inv(s)
    ensures s.c.config.maxInflight > 0
  {}

  /** The head of the queue is never stranded: its owner is awake, will be
      notified, has a timer, or waits for a request that is still under way. */
  lemma HeadIsNeverStranded(s: System) returns (t: nat, u: nat)
    requires Inv(s) && s.c.pending != []
    ensures t in s.tasks && Held(s.tasks[t]) == Some(Reservation(s.c.id, s.c.pending[0].id))
    ensures || !Sleeping(s.tasks[t]) || s.tasks[t].decision.WaitUntil?
            || (u in s.tasks && s.tasks[u].Announcing? && s.tasks[u].changes.dispatch)
            || (u in s.tasks && Token(s.tasks[u]).Some? && Token(s.tasks[u]).value.owner == s.c.id)
  {
    CapIsPositive(s);
    hide Fit;
    assert HasHolder(s.c, HeldIn(s.tasks), s.c.pending[0].id);
    t :| t in HeldIn(s.tasks) && HeldIn(s.tasks)[t] == Some(Reservation(s.c.id, s.c.pending[0].id));
    u := t;
    if DispatchAnnounced(s.tasks) {
      u :| u in s.tasks && s.tasks[u].Announcing? && s.tasks[u].changes.dispatch;
    } else if Sleeping(s.tasks[t]) && s.tasks[t].decision.InflightLimit? {
      assert Runners(TokensIn(s.tasks)) != {};
      u :| u in Runners(TokensIn(s.tasks));
    }
  }
}
