/** Every interleaving keeps the protocol's invariant. */
module TokioSafety {
  import opened Clock
  import opened ControllerModel
  import opened VirtualQueue
  import opened ControllerRuns
  import opened Synchrony
  import opened QueueIds
  import opened Ownership
  import opened Sleepers
  import opened TokioProtocol

  function PendingChanges(task: Task): Changes {
    if task.Announcing? then task.changes else QUIET
  }

  /** Every other sleeper keeps a standing decision, or will be notified. */
  ghost predicate Spares(s: System, t: nat, task: Task, d: State) {
    && (forall u | u in s.tasks && u != t && Sleeping(s.tasks[u]) && Stands(s.c, s.tasks[u].r, s.tasks[u].decision) ::
          Stands(d, s.tasks[u].r, s.tasks[u].decision) || PendingChanges(task).dispatch)
    && (Sleeping(task) ==> Stands(d, task.r, task.decision))
    && (!MaySchedule(s.c) ==> !MaySchedule(d) || PendingChanges(task).admission)
    && (task == RoomAsleep(false) ==> !MaySchedule(d))
    && (PendingChanges(TaskOf(s, t)).dispatch ==> PendingChanges(task).dispatch)
    && (PendingChanges(TaskOf(s, t)).admission ==> PendingChanges(task).admission)
  }

  lemma SleepersSafeAfter(s: System, t: nat, task: Task, d: State)
    requires SleepersAreSafe(s) && RoomSleepersAreSafe(s) && Spares(s, t, task, d)
    ensures SleepersAreSafe(Became(s, t, task).(c := d)) && RoomSleepersAreSafe(Became(s, t, task).(c := d))
  {
    hide Stands, MaySchedule;
    var s' := Became(s, t, task).(c := d);
    if PendingChanges(task).dispatch {
      assert s'.tasks[t].Announcing? && s'.tasks[t].changes.dispatch;
    }
    if PendingChanges(task).admission {
      assert s'.tasks[t].Announcing? && s'.tasks[t].changes.admission;
    }
    if DispatchAnnounced(s.tasks) {
      var u :| u in s.tasks && s.tasks[u].Announcing? && s.tasks[u].changes.dispatch;
      assert s'.tasks[u].Announcing? && s'.tasks[u].changes.dispatch;
    }
    if AdmissionAnnounced(s.tasks) {
      var u :| u in s.tasks && s.tasks[u].Announcing? && s.tasks[u].changes.admission;
      assert s'.tasks[u].Announcing? && s'.tasks[u].changes.admission;
    }
  }

  lemma BooksBecome(s: System, t: nat, task: Task)
    ensures HeldIn(Became(s, t, task).tasks) == HeldIn(s.tasks)[t := Held(task)]
    ensures TokensIn(Became(s, t, task).tasks) == TokensIn(s.tasks)[t := Token(task)]
  {}

  /** One task changes the controller and itself; everything else stands. */
  lemma Moved(s: System, t: nat, task: Task, d: State)
    requires Inv(s) && Fit(d, s.now) && !task.Panicked?
    requires QueueMatches(s.c, d, Held(TaskOf(s, t)), Held(task))
    requires d.inflight == s.c.inflight - One(Token(TaskOf(s, t))) + One(Token(task))
    requires Token(task).Some? ==> Token(task).value.owner == s.c.id
    requires Spares(s, t, task, d)
    ensures Inv(Became(s, t, task).(c := d))
  {
    assert d.id == s.c.id;
    hide Fit, QueueMatches, Spares, Owned, Counted, SleepersAreSafe, RoomSleepersAreSafe, One;
    BooksBecome(s, t, task);
    OwnedAfter(s.c, d, HeldIn(s.tasks), t, Held(task));
    CountedAfter(s.c, d, TokensIn(s.tasks), t, Token(task));
    SleepersSafeAfter(s, t, task, d);
  }

  lemma HeldIsQueued(s: System, t: nat)
    requires Owned(s.c, HeldIn(s.tasks)) && Counted(s.c, TokensIn(s.tasks))
    ensures var held := Held(TaskOf(s, t));
      held.Some? ==> held.value.owner == s.c.id && Holds(s.c.pending, held.value.id)
    ensures var token := Token(TaskOf(s, t));
      token.Some? ==> token.value.owner == s.c.id
  {
    if t in s.tasks {
      assert HeldIn(s.tasks)[t] == Held(s.tasks[t]) && TokensIn(s.tasks)[t] == Token(s.tasks[t]);
    }
  }

  /** A step that touches neither the queue nor the controller. */
  lemma Stepped(s: System, t: nat, task: Task)
    requires Inv(s) && !task.Panicked?
    requires Held(task) == Held(TaskOf(s, t)) && Token(task) == Token(TaskOf(s, t))
    requires !Sleeping(task) && (task == RoomAsleep(false) ==> !MaySchedule(s.c))
    requires PendingChanges(TaskOf(s, t)) == QUIET
    requires task.Announcing? ==> task.changes == QUIET
    ensures Inv(Became(s, t, task))
  {
    hide Stands, MaySchedule;
    HeldIsQueued(s, t);
    assert QueueMatches(s.c, s.c, Held(TaskOf(s, t)), Held(task));
    assert Became(s, t, task) == Became(s, t, task).(c := s.c);
    Moved(s, t, task, s.c);
  }

  // ---- Critical sections ----------------------------------------------------

  /** A courteous critical section, drained and about to be announced. */
  lemma SectionKeeps(s: System, t: nat, d: State, next: Continuation)
    requires Inv(s) && Kept(d, s.now) && Courteous(s.c, d) && PendingChanges(TaskOf(s, t)) == QUIET
    requires QueueMatches(s.c, Taken(d).0, Held(TaskOf(s, t)), Held(Announcing(d.changes, next)))
    requires d.inflight == s.c.inflight - One(Token(TaskOf(s, t))) + One(Token(Announcing(d.changes, next)))
    requires next.Running? ==> next.token.owner == s.c.id
    ensures Inv(Unlocked(s, t, d, next))
  {
    hide QueueMatches, Healthy, Cached, InStep, Stands, One, Owned, Counted, SleepersAreSafe, RoomSleepersAreSafe;
    var e, task := Taken(d).0, Announcing(d.changes, next);
    assert Kept(e, s.now) by {
      StepKept(d, Take, s.now);
    }
    forall u | u in s.tasks && u != t && Sleeping(s.tasks[u]) && Stands(s.c, s.tasks[u].r, s.tasks[u].decision)
      ensures Stands(e, s.tasks[u].r, s.tasks[u].decision) || d.changes.dispatch
    {
      if !d.changes.dispatch {
        DrainedStands(d, s.tasks[u].r, s.tasks[u].decision);
      }
    }
    assert Spares(s, t, task, e);
    Moved(s, t, task, e);
    assert Unlocked(s, t, d, next) == Became(s, t, task).(c := e);
  }

  lemma ReadKeeps(s: System, t: nat)
    requires Inv(s) && t !in s.tasks
    ensures Inv(Do(s, Read(t)))
  {
    hide Refreshed, Owned, Counted, SleepersAreSafe, RoomSleepersAreSafe, Healthy, Cached, InStep;
    StepKept(s.c, Refresh, s.now);
    StepIsCourteous(s.c, Refresh, s.now);
    StepKeeps(s.c, Refresh, s.now);
    StepQueue(s.c, Refresh, s.now);
    var d := Refreshed(s.c, s.now);
    SameIdsHold(s.c.pending, d.pending);
    SectionKeeps(s, t, d, Nowhere);
  }

  lemma TryReserveKeeps(s: System, t: nat)
    requires Inv(s) && t !in s.tasks
    ensures Inv(Do(s, TryReserve(t)))
  {
    hide Refreshed, Owned, Counted, SleepersAreSafe, RoomSleepersAreSafe, Healthy, Cached, InStep, Courteous;
    StepKept(s.c, Refresh, s.now);
    StepIsCourteous(s.c, Refresh, s.now);
    StepKeeps(s.c, Refresh, s.now);
    StepQueue(s.c, Refresh, s.now);
    var c := Refreshed(s.c, s.now);
    SameIdsHold(s.c.pending, c.pending);
    StepKept(c, Reserve, s.now);
    StepIsCourteous(c, Reserve, s.now);
    StepKeeps(c, Reserve, s.now);
    StepQueue(c, Reserve, s.now);
    var (d, result) := Reserved(c, s.now);
    CourteousTwice(s.c, c, d);
    SectionKeeps(s, t, d, if result.Ok? then Holding(result.value) else Nowhere);
  }

  lemma DropKeeps(s: System, t: nat)
    requires Inv(s) && Enabled(s, Drop(t))
    ensures Inv(Do(s, Drop(t)))
  {
    hide CancelledOne, Owned, Counted, SleepersAreSafe, RoomSleepersAreSafe, Healthy, Cached, InStep, Courteous;
    var op := Cancel(TaskOf(s, t).r);
    HeldIsQueued(s, t);
    StepKept(s.c, op, s.now);
    StepIsCourteous(s.c, op, s.now);
    StepKeeps(s.c, op, s.now);
    StepQueue(s.c, op, s.now);
    CancellingQueue(s.c, op.r, s.now);
    SectionKeeps(s, t, CancelledOne(s.c, op.r, s.now).0, Nowhere);
  }

  lemma FinishKeeps(s: System, t: nat, completion: Completion)
    requires Inv(s) && Enabled(s, Finish(t, completion))
    ensures Inv(Do(s, Finish(t, completion)))
  {
    hide Completed, GivenUp, Owned, Counted, SleepersAreSafe, RoomSleepersAreSafe, Healthy, Cached, InStep, Courteous;
    RunnerIsCounted(s, t);
    var token := TaskOf(s, t).token;
    var op := Report(token, completion, s.now);
    StepKept(s.c, op, s.now);
    StepIsCourteous(s.c, op, s.now);
    StepKeeps(s.c, op, s.now);
    StepQueue(s.c, op, s.now);
    var d := Step(s.c, op, s.now).0;
    ReportIsStep(s.c, token, completion, s.now);
    SameIdsHold(s.c.pending, d.pending);
    SectionKeeps(s, t, d, Nowhere);
  }

  lemma SucceededAttemptKeeps(s: System, t: nat)
    requires Inv(s) && Enabled(s, Attempt(t)) && Dispatched(s.c, TaskOf(s, t).r, s.now).1.Ok?
    ensures Inv(Do(s, Attempt(t)))
  {
    hide Dispatched, Owned, Counted, SleepersAreSafe, RoomSleepersAreSafe, Healthy, Cached, InStep, Courteous;
    var op := Dispatch(TaskOf(s, t).r);
    HeldIsQueued(s, t);
    StepKept(s.c, op, s.now);
    StepIsCourteous(s.c, op, s.now);
    StepKeeps(s.c, op, s.now);
    StepQueue(s.c, op, s.now);
    var (d, result) := Dispatched(s.c, op.r, s.now);
    SectionKeeps(s, t, d, Running(result.value));
  }

  /** The controller after a failed attempt whose flags were drained and dropped. */
  lemma FailedState(c: State, r: Reservation, now: Instant)
    requires Kept(c, now) && r.owner == c.id && Holds(c.pending, r.id) && Dispatched(c, r, now).1.Err?
    ensures var (d, result) := Dispatched(c, r, now);
      var e := Taken(d).0;
      && Fit(e, now) && e.id == c.id && e.config == c.config && e.inflight == c.inflight && |e.pending| == |c.pending|
      && (forall id :: Holds(e.pending, id) == Holds(c.pending, id))
      && result.error != Ready && result.error != Cancelled && Stands(e, r, result.error)
  {
    hide Dispatched, Healthy, Cached, InStep, Stands;
    var op := Dispatch(r);
    StepKept(c, op, now);
    StepKeeps(c, op, now);
    StepQueue(c, op, now);
    var (d, result) := Dispatched(c, r, now);
    SameIdsHold(c.pending, d.pending);
    StepKept(d, Take, now);
    AttemptStands(c, r, now);
    DrainedStands(d, r, result.error);
  }

  lemma OthersStand(s: System, t: nat)
    requires Inv(s) && TaskOf(s, t).Registered? && Dispatched(s.c, TaskOf(s, t).r, s.now).1.Err?
    ensures var e := Taken(Dispatched(s.c, TaskOf(s, t).r, s.now).0).0;
      forall u | u in s.tasks && u != t && Sleeping(s.tasks[u]) && Stands(s.c, s.tasks[u].r, s.tasks[u].decision) ::
        Stands(e, s.tasks[u].r, s.tasks[u].decision)
  {
    hide Dispatched, Counted, SleepersAreSafe, RoomSleepersAreSafe, Healthy, Cached, InStep, Stands;
    var r := TaskOf(s, t).r;
    var d := Dispatched(s.c, r, s.now).0;
    forall u | u in s.tasks && u != t && Sleeping(s.tasks[u]) && Stands(s.c, s.tasks[u].r, s.tasks[u].decision)
      ensures Stands(Taken(d).0, s.tasks[u].r, s.tasks[u].decision)
    {
      HeldIsQueued(s, u);
      HeldIsQueued(s, t);
      assert HeldIn(s.tasks)[u] == Some(s.tasks[u].r) && HeldIn(s.tasks)[t] == Some(r);
      FailedAttemptSpares(s.c, r, s.now, s.tasks[u].r, s.tasks[u].decision);
      DrainedStands(d, s.tasks[u].r, s.tasks[u].decision);
    }
  }

  lemma FailedAttemptKeeps(s: System, t: nat)
    requires Inv(s) && TaskOf(s, t).Registered? && Healthy(s.c)
    requires Dispatched(s.c, TaskOf(s, t).r, s.now).1.Err?
    ensures Inv(Attempted(s, t))
  {
    hide Dispatched, Owned, Counted, SleepersAreSafe, RoomSleepersAreSafe, Healthy, Cached, InStep, Stands;
    HeldIsQueued(s, t);
    FailedState(s.c, TaskOf(s, t).r, s.now);
    OthersStand(s, t);
    var task, e := TaskOf(Attempted(s, t), t), Attempted(s, t).c;
    assert QueueMatches(s.c, e, Held(TaskOf(s, t)), Held(task));
    Moved(s, t, task, e);
    assert Attempted(s, t) == Became(s, t, task).(c := e);
  }

  lemma TickKeeps(s: System, to: Instant)
    requires Inv(s) && s.now <= to
    ensures Inv(s.(now := to))
  {
    hide Healthy, SyncedAt;
    TimePasses(s.c.pending, s.c.pacer, s.now, to);
  }

  lemma RoomNoticeKeepsBooks(s: System, t: nat)
    requires TaskOf(s, t).Announcing? && TaskOf(s, t).changes.admission
    ensures HeldIn(Delivered(s, t).tasks) == HeldIn(s.tasks) && TokensIn(Delivered(s, t).tasks) == TokensIn(s.tasks)
  {}

  lemma DispatchNoticeKeepsBooks(s: System, t: nat)
    requires TaskOf(s, t).Announcing? && !TaskOf(s, t).changes.admission && TaskOf(s, t).changes.dispatch
    ensures HeldIn(Delivered(s, t).tasks) == HeldIn(s.tasks) && TokensIn(Delivered(s, t).tasks) == TokensIn(s.tasks)
  {}

  lemma RoomNoticeKeeps(s: System, t: nat)
    requires Inv(s) && TaskOf(s, t).Announcing? && TaskOf(s, t).changes.admission
    ensures Inv(Delivered(s, t))
  {
    hide Stands, MaySchedule, Fit, Owned, Counted, Held, Token, HeldIn, TokensIn;
    var u := Delivered(s, t);
    RoomNoticeKeepsBooks(s, t);
    if DispatchAnnounced(s.tasks) {
      var v :| v in s.tasks && s.tasks[v].Announcing? && s.tasks[v].changes.dispatch;
      assert u.tasks[v].Announcing? && u.tasks[v].changes.dispatch;
    }
  }

  lemma DispatchNoticeKeeps(s: System, t: nat)
    requires Inv(s) && TaskOf(s, t).Announcing? && !TaskOf(s, t).changes.admission && TaskOf(s, t).changes.dispatch
    ensures Inv(Delivered(s, t))
  {
    hide Stands, MaySchedule, Fit, Owned, Counted, Held, Token, HeldIn, TokensIn;
    var u := Delivered(s, t);
    DispatchNoticeKeepsBooks(s, t);
    if AdmissionAnnounced(s.tasks) {
      var v :| v in s.tasks && s.tasks[v].Announcing? && s.tasks[v].changes.admission;
      assert u.tasks[v].Announcing? && u.tasks[v].changes.admission;
    }
  }

  lemma NotifyKeeps(s: System, t: nat)
    requires Inv(s) && Enabled(s, Notify(t))
    ensures Inv(Delivered(s, t))
  {
    hide Inv;
    var changes := TaskOf(s, t).changes;
    if changes.admission {
      RoomNoticeKeeps(s, t);
    } else if changes.dispatch {
      DispatchNoticeKeeps(s, t);
    } else {
      Stepped(s, t, Resumed(TaskOf(s, t).next));
    }
  }

  /** Every step of every task keeps the invariant. */
  lemma DoKeeps(s: System, a: Action)
    requires Inv(s) && Enabled(s, a)
    ensures Inv(Do(s, a))
  {
    match a
    case TryReserve(t) => TryReserveKeeps(s, t);
    case Read(t) => ReadKeeps(s, t);
    case Enter(t) => Stepped(s, t, Looping(TaskOf(s, t).r));
    case Register(t) => Stepped(s, t, Registered(TaskOf(s, t).r, false));
    case Attempt(t) =>
      if Dispatched(s.c, TaskOf(s, t).r, s.now).1.Ok? {
        SucceededAttemptKeeps(s, t);
      } else {
        FailedAttemptKeeps(s, t);
      }
    case Wake(t) => Stepped(s, t, Looping(TaskOf(s, t).r));
    case Drop(t) => DropKeeps(s, t);
    case Finish(t, completion) => FinishKeeps(s, t, completion);
    case Notify(t) => NotifyKeeps(s, t);
    case SeekRoom(t) => Stepped(s, t, SeekingRoom);
    case RegisterRoom(t) => Stepped(s, t, RoomRegistered(false));
    case CheckRoom(t) =>
      Stepped(s, t, if MaySchedule(s.c) then Admitted else RoomAsleep(TaskOf(s, t).notified));
    case WakeRoom(t) => Stepped(s, t, SeekingRoom);
    case Tick(to) => TickKeeps(s, to);
  }
}
