/** What the steps of the Tokio adapter lead to. */
module TokioOutcomes {
  import opened Clock
  import opened ControllerModel
  import opened VirtualQueue
  import opened ControllerRuns
  import opened Synchrony
  import opened QueueIds
  import opened Ownership
  import opened Outcomes
  import opened TokioProtocol
  import opened TokioSafety
  import opened TokioTheorems
  import GradientLaws
  import PacedTokens
  import Arithmetic

  // ---- Waiting for room -----------------------------------------------------

  /** Inside a call of `ready` that has not returned. */
  predicate AwaitingRoom(task: Task) {
    task.SeekingRoom? || task.RoomRegistered? || task.RoomAsleep?
  }

  lemma NoticeKeepsKind(task: Task)
    ensures var n, m := NotifiedOfRoom(task), NotifiedOfDispatch(task);
      && (AwaitingRoom(n) <==> AwaitingRoom(task)) && (n.Admitted? <==> task.Admitted?)
      && (AwaitingRoom(m) <==> AwaitingRoom(task)) && (m.Admitted? <==> task.Admitted?)
  {}

  lemma DeliveryKeepsKind(s: System, v: nat, t: nat)
    requires TaskOf(s, v).Announcing?
    ensures var before, after := TaskOf(s, t), TaskOf(Delivered(s, v), t);
      (AwaitingRoom(after) <==> AwaitingRoom(before)) && (after.Admitted? <==> before.Admitted?)
  {
    NoticeKeepsKind(TaskOf(s, t));
  }

  lemma AttemptKeepsKind(s: System, v: nat)
    requires Inv(s) && Enabled(s, Attempt(v))
    ensures var u := Do(s, Attempt(v));
      && (TaskOf(u, v).Announcing? || TaskOf(u, v).Asleep? || TaskOf(u, v).Panicked?)
      && forall t :: t != v ==> TaskOf(u, t) == TaskOf(s, t)
  {
    hide Inv, Dispatched;
  }

  /** A call of `ready` returns only by looking while the queue has room; a
      registered task that looks at a full queue goes to sleep. */
  lemma ReadyReturnsWithRoom(s: System, a: Action, t: nat)
    requires Inv(s) && Enabled(s, a)
    ensures var before, after := TaskOf(s, t), TaskOf(Do(s, a), t);
      && (AwaitingRoom(before) && !AwaitingRoom(after) ==> a == CheckRoom(t) && HasRoom(s.c) && after.Admitted?)
      && (after.Admitted? ==> before.Admitted? || (a == CheckRoom(t) && HasRoom(s.c) && AwaitingRoom(before)))
      && (a == CheckRoom(t) && !HasRoom(s.c) ==> after == RoomAsleep(before.notified))
      && (a == CheckRoom(t) && HasRoom(s.c) ==> after.Admitted?)
  {
    hide Inv, Delivered, Refreshed, Reserved, CancelledOne, Finished, Dispatched, Reportable;
    match a
    case Notify(v) => DeliveryKeepsKind(s, v, t);
    case Attempt(v) => AttemptKeepsKind(s, v);
    case _ =>
  }

  /** At some point of the interleaving `t` looked and the queue had room. */
  ghost predicate FoundRoom(s: System, actions: seq<Action>, t: nat)
    requires Inv(s) && Interleaves(s, actions)
    decreases |actions|
  {
    && actions != []
    && ((actions[0] == CheckRoom(t) && HasRoom(s.c))
        || (DoKeeps(s, actions[0]); FoundRoom(Do(s, actions[0]), actions[1..], t)))
  }

  /** In every interleaving a call of `ready` has returned only if it looked
      while the queue had room. */
  lemma {:induction false} ReadyFindsRoom(s: System, actions: seq<Action>, t: nat)
    requires Inv(s) && Interleaves(s, actions)
    ensures var before, after := TaskOf(s, t), TaskOf(AfterAll(s, actions), t);
      && (after.Admitted? ==> before.Admitted? || FoundRoom(s, actions, t))
      && (AwaitingRoom(before) ==> AwaitingRoom(after) || FoundRoom(s, actions, t))
    decreases |actions|
  {
    hide Inv, Do, Enabled, AwaitingRoom, HasRoom;
    if actions == [] {
    } else {
      DoKeeps(s, actions[0]);
      ReadyReturnsWithRoom(s, actions[0], t);
      ReadyFindsRoom(Do(s, actions[0]), actions[1..], t);
    }
  }

  // ---- Reserving, dispatching, finishing ------------------------------------

  /** A task that tries to reserve is given the next identity at the tail of the
      queue iff the queue has room and identities are left. */
  lemma TryReserveOutcome(s: System, t: nat)
    requires Inv(s) && Enabled(s, TryReserve(t))
    ensures var u := Do(s, TryReserve(t));
      && t in u.tasks && u.tasks[t].Announcing?
      && if HasRoom(s.c) && s.c.nextId < U64_MAX then
           && u.tasks[t].next == Holding(Reservation(s.c.id, s.c.nextId))
           && |u.c.pending| == |s.c.pending| + 1 && u.c.pending[|s.c.pending|].id == s.c.nextId
         else
           u.tasks[t].next == Nowhere && |u.c.pending| == |s.c.pending|
  {
    hide Refreshed, Reserved, Owned, Counted, Healthy, Cached, InStep, SleepersAreSafe, RoomSleepersAreSafe, HasRoom;
    ReservationIs(s.c, s.now);
  }

  /** A task's attempt starts its request iff it is at the head, below the
      inflight cap, and due; the token then says whether it had to wait.
      Otherwise the task goes to sleep with the reason. */
  lemma AttemptOutcome(s: System, t: nat)
    requires Inv(s) && Enabled(s, Attempt(t))
    ensures s.c.pending != []
    ensures var u, task, tat := Do(s, Attempt(t)), TaskOf(s, t), Refreshed(s.c, s.now).pacer.tat;
      var after := TaskOf(u, t);
      if s.c.pending[0].id != task.r.id then after == Asleep(task.r, task.notified, WaitForPrevious)
      else if s.c.inflight >= s.c.config.maxInflight then after == Asleep(task.r, task.notified, InflightLimit)
      else if tat > s.now then
        && after.Asleep? && after == Asleep(task.r, task.notified, after.decision)
        && after.decision.WaitUntil? && after.decision.at <= tat && (s.now < MAX_INSTANT ==> s.now < after.decision.at)
      else
        && after.Announcing? && after.next.Running?
        && after.next.token == InFlight(s.c.id, s.now, after.next.token.paced)
        && (after.next.token.paced <==> PacedTokens.Marked(s.c.pending, task.r.id))
        && u.c.inflight == s.c.inflight + 1 && !Holds(u.c.pending, task.r.id)
  {
    hide Refreshed, Dispatched, Checked, Owned, Counted, SleepersAreSafe, RoomSleepersAreSafe, Healthy, Cached, InStep,
         PacedTokens.Marked;
    HeldIsQueued(s, t);
    DispatchIs(s.c, TaskOf(s, t).r, s.now);
    AnswerIs(s.c, TaskOf(s, t).r, s.now);
  }

  /** A finished request leaves the inflight count, and is learned from by what
      became of it: a success teaches an RTT measured from its dispatch, a
      failure and an abandonment only count. */
  lemma FinishOutcome(s: System, t: nat, completion: Completion)
    requires Inv(s) && Enabled(s, Finish(t, completion))
    ensures var u, c := Do(s, Finish(t, completion)), s.c;
      var d, token := u.c, TaskOf(s, t).token;
      && t in u.tasks && u.tasks[t].Announcing? && u.tasks[t].next == Nowhere
      && d.inflight == c.inflight - 1 && SameIds(c.pending, d.pending)
      && d.completed == c.completed + (if completion == Abandoned then 0 else 1)
      && d.failures == c.failures + (if completion == Succeeded then 0 else 1)
      && (completion == Succeeded ==>
            var rtt := Since(s.now, token.at);
            var v := (if rtt < c.latency.settings.minRtt then c.latency.settings.minRtt else rtt) as real;
            && d.latency.samples == c.latency.samples + 1
            && Arithmetic.Keeps(c.latency.long, d.latency.long, v, 1.0 - c.config.longAlpha))
      && (completion != Succeeded ==>
            && d.latency == c.latency
            && GradientLaws.Shrinks(0.25, c.gradient.concurrency, 0.7, d.gradient.concurrency))
  {
    hide Finished, Owned, Counted, SleepersAreSafe, RoomSleepersAreSafe, Healthy, Cached, InStep, Step,
         Arithmetic.Keeps, GradientLaws.Shrinks;
    RunnerIsCounted(s, t);
    FinishTeaches(s.c, TaskOf(s, t).token, completion, s.now);
  }

  /** A dropped reservation leaves the queue, and nobody else's does. */
  lemma DropOutcome(s: System, t: nat)
    requires Inv(s) && Enabled(s, Drop(t))
    ensures var u, r := Do(s, Drop(t)), TaskOf(s, t).r;
      && t in u.tasks && u.tasks[t].Announcing? && u.tasks[t].next == Nowhere && u.tasks[t].changes == Changes(true, true)
      && |u.c.pending| == |s.c.pending| - 1
      && forall id :: Holds(u.c.pending, id) <==> Holds(s.c.pending, id) && id != r.id
  {
    hide CancelledOne, Owned, Counted, SleepersAreSafe, RoomSleepersAreSafe, Healthy, Cached, InStep;
    HeldIsQueued(s, t);
    CancellingKeeps(s.c, TaskOf(s, t).r, s.now);
    CancellingQueue(s.c, TaskOf(s, t).r, s.now);
    CancellingFlags(s.c, TaskOf(s, t).r, s.now);
  }

  /** An announcement wakes everyone who waits for it: first those who wait for
      room, then those who wait to dispatch; only then the task goes on. */
  lemma NotifyOutcome(s: System, t: nat)
    requires Inv(s) && Enabled(s, Notify(t))
    ensures var u, task := Do(s, Notify(t)), TaskOf(s, t);
      && u.c == s.c
      && (task.changes.admission ==> forall v | v in u.tasks :: u.tasks[v].RoomRegistered? || u.tasks[v].RoomAsleep? ==>
            u.tasks[v].notified)
      && (!task.changes.admission && task.changes.dispatch ==>
            forall v | v in u.tasks :: u.tasks[v].Registered? || u.tasks[v].Asleep? ==> u.tasks[v].notified)
      && (!task.changes.admission && !task.changes.dispatch ==>
            TaskOf(u, t) == match task.next
                            case Holding(r) => Guard(r)
                            case Running(token) => Active(token)
                            case Nowhere => Ended)
  {
    hide Inv;
  }

  /** Registered or asleep, and told that something it waits for may have come. */
  predicate WasNotified(task: Task) {
    (task.Registered? || task.Asleep? || task.RoomRegistered? || task.RoomAsleep?) && task.notified
  }

  lemma AttemptNotifiesNobody(s: System, v: nat, t: nat)
    requires Inv(s) && Enabled(s, Attempt(v)) && WasNotified(TaskOf(Do(s, Attempt(v)), t))
    ensures WasNotified(TaskOf(s, t))
  {
    hide Inv, Dispatched;
  }

  lemma DeliveryNotifies(s: System, v: nat, t: nat)
    requires TaskOf(s, v).Announcing?
    ensures var task, changes := TaskOf(Delivered(s, v), t), TaskOf(s, v).changes;
      WasNotified(task) && !WasNotified(TaskOf(s, t)) ==>
        if AwaitingRoom(task) then changes.admission else changes.dispatch && !changes.admission
  {}

  /** Nobody is woken unasked: a waiting task is notified only by the delivery of
      an announcement of what it waits for, and registers without a notification. */
  lemma NotificationsAreDelivered(s: System, a: Action, t: nat)
    requires Inv(s) && Enabled(s, a)
    ensures var before, after := TaskOf(s, t), TaskOf(Do(s, a), t);
      WasNotified(after) && !WasNotified(before) ==>
        && a.Notify?
        && var changes := TaskOf(s, a.t).changes;
           if AwaitingRoom(after) then changes.admission else changes.dispatch && !changes.admission
  {
    hide Inv, Delivered, Refreshed, Reserved, CancelledOne, Finished, Dispatched, Reportable;
    match a
    case Notify(v) => DeliveryNotifies(s, v, t);
    case Attempt(v) =>
      if WasNotified(TaskOf(Do(s, a), t)) {
        AttemptNotifiesNobody(s, v, t);
      }
    case _ =>
  }
}
