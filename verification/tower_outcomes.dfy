/** What the steps of the Tower adapter lead to. */
module TowerOutcomes {
  import opened Clock
  import opened ControllerModel
  import opened VirtualQueue
  import opened ControllerRuns
  import opened Synchrony
  import opened QueueIds
  import opened Ownership
  import opened Sleepers
  import opened Outcomes
  import opened TowerProtocol
  import opened TowerSafety
  import opened TowerTheorems
  import FeedbackRuns
  import GradientLaws
  import PacedTokens
  import Arithmetic

  lemma HeldHere(s: System, t: nat)
    requires Inv(s)
    ensures Kept(s.c, s.now) && Healthy(s.c) && Cached(s.c, s.now)
    ensures var held := Held(RequestOf(s, t));
      held.Some? ==> held.value.owner == s.c.id && Holds(s.c.pending, held.value.id)
  {
    hide Closing, InOrder, SleepersAreSafe, LockedOnce, Healthy, Cached, InStep;
    HeldIsQueued(s, t);
  }

  // ---- Calling --------------------------------------------------------------

  /** The owner is told to go on if the endpoint has failed, which it then
      learns, to call iff there is room, and to wait iff there is none. */
  lemma PollReadyOutcome(s: System)
    requires Inv(s)
    ensures var u := Do(s, PollReady);
      && (u.granted <==> !s.failed && HasRoom(s.c)) && (u.parked <==> !s.failed && !HasRoom(s.c))
      && (u.parked ==> u.waker) && u.c == s.c && u.requests == s.requests && u.log == s.log && u.failed == s.failed
  {
    hide Inv;
  }

  /** A granted call takes the next identity at the tail of the queue; after the
      failure it ends in the shared error at once. */
  lemma CallOutcome(s: System, t: nat)
    requires Inv(s) && Enabled(s, Call(t))
    ensures var u, q := Do(s, Call(t)), RequestOf(Do(s, Call(t)), t);
      && !u.granted
      && (if s.failed then q == Ended(SharedError) && u.c == s.c
          else if s.c.nextId < U64_MAX then
            && q == Waiting(Reservation(s.c.id, s.c.nextId), false)
            && |u.c.pending| == |s.c.pending| + 1 && u.c.pending[|s.c.pending|].id == s.c.nextId
          else q == Panicked)
  {
    hide NextVirtualSlot, Kept, Healthy, SlotsCached, Owned, Counted, Closing, InOrder, SleepersAreSafe;
    HeldHere(s, t);
  }

  // ---- Waiting and dispatching ----------------------------------------------

  /** A request that looks learns of the failure, goes for the service if it is
      at the head, below the cap and due, and otherwise sleeps with the reason. */
  lemma InspectOutcome(s: System, t: nat)
    requires Inv(s) && Enabled(s, Inspect(t))
    ensures s.c.pending != [] && Healthy(s.c)
    ensures var q, after := RequestOf(s, t), RequestOf(Do(s, Inspect(t)), t);
      var tat := Refreshed(s.c, s.now).pacer.tat;
      if s.failed then after == Failing(q.r) && Do(s, Inspect(t)).c == s.c
      else if s.c.pending[0].id != q.r.id then after == Asleep(q.r, q.holding, q.notified, WaitForPrevious)
      else if s.c.inflight >= s.c.config.maxInflight then after == Asleep(q.r, q.holding, q.notified, InflightLimit)
      else if tat <= s.now then after == if q.holding then Committing(q.r) else Lining(q.r)
      else
        && after.Asleep? && after == Asleep(q.r, q.holding, q.notified, after.decision)
        && after.decision.WaitUntil? && after.decision.at <= tat && (s.now < MAX_INSTANT ==> s.now < after.decision.at)
  {
    hide Inv, Refreshed, Checked, Healthy, Cached, Kept;
    HeldHere(s, t);
    AnswerIs(s.c, RequestOf(s, t).r, s.now);
  }

  /** With the service locked and ready, a request is dispatched iff it is still
      due; otherwise it waits again with the lock. */
  lemma CommitOutcome(s: System, t: nat)
    requires Inv(s) && Enabled(s, Commit(t))
    ensures s.c.pending != [] && Healthy(s.c)
    ensures var u, r := Do(s, Commit(t)), RequestOf(s, t).r;
      var after := RequestOf(u, t);
      && after.Announcing?
      && if s.c.pending[0].id == r.id && s.c.inflight < s.c.config.maxInflight && Refreshed(s.c, s.now).pacer.tat <= s.now then
           && after.next.ToCall? && after.next.id == r.id
           && after.next.token == InFlight(s.c.id, s.now, after.next.token.paced)
           && (after.next.token.paced <==> PacedTokens.Marked(s.c.pending, r.id))
           && u.c.inflight == s.c.inflight + 1 && !Holds(u.c.pending, r.id)
         else after.next == ToWait(r) && u.c.inflight == s.c.inflight
  {
    hide Inv, Refreshed, Dispatched, Checked, Healthy, Cached, Kept, PacedTokens.Marked;
    HeldHere(s, t);
    DispatchIs(s.c, RequestOf(s, t).r, s.now);
  }

  // ---- Contact and endings --------------------------------------------------

  /** Contact with the inner service: polled only past the closure check, called
      only after the dispatch, and a readiness error goes on to be published. */
  lemma ContactOutcome(s: System, a: Action)
    requires Inv(s) && Enabled(s, a) && (a.CheckClosure? || a.PollInner? || a.CallInner?)
    ensures var u, q := Do(s, a), RequestOf(s, a.t);
      var after := RequestOf(u, a.t);
      && u.c == s.c && u.failed == s.failed
      && match a
         case CheckClosure(_) => u.log == s.log && after == if s.failed then Failing(q.r) else Polling(q.r)
         case PollInner(_, Pending) => u.log == s.log + [Polled] && after == q
         case PollInner(_, Open) => u.log == s.log + [Polled] && after == Committing(q.r)
         case PollInner(_, Error) => u.log == s.log + [Polled, Broke] && after == Broken(q.r)
         case CallInner(_) => u.log == s.log + [Called(q.id)] && after == Served(q.token)
         case _ => true
  {
    hide Inv;
  }

  /** Publishing the failure closes the endpoint and counts as a failure. */
  lemma PublishOutcome(s: System, t: nat)
    requires Inv(s) && Enabled(s, Publish(t))
    ensures var u := Do(s, Publish(t));
      && u.failed && !u.waker && RequestOf(u, t).Publishing? && RequestOf(u, t).wake == s.waker
      && u.c.failures == s.c.failures + 1 && u.c.latency == s.c.latency && u.c.inflight == s.c.inflight
      && GradientLaws.Shrinks(0.25, s.c.gradient.concurrency, 0.7, u.c.gradient.concurrency)
  {
    hide Inv, AdmissionFailed, Healthy, Cached, Kept, GradientLaws.Shrinks;
    HeldHere(s, t);
    FeedbackRuns.StepTeaches(s.c, FailAdmission, s.now);
    StepKeeps(s.c, FailAdmission, s.now);
  }

  /** A served request reports back what became of it. */
  lemma RespondOutcome(s: System, t: nat, completion: Completion)
    requires Inv(s) && Enabled(s, Respond(t, completion))
    ensures var u, c := Do(s, Respond(t, completion)), s.c;
      var d, token := u.c, RequestOf(s, t).token;
      && RequestOf(u, t).Announcing?
      && RequestOf(u, t).next == ToEnd(if completion == Abandoned then Withdrawn else Answered)
      && d.inflight == c.inflight - 1 && SameIds(c.pending, d.pending)
      && d.completed == c.completed + (if completion == Abandoned then 0 else 1)
      && d.failures == c.failures + (if completion == Succeeded then 0 else 1)
      && (completion == Succeeded ==>
            var rtt := Since(s.now, token.at);
            var v := (if rtt < c.latency.settings.minRtt then c.latency.settings.minRtt else rtt) as real;
            && d.latency.samples == c.latency.samples + 1
            && Arithmetic.Keeps(c.latency.long, d.latency.long, v, 1.0 - c.config.longAlpha))
      && (completion != Succeeded ==>
            && d.latency == c.latency
            && GradientLaws.Shrinks(0.25, c.gradient.concurrency, 0.7, d.gradient.concurrency))
  {
    hide Inv, Finished, Healthy, Cached, Kept, Arithmetic.Keeps, GradientLaws.Shrinks;
    HeldHere(s, t);
    RespondTokenIsOurs(s, t);
    FinishTeaches(s.c, RequestOf(s, t).token, completion, s.now);
  }

  /** A failing or dropped request gives back its slot, and only its own. */
  lemma ReleaseOutcome(s: System, t: nat)
    requires Inv(s) && Enabled(s, Release(t))
    ensures var u, q := Do(s, Release(t)), RequestOf(s, t);
      && RequestOf(u, t).Announcing? && RequestOf(u, t).changes == Changes(true, true)
      && RequestOf(u, t).next == ToEnd(if q.Failing? then SharedError else Withdrawn)
      && |u.c.pending| == |s.c.pending| - 1
      && forall id :: Holds(u.c.pending, id) <==> Holds(s.c.pending, id) && id != q.r.id
  {
    hide Inv, CancelledOne, Healthy, Cached, Kept;
    HeldHere(s, t);
    CancellingKeeps(s.c, RequestOf(s, t).r, s.now);
    CancellingQueue(s.c, RequestOf(s, t).r, s.now);
    CancellingFlags(s.c, RequestOf(s, t).r, s.now);
  }

  /** What a delivery leads to: an announcement first wakes the owner, if its
      waker was taken, and then every request that waits to dispatch; only then
      the request goes on, to the inner service, back to waiting with the lock,
      or to its end. */
  ghost predicate GoesOn(s: System, t: nat, u: System)
    requires RequestOf(s, t).Announcing? || RequestOf(s, t).Publishing?
  {
    var q, after := RequestOf(s, t), RequestOf(u, t);
    if q.wake then !u.parked && after == q.(wake := false)
    else
      && u.parked == s.parked
      && (Notifies(q) ==>
            && (forall v | v in u.requests :: Sleeping(u.requests[v]) ==> v == t)
            && (q.Publishing? ==> after == Failing(q.r)))
      && (!Notifies(q) ==>
            after == match q.next
                     case ToCall(id, token) => Calling(id, token)
                     case ToWait(r) => Waiting(r, true)
                     case ToEnd(ending) => Ended(ending))
  }

  lemma DeliveryGoesOn(s: System, t: nat)
    requires RequestOf(s, t).Announcing? || RequestOf(s, t).Publishing?
    ensures GoesOn(s, t, Delivered(s, t))
  {}

  lemma NotifyOutcome(s: System, t: nat)
    requires Inv(s) && Enabled(s, Notify(t))
    ensures var u := Do(s, Notify(t));
      && GoesOn(s, t, u)
      && u == s.(requests := u.requests, parked := u.parked)
  {
    hide Inv, GoesOn;
    DeliveryGoesOn(s, t);
  }

  predicate WasNotified(q: Request) {
    (q.Registered? || q.Asleep?) && q.notified
  }

  lemma DeliveryNotifies(s: System, v: nat, t: nat)
    requires RequestOf(s, v).Announcing? || RequestOf(s, v).Publishing?
    ensures WasNotified(RequestOf(Delivered(s, v), t)) ==> WasNotified(RequestOf(s, t)) || Notifies(RequestOf(s, v))
  {}

  lemma ChecksNotifyNobody(s: System, a: Action, t: nat)
    requires Inv(s) && Enabled(s, a) && (a.Inspect? || a.Commit?) && WasNotified(RequestOf(Do(s, a), t))
    ensures WasNotified(RequestOf(s, t))
  {
    hide Inv, Dispatched, Checked, LockFree, Holding;
  }

  /** A waiting request is notified only by the delivery of an announcement, and
      registers without a notification. */
  lemma NotificationsAreDelivered(s: System, a: Action, t: nat)
    requires Inv(s) && Enabled(s, a)
    ensures var before, after := RequestOf(s, t), RequestOf(Do(s, a), t);
      WasNotified(after) && !WasNotified(before) ==> a.Notify? && Notifies(RequestOf(s, a.t))
  {
    hide Inv, Delivered, Refreshed, Reserved, CancelledOne, Finished, Dispatched, Checked, AdmissionFailed,
         Reportable, LockFree, Holding, OwnerPolled;
    if a.Notify? {
      DeliveryNotifies(s, a.t, t);
    } else if a.Inspect? || a.Commit? {
      if WasNotified(RequestOf(Do(s, a), t)) {
        ChecksNotifyNobody(s, a, t);
      }
    } else if a.PollReady? {
      PollReadyOutcome(s);
    }
  }

  // ---- Endings over interleavings -------------------------------------------

  predicate EndsIn(q: Request, ending: Ending) {
    (q.Announcing? && q.next == ToEnd(ending)) || q == Ended(ending)
  }

  /** The request tells of the failure. */
  predicate TellsFailure(q: Request) {
    q.Publishing? || q.Failing? || EndsIn(q, SharedError)
  }

  predicate SameEnd(q: Request, p: Request) {
    && (EndsIn(p, Answered) <==> EndsIn(q, Answered)) && (EndsIn(p, Withdrawn) <==> EndsIn(q, Withdrawn))
    && (TellsFailure(p) <==> TellsFailure(q))
  }

  lemma NoticeKeepsEnd(q: Request)
    ensures SameEnd(q, Noticed(q)) && SameEnd(q, q)
  {}

  lemma StrangersStay(s: System, v: nat, t: nat)
    requires (RequestOf(s, v).Announcing? || RequestOf(s, v).Publishing?) && t !in s.requests
    ensures t !in Delivered(s, v).requests
  {}

  lemma OwnDelivery(s: System, t: nat)
    requires RequestOf(s, t).Announcing? || RequestOf(s, t).Publishing?
    ensures SameEnd(RequestOf(s, t), RequestOf(Delivered(s, t), t)) && Delivered(s, t).failed == s.failed
  {
    hide AllNoticed;
  }

  lemma DeliveryKeepsEnd(s: System, v: nat, t: nat)
    requires RequestOf(s, v).Announcing? || RequestOf(s, v).Publishing?
    ensures SameEnd(RequestOf(s, t), RequestOf(Delivered(s, v), t)) && Delivered(s, v).failed == s.failed
  {
    hide AllNoticed, Noticed, SameEnd;
    OwnDelivery(s, v);
    NoticeKeepsEnd(RequestOf(s, t));
    if t != v && t in s.requests {
      OthersDelivered(s, v, t);
    } else if t != v {
      StrangersStay(s, v, t);
    }
  }

  /** What a step may make of a request's end. */
  ghost predicate EndFollows(s: System, a: Action, t: nat, u: System) {
    var before, after := RequestOf(s, t), RequestOf(u, t);
    && (s.failed ==> u.failed)
    && (EndsIn(after, Answered) ==>
          EndsIn(before, Answered) || (a.Respond? && a.t == t && before.Served? && a.completion != Abandoned))
    && (EndsIn(after, Withdrawn) ==>
          || EndsIn(before, Withdrawn) || (a.Respond? && a.t == t && before.Served? && a.completion == Abandoned)
          || (a == Release(t) && before.Dropping?))
    && (TellsFailure(after) ==> TellsFailure(before) || u.failed)
  }

  lemma SectionEnds(s: System, a: Action, t: nat)
    requires Inv(s) && Enabled(s, a) && (a.Read? || a.Respond? || a.Release? || a.Commit? || a.Publish? || a.Inspect?)
    ensures EndFollows(s, a, t, Do(s, a))
  {
    hide Inv, Refreshed, CancelledOne, Finished, Dispatched, Checked, AdmissionFailed, Reportable, Holding;
  }

  lemma OwnerEnds(s: System, a: Action, t: nat)
    requires Inv(s) && Enabled(s, a) && (a.PollReady? || a.Call? || a.Tick?)
    ensures EndFollows(s, a, t, Do(s, a))
  {
    hide Inv, Reserved, MaySchedule, LockFree, Holding;
  }

  lemma OtherEnds(s: System, a: Action, t: nat)
    requires Inv(s) && Enabled(s, a) && !a.Notify? && !(a.PollReady? || a.Call? || a.Tick?)
    requires !(a.Read? || a.Respond? || a.Release? || a.Commit? || a.Publish? || a.Inspect?)
    ensures EndFollows(s, a, t, Do(s, a))
  {
    hide Inv, LockFree, Holding;
  }

  /** A request is answered only by the inner service's response, withdrawn only
      by being abandoned or dropped, and given the error only by the failure. */
  lemma StepEnds(s: System, a: Action, t: nat)
    requires Inv(s) && Enabled(s, a)
    ensures EndFollows(s, a, t, Do(s, a))
  {
    hide Inv, Delivered, EndsIn, TellsFailure;
    if a.Notify? {
      DeliveryKeepsEnd(s, a.t, t);
    } else if a.Read? || a.Respond? || a.Release? || a.Commit? || a.Publish? || a.Inspect? {
      SectionEnds(s, a, t);
    } else if a.PollReady? || a.Call? || a.Tick? {
      OwnerEnds(s, a, t);
    } else {
      OtherEnds(s, a, t);
    }
  }

  ghost predicate Answers(s: System, actions: seq<Action>, t: nat)
    requires Inv(s) && Interleaves(s, actions)
    decreases |actions|
  {
    && actions != []
    && ((actions[0].Respond? && actions[0].t == t && RequestOf(s, t).Served? && actions[0].completion != Abandoned)
        || (DoKeeps(s, actions[0]); Answers(Do(s, actions[0]), actions[1..], t)))
  }

  lemma {:induction false} FailureStaysTold(s: System, actions: seq<Action>, t: nat)
    requires Inv(s) && Interleaves(s, actions) && (TellsFailure(RequestOf(s, t)) ==> s.failed)
    ensures var u := AfterAll(s, actions);
      TellsFailure(RequestOf(u, t)) ==> u.failed
    decreases |actions|
  {
    hide Inv, Do, Enabled, TellsFailure;
    if actions == [] {
    } else {
      DoKeeps(s, actions[0]);
      StepEnds(s, actions[0], t);
      FailureStaysTold(Do(s, actions[0]), actions[1..], t);
    }
  }

  /** In every interleaving of a new endpoint a request that was answered has had
      the inner service's response, and one that got the shared error did so
      after the failure was published. */
  lemma {:induction false} EndingsAreJustified(s: System, actions: seq<Action>, t: nat)
    requires Inv(s) && Interleaves(s, actions)
    requires !EndsIn(RequestOf(s, t), Answered) && (TellsFailure(RequestOf(s, t)) ==> s.failed)
    ensures var u := AfterAll(s, actions);
      && (EndsIn(RequestOf(u, t), Answered) ==> Answers(s, actions, t))
      && (TellsFailure(RequestOf(u, t)) ==> u.failed)
    decreases |actions|
  {
    hide Inv, Do, Enabled, TellsFailure, EndsIn;
    if actions == [] {
    } else {
      var a, u := actions[0], Do(s, actions[0]);
      DoKeeps(s, a);
      StepEnds(s, a, t);
      if EndsIn(RequestOf(u, t), Answered) {
        assert Answers(s, actions, t);
        FailureStaysTold(u, actions[1..], t);
      } else {
        EndingsAreJustified(u, actions[1..], t);
      }
    }
  }
}
