/** What the Tower adapter guarantees in every interleaving. */
module TowerTheorems {
  import opened Clock
  import opened ControllerModel
  import opened ControllerRuns
  import opened Synchrony
  import opened Ownership
  import opened Sleepers
  import opened TowerProtocol
  import opened TowerSafety
  import opened Probe

  ghost function NewEndpoint(id: nat, config: Config, rng: Rng, now: Instant): (s: System)
    requires config.Valid() && rng.Valid()
    ensures Inv(s)
  {
    NewWorldIsInStep(id, config, rng, now);
    System(InitialState(id, config, rng, now), now, false, map[], false, false, false, [])
  }

  /** An interleaving: any enabled step may come next. */
  ghost predicate Interleaves(s: System, actions: seq<Action>)
    requires Inv(s)
    decreases |actions|
  {
    if actions == [] then true
    else Enabled(s, actions[0]) && (DoKeeps(s, actions[0]); Interleaves(Do(s, actions[0]), actions[1..]))
  }

  ghost function AfterAll(s: System, actions: seq<Action>): (u: System)
    requires Inv(s) && Interleaves(s, actions)
    ensures Inv(u)
    decreases |actions|
  {
    if actions == [] then s
    else
      DoKeeps(s, actions[0]);
      AfterAll(Do(s, actions[0]), actions[1..])
  }

  /** The inner service is called in reservation order and is neither polled nor
      called again once its readiness has failed. */
  lemma CallsFollowReservations(id: nat, config: Config, rng: Rng, start: Instant, actions: seq<Action>)
    requires config.Valid() && rng.Valid() && Interleaves(NewEndpoint(id, config, rng, start), actions)
    ensures var log := AfterAll(NewEndpoint(id, config, rng, start), actions).log;
      && (forall i, j :: 0 <= i < j < |log| && log[i].Called? && log[j].Called? ==> log[i].id < log[j].id)
      && (forall i :: 0 <= i < |log| && log[i].Broke? ==> i == |log| - 1)
  {
    hide Fit, Owned, Counted, AfterAll, Interleaves;
    var s := AfterAll(NewEndpoint(id, config, rng, start), actions);
    assert Closing(s.failed, s.log, s.requests) && InOrder(s.c, s.log, s.requests);
  }

  /** In every interleaving an un-notified dispatch sleeper's decision is still
      valid or a notification is on its way, also when the endpoint has failed;
      a parked owner faces a full queue of a working endpoint or is about to be
      woken; and a granted call finds room unless the endpoint has failed. */
  lemma NobodyIsForgotten(id: nat, config: Config, rng: Rng, start: Instant, actions: seq<Action>, t: nat)
    requires config.Valid() && rng.Valid() && Interleaves(NewEndpoint(id, config, rng, start), actions)
    ensures var s := AfterAll(NewEndpoint(id, config, rng, start), actions);
      && (t in s.requests && s.requests[t].Asleep? && !s.requests[t].notified ==>
            || NotifyComing(s.requests)
            || (!s.failed && Holds(s.c.pending, s.requests[t].r.id) && Stands(s.c, s.requests[t].r, s.requests[t].decision)))
      && (s.parked && !WakeComing(s.requests) ==> !MaySchedule(s.c) && !s.failed)
      && (s.granted && !s.failed ==> MaySchedule(s.c))
      && (t in s.requests && s.requests[t].Panicked? ==> s.c.nextId == U64_MAX)
  {
    hide Fit, Stands, MaySchedule, Closing, InOrder, AfterAll, Interleaves;
    var s := AfterAll(NewEndpoint(id, config, rng, start), actions);
    HeldIsQueued(s, t);
  }

  lemma EmptyHands(c: State, held: Holdings)
    requires Owned(c, held) && forall t | t in held :: held[t].None?
    ensures c.pending == []
  {
    assert |c.pending| > 0 ==> HasHolder(c, held, c.pending[0].id);
  }

  /** Slots and inflight counts are never leaked: once every request has ended,
      the queue is empty and nothing is under way. */
  lemma NothingLeaks(s: System)
    requires Inv(s) && forall t | t in s.requests :: s.requests[t].Ended?
    ensures s.c.pending == [] && s.c.inflight == 0
  {
    hide Fit, Closing, InOrder;
    EmptyHands(s.c, HeldIn(s.requests));
    assert Runners(TokensIn(s.requests)) == {};
  }

  predicate Unsuccessful(ending: Ending) {
    ending == SharedError || ending == Withdrawn
  }

  /** Still queued, or ended with the shared error or by withdrawal. */
  predicate Doomed(q: Request) {
    || Held(q).Some?
    || (q.Announcing? && q.next.ToEnd? && Unsuccessful(q.next.ending))
    || (q.Ended? && Unsuccessful(q.ending))
  }

  lemma NobodyInContact(s: System, t: nat)
    requires Inv(s) && s.failed && t in s.requests
    ensures !InContact(s.requests[t]) && !s.requests[t].Broken?
  {
    hide Fit, InContact;
  }

  lemma ReportKeepsIds(c: State, token: InFlight, completion: Completion, now: Instant)
    requires Kept(c, now) && token.owner == c.id && c.inflight > 0
    requires Reportable(c, token, completion, now)
    ensures Finished(c, token, completion, now).0.nextId == c.nextId
  {
    hide Completed, GivenUp, InStep;
    var op := Report(token, completion, now);
    ReportIsStep(c, token, completion, now);
    StepKeeps(c, op, now);
  }

  predicate Contacts(a: Action) {
    a.PollInner? || a.Publish? || a.Commit? || a.CallInner?
  }

  /** The steps that would touch the inner service are not enabled any more. */
  lemma ContactIsOver(s: System, a: Action)
    requires Inv(s) && s.failed && Enabled(s, a)
    ensures !Contacts(a)
  {
    hide Inv;
    if Contacts(a) {
      NobodyInContact(s, a.t);
    }
  }

  lemma NoticingKeepsDoom(q: Request)
    ensures Doomed(Noticed(q)) == Doomed(q)
  {}

  lemma DeliveringKeepsDoom(s: System, t: nat)
    requires Enabled(s, Notify(t)) && t in s.requests && Doomed(s.requests[t])
    ensures Doomed(RequestOf(Delivered(s, t), t))
  {
    hide AllNoticed;
  }

  lemma OthersDelivered(s: System, t: nat, v: nat)
    requires Enabled(s, Notify(t)) && v in s.requests && v != t
    ensures var q := RequestOf(Delivered(s, t), v); q == s.requests[v] || q == Noticed(s.requests[v])
    ensures v in Delivered(s, t).requests
  {
    hide Noticed;
  }

  lemma NotificationsKeepDoom(s: System, t: nat)
    requires Enabled(s, Notify(t))
    ensures var u := Delivered(s, t);
      && u.failed == s.failed && u.log == s.log && u.c == s.c
      && forall v | v in s.requests && Doomed(s.requests[v]) :: v in u.requests && Doomed(u.requests[v])
  {
    var u := Delivered(s, t);
    hide Doomed, Noticed;
    forall v | v in s.requests && Doomed(s.requests[v])
      ensures v in u.requests && Doomed(u.requests[v])
    {
      if v == t {
        DeliveringKeepsDoom(s, t);
      } else {
        OthersDelivered(s, t, v);
        NoticingKeepsDoom(s.requests[v]);
      }
    }
  }

  lemma SectionKeepsDoom(s: System, t: nat, d: State, next: Continuation)
    requires Doomed(RequestOf(s, t)) && t in s.requests ==> next.ToEnd? && Unsuccessful(next.ending)
    ensures var u := Unlocked(s, t, d, next);
      && u.failed == s.failed && u.log == s.log && u.c.nextId == d.nextId
      && forall v | v in s.requests && Doomed(s.requests[v]) :: v in u.requests && Doomed(u.requests[v])
  {}

  lemma RefreshLeavesIds(s: System)
    requires Inv(s)
    ensures Healthy(s.c) && Refreshed(s.c, s.now).nextId == s.c.nextId
  {
    hide Refreshed, Inv, InStep;
    ControllerIsKept(s);
    RefreshingKeeps(s.c, s.now);
  }

  lemma ReleaseLeavesIds(s: System, t: nat)
    requires Inv(s) && Enabled(s, Release(t))
    ensures CancelledOne(s.c, RequestOf(s, t).r, s.now).0.nextId == s.c.nextId
  {
    hide CancelledOne, Inv, InStep;
    ControllerIsKept(s);
    CancellingKeeps(s.c, RequestOf(s, t).r, s.now);
  }

  /** After the failure is published nothing is reserved, dispatched, polled or
      called any more, and whoever is queued stays doomed. */
  lemma ClosureHolds(s: System, a: Action)
    requires Inv(s) && s.failed && Enabled(s, a)
    ensures var u := Do(s, a);
      && u.failed && u.log == s.log && u.c.nextId == s.c.nextId
      && forall t | t in s.requests && Doomed(s.requests[t]) :: t in u.requests && Doomed(u.requests[t])
  {
    hide Inv, Refreshed, CancelledOne, Finished, Unlocked, Delivered, Kept, Healthy, Reportable;
    ContactIsOver(s, a);
    match a
    case Read(t) =>
      RefreshLeavesIds(s);
      SectionKeepsDoom(s, t, Refreshed(s.c, s.now), ToEnd(Observed));
    case Respond(t, completion) =>
      RespondTokenIsOurs(s, t);
      ControllerIsKept(s);
      ReportKeepsIds(s.c, RequestOf(s, t).token, completion, s.now);
      SectionKeepsDoom(s, t, Finished(s.c, RequestOf(s, t).token, completion, s.now).0,
                       ToEnd(if completion == Abandoned then Withdrawn else Answered));
    case Release(t) =>
      ReleaseLeavesIds(s, t);
      SectionKeepsDoom(s, t, CancelledOne(s.c, RequestOf(s, t).r, s.now).0,
                       ToEnd(if RequestOf(s, t).Failing? then SharedError else Withdrawn));
    case Notify(t) => NotificationsKeepDoom(s, t);
    case _ =>
  }

  /** Terminal failure: from its publication on, in every continuation, no slot
      is reserved, the inner service is left alone, and every request queued
      then can only end in the shared error or be withdrawn; when it has ended,
      its slot is free again. */
  lemma {:induction false} FailureIsTerminal(s: System, actions: seq<Action>)
    requires Inv(s) && s.failed && Interleaves(s, actions)
    ensures var u := AfterAll(s, actions);
      && u.failed && u.log == s.log && u.c.nextId == s.c.nextId
      && forall t | t in s.requests && Doomed(s.requests[t]) :: t in u.requests && Doomed(u.requests[t])
    decreases |actions|
  {
    hide Inv, Do, Doomed;
    if actions == [] {
    } else {
      DoKeeps(s, actions[0]);
      ClosureHolds(s, actions[0]);
      FailureIsTerminal(Do(s, actions[0]), actions[1..]);
    }
  }

  /** A request that has ended, or is about to, no longer occupies a slot. */
  lemma EndedFreesItsSlot(s: System, t: nat, id: nat)
    requires Inv(s) && Holds(s.c.pending, id)
    ensures exists u :: u in s.requests && Held(s.requests[u]) == Some(Reservation(s.c.id, id)) && !s.requests[u].Ended?
  {
    hide Fit, Closing, InOrder;
    var k :| 0 <= k < |s.c.pending| && s.c.pending[k].id == id;
    assert HasHolder(s.c, HeldIn(s.requests), s.c.pending[k].id);
    var u :| u in HeldIn(s.requests) && HeldIn(s.requests)[u] == Some(Reservation(s.c.id, id));
    assert Held(s.requests[u]) == Some(Reservation(s.c.id, id));
  }
}
