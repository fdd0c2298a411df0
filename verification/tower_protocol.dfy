/** One Tower endpoint: its owner, the requests it was called with, the lock
    around the inner service, and the failure that closes all of it. */
module TowerProtocol {
  import opened Clock
  import opened ControllerModel
  import opened Ownership
  import opened Sleepers

  /** What the inner service saw. */
  datatype Contact = Polled | Broke | Called(id: nat)

  datatype Ending = Answered | SharedError | Withdrawn | Observed

  datatype Continuation = ToCall(id: nat, token: InFlight) | ToWait(r: Reservation) | ToEnd(ending: Ending)

  /** A request's future. `holding` says that it has the inner service's lock. */
  datatype Request =
    | Waiting(r: Reservation, holding: bool)                             // at the top of the wait loop
    | Registered(r: Reservation, holding: bool, notified: bool)          // enabled, about to inspect
    | Asleep(r: Reservation, holding: bool, notified: bool, decision: DispatchState)
    | Lining(r: Reservation)                                             // due; waiting for the service lock
    | Locked(r: Reservation)                                             // has the lock, about to check for closure
    | Polling(r: Reservation)                                            // waiting for inner readiness
    | Committing(r: Reservation)                                         // inner service ready, about to dispatch
    | Calling(id: nat, token: InFlight)                                  // dispatched, about to call
    | Served(token: InFlight)                                            // awaiting the inner response
    | Broken(r: Reservation)                                             // readiness failed, not yet published
    | Publishing(r: Reservation, wake: bool)                             // closed, waiters not yet notified
    | Failing(r: Reservation)                                            // about to return the shared error
    | Dropping(r: Reservation)                                           // future dropped, slot still taken
    | Announcing(changes: Changes, wake: bool, next: Continuation)       // unlocked, not yet notified
    | Ended(ending: Ending)
    | Panicked

  /** `granted`: the owner was told it may call; `parked`: it was told to wait
      and has not been woken since; `waker`: its waker is stored. */
  datatype System = System(
    c: State, now: Instant, failed: bool, requests: map<nat, Request>,
    granted: bool, parked: bool, waker: bool, log: seq<Contact>)

  datatype Readiness = Pending | Open | Error

  datatype Action =
    | PollReady
    | Call(t: nat)
    | Read(t: nat)
    | Register(t: nat)
    | Inspect(t: nat)
    | Wake(t: nat)
    | Acquire(t: nat)
    | CheckClosure(t: nat)
    | PollInner(t: nat, answer: Readiness)
    | Publish(t: nat)
    | Commit(t: nat)
    | CallInner(t: nat)
    | Respond(t: nat, completion: Completion)
    | Release(t: nat)
    | Drop(t: nat)
    | Notify(t: nat)
    | Tick(to: Instant)

  function RequestOf(s: System, t: nat): Request {
    if t in s.requests then s.requests[t] else Ended(Observed)
  }

  predicate Holding(q: Request) {
    match q
    case Waiting(_, holding) => holding
    case Registered(_, holding, _) => holding
    case Asleep(_, holding, _, _) => holding
    case Announcing(_, _, next) => !next.ToEnd?
    case _ => q.Locked? || q.Polling? || q.Committing? || q.Calling? || q.Broken? || q.Publishing?
  }

  predicate LockFree(requests: map<nat, Request>) {
    forall t | t in requests :: !Holding(requests[t])
  }

  /** The owner calls only after it was told it may; a future can be dropped
      before it is polled and wherever it awaits. */
  predicate Enabled(s: System, a: Action) {
    match a
    case PollReady => true
    case Call(t) => t !in s.requests && s.granted
    case Read(t) => t !in s.requests
    case Register(t) => RequestOf(s, t).Waiting?
    case Inspect(t) => RequestOf(s, t).Registered?
    case Wake(t) =>
      var q := RequestOf(s, t);
      q.Asleep? && (q.notified || (q.decision.WaitUntil? && q.decision.at <= s.now))
    case Acquire(t) => RequestOf(s, t).Lining? && LockFree(s.requests)
    case CheckClosure(t) => RequestOf(s, t).Locked?
    case PollInner(t, _) => RequestOf(s, t).Polling?
    case Publish(t) => RequestOf(s, t).Broken?
    case Commit(t) => RequestOf(s, t).Committing?
    case CallInner(t) => RequestOf(s, t).Calling?
    case Respond(t, completion) =>
      RequestOf(s, t).Served? && Reportable(s.c, RequestOf(s, t).token, completion, s.now)
    case Release(t) => RequestOf(s, t).Failing? || RequestOf(s, t).Dropping?
    case Drop(t) =>
      var q := RequestOf(s, t);
      (q.Waiting? && !q.holding) || q.Asleep? || q.Lining? || q.Polling?
    case Notify(t) => RequestOf(s, t).Announcing? || RequestOf(s, t).Publishing?
    case Tick(to) => s.now <= to
  }

  function Became(s: System, t: nat, q: Request): System {
    s.(requests := s.requests[t := q])
  }

  /** A critical section that drains the flags and takes the stored waker when
      the queue got shorter. */
  function Unlocked(s: System, t: nat, d: State, next: Continuation): System {
    Became(s, t, Announcing(d.changes, d.changes.admission && s.waker, next))
    .(c := Taken(d).0, waker := s.waker && !d.changes.admission)
  }

  function Noticed(q: Request): Request {
    if q.Registered? || q.Asleep? then q.(notified := true) else q
  }

  function AllNoticed(requests: map<nat, Request>): map<nat, Request> {
    map t | t in requests :: Noticed(requests[t])
  }

  function Resumed(next: Continuation): Request {
    match next
    case ToCall(id, token) => Calling(id, token)
    case ToWait(r) => Waiting(r, true)
    case ToEnd(ending) => Ended(ending)
  }

  /** The owner first, then the dispatch waiters, then on with the request. */
  function Delivered(s: System, t: nat): System
    requires RequestOf(s, t).Announcing? || RequestOf(s, t).Publishing?
  {
    var q := RequestOf(s, t);
    if q.wake then Became(s, t, q.(wake := false)).(parked := false)
    else if q.Publishing? then s.(requests := AllNoticed(s.requests)[t := Failing(q.r)])
    else if q.changes.dispatch then
      s.(requests := AllNoticed(s.requests)[t := q.(changes := q.changes.(dispatch := false))])
    else Became(s, t, Resumed(q.next))
  }

  function OwnerPolled(s: System): System {
    if s.failed then s.(granted := false, parked := false)
    else if MaySchedule(s.c) then s.(granted := true, parked := false, waker := false)
    else s.(granted := false, parked := true, waker := true)
  }

  function CallMade(s: System, t: nat): System {
    var u := s.(granted := false);
    if s.failed then Became(u, t, Ended(SharedError))
    else
      var (d, result) := Reserved(s.c, s.now);
      Became(u, t, if result.Ok? then Waiting(result.value, false) else Panicked).(c := d)
  }

  /** The check drains the flags without delivering them. */
  function Inspected(s: System, t: nat): System
    requires Healthy(s.c) && RequestOf(s, t).Registered?
  {
    var q := RequestOf(s, t);
    if s.failed then Became(s, t, Failing(q.r))
    else
      var (d, state) := Checked(s.c, q.r, s.now);
      Became(s, t, match state
                   case Ready => if q.holding then Committing(q.r) else Lining(q.r)
                   case Cancelled => Panicked
                   case _ => Asleep(q.r, q.holding, q.notified, state))
      .(c := Taken(d).0)
  }

  function InnerPolled(s: System, t: nat, answer: Readiness): System
    requires RequestOf(s, t).Polling?
  {
    var r := RequestOf(s, t).r;
    match answer
    case Pending => s.(log := s.log + [Polled])
    case Open => Became(s, t, Committing(r)).(log := s.log + [Polled])
    case Error => Became(s, t, Broken(r)).(log := s.log + [Polled, Broke])
  }

  function Committed(s: System, t: nat): System
    requires Healthy(s.c) && RequestOf(s, t).Committing?
  {
    var r := RequestOf(s, t).r;
    var (d, result) := Dispatched(s.c, r, s.now);
    Unlocked(s, t, d, match result case Ok(token) => ToCall(r.id, token) case Err(_) => ToWait(r))
  }

  function Held(q: Request): Option<Reservation> {
    match q
    case Calling(_, _) => None
    case Served(_) => None
    case Announcing(_, _, ToWait(r)) => Some(r)
    case Announcing(_, _, _) => None
    case Ended(_) => None
    case Panicked => None
    case _ => Some(q.r)
  }

  function HeldIn(requests: map<nat, Request>): Holdings {
    map t | t in requests :: Held(requests[t])
  }

  function Token(q: Request): Option<InFlight> {
    match q
    case Calling(_, token) => Some(token)
    case Served(token) => Some(token)
    case Announcing(_, _, ToCall(_, token)) => Some(token)
    case _ => None
  }

  function TokensIn(requests: map<nat, Request>): Tokens {
    map t | t in requests :: Token(requests[t])
  }

  predicate LockedOnce(requests: map<nat, Request>) {
    forall t, u | t in requests && u in requests && Holding(requests[t]) && Holding(requests[u]) :: t == u
  }

  /** The request is past the closure check and may poll or call the service. */
  predicate InContact(q: Request) {
    Holding(q) && !q.Locked? && !q.Broken? && !q.Publishing?
  }

  /** An inner readiness error is the last thing the inner service sees, and
      it is published by the request that saw it. */
  ghost predicate Closing(failed: bool, log: seq<Contact>, requests: map<nat, Request>) {
    && (forall i :: 0 <= i < |log| - 1 ==> !log[i].Broke?)
    && (Broke in log ==> forall t | t in requests :: !InContact(requests[t]))
    && (Broke in log <==> failed || exists t :: t in requests && requests[t].Broken?)
    && (failed ==> forall t | t in requests :: !requests[t].Broken?)
  }

  /** Dispatched by the controller and about to be handed to the inner service. */
  function Due(q: Request): Option<nat> {
    match q
    case Calling(id, _) => Some(id)
    case Announcing(_, _, ToCall(id, _)) => Some(id)
    case _ => None
  }

  predicate Behind(id: nat, c: State) {
    id < c.nextId && forall k :: 0 <= k < |c.pending| ==> id < c.pending[k].id
  }

  /** Ids called, then the id due, then the ids queued: all in order. */
  ghost predicate InOrder(c: State, log: seq<Contact>, requests: map<nat, Request>) {
    && (forall i, j :: 0 <= i < j < |log| && log[i].Called? && log[j].Called? ==> log[i].id < log[j].id)
    && (forall i :: 0 <= i < |log| && log[i].Called? ==> Behind(log[i].id, c))
    && (forall t | t in requests && Due(requests[t]).Some? ::
          Behind(Due(requests[t]).value, c)
          && forall i :: 0 <= i < |log| && log[i].Called? ==> log[i].id < Due(requests[t]).value)
  }

  predicate Sleeping(q: Request) {
    q.Asleep? && !q.notified
  }

  predicate Notifies(q: Request) {
    q.Publishing? || (q.Announcing? && q.changes.dispatch)
  }

  ghost predicate NotifyComing(requests: map<nat, Request>) {
    exists t :: t in requests && Notifies(requests[t])
  }

  ghost predicate SleepersAreSafe(c: State, failed: bool, requests: map<nat, Request>) {
    forall t | t in requests && Sleeping(requests[t]) ::
      NotifyComing(requests) || (!failed && Stands(c, requests[t].r, requests[t].decision))
  }

  predicate Wakes(q: Request) {
    (q.Publishing? || q.Announcing?) && q.wake
  }

  ghost predicate WakeComing(requests: map<nat, Request>) {
    exists t :: t in requests && Wakes(requests[t])
  }

  ghost predicate OwnerIsSafe(s: System) {
    && (s.waker ==> !s.failed && !MaySchedule(s.c))
    && (s.parked ==> s.waker || WakeComing(s.requests))
    && (s.granted && !s.failed ==> MaySchedule(s.c))
  }

  ghost predicate NobodyPanicked(c: State, requests: map<nat, Request>) {
    forall t | t in requests && requests[t].Panicked? :: c.nextId == U64_MAX
  }

  ghost predicate Inv(s: System) {
    && Fit(s.c, s.now) && Owned(s.c, HeldIn(s.requests)) && Counted(s.c, TokensIn(s.requests))
    && LockedOnce(s.requests)
    && Closing(s.failed, s.log, s.requests)
    && InOrder(s.c, s.log, s.requests)
    && SleepersAreSafe(s.c, s.failed, s.requests)
    && OwnerIsSafe(s) && NobodyPanicked(s.c, s.requests)
  }

  lemma ServedIsCounted(s: System, t: nat)
    requires Counted(s.c, TokensIn(s.requests)) && RequestOf(s, t).Served?
    ensures s.c.inflight > 0 && RequestOf(s, t).token.owner == s.c.id
  {
    assert TokensIn(s.requests)[t] == Some(RequestOf(s, t).token);
    assert t in Runners(TokensIn(s.requests));
  }

  ghost function Do(s: System, a: Action): System
    requires Inv(s) && Enabled(s, a)
  {
    match a
    case PollReady => OwnerPolled(s)
    case Call(t) => CallMade(s, t)
    case Read(t) => Unlocked(s, t, Refreshed(s.c, s.now), ToEnd(Observed))
    case Register(t) => Became(s, t, Registered(RequestOf(s, t).r, RequestOf(s, t).holding, false))
    case Inspect(t) => Inspected(s, t)
    case Wake(t) => Became(s, t, Waiting(RequestOf(s, t).r, RequestOf(s, t).holding))
    case Acquire(t) => Became(s, t, Locked(RequestOf(s, t).r))
    case CheckClosure(t) => Became(s, t, if s.failed then Failing(RequestOf(s, t).r) else Polling(RequestOf(s, t).r))
    case PollInner(t, answer) => InnerPolled(s, t, answer)
    case Publish(t) =>
      Became(s, t, Publishing(RequestOf(s, t).r, s.waker))
      .(c := Taken(AdmissionFailed(s.c, s.now)).0, failed := true, waker := false)
    case Commit(t) => Committed(s, t)
    case CallInner(t) =>
      var q := RequestOf(s, t);
      Became(s, t, Served(q.token)).(log := s.log + [Called(q.id)])
    case Respond(t, completion) =>
      ServedIsCounted(s, t);
      Unlocked(s, t, Finished(s.c, RequestOf(s, t).token, completion, s.now).0,
               ToEnd(if completion == Abandoned then Withdrawn else Answered))
    case Release(t) =>
      var q := RequestOf(s, t);
      Unlocked(s, t, CancelledOne(s.c, q.r, s.now).0, ToEnd(if q.Failing? then SharedError else Withdrawn))
    case Drop(t) => Became(s, t, Dropping(RequestOf(s, t).r))
    case Notify(t) => Delivered(s, t)
    case Tick(to) => s.(now := to)
  }
}
