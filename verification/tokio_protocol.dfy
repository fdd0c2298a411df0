/** Any number of tasks sharing one endpoint: register, check under the lock,
    sleep; change the controller under the lock, unlock, and only then notify.
    A task may be interrupted between any two of these steps. */
module TokioProtocol {
  import opened Clock
  import opened ControllerModel
  import opened VirtualQueue
  import opened Ownership
  import opened Sleepers

  /** What a task goes on with once its notifications are delivered. */
  datatype Continuation = Holding(r: Reservation) | Running(token: InFlight) | Nowhere

  datatype Task =
    | Guard(r: Reservation)                                              // a reservation, not being dispatched
    | Looping(r: Reservation)                                            // at the top of the dispatch loop
    | Registered(r: Reservation, notified: bool)                         // enabled, about to lock
    | Asleep(r: Reservation, notified: bool, decision: DispatchState)    // awaiting notification or deadline
    | Active(token: InFlight)
    | Announcing(changes: Changes, next: Continuation)                   // unlocked, not yet notified
    | SeekingRoom                                                        // at the top of the ready loop
    | RoomRegistered(notified: bool)
    | RoomAsleep(notified: bool)
    | Admitted                                                           // `ready` has returned
    | Ended
    | Panicked                                                           // reached the unreachable arm

  datatype System = System(c: State, now: Instant, tasks: map<nat, Task>)

  datatype Action =
    | TryReserve(t: nat)
    | Read(t: nat)
    | Enter(t: nat)
    | Register(t: nat)
    | Attempt(t: nat)
    | Wake(t: nat)
    | Drop(t: nat)
    | Finish(t: nat, completion: Completion)
    | Notify(t: nat)
    | SeekRoom(t: nat)
    | RegisterRoom(t: nat)
    | CheckRoom(t: nat)
    | WakeRoom(t: nat)
    | Tick(to: Instant)

  function TaskOf(s: System, t: nat): Task {
    if t in s.tasks then s.tasks[t] else Ended
  }

  /** Which steps a task can take next. A reservation's future can be dropped
      before it is polled and wherever it awaits. */
  predicate Enabled(s: System, a: Action) {
    match a
    case TryReserve(t) => t !in s.tasks
    case Read(t) => t !in s.tasks
    case Enter(t) => TaskOf(s, t).Guard?
    case Register(t) => TaskOf(s, t).Looping?
    case Attempt(t) => TaskOf(s, t).Registered?
    case Wake(t) =>
      var task := TaskOf(s, t);
      task.Asleep? && (task.notified || (task.decision.WaitUntil? && task.decision.at <= s.now))
    case Drop(t) => TaskOf(s, t).Guard? || TaskOf(s, t).Asleep?
    case Finish(t, completion) =>
      TaskOf(s, t).Active? && Reportable(s.c, TaskOf(s, t).token, completion, s.now)
    case Notify(t) => TaskOf(s, t).Announcing?
    case SeekRoom(t) => t !in s.tasks
    case RegisterRoom(t) => TaskOf(s, t).SeekingRoom?
    case CheckRoom(t) => TaskOf(s, t).RoomRegistered?
    case WakeRoom(t) => TaskOf(s, t).RoomAsleep? && TaskOf(s, t).notified
    case Tick(to) => s.now <= to
  }

  function Became(s: System, t: nat, task: Task): System {
    s.(tasks := s.tasks[t := task])
  }

  /** A critical section that ends by draining the change flags. */
  function Unlocked(s: System, t: nat, c: State, next: Continuation): System {
    Became(s, t, Announcing(c.changes, next)).(c := Taken(c).0)
  }

  function NotifiedOfRoom(task: Task): Task {
    if task.RoomRegistered? || task.RoomAsleep? then task.(notified := true) else task
  }

  function NotifiedOfDispatch(task: Task): Task {
    if task.Registered? || task.Asleep? then task.(notified := true) else task
  }

  function Resumed(next: Continuation): Task {
    match next
    case Holding(r) => Guard(r)
    case Running(token) => Active(token)
    case Nowhere => Ended
  }

  /** Admission waiters first, then dispatch waiters, then on with the task. */
  function Delivered(s: System, t: nat): System
    requires TaskOf(s, t).Announcing?
  {
    var task := TaskOf(s, t);
    if task.changes.admission then
      s.(tasks := (map u | u in s.tasks :: NotifiedOfRoom(s.tasks[u]))
                  [t := task.(changes := task.changes.(admission := false))])
    else if task.changes.dispatch then
      s.(tasks := (map u | u in s.tasks :: NotifiedOfDispatch(s.tasks[u]))
                  [t := task.(changes := task.changes.(dispatch := false))])
    else Became(s, t, Resumed(task.next))
  }

  function Attempted(s: System, t: nat): System
    requires Healthy(s.c) && TaskOf(s, t).Registered?
  {
    var task := TaskOf(s, t);
    var (d, result) := Dispatched(s.c, task.r, s.now);
    match result
    case Ok(token) => Unlocked(s, t, d, Running(token))
    case Err(state) =>
      // The flags are drained but not delivered on this path.
      Became(s, t, if state == Ready || state == Cancelled then Panicked else Asleep(task.r, task.notified, state))
      .(c := Taken(d).0)
  }

  function Held(task: Task): Option<Reservation> {
    match task
    case Guard(r) => Some(r)
    case Looping(r) => Some(r)
    case Registered(r, _) => Some(r)
    case Asleep(r, _, _) => Some(r)
    case Announcing(_, Holding(r)) => Some(r)
    case _ => None
  }

  function HeldIn(tasks: map<nat, Task>): Holdings {
    map t | t in tasks :: Held(tasks[t])
  }

  function Token(task: Task): Option<InFlight> {
    match task
    case Active(token) => Some(token)
    case Announcing(_, Running(token)) => Some(token)
    case _ => None
  }

  function TokensIn(tasks: map<nat, Task>): Tokens {
    map t | t in tasks :: Token(tasks[t])
  }

  ghost predicate DispatchAnnounced(tasks: map<nat, Task>) {
    exists t :: t in tasks && tasks[t].Announcing? && tasks[t].changes.dispatch
  }

  predicate Sleeping(task: Task) {
    task.Asleep? && !task.notified
  }

  ghost predicate SleepersAreSafe(s: System) {
    forall t | t in s.tasks && Sleeping(s.tasks[t]) ::
      Stands(s.c, s.tasks[t].r, s.tasks[t].decision) || DispatchAnnounced(s.tasks)
  }

  ghost predicate AdmissionAnnounced(tasks: map<nat, Task>) {
    exists t :: t in tasks && tasks[t].Announcing? && tasks[t].changes.admission
  }

  ghost predicate RoomSleepersAreSafe(s: System) {
    forall t | t in s.tasks && s.tasks[t] == RoomAsleep(false) :: !MaySchedule(s.c) || AdmissionAnnounced(s.tasks)
  }

  ghost predicate NobodyPanicked(s: System) {
    forall t | t in s.tasks :: !s.tasks[t].Panicked?
  }

  ghost predicate Inv(s: System) {
    && Fit(s.c, s.now) && Owned(s.c, HeldIn(s.tasks)) && Counted(s.c, TokensIn(s.tasks))
    && SleepersAreSafe(s) && RoomSleepersAreSafe(s) && NobodyPanicked(s)
  }

  lemma RunnerIsCounted(s: System, t: nat)
    requires Counted(s.c, TokensIn(s.tasks)) && TaskOf(s, t).Active?
    ensures s.c.inflight > 0 && TaskOf(s, t).token.owner == s.c.id
  {
    assert TokensIn(s.tasks)[t] == Some(TaskOf(s, t).token);
    assert t in Runners(TokensIn(s.tasks));
  }

  ghost function Do(s: System, a: Action): System
    requires Inv(s) && Enabled(s, a)
  {
    match a
    case TryReserve(t) =>
      RefreshingCaches(s.c, s.now);
      var (d, result) := Reserved(Refreshed(s.c, s.now), s.now);
      Unlocked(s, t, d, if result.Ok? then Holding(result.value) else Nowhere)
    case Read(t) => Unlocked(s, t, Refreshed(s.c, s.now), Nowhere)
    case Enter(t) => Became(s, t, Looping(TaskOf(s, t).r))
    case Register(t) => Became(s, t, Registered(TaskOf(s, t).r, false))
    case Attempt(t) => Attempted(s, t)
    case Wake(t) => Became(s, t, Looping(TaskOf(s, t).r))
    case Drop(t) => Unlocked(s, t, CancelledOne(s.c, TaskOf(s, t).r, s.now).0, Nowhere)
    case Finish(t, completion) =>
      RunnerIsCounted(s, t);
      Unlocked(s, t, Finished(s.c, TaskOf(s, t).token, completion, s.now).0, Nowhere)
    case Notify(t) => Delivered(s, t)
    case SeekRoom(t) => Became(s, t, SeekingRoom)
    case RegisterRoom(t) => Became(s, t, RoomRegistered(false))
    case CheckRoom(t) => Became(s, t, if MaySchedule(s.c) then Admitted else RoomAsleep(TaskOf(s, t).notified))
    case WakeRoom(t) => Became(s, t, SeekingRoom)
    case Tick(to) => s.(now := to)
  }
}
