/** The simulated world: endpoints with workers, and requests being served. */
module SimulatorModel {
  import opened Clock
  import opened ControllerModel
  import opened VirtualQueue
  import opened ControllerRuns
  import opened QueueIds
  import opened Synchrony
  import Arithmetic

  datatype SimulatedEndpoint = SimulatedEndpoint(config: Config, workers: nat, serviceTime: Duration)

  datatype Runtime = Runtime(
    controller: State, pending: seq<Reservation>, serviceTime: Duration, availableAt: seq<Instant>,
    dispatched: nat, completed: nat)

  /** A request being served, and when that ends. */
  datatype Job = Job(at: Instant, endpoint: nat, request: InFlight)

  function JobsOf(jobs: seq<Job>, i: nat): nat {
    if jobs == [] then 0 else (if jobs[0].endpoint == i then 1 else 0) + JobsOf(jobs[1..], i)
  }

  /** Those of endpoint `i` that end by `t`. */
  function JobsDue(jobs: seq<Job>, i: nat, t: Instant): nat {
    if jobs == [] then 0
    else (if jobs[0].endpoint == i && jobs[0].at <= t then 1 else 0) + JobsDue(jobs[1..], i, t)
  }

  /** Those that end after `t`, in order of dispatch. */
  function Remaining(jobs: seq<Job>, t: Instant): seq<Job> {
    if jobs == [] then []
    else
      var last := jobs[|jobs| - 1];
      Remaining(jobs[..|jobs| - 1], t) + if last.at > t then [last] else []
  }

  lemma {:induction false} JobsConcat(a: seq<Job>, b: seq<Job>, i: nat, t: Instant)
    ensures JobsOf(a + b, i) == JobsOf(a, i) + JobsOf(b, i)
    ensures JobsDue(a + b, i, t) == JobsDue(a, i, t) + JobsDue(b, i, t)
  {
    if a == [] {
      assert a + b == b;
    } else {
      assert (a + b)[0] == a[0] && (a + b)[1..] == a[1..] + b;
      JobsConcat(a[1..], b, i, t);
    }
  }

  function Earlier(s: Instant, t: Instant): Instant {
    if s < t then s else t
  }

  function WorkerShifts(available: Instant, start: Instant, serviceTime: Duration, t: Instant): nat
    requires serviceTime > 0
  {
    Since(Earlier(available, t), start) / serviceTime
  }

  /** Service times completed by `t` or booked until then, worker by worker. */
  function Shifts(availableAt: seq<Instant>, start: Instant, serviceTime: Duration, t: Instant): nat
    requires serviceTime > 0
  {
    if availableAt == [] then 0
    else WorkerShifts(availableAt[0], start, serviceTime, t) + Shifts(availableAt[1..], start, serviceTime, t)
  }

  /** The runtime's queue mirrors the controller's. */
  predicate Mirrors(pending: seq<Reservation>, c: State) {
    |pending| == |c.pending| && forall i :: 0 <= i < |pending| ==> pending[i] == Reservation(c.id, c.pending[i].id)
  }

  /** One endpoint's books at `now`. */
  ghost predicate Running(rt: Runtime, now: Instant) {
    var c := rt.controller;
    && Healthy(c) && Cached(c, now) && Mirrors(rt.pending, c)
    && rt.availableAt != [] && rt.serviceTime > 0
    && c.nextId == rt.dispatched + |rt.pending|
    && rt.dispatched == rt.completed + c.inflight
  }

  /** Finished and promised work fits into the workers' shifts. */
  ghost predicate Staffed(rt: Runtime, jobs: seq<Job>, i: nat, start: Instant, now: Instant) {
    && rt.serviceTime > 0
    && (forall w :: 0 <= w < |rt.availableAt| ==> start <= rt.availableAt[w])
    && forall t: Instant | now <= t < MAX_INSTANT ::
         rt.completed + JobsDue(jobs, i, t) <= Shifts(rt.availableAt, start, rt.serviceTime, t)
  }

  ghost predicate JobsBelong(endpoints: seq<Runtime>, jobs: seq<Job>, start: Instant) {
    forall k :: 0 <= k < |jobs| ==>
      && jobs[k].endpoint < |endpoints|
      && jobs[k].request.owner == endpoints[jobs[k].endpoint].controller.id
      && start <= jobs[k].request.at
  }

  ghost predicate Books(rt: Runtime, jobs: seq<Job>, i: nat, start: Instant, now: Instant) {
    Running(rt, now) && rt.controller.inflight == JobsOf(jobs, i) && Staffed(rt, jobs, i, start, now)
  }

  ghost predicate Consistent(endpoints: seq<Runtime>, jobs: seq<Job>, start: Instant, now: Instant) {
    && start <= now
    && JobsBelong(endpoints, jobs, start)
    && forall i :: 0 <= i < |endpoints| ==> Books(endpoints[i], jobs, i, start, now)
  }

  /** Jobs added at `now` for endpoint `i`, whose controller is `id`. */
  predicate Added(before: seq<Job>, jobs: seq<Job>, i: nat, id: nat, now: Instant) {
    && before <= jobs
    && forall k :: |before| <= k < |jobs| ==>
         && jobs[k].endpoint == i && jobs[k].request.owner == id && jobs[k].request.at == now
         && (jobs[k].at > now || now == MAX_INSTANT)
  }

  /** Asking the head once more at `now` would change nothing and not let it go. */
  ghost predicate Settled(rt: Runtime, now: Instant)
    requires Healthy(rt.controller)
  {
    rt.pending != [] ==>
      var (d, state) := Checked(rt.controller, rt.pending[0], now);
      d == rt.controller && (state == InflightLimit || (state.WaitUntil? && now < state.at))
  }

  /** Only the controller moved, and it took on and let go of nothing. */
  ghost predicate Polled(rt: Runtime, after: Runtime) {
    && after == rt.(controller := after.controller)
    && var c, d := rt.controller, after.controller;
       && d.id == c.id && d.config == c.config && d.nextId == c.nextId && d.inflight == c.inflight
       && SameIds(c.pending, d.pending)
  }

  lemma PolledRunning(rt: Runtime, after: Runtime, now: Instant)
    requires Running(rt, now) && Polled(rt, after) && Healthy(after.controller) && Cached(after.controller, now)
    ensures Running(after, now)
  {
    hide Healthy;
  }

  lemma TimeRuns(rt: Runtime, now: Instant, later: Instant)
    requires Running(rt, now) && now <= later
    ensures Running(rt, later)
  {
    TimePasses(rt.controller.pending, rt.controller.pacer, now, later);
  }

  lemma AddedTwice(a: seq<Job>, b: seq<Job>, c: seq<Job>, i: nat, id: nat, now: Instant)
    requires Added(a, b, i, id, now) && Added(b, c, i, id, now)
    ensures Added(a, c, i, id, now)
  {}

  lemma BooksKeep(rt: Runtime, jobs: seq<Job>, i: nat, start: Instant, now: Instant, later: Instant)
    requires Books(rt, jobs, i, start, now) && now <= later
    ensures Books(rt, jobs, i, start, later)
  {
    TimeRuns(rt, now, later);
  }

  lemma AllTimeRuns(endpoints: seq<Runtime>, jobs: seq<Job>, start: Instant, now: Instant, later: Instant)
    requires Consistent(endpoints, jobs, start, now) && now <= later
    ensures Consistent(endpoints, jobs, start, later)
  {
    hide Books;
    forall i | 0 <= i < |endpoints|
      ensures Books(endpoints[i], jobs, i, start, later)
    {
      BooksKeep(endpoints[i], jobs, i, start, now, later);
    }
  }

  lemma PolledBooks(rt: Runtime, jobs: seq<Job>, i: nat, start: Instant, now: Instant, after: Runtime)
    requires Books(rt, jobs, i, start, now) && Polled(rt, after) && Running(after, now)
    ensures Books(after, jobs, i, start, now)
  {
    hide Running, Shifts, JobsDue;
  }

  lemma PolledConsistent(endpoints: seq<Runtime>, jobs: seq<Job>, start: Instant, now: Instant, i: nat, after: Runtime)
    requires Consistent(endpoints, jobs, start, now) && i < |endpoints|
    requires Polled(endpoints[i], after) && Running(after, now)
    ensures Consistent(endpoints[i := after], jobs, start, now)
  {
    PolledBooks(endpoints[i], jobs, i, start, now, after);
    hide Books, Running;
  }

  /** The controller moved, but no job began or ended. */
  ghost predicate Quiet(rt: Runtime, after: Runtime) {
    && after.serviceTime == rt.serviceTime && after.availableAt == rt.availableAt && after.completed == rt.completed
    && after.controller.id == rt.controller.id && after.controller.inflight == rt.controller.inflight
  }

  lemma QuietBooks(rt: Runtime, jobs: seq<Job>, i: nat, start: Instant, now: Instant, after: Runtime)
    requires Books(rt, jobs, i, start, now) && Quiet(rt, after) && Running(after, now)
    ensures Books(after, jobs, i, start, now)
  {
    hide Running, Shifts, JobsDue;
  }

  lemma QuietConsistent(endpoints: seq<Runtime>, jobs: seq<Job>, start: Instant, now: Instant, i: nat, after: Runtime)
    requires Consistent(endpoints, jobs, start, now) && i < |endpoints|
    requires Quiet(endpoints[i], after) && Running(after, now)
    ensures Consistent(endpoints[i := after], jobs, start, now)
  {
    QuietBooks(endpoints[i], jobs, i, start, now, after);
    hide Books, Running;
  }

  lemma {:induction false} NotOf(jobs: seq<Job>, i: nat, t: Instant)
    requires forall k :: 0 <= k < |jobs| ==> jobs[k].endpoint != i
    ensures JobsOf(jobs, i) == 0 && JobsDue(jobs, i, t) == 0
  {
    if jobs == [] {
    } else {
      NotOf(jobs[1..], i, t);
    }
  }

  lemma OthersBooks(rt: Runtime, before: seq<Job>, jobs: seq<Job>, j: nat, start: Instant, now: Instant, i: nat,
      id: nat)
    requires Books(rt, before, j, start, now) && Added(before, jobs, i, id, now) && i != j
    ensures Books(rt, jobs, j, start, now)
  {
    hide Running, Shifts, JobsDue, JobsOf;
    var added := jobs[|before|..];
    assert jobs == before + added;
    forall t: Instant | now <= t
      ensures JobsOf(jobs, j) == JobsOf(before, j) && JobsDue(jobs, j, t) == JobsDue(before, j, t)
    {
      JobsConcat(before, added, j, t);
      NotOf(added, j, t);
    }
    assert JobsDue(jobs, j, now) == JobsDue(before, j, now);
  }

  /** One endpoint took on jobs; the others' books are unaffected. */
  lemma DrivenConsistent(endpoints: seq<Runtime>, before: seq<Job>,
      start: Instant, now: Instant, i: nat, after: Runtime, jobs: seq<Job>)
    requires Consistent(endpoints, before, start, now) && i < |endpoints|
    requires Books(after, jobs, i, start, now) && after.controller.id == endpoints[i].controller.id
    requires Added(before, jobs, i, after.controller.id, now)
    ensures Consistent(endpoints[i := after], jobs, start, now)
  {
    hide Books;
    var es := endpoints[i := after];
    forall j | 0 <= j < |es|
      ensures Books(es[j], jobs, j, start, now)
    {
      if j != i {
        OthersBooks(endpoints[j], before, jobs, j, start, now, i, after.controller.id);
      }
    }
  }

  // ---- Controller operations seen from a runtime ----------------------------

  lemma RefreshPolls(rt: Runtime, now: Instant)
    requires Running(rt, now)
    ensures var after := rt.(controller := Refreshed(rt.controller, now)); Polled(rt, after) && Running(after, now)
  {
    hide Refreshed;
    RefreshingCaches(rt.controller, now);
  }

  /** Asking the head of a mirrored queue: it is never unknown, never behind
      another, and asking twice gives the same answer. */
  lemma HeadPolls(rt: Runtime, now: Instant)
    requires Running(rt, now) && rt.pending != []
    ensures var (d, state) := Checked(rt.controller, rt.pending[0], now);
      var after := rt.(controller := d);
      && Polled(rt, after) && Running(after, now)
      && state != Cancelled && state != WaitForPrevious
      && (now < MAX_INSTANT ==> Checked(d, rt.pending[0], now) == (d, state))
      && (now < MAX_INSTANT && state != Ready ==> Settled(after, now))
      && (now < MAX_INSTANT && state == Ready ==> Dispatched(d, rt.pending[0], now).1.Ok?)
  {
    hide Refreshed, Checked;
    var c, r := rt.controller, rt.pending[0];
    CheckIs(c, r, now);
    CheckingKeeps(c, r, now);
    CheckingKeepsIds(c, r, now);
    var (d, state) := Checked(c, r, now);
    assert Polled(rt, rt.(controller := d));
    PolledRunning(rt, rt.(controller := d), now);
    if now < MAX_INSTANT {
      CheckIsIdempotent(c, r, now);
      if state.WaitUntil? {
        DeadlineExactly(c, r, now);
      }
    }
  }

  /** A settled endpoint does not stir. */
  lemma SettledStays(rt: Runtime, now: Instant)
    requires Running(rt, now) && rt.pending != [] && Settled(rt, now)
    ensures Refreshed(rt.controller, now) == rt.controller
    ensures Checked(rt.controller, rt.pending[0], now).0 == rt.controller
    ensures Checked(rt.controller, rt.pending[0], now).1 != Ready
  {
    hide Refreshed, Checked;
    CheckIs(rt.controller, rt.pending[0], now);
    RefreshingCaches(rt.controller, now);
    var d := Refreshed(rt.controller, now);
    if MarkedPaced(d) == rt.controller {
      assert d.pending[0].paced;
      assert d.pending[0 := d.pending[0].(paced := true)] == d.pending;
    }
  }

  lemma HeadDispatches(rt: Runtime, now: Instant)
    requires Running(rt, now) && rt.pending != [] && Dispatched(rt.controller, rt.pending[0], now).1.Ok?
    ensures var (e, result) := Dispatched(rt.controller, rt.pending[0], now);
      var after := rt.(controller := e, pending := rt.pending[1..], dispatched := rt.dispatched + 1);
      && Running(after, now)
      && e.id == rt.controller.id && e.config == rt.controller.config && e.nextId == rt.controller.nextId
      && e.inflight == rt.controller.inflight + 1
      && result.value.owner == e.id && result.value.at == now
  {
    hide Dispatched, Healthy, Cached;
    DispatchPopsHead(rt.controller, rt.pending[0], now);
    DispatchingKeeps(rt.controller, rt.pending[0], now);
  }

  lemma CompletionRuns(rt: Runtime, token: InFlight, rtt: Duration, now: Instant)
    requires Running(rt, now) && token.owner == rt.controller.id && rt.controller.inflight > 0
    requires Measurable(rt.controller.latency, Success, rtt)
    ensures var after := rt.(controller := Completed(rt.controller, token, Success, rtt, now).0,
        completed := rt.completed + 1);
      && Running(after, now)
      && after.controller.id == rt.controller.id && after.controller.nextId == rt.controller.nextId
      && after.controller.config == rt.controller.config
      && after.controller.inflight == rt.controller.inflight - 1
  {
    hide Completed;
    CompletingKeeps(rt.controller, token, Success, rtt, now);
    CompletingQueue(rt.controller, token, Success, rtt, now);
    CompletionIs(rt.controller, token, Success, rtt, now);
  }

  lemma LoadPolls(rt: Runtime, now: Instant)
    requires Running(rt, now)
    ensures var after := rt.(controller := Load(rt.controller, now).0); Polled(rt, after) && Running(after, now)
  {
    RefreshPolls(rt, now);
  }

  lemma ReservationRuns(rt: Runtime, now: Instant)
    requires Running(rt, now)
    ensures var (d, result) := Reserved(rt.controller, now);
      match result
      case Ok(r) =>
        var after := rt.(controller := d, pending := rt.pending + [r]);
        Running(after, now) && d.id == rt.controller.id && d.inflight == rt.controller.inflight
        && d.config == rt.controller.config && d.nextId == rt.controller.nextId + 1
      case Err(_) => d == rt.controller
    ensures Reserved(rt.controller, now).1.Ok? <==> MaySchedule(rt.controller) && rt.controller.nextId < U64_MAX
  {
    hide NextVirtualSlot;
    ReservingKeeps(rt.controller, now);
  }

  // ---- Sums over all endpoints ----------------------------------------------

  /** Reservations ever made. */
  function Accepted(endpoints: seq<Runtime>): nat {
    if endpoints == [] then 0 else endpoints[0].controller.nextId + Accepted(endpoints[1..])
  }

  lemma {:induction false} AcceptedUpdate(endpoints: seq<Runtime>, i: nat, after: Runtime)
    requires i < |endpoints|
    ensures Accepted(endpoints[i := after]) == Accepted(endpoints) - endpoints[i].controller.nextId + after.controller.nextId
  {
    if i == 0 {
      assert endpoints[0 := after][1..] == endpoints[1..];
    } else {
      assert endpoints[i := after][1..] == endpoints[1..][i - 1 := after];
      AcceptedUpdate(endpoints[1..], i - 1, after);
    }
  }

  // ---- Worker shifts --------------------------------------------------------

  lemma OneMoreShift(available: Instant, at: Instant, start: Instant, s: Duration, now: Instant, t: Instant)
    requires s > 0 && start <= available && start <= now <= t < MAX_INSTANT && at == AddSat(Later(available, now), s)
    ensures WorkerShifts(at, start, s, t) >= WorkerShifts(available, start, s, t) + if at <= t then 1 else 0
  {
    if at <= t {
      Arithmetic.OneFewer(at - start, s);
      Arithmetic.QuotientOrder(available - start, at - start - s, s);
    } else {
      Arithmetic.QuotientOrder(Since(Earlier(available, t), start), Since(Earlier(at, t), start), s);
    }
  }

  /** Booking one service time on a worker adds one shift once it is over. */
  lemma {:induction false} Booking(availableAt: seq<Instant>, w: nat, start: Instant, s: Duration, now: Instant,
      t: Instant)
    requires s > 0 && w < |availableAt| && start <= availableAt[w] && start <= now <= t < MAX_INSTANT
    ensures var at := AddSat(Later(availableAt[w], now), s);
      Shifts(availableAt[w := at], start, s, t) >= Shifts(availableAt, start, s, t) + if at <= t then 1 else 0
  {
    hide WorkerShifts;
    var at := AddSat(Later(availableAt[w], now), s);
    if w == 0 {
      OneMoreShift(availableAt[0], at, start, s, now, t);
      assert availableAt[0 := at][1..] == availableAt[1..];
    } else {
      assert availableAt[w := at][1..] == availableAt[1..][w - 1 := at];
      Booking(availableAt[1..], w - 1, start, s, now, t);
    }
  }

  lemma WorkerShiftsBound(available: Instant, start: Instant, s: Duration, t: Instant, end: Instant)
    requires s > 0 && start <= t <= end
    ensures WorkerShifts(available, start, s, t) <= (end - start) / s
  {
    Arithmetic.QuotientOrder(Since(Earlier(available, t), start), end - start, s);
  }

  lemma OneMoreWorker(n: nat, m: nat, q: nat, first: nat, rest: nat)
    requires n == m + 1 && first <= q && rest <= m * q
    ensures first + rest <= n * q
  {
    assert (m + 1) * q == m * q + q;
  }

  lemma {:induction false} ShiftsWithin(availableAt: seq<Instant>, start: Instant, s: Duration, t: Instant, q: nat)
    requires s > 0 && forall w :: 0 <= w < |availableAt| ==> WorkerShifts(availableAt[w], start, s, t) <= q
    ensures Shifts(availableAt, start, s, t) <= |availableAt| * q
  {
    hide WorkerShifts;
    if availableAt == [] {
    } else {
      ShiftsWithin(availableAt[1..], start, s, t, q);
      OneMoreWorker(|availableAt|, |availableAt[1..]|, q, WorkerShifts(availableAt[0], start, s, t),
                    Shifts(availableAt[1..], start, s, t));
    }
  }

  /** The books after one more dispatch. */
  lemma DispatchBooks(rt: Runtime, jobs: seq<Job>, i: nat, start: Instant, now: Instant, w: nat, after: Runtime,
      job: Job)
    requires Books(rt, jobs, i, start, now) && start <= now && w < |rt.availableAt|
    requires Running(after, now) && after.controller.inflight == rt.controller.inflight + 1
    requires after.serviceTime == rt.serviceTime && after.completed == rt.completed && job.endpoint == i
    requires job.at == AddSat(Later(rt.availableAt[w], now), rt.serviceTime)
    requires after.availableAt == rt.availableAt[w := job.at]
    ensures Books(after, jobs + [job], i, start, now)
  {
    hide Running, Shifts;
    JobsConcat(jobs, [job], i, now);
    forall t: Instant | now <= t < MAX_INSTANT
      ensures after.completed + JobsDue(jobs + [job], i, t) <= Shifts(after.availableAt, start, after.serviceTime, t)
    {
      JobsConcat(jobs, [job], i, t);
      Booking(rt.availableAt, w, start, rt.serviceTime, now, t);
    }
  }

  lemma JobsSplit(a: seq<Job>, job: Job, b: seq<Job>, j: nat, t: Instant)
    ensures JobsOf(a + [job] + b, j) == JobsOf(a + b, j) + if job.endpoint == j then 1 else 0
    ensures JobsDue(a + [job] + b, j, t) == JobsDue(a + b, j, t) + if job.endpoint == j && job.at <= t then 1 else 0
  {
    JobsConcat(a + [job], b, j, t);
    JobsConcat(a, [job], j, t);
    JobsConcat(a, b, j, t);
  }

  lemma CompletedBooks(rt: Runtime, a: seq<Job>, job: Job, b: seq<Job>, j: nat, start: Instant, now: Instant,
      after: Runtime)
    requires Books(rt, a + [job] + b, j, start, now) && job.at <= now && Running(after, now)
    requires if job.endpoint == j then
        && after.controller.inflight == rt.controller.inflight - 1 && after.completed == rt.completed + 1
        && after.serviceTime == rt.serviceTime && after.availableAt == rt.availableAt
      else after == rt
    ensures Books(after, a + b, j, start, now)
  {
    hide Running, Shifts, JobsOf, JobsDue;
    JobsSplit(a, job, b, j, now);
    forall t: Instant | now <= t < MAX_INSTANT
      ensures after.completed + JobsDue(a + b, j, t) <= Shifts(after.availableAt, start, after.serviceTime, t)
    {
      JobsSplit(a, job, b, j, t);
      assert rt.completed + JobsDue(a + [job] + b, j, t) <= Shifts(rt.availableAt, start, rt.serviceTime, t);
    }
  }

  /** The books after the completion of one due job. */
  lemma CompletedConsistent(endpoints: seq<Runtime>, a: seq<Job>, job: Job, b: seq<Job>,
      start: Instant, now: Instant, after: Runtime)
    requires Consistent(endpoints, a + [job] + b, start, now) && job.at <= now && job.endpoint < |endpoints|
    requires var rt := endpoints[job.endpoint];
      && Running(after, now) && after.controller.id == rt.controller.id
      && after.controller.inflight == rt.controller.inflight - 1 && after.completed == rt.completed + 1
      && after.serviceTime == rt.serviceTime && after.availableAt == rt.availableAt
    ensures Consistent(endpoints[job.endpoint := after], a + b, start, now)
  {
    hide Running, Shifts, JobsOf, JobsDue, Staffed;
    var es := endpoints[job.endpoint := after];
    forall k | 0 <= k < |a + b|
      ensures exists m :: 0 <= m < |a + [job] + b| && (a + [job] + b)[m] == (a + b)[k]
    {
      var m := if k < |a| then k else k + 1;
      assert (a + [job] + b)[m] == (a + b)[k];
    }
    forall j | 0 <= j < |es|
      ensures Books(es[j], a + b, j, start, now)
    {
      CompletedBooks(endpoints[j], a, job, b, j, start, now, es[j]);
    }
  }

  /** What so many workers can finish within a span. */
  function Throughput(workers: nat, serviceTime: Duration, span: nat): int
    requires serviceTime > 0
  {
    workers * (span / serviceTime)
  }

  lemma ShiftsFit(availableAt: seq<Instant>, start: Instant, s: Duration, t: Instant, end: Instant)
    requires s > 0 && start <= t <= end
    ensures Shifts(availableAt, start, s, t) <= Throughput(|availableAt|, s, end - start)
  {
    var q := (end - start) / s;
    assert q >= 0 by {
      Arithmetic.QuotientOrder(0, end - start, s);
    }
    hide WorkerShifts;
    forall w | 0 <= w < |availableAt|
      ensures WorkerShifts(availableAt[w], start, s, t) <= q
    {
      WorkerShiftsBound(availableAt[w], start, s, t, end);
    }
    ShiftsWithin(availableAt, start, s, t, q);
  }

  /** The workers bound what an endpoint has completed by `end`. */
  lemma Capacity(rt: Runtime, jobs: seq<Job>, i: nat, start: Instant, now: Instant, end: Instant)
    requires Staffed(rt, jobs, i, start, now) && start <= now <= end < MAX_INSTANT
    ensures rt.completed <= Throughput(|rt.availableAt|, rt.serviceTime, end - start)
  {
    hide Shifts, JobsDue, Throughput;
    ShiftsFit(rt.availableAt, start, rt.serviceTime, now, end);
    assert rt.completed + JobsDue(jobs, i, now) <= Shifts(rt.availableAt, start, rt.serviceTime, now);
  }
}
