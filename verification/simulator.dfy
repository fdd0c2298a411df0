/** The deterministic event loop, endpoint by endpoint and event by event. */
module Simulator {
  import opened Clock
  import opened Gcra
  import opened ControllerModel
  import opened SimulatorModel
  import opened VirtualQueue
  import opened Latency
  import ControllerRuns
  import FeedbackRuns
  import Probe
  import Arithmetic

  /** What never changes about an endpoint during a simulation. */
  ghost predicate Kin(a: Runtime, b: Runtime) {
    && b.serviceTime == a.serviceTime && |b.availableAt| == |a.availableAt|
    && b.controller.id == a.controller.id && b.controller.config == a.controller.config
  }

  ghost predicate AllKin(es: seq<Runtime>, fs: seq<Runtime>) {
    |fs| == |es| && forall i :: 0 <= i < |es| ==> Kin(es[i], fs[i])
  }

  predicate AllAfter(jobs: seq<Job>, now: Instant) {
    forall k :: 0 <= k < |jobs| ==> jobs[k].at > now
  }

  ghost predicate AllSettled(endpoints: seq<Runtime>, now: Instant) {
    forall i :: 0 <= i < |endpoints| ==> Healthy(endpoints[i].controller) && Settled(endpoints[i], now)
  }

  /** Requests are waiting, and none of them can go. */
  ghost predicate Resting(rt: Runtime, now: Instant)
    requires Healthy(rt.controller)
  {
    rt.pending != [] && Settled(rt, now)
  }

  ghost predicate AllResting(endpoints: seq<Runtime>, now: Instant) {
    forall i :: 0 <= i < |endpoints| ==> Healthy(endpoints[i].controller) && Resting(endpoints[i], now)
  }

  /** The first worker to be free. */
  method FirstFree(availableAt: seq<Instant>) returns (w: nat)
    requires availableAt != []
    ensures w < |availableAt|
    ensures forall v :: 0 <= v < |availableAt| ==> availableAt[w] <= availableAt[v]
    ensures forall v :: 0 <= v < w ==> availableAt[w] < availableAt[v]
  {
    w := 0;
    var v := 1;
    while v < |availableAt|
      invariant w < v <= |availableAt|
      invariant forall u :: 0 <= u < v ==> availableAt[w] <= availableAt[u]
      invariant forall u :: 0 <= u < w ==> availableAt[w] < availableAt[u]
    {
      if availableAt[v] < availableAt[w] {
        w := v;
      }
      v := v + 1;
    }
  }

  lemma WorkerChanges(rt: Runtime, after: Runtime, now: Instant)
    requires Running(rt, now) && after == rt.(availableAt := after.availableAt) && after.availableAt != []
    ensures Running(after, now)
  {}

  /** One of the workers that are free first takes a request, serves it once it
      is free, and is busy until that service ends at `at`. */
  ghost predicate Booked(before: seq<Instant>, after: seq<Instant>, serviceTime: Duration, now: Instant, at: Instant) {
    exists w ::
      && 0 <= w < |before| && (forall v :: 0 <= v < |before| ==> before[w] <= before[v])
      && after == before[w := at]
      && at == AddSat(if before[w] < now then now else before[w], serviceTime)
  }

  lemma FirstIsBooked(before: seq<Instant>, w: nat, serviceTime: Duration, now: Instant)
    requires w < |before| && forall v :: 0 <= v < |before| ==> before[w] <= before[v]
    ensures var at := AddSat(Later(before[w], now), serviceTime);
      Booked(before, before[w := at], serviceTime, now, at)
  {
    var at := AddSat(Later(before[w], now), serviceTime);
    assert before[w := at] == before[w := at];
  }

  /** The controller lets its ready head go to the first free worker. */
  method DispatchHead(rt: Runtime, i: nat, jobs: seq<Job>, now: Instant, ghost start: Instant)
    returns (after: Runtime, all: seq<Job>, dispatched: bool)
    requires Books(rt, jobs, i, start, now) && start <= now && rt.pending != []
    ensures dispatched == Dispatched(rt.controller, rt.pending[0], now).1.Ok?
    ensures !dispatched ==> after == rt && all == jobs
    ensures dispatched ==>
      && Books(after, all, i, start, now) && Kin(rt, after) && after.controller.nextId == rt.controller.nextId
      && Added(jobs, all, i, rt.controller.id, now) && after.pending == rt.pending[1..]
      && |all| == |jobs| + 1 && Booked(rt.availableAt, after.availableAt, rt.serviceTime, now, all[|jobs|].at)
  {
    after, all := rt, jobs;
    var w := FirstFree(rt.availableAt);
    var (e, result) := Dispatched(rt.controller, rt.pending[0], now);
    dispatched := result.Ok?;
    if dispatched {
      HeadDispatches(rt, now);
      hide Dispatched, Running, Staffed, JobsOf;
      var at := SaturatingAdd(Later(rt.availableAt[w], now), rt.serviceTime);
      FirstIsBooked(rt.availableAt, w, rt.serviceTime, now);
      var job := Job(at, i, result.value);
      var gone := rt.(controller := e, pending := rt.pending[1..], dispatched := rt.dispatched + 1);
      after := gone.(availableAt := rt.availableAt[w := at]);
      WorkerChanges(gone, after, now);
      all := jobs + [job];
      DispatchBooks(rt, jobs, i, start, now, w, after, job);
    }
  }

  /** Asks the controller where the head stands, which may move its policy. */
  method AskHead(rt: Runtime, ghost i: nat, ghost jobs: seq<Job>, now: Instant, ghost start: Instant)
    returns (after: Runtime, state: DispatchState)
    requires Books(rt, jobs, i, start, now) && rt.pending != []
    ensures state == Checked(rt.controller, rt.pending[0], now).1
    ensures Books(after, jobs, i, start, now) && Polled(rt, after)
    ensures Kin(rt, after) && after.controller.nextId == rt.controller.nextId && after.pending == rt.pending
    ensures state == Ready || state == InflightLimit || state.WaitUntil?
    ensures Settled(rt, now) ==> after == rt && state != Ready
    ensures now < MAX_INSTANT && state != Ready ==> Settled(after, now)
    ensures now < MAX_INSTANT && state == Ready ==> Dispatched(after.controller, after.pending[0], now).1.Ok?
  {
    hide Checked, Dispatched, Staffed, JobsOf, Mirrors, Healthy, Cached;
    HeadPolls(rt, now);
    if Settled(rt, now) {
      SettledStays(rt, now);
    }
    var (d, answer) := Checked(rt.controller, rt.pending[0], now);
    state := answer;
    after := rt.(controller := d);
    PolledBooks(rt, jobs, i, start, now, after);
  }

  method RefreshOne(rt: Runtime, ghost i: nat, ghost jobs: seq<Job>, now: Instant, ghost start: Instant)
      returns (after: Runtime)
    requires Books(rt, jobs, i, start, now)
    ensures Books(after, jobs, i, start, now) && Polled(rt, after)
    ensures Kin(rt, after) && after.controller.nextId == rt.controller.nextId
    ensures Resting(rt, now) ==> after == rt
  {
    hide Refreshed, Staffed, JobsOf, Mirrors, Healthy, Cached, Settled;
    RefreshPolls(rt, now);
    if Resting(rt, now) {
      SettledStays(rt, now);
    }
    after := rt.(controller := Refreshed(rt.controller, now));
    PolledBooks(rt, jobs, i, start, now, after);
  }

  lemma AddedNothing(jobs: seq<Job>, i: nat, id: nat, now: Instant)
    ensures Added(jobs, jobs, i, id, now)
  {}

  lemma BooksAreHealthy(rt: Runtime, jobs: seq<Job>, i: nat, start: Instant, now: Instant)
    requires Books(rt, jobs, i, start, now)
    ensures Healthy(rt.controller)
  {}

  /** Dispatches from one endpoint until its head has to wait. A mirrored queue
      never holds a reservation the controller does not know. */
  method DriveOne(rt0: Runtime, i: nat, jobs0: seq<Job>, now: Instant, ghost start: Instant)
    returns (rt: Runtime, jobs: seq<Job>)
    requires Books(rt0, jobs0, i, start, now) && start <= now
    ensures Books(rt, jobs, i, start, now) && Kin(rt0, rt) && rt.controller.nextId == rt0.controller.nextId
    ensures Added(jobs0, jobs, i, rt0.controller.id, now)
    ensures Resting(rt0, now) ==> rt == rt0 && jobs == jobs0
    ensures now < MAX_INSTANT ==> Settled(rt, now)
  {
    BooksAreHealthy(rt0, jobs0, i, start, now);
    hide Dispatched, Books, Checked, Healthy, Added, Mirrors, Settled;
    jobs := jobs0;
    rt := RefreshOne(rt0, i, jobs, now, start);
    AddedNothing(jobs0, i, rt0.controller.id, now);
    while rt.pending != []
      invariant Books(rt, jobs, i, start, now) && Kin(rt0, rt) && rt.controller.nextId == rt0.controller.nextId
      invariant Added(jobs0, jobs, i, rt0.controller.id, now)
      invariant Resting(rt0, now) ==> rt == rt0 && jobs == jobs0
      decreases |rt.pending|
    {
      var state;
      rt, state := AskHead(rt, i, jobs, now, start);
      match state
      case Ready =>
        var after, all, dispatched := DispatchHead(rt, i, jobs, now, start);
        if dispatched {
          AddedTwice(jobs0, jobs, all, i, rt0.controller.id, now);
        }
        rt, jobs := after, all;
        if !dispatched {
          break;
        }
      case Cancelled =>
        assert false;
      case _ =>
        break;
    }
    BooksAreHealthy(rt, jobs, i, start, now);
  }

  lemma BooksOf(endpoints: seq<Runtime>, jobs: seq<Job>, start: Instant, now: Instant, i: nat)
    requires Consistent(endpoints, jobs, start, now) && i < |endpoints|
    ensures start <= now && Books(endpoints[i], jobs, i, start, now) && Healthy(endpoints[i].controller)
  {
    BooksAreHealthy(endpoints[i], jobs, i, start, now);
    hide Books;
  }

  lemma RestingAt(endpoints: seq<Runtime>, i: nat, now: Instant)
    requires i < |endpoints|
    ensures AllResting(endpoints, now) ==> Healthy(endpoints[i].controller) && Resting(endpoints[i], now)
  {
    hide Resting, Healthy;
  }

  lemma SettledSoFar(endpoints: seq<Runtime>, i: nat, now: Instant)
    requires i == 0 && i <= |endpoints|
    ensures AllSettled(endpoints[..i], now)
  {}

  lemma OneMoreSettled(endpoints: seq<Runtime>, i: nat, rt: Runtime, now: Instant)
    requires i < |endpoints| && AllSettled(endpoints[..i], now) && Healthy(rt.controller) && Settled(rt, now)
    ensures AllSettled(endpoints[i := rt][..i + 1], now)
  {
    hide Settled, Healthy;
    assert endpoints[i := rt][..i + 1] == endpoints[..i] + [rt];
  }

  /** Every endpoint in turn, until no head can go. */
  method DriveAll(endpoints0: seq<Runtime>, jobs0: seq<Job>, now: Instant, ghost start: Instant)
    returns (endpoints: seq<Runtime>, jobs: seq<Job>)
    requires Consistent(endpoints0, jobs0, start, now)
    ensures Consistent(endpoints, jobs, start, now) && AllKin(endpoints0, endpoints)
    ensures Accepted(endpoints) == Accepted(endpoints0)
    ensures now < MAX_INSTANT && AllAfter(jobs0, now) ==> AllAfter(jobs, now)
    ensures AllResting(endpoints0, now) ==> endpoints == endpoints0 && jobs == jobs0
    ensures now < MAX_INSTANT ==> AllSettled(endpoints, now)
  {
    hide Consistent, AllSettled, AllResting, Resting, Healthy, Books, Settled, Accepted;
    endpoints, jobs := endpoints0, jobs0;
    SettledSoFar(endpoints, 0, now);
    var i := 0;
    while i < |endpoints|
      invariant 0 <= i <= |endpoints|
      invariant Consistent(endpoints, jobs, start, now) && AllKin(endpoints0, endpoints)
      invariant Accepted(endpoints) == Accepted(endpoints0)
      invariant now < MAX_INSTANT && AllAfter(jobs0, now) ==> AllAfter(jobs, now)
      invariant AllResting(endpoints0, now) ==> endpoints == endpoints0 && jobs == jobs0
      invariant now < MAX_INSTANT ==> AllSettled(endpoints[..i], now)
    {
      BooksOf(endpoints, jobs, start, now, i);
      RestingAt(endpoints0, i, now);
      var rt, all := DriveOne(endpoints[i], i, jobs, now, start);
      BooksAreHealthy(rt, all, i, start, now);
      if now < MAX_INSTANT {
        OneMoreSettled(endpoints, i, rt, now);
      }
      if AllResting(endpoints0, now) {
        assert endpoints[i := rt] == endpoints;
      }
      DrivenConsistent(endpoints, jobs, start, now, i, rt, all);
      AcceptedUpdate(endpoints, i, rt);
      endpoints, jobs := endpoints[i := rt], all;
      i := i + 1;
    }
    assert endpoints[..i] == endpoints;
  }

  lemma OneMoreJob(jobs: seq<Job>, k: nat, now: Instant)
    requires k < |jobs|
    ensures Remaining(jobs[..k + 1], now) == Remaining(jobs[..k], now) + if jobs[k].at > now then [jobs[k]] else []
  {
    assert jobs[..k + 1][..k] == jobs[..k];
  }

  lemma OneMoreDue(jobs: seq<Job>, k: nat, now: Instant, i: nat)
    requires k < |jobs|
    ensures JobsDue(jobs[..k + 1], i, now)
            == JobsDue(jobs[..k], i, now) + if jobs[k].endpoint == i && jobs[k].at <= now then 1 else 0
  {
    assert jobs[..k + 1] == jobs[..k] + [jobs[k]];
    JobsConcat(jobs[..k], [jobs[k]], i, now);
    assert [jobs[k]][1..] == [];
  }

  /** So many requests were handed back, and nothing else happened. */
  predicate Served(before: Runtime, after: Runtime, count: nat) {
    && after.completed == before.completed + count
    && after.pending == before.pending && after.dispatched == before.dispatched
  }

  /** Every endpoint was handed back its jobs that end by `now`. */
  ghost predicate AllServed(es: seq<Runtime>, fs: seq<Runtime>, jobs: seq<Job>, now: Instant) {
    |fs| == |es| && forall i :: 0 <= i < |es| ==> Served(es[i], fs[i], JobsDue(jobs, i, now))
  }

  /** The first `k` jobs are dealt with: handed back or still to end. */
  ghost predicate DealtWith(es: seq<Runtime>, fs: seq<Runtime>, jobs: seq<Job>, k: nat, now: Instant, left: seq<Job>) {
    k <= |jobs| && AllServed(es, fs, jobs[..k], now) && left == Remaining(jobs[..k], now) && AllAfter(left, now)
  }

  lemma OneMoreServed(es: seq<Runtime>, fs: seq<Runtime>, jobs: seq<Job>, k: nat, now: Instant, gs: seq<Runtime>)
    requires k < |jobs| && AllServed(es, fs, jobs[..k], now)
    requires if jobs[k].at > now then gs == fs
      else jobs[k].endpoint < |fs| && |gs| == |fs| && gs == fs[jobs[k].endpoint := gs[jobs[k].endpoint]]
           && Served(fs[jobs[k].endpoint], gs[jobs[k].endpoint], 1)
    ensures AllServed(es, gs, jobs[..k + 1], now)
  {
    hide JobsDue;
    forall i | 0 <= i < |es|
      ensures Served(es[i], gs[i], JobsDue(jobs[..k + 1], i, now))
    {
      OneMoreDue(jobs, k, now, i);
    }
  }

  /** One endpoint was handed back one request. */
  ghost predicate ServedOne(es: seq<Runtime>, fs: seq<Runtime>, i: nat) {
    i < |es| == |fs| && fs == es[i := fs[i]] && Served(es[i], fs[i], 1)
  }

  lemma NextIsHanded(es: seq<Runtime>, fs: seq<Runtime>, jobs: seq<Job>, k: nat, now: Instant, left: seq<Job>,
      gs: seq<Runtime>)
    requires DealtWith(es, fs, jobs, k, now, left) && k < |jobs| && jobs[k].at <= now
    requires ServedOne(fs, gs, jobs[k].endpoint)
    ensures DealtWith(es, gs, jobs, k + 1, now, left)
  {
    hide AllServed, Remaining;
    OneMoreJob(jobs, k, now);
    OneMoreServed(es, fs, jobs, k, now, gs);
  }

  lemma NextIsKept(es: seq<Runtime>, fs: seq<Runtime>, jobs: seq<Job>, k: nat, now: Instant, left: seq<Job>)
    requires DealtWith(es, fs, jobs, k, now, left) && k < |jobs| && jobs[k].at > now
    ensures DealtWith(es, fs, jobs, k + 1, now, left + [jobs[k]])
  {
    hide AllServed, Remaining;
    OneMoreJob(jobs, k, now);
    OneMoreServed(es, fs, jobs, k, now, fs);
  }

  lemma KinTwice(es: seq<Runtime>, fs: seq<Runtime>, gs: seq<Runtime>)
    requires AllKin(es, fs) && AllKin(fs, gs)
    ensures AllKin(es, gs)
  {}

  lemma AllDealtWith(es: seq<Runtime>, fs: seq<Runtime>, jobs: seq<Job>, now: Instant, left: seq<Job>)
    requires DealtWith(es, fs, jobs, |jobs|, now, left)
    ensures AllServed(es, fs, jobs, now) && left == Remaining(jobs, now) && AllAfter(left, now)
  {
    assert jobs[..|jobs|] == jobs;
  }

  lemma JobIsCounted(endpoints: seq<Runtime>, a: seq<Job>, job: Job, b: seq<Job>, start: Instant, now: Instant)
    requires Consistent(endpoints, a + [job] + b, start, now)
    ensures job.endpoint < |endpoints|
    ensures var rt := endpoints[job.endpoint];
      Running(rt, now) && job.request.owner == rt.controller.id && start <= job.request.at && rt.controller.inflight > 0
  {
    hide Running, Staffed;
    assert (a + [job] + b)[|a|] == job;
    JobsSplit(a, job, b, job.endpoint, now);
  }

  /** One more sample, this long, has moved the RTT estimate. */
  ghost predicate Taught(before: Estimator, after: Estimator, rtt: Duration) {
    var v := if rtt < before.settings.minRtt then before.settings.minRtt else rtt;
    && after.samples == before.samples + 1
    && Arithmetic.Keeps(before.long, after.long, v as real, 1.0 - before.settings.longAlpha)
  }

  lemma CompletionTeaches(rt: Runtime, token: InFlight, rtt: Duration, now: Instant)
    requires Running(rt, now) && token.owner == rt.controller.id && rt.controller.inflight > 0
    requires Measurable(rt.controller.latency, Success, rtt)
    ensures Taught(rt.controller.latency, Completed(rt.controller, token, Success, rtt, now).0.latency, rtt)
  {
    hide Arithmetic.Keeps, Completed, Learned;
    var c := rt.controller;
    FeedbackRuns.SuccessTeaches(c, token, rtt, now);
    FeedbackRuns.LearningUpdates(c, token, rtt, now);
    assert ControllerRuns.Step(c, ControllerRuns.Complete(token, Success, rtt), now).0
           == Completed(c, token, Success, rtt, now).0;
  }

  /** Hands a due request back: the controller learns how long it took from its
      dispatch to its end, however late it is handed back. */
  method CompleteOne(rt: Runtime, job: Job, now: Instant, ghost start: Instant) returns (after: Runtime)
    requires Running(rt, now) && job.request.owner == rt.controller.id && start <= job.request.at
    requires job.at <= now && now - start <= RTT_LIMIT && rt.controller.inflight > 0
    ensures Running(after, now) && Kin(rt, after) && after.availableAt == rt.availableAt
    ensures after.pending == rt.pending && after.dispatched == rt.dispatched
    ensures after.controller.nextId == rt.controller.nextId
    ensures after.controller.inflight == rt.controller.inflight - 1 && after.completed == rt.completed + 1
    ensures Taught(rt.controller.latency, after.controller.latency, Since(job.at, job.request.at))
  {
    hide Completed, Taught;
    var latency := Since(job.at, job.request.at);
    SmallSamplesAreMeasurable(rt.controller, Success, latency);
    CompletionRuns(rt, job.request, latency, now);
    CompletionTeaches(rt, job.request, latency, now);
    after := rt.(controller := Completed(rt.controller, job.request, Success, latency, now).0, completed := rt.completed + 1);
  }

  method HandBack(endpoints0: seq<Runtime>, ghost a: seq<Job>, job: Job, ghost b: seq<Job>, now: Instant,
      ghost start: Instant)
    returns (endpoints: seq<Runtime>)
    requires Consistent(endpoints0, a + [job] + b, start, now) && job.at <= now && now - start <= RTT_LIMIT
    ensures Consistent(endpoints, a + b, start, now) && AllKin(endpoints0, endpoints)
    ensures Accepted(endpoints) == Accepted(endpoints0) && ServedOne(endpoints0, endpoints, job.endpoint)
  {
    hide Consistent, Running;
    JobIsCounted(endpoints0, a, job, b, start, now);
    var rt := CompleteOne(endpoints0[job.endpoint], job, now, start);
    CompletedConsistent(endpoints0, a, job, b, start, now, rt);
    AcceptedUpdate(endpoints0, job.endpoint, rt);
    endpoints := endpoints0[job.endpoint := rt];
  }

  lemma NothingYet(jobs: seq<Job>)
    ensures [] + jobs == jobs && jobs[0..] == jobs
  {}

  lemma FirstOfRest(jobs: seq<Job>, rest: seq<Job>)
    requires rest != []
    ensures jobs + rest == jobs + [rest[0]] + rest[1..]
  {}

  lemma NothingLeft(jobs: seq<Job>, rest: seq<Job>)
    requires rest == []
    ensures jobs + rest == jobs
  {}

  /** Hands the due jobs back to their controllers, in order of dispatch. */
  method CompleteReady(endpoints0: seq<Runtime>, jobs0: seq<Job>, now: Instant, start: Instant)
    returns (endpoints: seq<Runtime>, jobs: seq<Job>)
    requires Consistent(endpoints0, jobs0, start, now) && now - start <= RTT_LIMIT
    ensures Consistent(endpoints, jobs, start, now) && AllKin(endpoints0, endpoints)
    ensures Accepted(endpoints) == Accepted(endpoints0)
    ensures AllServed(endpoints0, endpoints, jobs0, now) && jobs == Remaining(jobs0, now) && AllAfter(jobs, now)
  {
    assert DealtWith(endpoints0, endpoints0, jobs0, 0, now, []) && AllKin(endpoints0, endpoints0);
    hide *;
    endpoints, jobs := endpoints0, [];
    var k, rest := 0, jobs0;
    NothingYet(rest);
    while k < |jobs0|
      invariant 0 <= k <= |jobs0| && rest == jobs0[k..]
      invariant Consistent(endpoints, jobs + rest, start, now) && AllKin(endpoints0, endpoints)
      invariant Accepted(endpoints) == Accepted(endpoints0)
      invariant DealtWith(endpoints0, endpoints, jobs0, k, now, jobs)
    {
      var job := jobs0[k];
      FirstOfRest(jobs, rest);
      rest := rest[1..];
      if job.at <= now {
        var es := HandBack(endpoints, jobs, job, rest, now, start);
        KinTwice(endpoints0, endpoints, es);
        NextIsHanded(endpoints0, endpoints, jobs0, k, now, jobs, es);
        endpoints := es;
      } else {
        NextIsKept(endpoints0, endpoints, jobs0, k, now, jobs);
        jobs := jobs + [job];
      }
      k := k + 1;
    }
    NothingLeft(jobs, rest);
    AllDealtWith(endpoints0, endpoints, jobs0, now, jobs);
  }

  /** When the head may go or has to be asked again, as its controller sees it. */
  function NextGo(rt: Runtime, now: Instant): Option<Instant>
    requires Healthy(rt.controller)
  {
    if rt.pending == [] then None
    else
      match Checked(rt.controller, rt.pending[0], now).1
      case WaitUntil(at) => Some(at)
      case Ready => Some(now)
      case Cancelled => Some(now)
      case _ => None
  }

  predicate NoSooner(t: Option<Instant>, bound: Option<Instant>) {
    t.Some? ==> bound.Some? && bound.value <= t.value
  }

  /** The earliest of these instants over some endpoints. */
  ghost predicate FirstGo(endpoints: seq<Runtime>, now: Instant, earliest: Option<Instant>) {
    && (forall i :: 0 <= i < |endpoints| ==>
          Healthy(endpoints[i].controller) && NoSooner(NextGo(endpoints[i], now), earliest))
    && (earliest.Some? ==> exists i :: 0 <= i < |endpoints| && NextGo(endpoints[i], now) == earliest)
  }

  lemma OneMoreGo(endpoints: seq<Runtime>, i: nat, now: Instant, earliest: Option<Instant>)
    requires i < |endpoints| && FirstGo(endpoints[..i], now, earliest) && Healthy(endpoints[i].controller)
    ensures var at := NextGo(endpoints[i], now);
      FirstGo(endpoints[..i + 1], now, if at.Some? && (earliest.None? || at.value < earliest.value) then at else earliest)
  {
    hide NextGo, Healthy;
    var sofar, more := endpoints[..i], endpoints[..i + 1];
    var at := NextGo(endpoints[i], now);
    assert more[i] == endpoints[i] && forall j :: 0 <= j < i ==> more[j] == sofar[j];
    if earliest.Some? {
      var j :| 0 <= j < |sofar| && NextGo(sofar[j], now) == earliest;
      assert NextGo(more[j], now) == earliest;
    }
    assert NextGo(more[i], now) == at;
  }

  lemma SettledGoesLater(endpoints: seq<Runtime>, now: Instant, earliest: Option<Instant>)
    requires AllSettled(endpoints, now) && FirstGo(endpoints, now, earliest)
    ensures earliest.Some? ==> now < earliest.value
  {
    hide Checked, Healthy;
  }

  ghost predicate AllPolled(es: seq<Runtime>, fs: seq<Runtime>) {
    |fs| == |es| && forall i :: 0 <= i < |es| ==> Polled(es[i], fs[i])
  }

  lemma AskedConsistent(endpoints: seq<Runtime>, jobs: seq<Job>, start: Instant, now: Instant, i: nat, after: Runtime)
    requires Consistent(endpoints, jobs, start, now) && i < |endpoints|
    requires Books(after, jobs, i, start, now) && after.controller.id == endpoints[i].controller.id
    ensures Consistent(endpoints[i := after], jobs, start, now)
  {
    hide Books;
  }

  lemma NoneGoes(endpoints: seq<Runtime>, now: Instant)
    requires endpoints == []
    ensures FirstGo(endpoints, now, None)
  {}

  lemma NonePolled(endpoints: seq<Runtime>)
    ensures AllPolled(endpoints, endpoints)
  {}

  /** The earliest dispatch any endpoint's controller can see at `now`. */
  method NextDispatch(endpoints0: seq<Runtime>, ghost jobs: seq<Job>, now: Instant, ghost start: Instant)
    returns (endpoints: seq<Runtime>, earliest: Option<Instant>)
    requires Consistent(endpoints0, jobs, start, now)
    ensures Consistent(endpoints, jobs, start, now) && AllPolled(endpoints0, endpoints)
    ensures Accepted(endpoints) == Accepted(endpoints0)
    ensures FirstGo(endpoints0, now, earliest)
  {
    hide Consistent, Books, Checked, Dispatched, Healthy, FirstGo, Polled, Settled;
    endpoints, earliest := endpoints0, None;
    NoneGoes(endpoints0[..0], now);
    NonePolled(endpoints0);
    var i := 0;
    while i < |endpoints|
      invariant 0 <= i <= |endpoints|
      invariant Consistent(endpoints, jobs, start, now) && AllPolled(endpoints0, endpoints)
      invariant Accepted(endpoints) == Accepted(endpoints0)
      invariant forall j :: i <= j < |endpoints| ==> endpoints[j] == endpoints0[j]
      invariant FirstGo(endpoints0[..i], now, earliest)
    {
      BooksOf(endpoints, jobs, start, now, i);
      OneMoreGo(endpoints0, i, now, earliest);
      if endpoints[i].pending != [] {
        var rt, state := AskHead(endpoints[i], i, jobs, now, start);
        AskedConsistent(endpoints, jobs, start, now, i, rt);
        AcceptedUpdate(endpoints, i, rt);
        endpoints := endpoints[i := rt];
        var at := match state case WaitUntil(t) => Some(t) case Ready => Some(now) case Cancelled => Some(now) case _ => None;
        if at.Some? && (earliest.None? || at.value < earliest.value) {
          earliest := at;
        }
      }
      i := i + 1;
    }
    assert endpoints0[..i] == endpoints0;
  }

  lemma PolledRoom(rt: Runtime, after: Runtime)
    requires Polled(rt, after)
    ensures MaySchedule(after.controller) <==> MaySchedule(rt.controller)
    ensures after.controller.nextId == rt.controller.nextId
  {}

  lemma PolledKin(es: seq<Runtime>, fs: seq<Runtime>)
    requires AllPolled(es, fs)
    ensures AllKin(es, fs)
  {}

  lemma PolledTwice(a: Runtime, b: Runtime, c: Runtime)
    requires Polled(a, b) && Polled(b, c)
    ensures Polled(a, c)
  {}

  /** Draws of `random_range`: the `k`-th one, below `n`. */
  ghost predicate DrawsBelow(pick: (nat, nat) -> nat) {
    forall k, n | n > 0 :: pick(k, n) < n
  }

  function Fresh(rt: Runtime, now: Instant): Runtime
    requires Healthy(rt.controller)
  {
    rt.(controller := Refreshed(rt.controller, now))
  }

  method PollOne(rt: Runtime, now: Instant) returns (after: Runtime)
    requires Running(rt, now)
    ensures Running(after, now) && Polled(rt, after) && after == Fresh(rt, now)
  {
    hide Refreshed;
    RefreshPolls(rt, now);
    after := rt.(controller := Refreshed(rt.controller, now));
  }

  method LoadOne(rt: Runtime, now: Instant) returns (after: Runtime, load: Duration)
    requires Running(rt, now)
    ensures Running(after, now) && Polled(rt, after) && load == Load(rt.controller, now).1
  {
    hide Load;
    LoadPolls(rt, now);
    var (d, price) := Load(rt.controller, now);
    after, load := rt.(controller := d), price;
  }

  /** Every endpoint was refreshed. */
  ghost predicate AllFresh(es: seq<Runtime>, fs: seq<Runtime>, now: Instant) {
    |fs| == |es| && forall i :: 0 <= i < |es| ==> Healthy(es[i].controller) && fs[i] == Fresh(es[i], now)
  }

  /** The endpoints with room, in order. */
  function WithRoom(endpoints: seq<Runtime>): seq<nat> {
    if endpoints == [] then []
    else
      var i := |endpoints| - 1;
      WithRoom(endpoints[..i]) + if MaySchedule(endpoints[i].controller) then [i] else []
  }

  ghost predicate SomeRoom(endpoints: seq<Runtime>) {
    exists i :: 0 <= i < |endpoints| && MaySchedule(endpoints[i].controller)
  }

  /** Ascending, with room, and complete. */
  ghost predicate ListsRoom(endpoints: seq<Runtime>, room: seq<nat>) {
    && (forall k :: 0 <= k < |room| ==> room[k] < |endpoints| && MaySchedule(endpoints[room[k]].controller))
    && (forall k, m :: 0 <= k < m < |room| ==> room[k] < room[m])
    && (forall i :: 0 <= i < |endpoints| && MaySchedule(endpoints[i].controller) ==> i in room)
  }

  lemma OneMoreWithRoom(endpoints: seq<Runtime>, room: seq<nat>, i: nat)
    requires i < |endpoints| && ListsRoom(endpoints[..i], room)
    ensures ListsRoom(endpoints[..i + 1], room + if MaySchedule(endpoints[i].controller) then [i] else [])
  {
    hide MaySchedule;
    var more := endpoints[..i + 1];
    assert more[..i] == endpoints[..i] && more[i] == endpoints[i];
  }

  lemma {:induction false} WithRoomExactly(endpoints: seq<Runtime>)
    ensures ListsRoom(endpoints, WithRoom(endpoints))
    decreases |endpoints|
  {
    hide MaySchedule;
    if endpoints == [] {
    } else {
      hide ListsRoom;
      var n := |endpoints| - 1;
      WithRoomExactly(endpoints[..n]);
      OneMoreWithRoom(endpoints, WithRoom(endpoints[..n]), n);
      assert endpoints[..n + 1] == endpoints;
    }
  }

  lemma RoomIsListed(endpoints: seq<Runtime>, room: seq<nat>)
    requires ListsRoom(endpoints, room)
    ensures room == [] <==> !SomeRoom(endpoints)
    ensures forall k :: 0 <= k < |room| ==> room[k] < |endpoints| && MaySchedule(endpoints[room[k]].controller)
    ensures forall k, m :: 0 <= k < |room| && 0 <= m < |room| && k != m ==> room[k] != room[m]
  {
    hide MaySchedule;
    if SomeRoom(endpoints) {
      var i :| 0 <= i < |endpoints| && MaySchedule(endpoints[i].controller);
      assert i in room;
    }
    if room != [] {
      assert MaySchedule(endpoints[room[0]].controller);
    }
    forall k, m | 0 <= k < |room| && 0 <= m < |room| && k != m
      ensures room[k] != room[m]
    {
      assert if k < m then room[k] < room[m] else room[m] < room[k];
    }
  }

  lemma RestingIsFresh(rt: Runtime, now: Instant)
    requires Running(rt, now) && Resting(rt, now)
    ensures Fresh(rt, now) == rt
  {
    hide Checked, Refreshed;
    SettledStays(rt, now);
  }

  /** Refreshes every endpoint and lists those with room. */
  method Candidates(endpoints0: seq<Runtime>, now: Instant, ghost jobs: seq<Job>, ghost start: Instant)
    returns (endpoints: seq<Runtime>, ready: seq<nat>)
    requires Consistent(endpoints0, jobs, start, now)
    ensures Consistent(endpoints, jobs, start, now) && AllPolled(endpoints0, endpoints)
    ensures Accepted(endpoints) == Accepted(endpoints0)
    ensures AllFresh(endpoints0, endpoints, now) && |endpoints| == |endpoints0| && ready == WithRoom(endpoints0)
  {
    hide JobsBelong, Running, Staffed, Healthy, Refreshed, Accepted, Polled, MaySchedule, Consistent;
    endpoints, ready := endpoints0, [];
    NonePolled(endpoints0);
    assert endpoints0[..0] == [] && endpoints[..0] == [];
    var i := 0;
    while i < |endpoints|
      invariant 0 <= i <= |endpoints|
      invariant Consistent(endpoints, jobs, start, now) && AllPolled(endpoints0, endpoints)
      invariant Accepted(endpoints) == Accepted(endpoints0)
      invariant forall j :: i <= j < |endpoints| ==> endpoints[j] == endpoints0[j]
      invariant AllFresh(endpoints0[..i], endpoints[..i], now) && ready == WithRoom(endpoints0[..i])
    {
      BooksOf(endpoints, jobs, start, now, i);
      var rt := PollOne(endpoints[i], now);
      PolledConsistent(endpoints, jobs, start, now, i, rt);
      AcceptedUpdate(endpoints, i, rt);
      PolledRoom(endpoints[i], rt);
      assert endpoints0[..i + 1][..i] == endpoints0[..i];
      endpoints := endpoints[i := rt];
      if MaySchedule(rt.controller) {
        ready := ready + [i];
      }
      i := i + 1;
    }
    assert endpoints0[..i] == endpoints0 && endpoints[..i] == endpoints;
  }

  /** The load that an endpoint is compared by. */
  function Price(rt: Runtime, now: Instant): Duration
    requires Healthy(rt.controller)
  {
    RefreshedIsHealthy(rt.controller, now);
    Load(Refreshed(rt.controller, now), now).1
  }

  /** The one of two endpoints with the lower load, the first one in a tie. */
  ghost predicate Cheaper(endpoints: seq<Runtime>, i: nat, j: nat, choice: nat, now: Instant) {
    && i < |endpoints| && j < |endpoints| && (choice == i || choice == j)
    && Healthy(endpoints[i].controller) && Healthy(endpoints[j].controller)
    && Price(endpoints[choice], now) <= Price(endpoints[i], now)
    && Price(endpoints[choice], now) <= Price(endpoints[j], now)
    && (Price(endpoints[i], now) == Price(endpoints[j], now) ==> choice == i)
  }

  /** A second draw from all but the first one. */
  function Second(first: nat, draw: nat): nat {
    if draw >= first then draw + 1 else draw
  }

  /** The only endpoint with room, or the cheaper one of two distinct draws. */
  ghost predicate CheaperDraw(endpoints: seq<Runtime>, room: seq<nat>, pick: (nat, nat) -> nat, used: nat, choice: nat,
      now: Instant)
  {
    if |room| == 1 then choice == room[0]
    else
      && |room| >= 2
      && var a := pick(used, |room|);
         var b := Second(a, pick(used + 1, |room| - 1));
         a < |room| && b < |room| && room[a] != room[b] && Cheaper(endpoints, room[a], room[b], choice, now)
  }

  lemma PriceOfFresh(es: seq<Runtime>, fs: seq<Runtime>, i: nat, now: Instant)
    requires AllFresh(es, fs, now) && i < |es|
    ensures Healthy(es[i].controller) && Healthy(fs[i].controller)
    ensures Price(es[i], now) == Load(fs[i].controller, now).1
  {
    hide Refreshed, Load;
    RefreshedIsHealthy(es[i].controller, now);
  }

  method LoadAt(es: seq<Runtime>, i: nat, now: Instant, ghost jobs: seq<Job>, ghost start: Instant,
      ghost origin: seq<Runtime>)
    returns (endpoints: seq<Runtime>, load: Duration)
    requires Consistent(es, jobs, start, now) && i < |es| && AllPolled(origin, es)
    ensures Consistent(endpoints, jobs, start, now) && AllPolled(origin, endpoints)
    ensures Accepted(endpoints) == Accepted(es)
    ensures Healthy(es[i].controller) && load == Load(es[i].controller, now).1
    ensures endpoints == es[i := endpoints[i]]
  {
    hide JobsBelong, Running, Staffed, Load, Healthy;
    BooksOf(es, jobs, start, now, i);
    var rt, price := LoadOne(es[i], now);
    PolledConsistent(es, jobs, start, now, i, rt);
    AcceptedUpdate(es, i, rt);
    PolledTwice(origin[i], es[i], rt);
    endpoints, load := es[i := rt], price;
  }

  method Compare(es: seq<Runtime>, i: nat, j: nat, now: Instant, ghost jobs: seq<Job>, ghost start: Instant,
      ghost origin: seq<Runtime>)
    returns (endpoints: seq<Runtime>, choice: nat)
    requires Consistent(es, jobs, start, now) && i < |es| && j < |es| && i != j
    requires AllPolled(origin, es) && AllFresh(origin, es, now)
    ensures Consistent(endpoints, jobs, start, now) && AllPolled(origin, endpoints) && |endpoints| == |es|
    ensures Accepted(endpoints) == Accepted(es) && Cheaper(origin, i, j, choice, now)
  {
    hide Consistent, Polled, Accepted, Price, Healthy, Fresh, Load;
    PriceOfFresh(origin, es, i, now);
    PriceOfFresh(origin, es, j, now);
    var iLoad, jLoad;
    endpoints, iLoad := LoadAt(es, i, now, jobs, start, origin);
    endpoints, jLoad := LoadAt(endpoints, j, now, jobs, start, origin);
    choice := if iLoad <= jLoad then i else j;
  }

  /** Of two distinct random endpoints with room, the one with the lower load;
      the only one when there is no other. */
  method ChooseP2c(endpoints0: seq<Runtime>, pick: (nat, nat) -> nat, used0: nat, now: Instant, ghost jobs: seq<Job>,
      ghost start: Instant)
    returns (endpoints: seq<Runtime>, used: nat, choice: Option<nat>)
    requires Consistent(endpoints0, jobs, start, now) && DrawsBelow(pick)
    ensures Consistent(endpoints, jobs, start, now) && AllPolled(endpoints0, endpoints)
    ensures Accepted(endpoints) == Accepted(endpoints0)
    ensures choice.Some? ==> choice.value < |endpoints| && MaySchedule(endpoints0[choice.value].controller)
    ensures choice.None? <==> !SomeRoom(endpoints0)
    ensures choice.None? ==> AllFresh(endpoints0, endpoints, now)
    ensures choice.Some? ==> CheaperDraw(endpoints0, WithRoom(endpoints0), pick, used0, choice.value, now)
  {
    hide Consistent, AllPolled, MaySchedule, Accepted, Price, Healthy, AllFresh, WithRoom, ListsRoom, SomeRoom;
    var ready;
    endpoints, ready := Candidates(endpoints0, now, jobs, start);
    WithRoomExactly(endpoints0);
    RoomIsListed(endpoints0, ready);
    used := used0;
    if ready == [] {
      choice := None;
    } else if |ready| == 1 {
      choice := Some(ready[0]);
    } else {
      var a, b := pick(used, |ready|), pick(used + 1, |ready| - 1);
      used := used + 2;
      if b >= a {
        b := b + 1;
      }
      var cheaper;
      endpoints, cheaper := Compare(endpoints, ready[a], ready[b], now, jobs, start, endpoints0);
      choice := Some(cheaper);
    }
  }

  method ReserveOne(rt: Runtime, now: Instant) returns (after: Runtime, accepted: bool)
    requires Running(rt, now)
    ensures Running(after, now) && Quiet(rt, after) && Kin(rt, after)
    ensures after.controller.nextId == rt.controller.nextId + if accepted then 1 else 0
    ensures accepted <==> MaySchedule(rt.controller) && rt.controller.nextId < U64_MAX
  {
    hide Reserved, Healthy, Cached;
    ReservationRuns(rt, now);
    var (d, result) := Reserved(rt.controller, now);
    accepted := result.Ok?;
    after := if accepted then rt.(controller := d, pending := rt.pending + [result.value]) else rt;
  }

  ghost predicate IdsLeft(endpoints: seq<Runtime>) {
    forall i :: 0 <= i < |endpoints| ==> endpoints[i].controller.nextId < U64_MAX
  }

  lemma AllRestingIsFresh(es: seq<Runtime>, fs: seq<Runtime>, jobs: seq<Job>, start: Instant, now: Instant)
    requires Consistent(es, jobs, start, now) && AllResting(es, now) && AllFresh(es, fs, now)
    ensures fs == es
  {
    hide Resting, Healthy, Running, Staffed, Fresh;
    forall i | 0 <= i < |es|
      ensures fs[i] == es[i]
    {
      RestingIsFresh(es[i], now);
    }
  }

  /** One arrival: it is turned away exactly when every horizon is full. */
  method Offer(endpoints0: seq<Runtime>, pick: (nat, nat) -> nat, used0: nat, now: Instant, ghost jobs: seq<Job>,
      ghost start: Instant)
    returns (endpoints: seq<Runtime>, used: nat, accepted: bool)
    requires Consistent(endpoints0, jobs, start, now) && DrawsBelow(pick)
    ensures Consistent(endpoints, jobs, start, now) && AllKin(endpoints0, endpoints)
    ensures Accepted(endpoints) == Accepted(endpoints0) + if accepted then 1 else 0
    ensures accepted ==> SomeRoom(endpoints0)
    ensures IdsLeft(endpoints0) && SomeRoom(endpoints0) ==> accepted
    ensures AllResting(endpoints0, now) && !SomeRoom(endpoints0) ==> endpoints == endpoints0
  {
    hide Running, Staffed, AllResting, AllFresh, CheaperDraw, WithRoom, SomeRoom;
    var choice;
    endpoints, used, choice := ChooseP2c(endpoints0, pick, used0, now, jobs, start);
    accepted := false;
    if choice.Some? {
      var i := choice.value;
      var rt, taken := ReserveOne(endpoints[i], now);
      QuietConsistent(endpoints, jobs, start, now, i, rt);
      AcceptedUpdate(endpoints, i, rt);
      endpoints, accepted := endpoints[i := rt], taken;
    } else if AllResting(endpoints0, now) {
      AllRestingIsFresh(endpoints0, endpoints, jobs, start, now);
    }
  }

  datatype EndpointReport = EndpointReport(dispatched: nat, completed: nat, queued: nat, inflight: nat)

  datatype Report = Report(
    offered: nat, accepted: nat, backpressured: nat, dispatched: nat, completed: nat, maxQueued: nat,
    endpoints: seq<EndpointReport>)

  /** The fieldwise sum. */
  function Sum(rs: seq<EndpointReport>): EndpointReport {
    if rs == [] then EndpointReport(0, 0, 0, 0)
    else
      var r, rest := rs[0], Sum(rs[1..]);
      EndpointReport(r.dispatched + rest.dispatched, r.completed + rest.completed,
                     r.queued + rest.queued, r.inflight + rest.inflight)
  }

  function Reported(rt: Runtime): EndpointReport {
    EndpointReport(rt.dispatched, rt.completed, |rt.controller.pending|, rt.controller.inflight)
  }

  method EarliestEnd(jobs: seq<Job>) returns (earliest: Option<Instant>)
    ensures earliest.None? <==> jobs == []
    ensures earliest.Some? ==> exists k :: 0 <= k < |jobs| && jobs[k].at == earliest.value
    ensures earliest.Some? ==> forall k :: 0 <= k < |jobs| ==> earliest.value <= jobs[k].at
  {
    earliest := None;
    var k := 0;
    while k < |jobs|
      invariant 0 <= k <= |jobs|
      invariant earliest.None? <==> k == 0
      invariant earliest.Some? ==> exists m :: 0 <= m < k && jobs[m].at == earliest.value
      invariant earliest.Some? ==> forall m :: 0 <= m < k ==> earliest.value <= jobs[m].at
    {
      if earliest.None? || jobs[k].at < earliest.value {
        earliest := Some(jobs[k].at);
      }
      k := k + 1;
    }
  }

  lemma FreshRuntime(id: nat, e: SimulatedEndpoint, rng: Probe.Rng, start: Instant, i: nat)
    requires e.config.Valid() && e.workers > 0 && e.serviceTime > 0 && rng.Valid()
    ensures var rt := Runtime(InitialState(id, e.config, rng, start), [], e.serviceTime, seq(e.workers, _ => start), 0, 0);
      Books(rt, [], i, start, start) && rt.controller.nextId == 0
  {
    InitialRateFits(e.config);
  }

  predicate AllValid(config: seq<SimulatedEndpoint>) {
    forall i :: 0 <= i < |config| ==> config[i].config.Valid() && config[i].workers > 0 && config[i].serviceTime > 0
  }

  ghost predicate Built(config: seq<SimulatedEndpoint>, endpoints: seq<Runtime>) {
    |endpoints| == |config| && forall i :: 0 <= i < |config| ==>
      && endpoints[i].serviceTime == config[i].serviceTime && |endpoints[i].availableAt| == config[i].workers
      && endpoints[i].controller.config == config[i].config
  }

  lemma StaysBuilt(config: seq<SimulatedEndpoint>, es: seq<Runtime>, fs: seq<Runtime>)
    requires Built(config, es) && AllKin(es, fs)
    ensures Built(config, fs)
  {}

  lemma {:induction false} NothingAccepted(endpoints: seq<Runtime>)
    requires forall i :: 0 <= i < |endpoints| ==> endpoints[i].controller.nextId == 0
    ensures Accepted(endpoints) == 0
  {
    if endpoints != [] {
      NothingAccepted(endpoints[1..]);
    }
  }

  /** One fresh runtime per configured endpoint. */
  method Build(config: seq<SimulatedEndpoint>, firstId: nat, draws: nat -> nat -> Probe.Draw, start: Instant)
    returns (endpoints: seq<Runtime>)
    requires AllValid(config)
    requires forall i :: Probe.Rng(draws(i), 0).Valid()
    ensures Built(config, endpoints) && Consistent(endpoints, [], start, start)
    ensures Accepted(endpoints) == 0
    ensures forall i :: 0 <= i < |endpoints| ==> endpoints[i].pending == []
  {
    hide Books, Probe.Rng.Valid;
    endpoints := [];
    var i := 0;
    while i < |config|
      invariant 0 <= i <= |config| && |endpoints| == i
      invariant Built(config[..i], endpoints)
      invariant forall j :: 0 <= j < i ==>
        Books(endpoints[j], [], j, start, start) && endpoints[j].pending == [] && endpoints[j].controller.nextId == 0
    {
      var rng := Probe.Rng(draws(i), 0);
      FreshRuntime(firstId + i, config[i], rng, start, i);
      endpoints := endpoints + [Runtime(InitialState(firstId + i, config[i].config, rng, start), [], config[i].serviceTime,
                                        seq(config[i].workers, _ => start), 0, 0)];
      i := i + 1;
    }
    assert config[..i] == config;
    NothingAccepted(endpoints);
  }

  /** The arrivals made so far, and when the next one is due. */
  predicate OnSchedule(offered: nat, nextArrival: Instant, start: Instant, interval: Interval, end: Instant) {
    if offered == 0 then nextArrival == start
    else nextArrival - interval <= end && interval * (offered - 1) + start + interval == nextArrival
  }

  lemma NextArrivalOnSchedule(offered: nat, nextArrival: Instant, start: Instant, interval: Interval, end: Instant)
    requires OnSchedule(offered, nextArrival, start, interval, end) && nextArrival <= end
    ensures interval * offered == nextArrival - start
  {
    if offered > 0 {
      Arithmetic.Distribute(interval, offered - 1);
    }
  }

  /** Once the next arrival is due after `end`, the count is settled. */
  lemma ArrivalsCounted(offered: nat, nextArrival: Instant, start: Instant, interval: Interval, end: Instant)
    requires OnSchedule(offered, nextArrival, start, interval, end) && start <= end < nextArrival
    ensures offered == 1 + (end - start) / interval
  {
    Arithmetic.QuotientIs(end - start, interval, offered - 1);
  }

  /** One arrival at `nextArrival`: either the next one can still be scheduled,
      or the clock ends first and this was the last. */
  lemma ArrivalMade(offered: nat, nextArrival: Instant, start: Instant, interval: Interval, end: Instant)
    requires OnSchedule(offered, nextArrival, start, interval, end) && start <= nextArrival <= end
    ensures match CheckedAdd(nextArrival, interval)
      case Some(next) => OnSchedule(offered + 1, next, start, interval, end)
      case None => offered + 1 == 1 + (end - start) / interval
  {
    NextArrivalOnSchedule(offered, nextArrival, start, interval, end);
    if CheckedAdd(nextArrival, interval).None? {
      Arithmetic.QuotientIs(end - start, interval, offered);
    }
  }

  /** What has happened by `cursor`; an iteration that follows another one
      finds nothing left to do at `cursor` itself. */
  ghost predicate Caught(endpoints: seq<Runtime>, jobs: seq<Job>, cursor: Instant, nextArrival: Instant) {
    if nextArrival == cursor then jobs == [] && forall i :: 0 <= i < |endpoints| ==> endpoints[i].pending == []
    else nextArrival > cursor && AllAfter(jobs, cursor) && AllSettled(endpoints, cursor)
  }

  function Earliest(a: Instant, b: Option<Instant>): Instant {
    if b.Some? && b.value < a then b.value else a
  }

  /** Nothing happens between the cursor and `now`, and at `now` something
      does: an arrival, the end of a job, or a dispatch. */
  ghost predicate IsNext(endpoints: seq<Runtime>, jobs: seq<Job>, cursor: Instant, nextArrival: Instant, now: Instant) {
    && now <= nextArrival
    && (forall k :: 0 <= k < |jobs| ==> now <= jobs[k].at)
    && (forall i :: 0 <= i < |endpoints| ==>
          Healthy(endpoints[i].controller) && NoSooner(NextGo(endpoints[i], cursor), Some(now)))
    && (now == nextArrival
        || (exists k :: 0 <= k < |jobs| && jobs[k].at == now)
        || (exists i :: 0 <= i < |endpoints| && NextGo(endpoints[i], cursor) == Some(now)))
  }

  lemma CaughtGoesLater(endpoints: seq<Runtime>, jobs: seq<Job>, cursor: Instant, nextArrival: Instant,
      dispatch: Option<Instant>)
    requires Caught(endpoints, jobs, cursor, nextArrival) && FirstGo(endpoints, cursor, dispatch)
    ensures nextArrival == cursor ==> dispatch == None
    ensures nextArrival != cursor && dispatch.Some? ==> cursor < dispatch.value
  {
    hide Checked, Healthy, Settled;
    if nextArrival != cursor {
      SettledGoesLater(endpoints, cursor, dispatch);
    }
  }

  /** The next event. Once the first arrival is over it lies strictly ahead; and
      no job is ever overdue, so each is completed exactly when it ends. */
  method NextEvent(endpoints0: seq<Runtime>, jobs: seq<Job>, cursor: Instant, nextArrival: Instant,
      ghost start: Instant)
    returns (endpoints: seq<Runtime>, now: Instant)
    requires Consistent(endpoints0, jobs, start, cursor) && Caught(endpoints0, jobs, cursor, nextArrival)
    ensures Consistent(endpoints, jobs, start, cursor) && AllPolled(endpoints0, endpoints)
    ensures Accepted(endpoints) == Accepted(endpoints0)
    ensures IsNext(endpoints0, jobs, cursor, nextArrival, now)
    ensures now <= nextArrival && (if nextArrival == cursor then now == cursor else now > cursor)
  {
    hide Consistent, Settled, AllPolled, Accepted, NextGo, Healthy;
    var completion := EarliestEnd(jobs);
    var dispatch;
    endpoints, dispatch := NextDispatch(endpoints0, jobs, cursor, start);
    CaughtGoesLater(endpoints0, jobs, cursor, nextArrival, dispatch);
    now := Earliest(Earliest(nextArrival, completion), dispatch);
  }

  function Deepest(endpoints: seq<Runtime>): nat {
    if endpoints == [] then 0
    else
      var rest := Deepest(endpoints[1..]);
      if |endpoints[0].controller.pending| < rest then rest else |endpoints[0].controller.pending|
  }

  lemma {:induction false} DeepestIs(endpoints: seq<Runtime>)
    ensures forall i :: 0 <= i < |endpoints| ==> |endpoints[i].controller.pending| <= Deepest(endpoints)
    ensures endpoints != [] ==> exists i :: 0 <= i < |endpoints| && |endpoints[i].controller.pending| == Deepest(endpoints)
  {
    if endpoints == [] {
    } else {
      DeepestIs(endpoints[1..]);
      assert |endpoints[0].controller.pending| <= Deepest(endpoints);
      if Deepest(endpoints) > |endpoints[0].controller.pending| {
        var i :| 0 <= i < |endpoints[1..]| && |endpoints[1..][i].controller.pending| == Deepest(endpoints[1..]);
        assert |endpoints[i + 1].controller.pending| == Deepest(endpoints);
      }
    }
  }

  lemma {:induction false} PollingKeepsDepth(es: seq<Runtime>, fs: seq<Runtime>)
    requires AllPolled(es, fs)
    ensures Deepest(fs) == Deepest(es)
  {
    if es == [] {
    } else {
      assert Polled(es[0], fs[0]);
      PollingKeepsDepth(es[1..], fs[1..]);
    }
  }

  /** No queue was ever deeper than some endpoint allows. */
  ghost predicate SomeHolds(config: seq<SimulatedEndpoint>, depth: nat) {
    exists i :: 0 <= i < |config| && depth <= config[i].config.queueCapacity
  }

  /** Some queue was once as deep as any endpoint allows. */
  ghost predicate FillsAll(config: seq<SimulatedEndpoint>, depth: nat) {
    forall i :: 0 <= i < |config| ==> config[i].config.queueCapacity <= depth
  }

  lemma DepthIsAllowed(config: seq<SimulatedEndpoint>, endpoints: seq<Runtime>, jobs: seq<Job>, start: Instant,
      now: Instant)
    requires Consistent(endpoints, jobs, start, now) && Built(config, endpoints) && config != []
    ensures SomeHolds(config, Deepest(endpoints))
  {
    hide Staffed, JobsBelong, Healthy;
    DeepestIs(endpoints);
    var i :| 0 <= i < |endpoints| && |endpoints[i].controller.pending| == Deepest(endpoints);
    assert Running(endpoints[i], now);
    assert Deepest(endpoints) <= config[i].config.queueCapacity;
  }

  lemma FillsMore(config: seq<SimulatedEndpoint>, depth: nat, more: nat)
    requires depth <= more
    ensures FillsAll(config, depth) ==> FillsAll(config, more)
  {}

  lemma NothingQueued(endpoints: seq<Runtime>, jobs: seq<Job>, start: Instant, now: Instant)
    requires Consistent(endpoints, jobs, start, now)
    requires forall i :: 0 <= i < |endpoints| ==> endpoints[i].pending == []
    ensures Deepest(endpoints) == 0
  {
    hide Staffed, JobsBelong, Healthy;
    DeepestIs(endpoints);
    if endpoints != [] {
      var i :| 0 <= i < |endpoints| && |endpoints[i].controller.pending| == Deepest(endpoints);
      assert Running(endpoints[i], now);
    }
  }

  /** Where no endpoint has room, every queue is full and waits. */
  lemma FullRests(config: seq<SimulatedEndpoint>, endpoints: seq<Runtime>, jobs: seq<Job>, start: Instant, now: Instant)
    requires Consistent(endpoints, jobs, start, now) && Built(config, endpoints) && AllSettled(endpoints, now)
    requires !SomeRoom(endpoints)
    ensures AllResting(endpoints, now) && FillsAll(config, Deepest(endpoints))
  {
    hide Staffed, JobsBelong, Settled;
    DeepestIs(endpoints);
    forall i | 0 <= i < |endpoints|
      ensures Healthy(endpoints[i].controller) && Resting(endpoints[i], now)
      ensures config[i].config.queueCapacity <= Deepest(endpoints)
    {
      assert Running(endpoints[i], now) && !MaySchedule(endpoints[i].controller);
    }
  }

  lemma {:induction false} IdsRemain(endpoints: seq<Runtime>)
    requires Accepted(endpoints) < U64_MAX
    ensures IdsLeft(endpoints)
  {
    if endpoints == [] {
    } else {
      IdsRemain(endpoints[1..]);
    }
  }

  lemma {:induction false} SumsAgree(endpoints: seq<Runtime>, rs: seq<EndpointReport>)
    requires |rs| == |endpoints|
    requires forall i :: 0 <= i < |rs| ==>
      && rs[i].dispatched + rs[i].queued == endpoints[i].controller.nextId
      && rs[i].dispatched == rs[i].completed + rs[i].inflight
    ensures Sum(rs).dispatched + Sum(rs).queued == Accepted(endpoints)
    ensures Sum(rs).dispatched == Sum(rs).completed + Sum(rs).inflight
  {
    if rs == [] {
    } else {
      SumsAgree(endpoints[1..], rs[1..]);
    }
  }

  /** What an endpoint's final report has to satisfy. */
  ghost predicate Sensible(r: EndpointReport, rt: Runtime, start: Instant, end: Instant) {
    && r.dispatched + r.queued == rt.controller.nextId
    && r.dispatched == r.completed + r.inflight
    && r.queued == |rt.controller.pending| <= rt.controller.config.queueCapacity
    && (start <= end < MAX_INSTANT && rt.serviceTime > 0 ==>
          r.completed <= Throughput(|rt.availableAt|, rt.serviceTime, end - start))
  }

  lemma ReportIsSensible(rt: Runtime, after: Runtime, jobs: seq<Job>, i: nat, start: Instant, end: Instant)
    requires Books(rt, jobs, i, start, end) && Polled(rt, after) && start <= end
    ensures Sensible(Reported(after), rt, start, end)
  {
    if end < MAX_INSTANT {
      Capacity(rt, jobs, i, start, end, end);
    }
  }

  /** The closing snapshots, taken at `end`. */
  method Conclude(endpoints: seq<Runtime>, ghost jobs: seq<Job>, end: Instant, ghost start: Instant)
      returns (rs: seq<EndpointReport>)
    requires Consistent(endpoints, jobs, start, end)
    ensures |rs| == |endpoints| && forall i :: 0 <= i < |rs| ==> Sensible(rs[i], endpoints[i], start, end)
  {
    hide Running, Staffed, Sensible, Reported, JobsBelong;
    rs := [];
    var i := 0;
    while i < |endpoints|
      invariant 0 <= i <= |endpoints| && |rs| == i
      invariant forall j :: 0 <= j < i ==> Sensible(rs[j], endpoints[j], start, end)
    {
      var after := PollOne(endpoints[i], end);
      ReportIsSensible(endpoints[i], after, jobs, i, start, end);
      rs := rs + [Reported(after)];
      i := i + 1;
    }
  }

  lemma ConcludedSums(endpoints: seq<Runtime>, rs: seq<EndpointReport>, start: Instant, end: Instant)
    requires |rs| == |endpoints| && forall i :: 0 <= i < |rs| ==> Sensible(rs[i], endpoints[i], start, end)
    ensures Sum(rs).dispatched + Sum(rs).queued == Accepted(endpoints)
    ensures Sum(rs).dispatched == Sum(rs).completed + Sum(rs).inflight
  {
    SumsAgree(endpoints, rs);
  }

  lemma ConcludedDepth(endpoints: seq<Runtime>, rs: seq<EndpointReport>, start: Instant, end: Instant)
    requires |rs| == |endpoints| && forall i :: 0 <= i < |rs| ==> Sensible(rs[i], endpoints[i], start, end)
    ensures forall i :: 0 <= i < |rs| ==> rs[i].queued <= Deepest(endpoints)
  {
    DeepestIs(endpoints);
  }

  /** Everything due at `now`: first completions, then dispatches. */
  method Serve(endpoints0: seq<Runtime>, jobs0: seq<Job>, now: Instant, start: Instant)
    returns (endpoints: seq<Runtime>, jobs: seq<Job>)
    requires Consistent(endpoints0, jobs0, start, now) && now - start <= RTT_LIMIT
    ensures Consistent(endpoints, jobs, start, now) && AllKin(endpoints0, endpoints)
    ensures Accepted(endpoints) == Accepted(endpoints0)
    ensures now < MAX_INSTANT ==> AllAfter(jobs, now) && AllSettled(endpoints, now)
  {
    hide Consistent, Accepted, AllServed, Remaining;
    var es, js := CompleteReady(endpoints0, jobs0, now, start);
    endpoints, jobs := DriveAll(es, js, now, start);
  }

  /** One arrival at settled endpoints: as long as ids last it is turned away
      only where every queue is full, and then none of them moves. */
  method Admit(ghost config: seq<SimulatedEndpoint>, endpoints0: seq<Runtime>, pick: (nat, nat) -> nat, used0: nat,
      now: Instant, ghost jobs: seq<Job>, ghost start: Instant)
    returns (endpoints: seq<Runtime>, used: nat, accepted: bool)
    requires Consistent(endpoints0, jobs, start, now) && DrawsBelow(pick) && Built(config, endpoints0)
    requires now < MAX_INSTANT ==> AllSettled(endpoints0, now)
    ensures Consistent(endpoints, jobs, start, now) && Built(config, endpoints)
    ensures Accepted(endpoints) == Accepted(endpoints0) + if accepted then 1 else 0
    ensures !accepted && now < MAX_INSTANT && Accepted(endpoints0) < U64_MAX ==>
      AllResting(endpoints, now) && FillsAll(config, Deepest(endpoints))
  {
    hide Consistent, Built, AllSettled, AllResting, SomeRoom, IdsLeft, FillsAll, Deepest, AllKin, Accepted;
    endpoints, used, accepted := Offer(endpoints0, pick, used0, now, jobs, start);
    StaysBuilt(config, endpoints0, endpoints);
    if !accepted && now < MAX_INSTANT && Accepted(endpoints0) < U64_MAX {
      IdsRemain(endpoints0);
      FullRests(config, endpoints0, jobs, start, now);
    }
  }

  lemma ConcludedBounds(config: seq<SimulatedEndpoint>, endpoints: seq<Runtime>, rs: seq<EndpointReport>,
      start: Instant, end: Instant, duration: Duration)
    requires Built(config, endpoints) && |rs| == |endpoints| && AllValid(config)
    requires end == AddSat(start, duration) && forall i :: 0 <= i < |rs| ==> Sensible(rs[i], endpoints[i], start, end)
    ensures |rs| == |config| && forall i :: 0 <= i < |config| ==> rs[i].queued <= config[i].config.queueCapacity
    ensures start + duration < MAX_INSTANT ==>
      forall i :: 0 <= i < |config| ==> rs[i].completed <= Throughput(config[i].workers, config[i].serviceTime, duration)
  {
    forall i | 0 <= i < |config|
      ensures start + duration < MAX_INSTANT ==> rs[i].completed <= Throughput(config[i].workers,
          config[i].serviceTime, duration)
    {
      assert Sensible(rs[i], endpoints[i], start, end);
    }
  }

  lemma StartsOnSchedule(start: Instant, interval: Interval, end: Instant, endpoints: seq<Runtime>)
    requires forall i :: 0 <= i < |endpoints| ==> endpoints[i].pending == []
    ensures OnSchedule(0, start, start, interval, end) && Caught(endpoints, [], start, start)
  {}

  lemma CaughtUp(endpoints: seq<Runtime>, jobs: seq<Job>, now: Instant, nextArrival: Instant)
    requires nextArrival > now && AllAfter(jobs, now) && AllSettled(endpoints, now)
    ensures Caught(endpoints, jobs, now, nextArrival)
  {}

  /** Runs the offered load through the endpoints. The loop terminates because
      from the second iteration on every iteration advances the cursor. */
  method Simulate(config: seq<SimulatedEndpoint>, duration: Duration, offeredRate: real, start: Instant,
                  firstId: nat, draws: nat -> nat -> Probe.Draw, pick: (nat, nat) -> nat)
    returns (report: Report)
    requires config != [] && AllValid(config)
    requires Representable(offeredRate) && duration <= RTT_LIMIT
    requires DrawsBelow(pick) && forall i :: Probe.Rng(draws(i), 0).Valid()
    ensures report.offered == report.accepted + report.backpressured
    ensures report.offered == 1 + (AddSat(start, duration) - start) / RateToInterval(offeredRate)
    ensures report.accepted == report.dispatched + Sum(report.endpoints).queued
    ensures report.dispatched == report.completed + Sum(report.endpoints).inflight
    ensures report.dispatched == Sum(report.endpoints).dispatched && report.completed == Sum(report.endpoints).completed
    ensures |report.endpoints| == |config|
    ensures forall i :: 0 <= i < |config| ==> report.endpoints[i].queued <= config[i].config.queueCapacity
    ensures start + duration < MAX_INSTANT ==> forall i :: 0 <= i < |config| ==>
      report.endpoints[i].completed <= Throughput(config[i].workers, config[i].serviceTime, duration)
    ensures SomeHolds(config, report.maxQueued)
    ensures start + duration + RateToInterval(offeredRate) <= MAX_INSTANT ==>
      && (forall i :: 0 <= i < |config| ==> report.endpoints[i].queued <= report.maxQueued)
      && (report.backpressured > 0 && report.accepted < U64_MAX ==> FillsAll(config, report.maxQueued))
  {
    hide Consistent, OnSchedule, AllKin, Built, Caught, AllAfter, AllSettled, Accepted, RateToInterval, Representable,
        Sensible, Throughput, Sum, SomeHolds, FillsAll, AllResting, SomeRoom, IdsLeft, AllPolled, IsNext, Deepest, Earliest;
    var end := SaturatingAdd(start, duration);
    var interval := RateToInterval(offeredRate);
    var nextArrival: Instant, cursor: Instant := start, start;
    var offered: nat, accepted: nat, backpressured: nat, maxQueued: nat, used: nat := 0, 0, 0, 0, 0;
    ghost var counted := false;
    var jobs: seq<Job> := [];
    var endpoints := Build(config, firstId, draws, start);
    ghost var lasting := end + interval <= MAX_INSTANT;
    StartsOnSchedule(start, interval, end, endpoints);
    NothingQueued(endpoints, jobs, start, cursor);
    DepthIsAllowed(config, endpoints, jobs, start, cursor);
    while nextArrival <= end || exists k :: 0 <= k < |jobs| && jobs[k].at <= end
      invariant start <= cursor <= end && cursor <= nextArrival && !counted
      invariant Consistent(endpoints, jobs, start, cursor) && Built(config, endpoints)
      invariant Caught(endpoints, jobs, cursor, nextArrival)
      invariant OnSchedule(offered, nextArrival, start, interval, end)
      invariant offered == accepted + backpressured && accepted == Accepted(endpoints)
      invariant SomeHolds(config, maxQueued) && Deepest(endpoints) <= maxQueued
      invariant lasting && backpressured > 0 && accepted < U64_MAX ==> FillsAll(config, maxQueued)
      decreases end - cursor, if nextArrival == cursor then 1 else 0
    {
      var es, now := NextEvent(endpoints, jobs, cursor, nextArrival, start);
      PolledKin(endpoints, es);
      PollingKeepsDepth(endpoints, es);
      StaysBuilt(config, endpoints, es);
      endpoints := es;
      if now > end {
        ArrivalsCounted(offered, nextArrival, start, interval, end);
        counted := true;
        break;
      }
      AllTimeRuns(endpoints, jobs, start, cursor, now);
      cursor := now;

      es, jobs := Serve(endpoints, jobs, now, start);
      StaysBuilt(config, endpoints, es);
      endpoints := es;

      if now == nextArrival {
        ArrivalMade(offered, nextArrival, start, interval, end);
        offered := offered + 1;
        var taken;
        es, used, taken := Admit(config, endpoints, pick, used, now, jobs, start);
        endpoints := es;
        if taken {
          accepted := accepted + 1;
        } else {
          backpressured := backpressured + 1;
        }
        var next := CheckedAdd(nextArrival, interval);
        if next.None? {
          counted := true;
          break;
        }
        nextArrival := next.value;
      }

      es, jobs := DriveAll(endpoints, jobs, now, start);
      StaysBuilt(config, endpoints, es);
      endpoints := es;
      DepthIsAllowed(config, endpoints, jobs, start, now);
      ghost var before := maxQueued;
      maxQueued := if maxQueued < Deepest(endpoints) then Deepest(endpoints) else maxQueued;
      FillsMore(config, before, maxQueued);
      FillsMore(config, Deepest(endpoints), maxQueued);
      CaughtUp(endpoints, jobs, now, nextArrival);
    }
    if !counted {
      ArrivalsCounted(offered, nextArrival, start, interval, end);
    }
    AllTimeRuns(endpoints, jobs, start, cursor, end);
    var reports := Conclude(endpoints, jobs, end, start);
    ConcludedSums(endpoints, reports, start, end);
    ConcludedBounds(config, endpoints, reports, start, end, duration);
    ConcludedDepth(endpoints, reports, start, end);
    report := Report(offered, accepted, backpressured, Sum(reports).dispatched, Sum(reports).completed, maxQueued, reports);
  }
}
