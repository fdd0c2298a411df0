/** What the change flags promise to whoever sleeps on a cached decision. */
module Wakeups {
  import opened Clock
  import opened Gcra
  import opened ControllerModel
  import opened VirtualQueue
  import opened ControllerRuns
  import opened Ledgers

  /** Nothing a queued request waits for has moved: the queue only grew at its
      tail, ids and slots stand, and so does the distance to the inflight cap. */
  ghost predicate QueueStands(c: State, d: State) {
    && d.config == c.config && d.inflight == c.inflight
    && |c.pending| <= |d.pending|
    && forall i :: 0 <= i < |c.pending| ==> d.pending[i].id == c.pending[i].id && d.pending[i].slot == c.pending[i].slot
  }

  /** A head's refresh deadline stands as long as it lies ahead. */
  predicate RefreshStands(c: State, d: State, now: Instant) {
    c.pending != [] ==>
      var due := NextRefreshAt(c);
      NextRefreshAt(d) == due || (due.Some? && due.value <= now)
  }

  ghost predicate Undisturbed(c: State, d: State, now: Instant) {
    QueueStands(c, d) && RefreshStands(c, d, now)
  }

  lemma RetimingFlags(c: State, interval: Interval, now: Instant)
    ensures var d := Retimed(c, interval, now);
      && d == c.(pacer := d.pacer, pending := d.pending, changes := d.changes)
      && d.changes.admission == c.changes.admission
      && (c.changes.dispatch ==> d.changes.dispatch)
      && (!d.changes.dispatch ==> d == c)
  {}

  lemma RefreshingFlags(c: State, now: Instant)
    requires Healthy(c)
    ensures var d := Refreshed(c, now);
      && d.changes.admission == c.changes.admission
      && (c.changes.dispatch ==> d.changes.dispatch)
      && (!d.changes.dispatch ==> Undisturbed(c, d, now) && NextRefreshAt(d) == NextRefreshAt(c))
  {
    var e := Prepared(c, now);
    RefreshIsRetiming(c, now);
    RetimingFlags(e, IntervalAt(e, now), now);
  }

  lemma CheckingFlags(c: State, r: Reservation, now: Instant)
    requires Healthy(c) && Cached(c, now)
    ensures var d := Checked(c, r, now).0;
      && d.changes.admission == c.changes.admission
      && (c.changes.dispatch ==> d.changes.dispatch)
      && (!d.changes.dispatch ==> Undisturbed(c, d, now))
  {
    hide Refreshed;
    RefreshingFlags(c, now);
    CheckIs(c, r, now);
  }

  lemma DispatchingFlags(c: State, r: Reservation, now: Instant)
    requires Healthy(c) && Cached(c, now)
    ensures var (d, note) := Step(c, Dispatch(r), now);
      && d.changes.admission == (c.changes.admission || note.NewDispatch?)
      && (c.changes.dispatch || note.NewDispatch? ==> d.changes.dispatch)
      && (!d.changes.dispatch ==> Undisturbed(c, d, now))
  {
    hide Refreshed;
    CheckingFlags(c, r, now);
  }

  lemma RateUpdateFlags(c: State, now: Instant)
    requires Healthy(c)
    ensures var d := RateUpdated(c, now);
      && d.changes.admission == c.changes.admission
      && (c.changes.dispatch ==> d.changes.dispatch)
      && (!d.changes.dispatch ==> Undisturbed(c, d, now))
  {
    var e := WithoutExpiredProbe(c, now);
    RetimingFlags(e, IntervalAt(e, now), now);
  }

  lemma CompletingFlags(c: State, token: InFlight, outcome: Outcome, rtt: Duration, now: Instant)
    requires Healthy(c) && Permitted(c, Complete(token, outcome, rtt)) && token.owner == c.id
    ensures var d := Step(c, Complete(token, outcome, rtt), now).0;
      d.changes.admission == c.changes.admission && d.changes.dispatch
  {
    var e := Learned(c.(completed := c.completed + 1), token, outcome, rtt, now);
    LearningTouches(c.(completed := c.completed + 1), token, outcome, rtt, now);
    hide Learned, RateUpdated;
    CompletionIs(c, token, outcome, rtt, now);
    RateUpdateFlags(Released(e, EpochAfterFeedback(e, now)), now);
  }

  /** One operation: flags are only ever raised, leaving the queue raises the
      admission flag and nothing else does, and an operation that leaves the
      dispatch flag down disturbs no queued request. */
  lemma StepFlags(c: State, op: Op, now: Instant)
    requires Healthy(c) && Cached(c, now) && Permitted(c, op) && !op.Take?
    ensures var (d, note) := Step(c, op, now);
      && d.changes.admission == (c.changes.admission || note.NewCancellation? || note.NewDispatch?)
      && (c.changes.dispatch || note.NewCancellation? || note.NewDispatch? || note.NewCompletion? || note.NewAbandonment?
          ==> d.changes.dispatch)
      && (!d.changes.dispatch ==> Undisturbed(c, d, now))
  {
    hide RateUpdated, Refreshed, Learned;
    match op
    case Check(r) => CheckingFlags(c, r, now);
    case Dispatch(r) => DispatchingFlags(c, r, now);
    case Complete(token, outcome, rtt) =>
      if token.owner == c.id {
        CompletingFlags(c, token, outcome, rtt, now);
        CompletionIs(c, token, outcome, rtt, now);
      }
    case Abandon(token) =>
      if token.owner == c.id {
        var d := Penalised(c, now);
        RateUpdateFlags(Released(d, if d.inflight > 1 then d.epoch else None), now);
      }
    case FailAdmission =>
      RateUpdateFlags(Penalised(c, now), now);
    case Refresh => RefreshingFlags(c, now);
    case _ =>
  }

  /** Something a sleeper reckons with moved: the spacing, the slot of the head,
      the instant of the next refresh, or the distance to the inflight cap. */
  predicate Stirred(c: State, d: State) {
    || d.pacer.interval != c.pacer.interval
    || (c.pending != [] && d.pending != [] && d.pending[0].slot != c.pending[0].slot)
    || NextRefreshAt(d) != NextRefreshAt(c)
    || d.inflight != c.inflight
  }

  lemma IntervalIsAdopted(p: Pacer, interval: Interval, now: Instant)
    ensures SetInterval(p, interval, now).interval == interval
  {}

  lemma RetimingStirs(c: State, interval: Interval, now: Instant)
    ensures var d := Retimed(c, interval, now);
      d.changes.dispatch && !c.changes.dispatch ==>
        || d.pacer.interval != c.pacer.interval
        || (c.pending != [] && d.pending != [] && d.pending[0].slot != c.pending[0].slot)
  {
    hide SetInterval;
    IntervalIsAdopted(c.pacer, interval, now);
  }

  lemma RefreshingStirs(c: State, now: Instant)
    requires Healthy(c)
    ensures var d := Refreshed(c, now);
      && d.inflight == c.inflight
      && (d.changes.dispatch && !c.changes.dispatch ==> Stirred(c, d))
  {
    var e := Prepared(c, now);
    RefreshIsRetiming(c, now);
    RetimingStirs(e, IntervalAt(e, now), now);
    assert WithoutExpiredProbe(e, now) == e;
  }

  lemma RateUpdateStirs(c: State, now: Instant)
    requires Healthy(c)
    ensures var d := RateUpdated(c, now);
      && d.inflight == c.inflight
      && (d.changes.dispatch && !c.changes.dispatch ==> Stirred(c, d))
  {
    var e := WithoutExpiredProbe(c, now);
    RetimingStirs(e, IntervalAt(e, now), now);
  }

  lemma MarkingStirs(c: State, d: State)
    requires d.pending != [] && Stirred(c, d)
    ensures Stirred(c, MarkedPaced(d))
  {}

  lemma CheckingStirs(c: State, r: Reservation, now: Instant)
    requires Healthy(c) && Cached(c, now)
    ensures var d := Checked(c, r, now).0;
      && d.inflight == c.inflight
      && (d.changes.dispatch && !c.changes.dispatch ==> Stirred(c, d))
  {
    hide Refreshed, Stirred;
    CheckIs(c, r, now);
    RefreshingStirs(c, now);
    var d := Refreshed(c, now);
    if AtHead(c, r) && Stirred(c, d) {
      MarkingStirs(c, d);
    }
  }

  lemma DispatchingStirs(c: State, r: Reservation, now: Instant)
    requires Healthy(c) && Cached(c, now)
    ensures var d := Step(c, Dispatch(r), now).0;
      d.changes.dispatch && !c.changes.dispatch ==> Stirred(c, d)
  {
    hide Refreshed, Checked;
    CheckingStirs(c, r, now);
    CheckingKeeps(c, r, now);
  }

  lemma PenaltyStirs(c: State, now: Instant)
    requires Healthy(c)
    ensures var d := AdmissionFailed(c, now);
      d.changes.dispatch && !c.changes.dispatch ==> Stirred(c, d)
  {
    hide RateUpdated;
    RateUpdateStirs(Penalised(c, now), now);
  }

  /** Every response or abandonment frees a place below the cap. */
  lemma ReleasingStirs(c: State, op: Op, now: Instant)
    requires Healthy(c) && Cached(c, now) && Permitted(c, op) && (op.Complete? || op.Abandon?)
    ensures var d := Step(c, op, now).0; d == c || Stirred(c, d)
  {
    hide RateUpdated, Learned;
    StepKeeps(c, op, now);
  }

  /** Nobody is woken for nothing: a step raises the dispatch flag only if what
      a sleeper reckons with has moved, or a request ahead of it is gone. */
  lemma FlagsAreEarned(c: State, op: Op, now: Instant)
    requires Healthy(c) && Cached(c, now) && Permitted(c, op)
    ensures var (d, note) := Step(c, op, now);
      d.changes.dispatch && !c.changes.dispatch ==> Stirred(c, d) || note.NewCancellation?
  {
    hide RateUpdated, Refreshed, Learned, Stirred;
    match op
    case Check(r) => CheckingStirs(c, r, now);
    case Dispatch(r) => DispatchingStirs(c, r, now);
    case Complete(token, outcome, rtt) => ReleasingStirs(c, op, now);
    case Abandon(token) => ReleasingStirs(c, op, now);
    case FailAdmission => PenaltyStirs(c, now);
    case Refresh => RefreshingStirs(c, now);
    case _ =>
  }

  lemma UndisturbedTwice(c: State, d: State, e: State, now: Instant, later: Instant)
    requires Undisturbed(c, d, now) && Undisturbed(d, e, later) && now <= later
    ensures Undisturbed(c, e, later)
  {}

  predicate NeverTakes(es: seq<Event>) {
    forall i :: 0 <= i < |es| ==> !es[i].op.Take?
  }

  function Departures(l: Ledger): nat {
    l.cancelled + l.dispatched
  }

  lemma StepDeparts(w: World, e: Event)
    requires Sound(w) && Allowed(w, e) && Permitted(w.c, e.op)
    ensures var note := Step(w.c, e.op, e.at).1;
      Departures(Next(w, e).l) == Departures(w.l) + if note.NewCancellation? || note.NewDispatch? then 1 else 0
  {
    hide Step;
  }

  lemma UndisturbedByNothing(c: State, now: Instant)
    ensures Undisturbed(c, c, now)
  {}

  /** Between two drains of the flags: an unset dispatch flag means that no
      queued request was disturbed, and the admission flag is set exactly when
      some request left the queue. */
  lemma {:induction false} FlagsAreComplete(w: World, es: seq<Event>)
    requires Sound(w) && Runs(w, es) && NeverTakes(es)
    ensures var v := After(w, es);
      && (w.c.changes.dispatch ==> v.c.changes.dispatch)
      && (!v.c.changes.dispatch ==> Undisturbed(w.c, v.c, v.now))
      && Departures(w.l) <= Departures(v.l)
      && (v.c.changes.admission <==> w.c.changes.admission || Departures(w.l) < Departures(v.l))
    decreases |es|
  {
    hide Step, Undisturbed, Departures, Healthy, Balanced;
    if es == [] {
      UndisturbedByNothing(w.c, w.now);
    } else {
      var e := es[0];
      AllowedIsPermitted(w, e);
      NextIsSound(w, e);
      StepFlags(w.c, e.op, e.at);
      StepDeparts(w, e);
      var v := Next(w, e);
      FlagsAreComplete(v, es[1..]);
      RunsStaySound(v, es[1..]);
      var u := After(v, es[1..]);
      if !u.c.changes.dispatch {
        UndisturbedTwice(w.c, v.c, u.c, v.now, u.now);
      }
    }
  }

  /** A stale or foreign reservation or token changes nothing at all. */
  lemma StrangersChangeNothing(c: State, op: Op, now: Instant)
    requires Healthy(c) && Permitted(c, op)
    requires match op
      case Cancel(r) => r.owner != c.id || !Holds(c.pending, r.id)
      case Check(r) => r.owner != c.id || !Holds(c.pending, r.id)
      case Dispatch(r) => r.owner != c.id || !Holds(c.pending, r.id)
      case Complete(token, _, _) => token.owner != c.id
      case Abandon(token) => token.owner != c.id
      case _ => false
    ensures Step(c, op, now) == (c, Nothing)
    ensures op.Check? ==> Checked(c, op.r, now).1 == Cancelled
    ensures op.Dispatch? ==> Dispatched(c, op.r, now).1 == Err(Cancelled)
  {
    hide Refreshed;
    assert c.pending != [] ==> Holds(c.pending, c.pending[0].id);
    if op.Cancel? && op.r.owner == c.id {
      var i := Position(c.pending, op.r.id);
    }
  }
}
