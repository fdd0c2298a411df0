/** Arbitrary runs of one controller, with a ledger kept beside the state. */
module ControllerRuns {
  import opened Clock
  import opened ControllerModel
  import opened VirtualQueue
  import Latency
  import GradientLaws

  datatype Op =
    | Reserve
    | Cancel(r: Reservation)
    | Check(r: Reservation)
    | Dispatch(r: Reservation)
    | Complete(token: InFlight, outcome: Outcome, rtt: Duration)
    | Abandon(token: InFlight)
    | FailAdmission
    | Refresh
    | Take

  datatype Event = Event(op: Op, at: Instant)

  datatype Note =
    | Nothing
    | NewReservation(id: nat)
    | NewCancellation
    | NewDispatch(token: InFlight)
    | NewCompletion(token: InFlight, outcome: Outcome)
    | NewAbandonment(token: InFlight)
    | NewAdmissionFailure

  /** Reservations may be foreign, stale or repeated. A dispatch token is owned
      by value and used once, so one of this controller's is outstanding. */
  predicate Permitted(c: State, op: Op) {
    match op
    case Complete(token, outcome, rtt) => token.owner == c.id ==> c.inflight > 0 && Measurable(c.latency, outcome, rtt)
    case Abandon(token) => token.owner == c.id ==> c.inflight > 0
    case _ => true
  }

  function Step(c: State, op: Op, now: Instant): (State, Note)
    requires Healthy(c) && Permitted(c, op)
  {
    match op
    case Reserve =>
      var (d, result) := Reserved(c, now);
      (d, if result.Ok? then NewReservation(result.value.id) else Nothing)
    case Cancel(r) =>
      var (d, removed) := CancelledOne(c, r, now);
      (d, if removed then NewCancellation else Nothing)
    case Check(r) =>
      (Checked(c, r, now).0, Nothing)
    case Dispatch(r) =>
      var (d, result) := Dispatched(c, r, now);
      (d, if result.Ok? then NewDispatch(result.value) else Nothing)
    case Complete(token, outcome, rtt) =>
      var (d, owned) := Completed(c, token, outcome, rtt, now);
      (d, if owned then NewCompletion(token, outcome) else Nothing)
    case Abandon(token) =>
      var (d, owned) := GivenUp(c, token, now);
      (d, if owned then NewAbandonment(token) else Nothing)
    case FailAdmission =>
      (AdmissionFailed(c, now), NewAdmissionFailure)
    case Refresh =>
      (Refreshed(c, now), Nothing)
    case Take =>
      (Taken(c).0, Nothing)
  }

  /** What a step may do to the counters and the silence epoch. */
  ghost predicate Effect(c: State, d: State, note: Note, now: Instant) {
    && d.id == c.id && d.config == c.config
    && |d.pending| == |c.pending| + (match note
                                     case NewReservation(_) => 1
                                     case NewCancellation => -1
                                     case NewDispatch(_) => -1
                                     case _ => 0)
    && d.nextId == c.nextId + (if note.NewReservation? then 1 else 0)
    && d.inflight == c.inflight + (match note
                                   case NewDispatch(_) => 1
                                   case NewCompletion(_, _) => -1
                                   case NewAbandonment(_) => -1
                                   case _ => 0)
    && d.completed == c.completed + (if note.NewCompletion? then 1 else 0)
    && d.failures == c.failures + (match note case NewCompletion(_, outcome) => (if outcome == Failure then 1 else 0)
                                              case NewAbandonment(_) => 1 case NewAdmissionFailure => 1 case _ => 0)
    && (note.NewDispatch? ==> c.inflight < c.config.maxInflight && note.token.owner == c.id && note.token.at == now)
    && (match note
        case NewDispatch(_) =>
          d.epoch == if c.inflight == 0 then Some(Epoch(now, Latency.ExpectedRtt(d.latency))) else c.epoch
        case NewCompletion(_, _) =>
          d.epoch == if d.inflight > 0 then Some(Epoch(now, Latency.ExpectedRtt(d.latency))) else None
        case NewAbandonment(_) =>
          d.epoch == if d.inflight > 0 then c.epoch else None
        case _ => d.epoch == c.epoch)
  }

  function MarkedPaced(d: State): State
    requires d.pending != []
  {
    d.(pending := d.pending[0 := d.pending[0].(paced := true)])
  }

  lemma MarkingPacedCaches(d: State, now: Instant)
    requires Cached(d, now) && d.pending != []
    ensures Cached(MarkedPaced(d), now)
  {}

  lemma RefreshingKeeps(c: State, now: Instant)
    requires Healthy(c) && Cached(c, now)
    ensures var d := Refreshed(c, now);
      Healthy(d) && Cached(d, now) && Effect(c, d, Nothing, now)
  {
    RefreshingCaches(c, now);
  }

  predicate AtHead(c: State, r: Reservation) {
    r.owner == c.id && c.pending != [] && c.pending[0].id == r.id
  }

  lemma CheckIs(c: State, r: Reservation, now: Instant)
    requires Healthy(c) && Cached(c, now)
    ensures var (result, d) := (Checked(c, r, now), Refreshed(c, now));
      if AtHead(c, r) then
        d.pending != []
        && (if d.inflight >= d.config.maxInflight then result == (d, InflightLimit)
            else if d.pending[0].slot > now then result.0 == MarkedPaced(d) && result.1.WaitUntil?
            else result == (d, Ready))
      else
        && result.0 == c
        && result.1 == (if r.owner == c.id && Holds(c.pending, r.id) then WaitForPrevious else Cancelled)
  {
    RefreshingCaches(c, now);
  }

  lemma CheckingKeeps(c: State, r: Reservation, now: Instant)
    requires Healthy(c) && Cached(c, now)
    ensures var (d, state) := Checked(c, r, now);
      && Healthy(d) && Cached(d, now) && Effect(c, d, Nothing, now)
      && (state == Ready ==> d.pending != [] && d.inflight < d.config.maxInflight)
  {
    CheckIs(c, r, now);
    RefreshingKeeps(c, now);
    var d := Refreshed(c, now);
    if d.pending != [] {
      MarkingPacedCaches(d, now);
    }
  }

  lemma DispatchingKeeps(c: State, r: Reservation, now: Instant)
    requires Healthy(c) && Cached(c, now)
    ensures var (d, note) := Step(c, Dispatch(r), now);
      Healthy(d) && Cached(d, now) && Effect(c, d, note, now)
  {
    CheckingKeeps(c, r, now);
    var (d, state) := Checked(c, r, now);
    if state == Ready {
      StartingCaches(d, now);
      ExpectedRttInRange(d);
    }
  }

  lemma LearningTouches(c: State, token: InFlight, outcome: Outcome, rtt: Duration, now: Instant)
    requires Healthy(c)
    ensures var d := Learned(c, token, outcome, rtt, now);
      && d == c.(latency := d.latency, gradient := d.gradient, failures := d.failures)
      && d.failures == c.failures + (if outcome == Failure then 1 else 0)
  {}

  /** A success costs concurrency only if the short RTT, this sample included,
      has left the tolerance around the rolling minimum, this sample included. */
  lemma SuccessCostsOnlyUnderCongestion(c: State, token: InFlight, rtt: Duration, now: Instant)
    requires Healthy(c)
    ensures var d := Learned(c, token, Success, rtt, now);
      && d.latency == Latency.Observed(c.latency, rtt, now)
      && (Latency.ShortRtt(d.latency) <= Latency.BaselineRtt(d.latency) + c.config.queueTolerance ==>
            d.gradient.concurrency >= c.gradient.concurrency)
      && (!token.paced ==> d.gradient == c.gradient)
  {
    var e := Latency.Observed(c.latency, rtt, now);
    GradientLaws.OnlyCongestionCosts(c.gradient, Latency.ShortRtt(e), Latency.BaselineRtt(e), c.inflight, token.paced, now);
  }

  /** Everything a completion does after learning. */
  lemma ReleasingKeeps(c: State, d: State, epoch: Option<Epoch>, now: Instant)
    requires Healthy(d) && Cached(c, now) && c.inflight > 0
    requires d == c.(latency := d.latency, gradient := d.gradient, failures := d.failures, completed := d.completed)
    requires epoch.Some? ==> 0 < epoch.value.expectedRtt <= RTT_LIMIT
    ensures var f := RateUpdated(Released(d, epoch), now);
      && Healthy(f) && Cached(f, now)
      && f.id == c.id && f.config == c.config && |f.pending| == |c.pending| && f.nextId == c.nextId
      && f.inflight == c.inflight - 1 && f.completed == d.completed && f.failures == d.failures && f.epoch == epoch
      && f.latency == d.latency
  {
    RateUpdateCaches(Released(d, epoch), now);
  }

  lemma CompletionIs(c: State, token: InFlight, outcome: Outcome, rtt: Duration, now: Instant)
    requires Healthy(c) && Permitted(c, Complete(token, outcome, rtt)) && token.owner == c.id
    ensures var e := Learned(c.(completed := c.completed + 1), token, outcome, rtt, now);
      && Healthy(e) && e.inflight > 0 && Healthy(Released(e, EpochAfterFeedback(e, now)))
      && Step(c, Complete(token, outcome, rtt), now)
         == (RateUpdated(Released(e, EpochAfterFeedback(e, now)), now), NewCompletion(token, outcome))
  {
    CompletedIs(c, token, outcome, rtt, now);
  }

  lemma CompletingKeeps(c: State, token: InFlight, outcome: Outcome, rtt: Duration, now: Instant)
    requires Healthy(c) && Cached(c, now) && Permitted(c, Complete(token, outcome, rtt))
    ensures var (d, note) := Step(c, Complete(token, outcome, rtt), now);
      Healthy(d) && Cached(d, now) && Effect(c, d, note, now)
  {
    if token.owner == c.id {
      var d := c.(completed := c.completed + 1);
      LearningIsHealthy(d, token, outcome, rtt, now);
      LearningTouches(d, token, outcome, rtt, now);
      var e := Learned(d, token, outcome, rtt, now);
      ExpectedRttInRange(e);
      ReleasingKeeps(c, e, EpochAfterFeedback(e, now), now);
      CompletionIs(c, token, outcome, rtt, now);
    }
  }

  lemma AbandoningKeeps(c: State, token: InFlight, now: Instant)
    requires Healthy(c) && Cached(c, now) && Permitted(c, Abandon(token))
    ensures var (d, note) := Step(c, Abandon(token), now);
      Healthy(d) && Cached(d, now) && Effect(c, d, note, now)
  {
    if token.owner == c.id {
      var d := Penalised(c, now);
      ReleasingKeeps(c, d, if d.inflight > 1 then d.epoch else None, now);
    }
  }

  lemma FailingAdmissionKeeps(c: State, now: Instant)
    requires Healthy(c) && Cached(c, now)
    ensures var (d, note) := Step(c, FailAdmission, now);
      Healthy(d) && Cached(d, now) && Effect(c, d, note, now)
  {
    RateUpdateCaches(Penalised(c, now), now);
  }

  lemma ReservingKeeps(c: State, now: Instant)
    requires Healthy(c) && Cached(c, now)
    ensures var (d, note) := Step(c, Reserve, now);
      Healthy(d) && Cached(d, now) && Effect(c, d, note, now)
  {
    ReservingCaches(c, now);
  }

  lemma CancellingTouches(c: State, r: Reservation, now: Instant)
    ensures var (d, removed) := CancelledOne(c, r, now);
      && d == c.(pending := d.pending, changes := d.changes)
      && |d.pending| == |c.pending| - (if removed then 1 else 0)
  {
    hide SlotAt;
  }

  lemma CancellingKeeps(c: State, r: Reservation, now: Instant)
    requires Healthy(c) && Cached(c, now)
    ensures var (d, note) := Step(c, Cancel(r), now);
      Healthy(d) && Cached(d, now) && Effect(c, d, note, now)
  {
    hide CancelledOne, Cached;
    CancellingTouches(c, r, now);
    CancellingCaches(c, r, now);
  }

  /** Every operation keeps rates representable and the queue a cache. */
  lemma StepKeeps(c: State, op: Op, now: Instant)
    requires Healthy(c) && Cached(c, now) && Permitted(c, op)
    ensures var (d, note) := Step(c, op, now);
      Healthy(d) && Cached(d, now) && Effect(c, d, note, now)
  {
    match op
    case Reserve => ReservingKeeps(c, now);
    case Cancel(r) => CancellingKeeps(c, r, now);
    case Check(r) => CheckingKeeps(c, r, now);
    case Dispatch(r) => DispatchingKeeps(c, r, now);
    case Complete(token, outcome, rtt) => CompletingKeeps(c, token, outcome, rtt, now);
    case Abandon(token) => AbandoningKeeps(c, token, now);
    case FailAdmission => FailingAdmissionKeeps(c, now);
    case Refresh => RefreshingKeeps(c, now);
    case Take =>
  }
}
