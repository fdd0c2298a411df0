/** The books kept beside a controller, over every run. */
module Ledgers {
  import opened Clock
  import opened Probe
  import opened ControllerModel
  import opened VirtualQueue
  import opened ControllerRuns
  import Gcra
  import Latency

  /** What the silence clock can know of: dispatches, feedback, abandonments,
      and the RTT then expected. */
  datatype Signal = Departed(at: Instant, rtt: Duration) | Heard(at: Instant, rtt: Duration) | Lost(at: Instant)

  datatype Ledger = Ledger(
    reserved: nat, cancelled: nat, dispatched: nat, completed: nat, failed: nat,
    abandoned: nat, admissionFailures: nat, outstanding: multiset<InFlight>, signals: seq<Signal>)

  const BLANK: Ledger := Ledger(0, 0, 0, 0, 0, 0, 0, multiset{}, [])

  function Posted(l: Ledger, note: Note, now: Instant, rtt: Duration): Ledger {
    match note
    case Nothing => l
    case NewReservation(_) => l.(reserved := l.reserved + 1)
    case NewCancellation => l.(cancelled := l.cancelled + 1)
    case NewDispatch(token) =>
      l.(dispatched := l.dispatched + 1, outstanding := l.outstanding + multiset{token},
         signals := l.signals + [Departed(now, rtt)])
    case NewCompletion(token, outcome) =>
      l.(completed := l.completed + 1, failed := l.failed + (if outcome == Failure then 1 else 0),
         outstanding := l.outstanding - multiset{token}, signals := l.signals + [Heard(now, rtt)])
    case NewAbandonment(token) =>
      l.(abandoned := l.abandoned + 1, outstanding := l.outstanding - multiset{token},
         signals := l.signals + [Lost(now)])
    case NewAdmissionFailure => l.(admissionFailures := l.admissionFailures + 1)
  }

  /** Requests under way after the given signals. */
  function Balance(signals: seq<Signal>): int {
    if signals == [] then 0
    else Balance(signals[..|signals| - 1]) + (if signals[|signals| - 1].Departed? then 1 else -1)
  }

  /** Feedback, or a dispatch that opens a busy period. */
  ghost predicate Marks(signals: seq<Signal>, i: nat)
    requires i < |signals|
  {
    signals[i].Heard? || (signals[i].Departed? && Balance(signals[..i]) == 0)
  }

  ghost predicate LatestMark(signals: seq<Signal>, i: nat) {
    i < |signals| && Marks(signals, i) && forall j :: i < j < |signals| ==> !Marks(signals, j)
  }

  /** The signal begins this epoch: it tells when, and the RTT expected then. */
  predicate Begins(s: Signal, e: Epoch) {
    !s.Lost? && s.at == e.lastFeedbackAt && s.rtt == e.expectedRtt
  }

  ghost predicate EpochMatches(epoch: Option<Epoch>, signals: seq<Signal>) {
    match epoch
    case None => Balance(signals) == 0
    case Some(e) => Balance(signals) > 0 && exists i: nat :: LatestMark(signals, i) && Begins(signals[i], e)
  }

  ghost predicate Balanced(c: State, l: Ledger) {
    && l.reserved == c.nextId == |c.pending| + l.cancelled + l.dispatched
    && l.dispatched == c.inflight + l.completed + l.abandoned
    && l.completed == c.completed
    && c.failures == l.failed + l.abandoned + l.admissionFailures
    && |l.outstanding| == c.inflight <= c.config.maxInflight
    && (forall t :: t in l.outstanding ==> t.owner == c.id)
    && Balance(l.signals) == c.inflight
    && EpochMatches(c.epoch, l.signals)
  }

  datatype World = World(c: State, l: Ledger, now: Instant)

  ghost predicate Sound(w: World) {
    Healthy(w.c) && Cached(w.c, w.now) && Balanced(w.c, w.l)
  }

  /** Time does not run backward, and an own token is used while outstanding. */
  predicate Allowed(w: World, e: Event) {
    && w.now <= e.at
    && match e.op
       case Complete(token, outcome, rtt) =>
         token.owner == w.c.id ==> token in w.l.outstanding && Measurable(w.c.latency, outcome, rtt)
       case Abandon(token) => token.owner == w.c.id ==> token in w.l.outstanding
       case _ => true
  }

  lemma AllowedIsPermitted(w: World, e: Event)
    requires Sound(w) && Allowed(w, e)
    ensures Permitted(w.c, e.op) && Cached(w.c, e.at)
  {
    TimePasses(w.c.pending, w.c.pacer, w.now, e.at);
  }

  function Next(w: World, e: Event): World
    requires Sound(w) && Allowed(w, e)
  {
    AllowedIsPermitted(w, e);
    var (d, note) := Step(w.c, e.op, e.at);
    World(d, Posted(w.l, note, e.at, Latency.ExpectedRtt(d.latency)), e.at)
  }

  lemma {:induction false} SignalAppended(signals: seq<Signal>, s: Signal)
    ensures var after := signals + [s];
      && Balance(after) == Balance(signals) + (if s.Departed? then 1 else -1)
      && (Marks(after, |signals|) <==> s.Heard? || (s.Departed? && Balance(signals) == 0))
      && forall i :: 0 <= i < |signals| ==> Marks(after, i) == Marks(signals, i)
  {
    var after := signals + [s];
    assert after[..|signals|] == signals;
    forall i | 0 <= i < |signals|
      ensures Marks(after, i) == Marks(signals, i)
    {
      assert after[..i] == signals[..i];
    }
  }

  /** The latest mark after one more signal: that signal or the mark before. */
  lemma {:induction false} MarkAppended(signals: seq<Signal>, s: Signal, epoch: Option<Epoch>, next: Option<Epoch>)
    requires EpochMatches(epoch, signals)
    requires match s
      case Departed(at, rtt) => next == if Balance(signals) == 0 then Some(Epoch(at, rtt)) else epoch
      case Heard(at, rtt) => next == if Balance(signals) > 1 then Some(Epoch(at, rtt)) else None
      case Lost(_) => next == if Balance(signals) > 1 then epoch else None
    requires !s.Departed? ==> Balance(signals) > 0
    ensures EpochMatches(next, signals + [s])
  {
    var after := signals + [s];
    SignalAppended(signals, s);
    if next.Some? {
      if Marks(after, |signals|) {
        assert LatestMark(after, |signals|);
      } else {
        var i: nat :| LatestMark(signals, i) && Begins(signals[i], epoch.value);
        assert LatestMark(after, i);
      }
    }
  }

  lemma PostingBalances(c: State, d: State, l: Ledger, note: Note, now: Instant)
    requires Balanced(c, l) && Effect(c, d, note, now)
    requires note.NewCompletion? || note.NewAbandonment? ==> note.token in l.outstanding
    ensures Balanced(d, Posted(l, note, now, Latency.ExpectedRtt(d.latency)))
  {
    var rtt := Latency.ExpectedRtt(d.latency);
    match note
    case NewDispatch(_) =>
      SignalAppended(l.signals, Departed(now, rtt));
      MarkAppended(l.signals, Departed(now, rtt), c.epoch, d.epoch);
    case NewCompletion(_, _) =>
      SignalAppended(l.signals, Heard(now, rtt));
      MarkAppended(l.signals, Heard(now, rtt), c.epoch, d.epoch);
    case NewAbandonment(_) =>
      SignalAppended(l.signals, Lost(now));
      MarkAppended(l.signals, Lost(now), c.epoch, d.epoch);
    case _ =>
  }

  lemma NoteNamesTheToken(c: State, op: Op, now: Instant)
    requires Healthy(c) && Permitted(c, op)
    ensures var note := Step(c, op, now).1;
      && (note.NewCompletion? ==> op.Complete? && op.token == note.token && note.token.owner == c.id)
      && (note.NewAbandonment? ==> op.Abandon? && op.token == note.token && note.token.owner == c.id)
  {}

  lemma NextIsSound(w: World, e: Event)
    requires Sound(w) && Allowed(w, e)
    ensures Sound(Next(w, e))
  {
    AllowedIsPermitted(w, e);
    StepKeeps(w.c, e.op, e.at);
    NoteNamesTheToken(w.c, e.op, e.at);
    var (d, note) := Step(w.c, e.op, e.at);
    PostingBalances(w.c, d, w.l, note, e.at);
  }

  ghost predicate Runs(w: World, es: seq<Event>)
    requires Sound(w)
    decreases |es|
  {
    es != [] ==> Allowed(w, es[0]) && (NextIsSound(w, es[0]); Runs(Next(w, es[0]), es[1..]))
  }

  function After(w: World, es: seq<Event>): World
    requires Sound(w) && Runs(w, es)
    decreases |es|
  {
    if es == [] then w
    else
      NextIsSound(w, es[0]);
      After(Next(w, es[0]), es[1..])
  }

  function NewWorld(id: nat, config: Config, rng: Rng, now: Instant): (w: World)
    requires config.Valid() && rng.Valid()
    ensures Sound(w)
  {
    World(InitialState(id, config, rng, now), BLANK, now)
  }

  lemma {:induction false} RunsStaySound(w: World, es: seq<Event>)
    requires Sound(w) && Runs(w, es)
    ensures Sound(After(w, es)) && w.now <= After(w, es).now && After(w, es).c.config == w.c.config
    decreases |es|
  {
    if es == [] {
    } else {
      NextIsSound(w, es[0]);
      AllowedIsPermitted(w, es[0]);
      StepKeeps(w.c, es[0].op, es[0].at);
      RunsStaySound(Next(w, es[0]), es[1..]);
    }
  }

  /** In every run of a new controller the books balance, both queues stay
      within their caps, the cached slots agree with the pacer, and the silence
      epoch dates from the latest busy-period start or real feedback, with the
      RTT expected then. */
  lemma {:induction false} EveryRunKeepsTheBooks(id: nat, config: Config, rng: Rng, start: Instant, es: seq<Event>)
    requires config.Valid() && rng.Valid()
    requires Runs(NewWorld(id, config, rng, start), es)
    ensures var w := After(NewWorld(id, config, rng, start), es);
      var c, l := w.c, w.l;
      && l.reserved == |c.pending| + l.cancelled + l.dispatched
      && l.dispatched == c.inflight + l.completed + l.abandoned
      && c.failures == l.failed + l.abandoned + l.admissionFailures
      && |c.pending| <= config.queueCapacity && c.inflight <= config.maxInflight
      && OrderedIds(c.pending, c.nextId) && SlotsCached(c.pending, c.pacer, w.now)
      && (c.epoch.Some? <==> c.inflight > 0)
      && EpochMatches(c.epoch, l.signals)
  {
    RunsStaySound(NewWorld(id, config, rng, start), es);
  }

  /** In every run of a new controller, at every later instant, the pacing rate
      is positive and its spacing fits a duration: the pacer never refuses it. */
  lemma EveryRateFits(id: nat, config: Config, rng: Rng, start: Instant, es: seq<Event>, at: Instant)
    requires config.Valid() && rng.Valid()
    requires Runs(NewWorld(id, config, rng, start), es)
    ensures var c := After(NewWorld(id, config, rng, start), es).c;
      Healthy(c) && DerivedRate(c, at) > 0.0 && Gcra.Representable(DerivedRate(c, at))
  {
    RunsStaySound(NewWorld(id, config, rng, start), es);
  }
}
