/** Whatever tasks do to a shared endpoint is one run of its controller, so
    that all that holds of runs holds of shared endpoints. */
module TokioHistory {
  import opened Clock
  import opened ControllerModel
  import opened VirtualQueue
  import opened ControllerRuns
  import opened Ledgers
  import opened Ownership
  import opened Sleepers
  import opened Synchrony
  import opened TokioProtocol
  import opened TokioSafety
  import opened TokioTheorems
  import opened Histories
  import opened RunPacing
  import ControllerPacing
  import Pacing
  import Probe

  /** What one step does under the controller's lock. */
  function EventsOf(s: System, a: Action): seq<Event> {
    match a
    case TryReserve(_) => [Event(Refresh, s.now), Event(Reserve, s.now), Event(Take, s.now)]
    case Read(_) => [Event(Refresh, s.now), Event(Take, s.now)]
    case Attempt(t) =>
      if TaskOf(s, t).Registered? then [Event(Dispatch(TaskOf(s, t).r), s.now), Event(Take, s.now)] else []
    case Drop(t) =>
      var held := Held(TaskOf(s, t));
      if held.Some? then [Event(Cancel(held.value), s.now), Event(Take, s.now)] else []
    case Finish(t, completion) =>
      var token := Token(TaskOf(s, t));
      if token.Some? then [Event(Report(token.value, completion, s.now), s.now), Event(Take, s.now)] else []
    case _ => []
  }

  /** Whether a step sends a request on its way. */
  predicate Departs(s: System, a: Action)
    requires Healthy(s.c)
  {
    a.Attempt? && TaskOf(s, a.t).Registered? && Dispatched(s.c, TaskOf(s, a.t).r, s.now).1.Ok?
  }

  ghost function History(s: System, actions: seq<Action>): seq<Event>
    requires Inv(s) && Interleaves(s, actions)
    decreases |actions|
  {
    if actions == [] then []
    else
      DoKeeps(s, actions[0]);
      EventsOf(s, actions[0]) + History(Do(s, actions[0]), actions[1..])
  }

  ghost function Departures(s: System, actions: seq<Action>): nat
    requires Inv(s) && Interleaves(s, actions)
    decreases |actions|
  {
    if actions == [] then 0
    else
      DoKeeps(s, actions[0]);
      (if Departs(s, actions[0]) then 1 else 0) + Departures(Do(s, actions[0]), actions[1..])
  }

  /** The run and the tasks agree. */
  ghost predicate Agree(w: World, s: System) {
    Linked(w, s.c, s.now, TokensIn(s.tasks))
  }

  lemma TokenIn(s: System, t: nat)
    ensures TokenOf(TokensIn(s.tasks), t) == Token(TaskOf(s, t))
  {}

  /** The outcome of a critical section of task `t`. */
  lemma UnlockedAgrees(w: World, s: System, t: nat, d: State, next: Continuation, tokens: Tokens)
    requires Linked(w, Taken(d).0, s.now, tokens)
    requires tokens == TokensIn(s.tasks)[t := Token(Announcing(d.changes, next))]
    ensures Agree(w, Unlocked(s, t, d, next))
  {
    hide TokensMatch, Sound;
    BooksBecome(s, t, Announcing(d.changes, next));
  }

  lemma QuietAgrees(w: World, s: System, u: System)
    requires Agree(w, s) && u.c == s.c && s.now <= u.now
    requires forall t :: Token(TaskOf(u, t)) == Token(TaskOf(s, t))
    ensures Agree(w, u)
  {
    hide TokensMatch, Token;
    forall t
      ensures TokenOf(TokensIn(u.tasks), t) == TokenOf(TokensIn(s.tasks), t)
    {
      TokenIn(s, t);
      TokenIn(u, t);
    }
    LinkStays(w, s.c, s.now, TokensIn(s.tasks), u.now, TokensIn(u.tasks));
  }

  /** A step's events are allowed next, and lead to where the step leads. */
  ghost predicate Carried(w: World, s: System, a: Action)
    requires Inv(s) && Enabled(s, a) && Sound(w)
  {
    && Runs(w, EventsOf(s, a))
    && Agree(After(w, EventsOf(s, a)), Do(s, a))
    && After(w, EventsOf(s, a)).l.dispatched == w.l.dispatched + if Departs(s, a) then 1 else 0
  }

  lemma ReadIsCarried(w: World, s: System, t: nat)
    requires Inv(s) && Enabled(s, Read(t)) && Agree(w, s)
    ensures Carried(w, s, Read(t))
  {
    hide TokensMatch, Refreshed, Sound, Fit, Owned, Counted;
    TokenIn(s, t);
    SectionLinks(w, s.c, s.now, TokensIn(s.tasks), t, Refresh);
    UnlockedAgrees(After(w, EventsOf(s, Read(t))), s, t, Refreshed(s.c, s.now), Nowhere, TokensIn(s.tasks)[t := None]);
  }

  lemma TryReserveIsCarried(w: World, s: System, t: nat)
    requires Inv(s) && Enabled(s, TryReserve(t)) && Agree(w, s)
    ensures Carried(w, s, TryReserve(t))
  {
    hide TokensMatch, Refreshed, Reserved, Sound, Owned, Counted, Cached, InStep, SleepersAreSafe, RoomSleepersAreSafe,
         NobodyPanicked, Runs, After;
    var tokens := TokensIn(s.tasks);
    var quiet := tokens[t := None];
    TokenIn(s, t);
    EventLinks(w, s.c, s.now, tokens, t, Refresh);
    var first, rest := [Event(Refresh, s.now)], [Event(Reserve, s.now), Event(Take, s.now)];
    var c := Refreshed(s.c, s.now);
    SectionLinks(After(w, first), c, s.now, quiet, t, Reserve);
    RunsConcat(w, first, rest);
    assert first + rest == EventsOf(s, TryReserve(t));
    var (d, result) := Reserved(c, s.now);
    UnlockedAgrees(After(w, EventsOf(s, TryReserve(t))), s, t, d,
                   if result.Ok? then Holding(result.value) else Nowhere, quiet[t := None]);
  }

  lemma DropIsCarried(w: World, s: System, t: nat)
    requires Inv(s) && Enabled(s, Drop(t)) && Agree(w, s)
    ensures Carried(w, s, Drop(t))
  {
    hide TokensMatch, CancelledOne, Sound, Fit, Owned, Counted;
    TokenIn(s, t);
    SectionLinks(w, s.c, s.now, TokensIn(s.tasks), t, Cancel(TaskOf(s, t).r));
    UnlockedAgrees(After(w, EventsOf(s, Drop(t))), s, t, CancelledOne(s.c, TaskOf(s, t).r, s.now).0, Nowhere,
                   TokensIn(s.tasks)[t := None]);
  }

  lemma FailedAttemptAgrees(w: World, s: System, t: nat)
    requires Inv(s) && Enabled(s, Attempt(t)) && Healthy(s.c) && Dispatched(s.c, TaskOf(s, t).r, s.now).1.Err?
    requires Linked(w, Taken(Dispatched(s.c, TaskOf(s, t).r, s.now).0).0, s.now, TokensIn(s.tasks)[t := None])
    ensures Agree(w, Attempted(s, t))
  {
    hide Inv, Dispatched, Sound, TokensMatch, Healthy;
    BooksBecome(s, t, TaskOf(Attempted(s, t), t));
  }

  lemma AttemptIsCarried(w: World, s: System, t: nat)
    requires Inv(s) && Enabled(s, Attempt(t)) && Agree(w, s)
    ensures Carried(w, s, Attempt(t))
  {
    hide TokensMatch, Dispatched, Sound, Owned, Counted, Cached, InStep, SleepersAreSafe, RoomSleepersAreSafe, NobodyPanicked;
    var r := TaskOf(s, t).r;
    TokenIn(s, t);
    SectionLinks(w, s.c, s.now, TokensIn(s.tasks), t, Dispatch(r));
    var (d, result) := Dispatched(s.c, r, s.now);
    var v := After(w, EventsOf(s, Attempt(t)));
    if result.Ok? {
      UnlockedAgrees(v, s, t, d, Running(result.value), TokensIn(s.tasks)[t := Some(result.value)]);
    } else {
      FailedAttemptAgrees(v, s, t);
    }
  }

  lemma FinishIsCarried(w: World, s: System, t: nat, completion: Completion)
    requires Inv(s) && Enabled(s, Finish(t, completion)) && Agree(w, s)
    ensures Carried(w, s, Finish(t, completion))
  {
    hide TokensMatch, Completed, GivenUp, Sound, Owned, Counted;
    RunnerIsCounted(s, t);
    var token := TaskOf(s, t).token;
    var op := Report(token, completion, s.now);
    ReportIsStep(s.c, token, completion, s.now);
    TokenIn(s, t);
    SectionLinks(w, s.c, s.now, TokensIn(s.tasks), t, op);
    UnlockedAgrees(After(w, EventsOf(s, Finish(t, completion))), s, t, Finished(s.c, token, completion, s.now).0, Nowhere,
                   TokensIn(s.tasks)[t := None]);
  }

  lemma NotifyIsQuiet(s: System, t: nat)
    requires Inv(s) && Enabled(s, Notify(t))
    ensures var u := Delivered(s, t);
      u.c == s.c && u.now == s.now && forall v :: Token(TaskOf(u, v)) == Token(TaskOf(s, v))
  {
    hide Inv;
  }

  /** The steps that touch neither the controller nor any token. */
  predicate Private(a: Action) {
    !a.TryReserve? && !a.Read? && !a.Attempt? && !a.Drop? && !a.Finish?
  }

  lemma PrivateIsQuiet(s: System, a: Action)
    requires Inv(s) && Enabled(s, a) && Private(a)
    ensures var u := Do(s, a);
      u.c == s.c && s.now <= u.now && forall v :: Token(TaskOf(u, v)) == Token(TaskOf(s, v))
  {
    hide Inv, Delivered;
    if a.Notify? {
      NotifyIsQuiet(s, a.t);
    }
  }

  lemma PrivateIsIdle(s: System, a: Action)
    requires Inv(s) && Private(a)
    ensures Healthy(s.c) && EventsOf(s, a) == [] && !Departs(s, a)
  {
    hide Owned, Counted, SleepersAreSafe, RoomSleepersAreSafe, NobodyPanicked, Healthy, Cached, InStep, Dispatched;
  }

  lemma PrivateIsCarried(w: World, s: System, a: Action)
    requires Inv(s) && Enabled(s, a) && Private(a) && Agree(w, s)
    ensures Carried(w, s, a)
  {
    hide Inv, Do, TokensMatch, Sound, Enabled, Departs, EventsOf;
    PrivateIsIdle(s, a);
    PrivateIsQuiet(s, a);
    QuietAgrees(w, s, Do(s, a));
  }

  /** Every step is a stretch of the run. */
  lemma StepIsCarried(w: World, s: System, a: Action)
    requires Inv(s) && Enabled(s, a) && Agree(w, s)
    ensures Carried(w, s, a)
  {
    hide Inv, Do, Agree, Carried, Enabled;
    match a
    case TryReserve(t) => TryReserveIsCarried(w, s, t);
    case Read(t) => ReadIsCarried(w, s, t);
    case Attempt(t) => AttemptIsCarried(w, s, t);
    case Drop(t) => DropIsCarried(w, s, t);
    case Finish(t, completion) => FinishIsCarried(w, s, t, completion);
    case _ => PrivateIsCarried(w, s, a);
  }

  /** In every interleaving the controller goes through the history, the run's
      outstanding tokens are those the tasks carry, and it dispatches exactly
      where a task's attempt succeeds. */
  lemma {:induction false} InterleavingsAreRuns(w: World, s: System, actions: seq<Action>)
    requires Inv(s) && Interleaves(s, actions) && Agree(w, s)
    ensures Runs(w, History(s, actions))
    ensures var v := After(w, History(s, actions));
      && Agree(v, AfterAll(s, actions))
      && v.l.dispatched == w.l.dispatched + Departures(s, actions)
    decreases |actions|
  {
    hide Inv, Do, TokensMatch, Sound, Departs, EventsOf, Enabled;
    if actions == [] {
    } else {
      var a := actions[0];
      DoKeeps(s, a);
      StepIsCarried(w, s, a);
      var v := After(w, EventsOf(s, a));
      InterleavingsAreRuns(v, Do(s, a), actions[1..]);
      RunsConcat(w, EventsOf(s, a), History(Do(s, a), actions[1..]));
    }
  }

  lemma NobodyCarries(tokens: Tokens, x: InFlight)
    requires tokens == map[]
    ensures Carriers(tokens, x) == {}
  {}

  /** From its creation on, a shared endpoint goes through one run of a new
      controller, whatever the interleaving: what every run keeps holds of it. */
  lemma EveryInterleavingIsARun(id: nat, config: Config, rng: Probe.Rng, start: Instant, actions: seq<Action>)
    requires config.Valid() && rng.Valid()
    requires Interleaves(NewEndpoint(id, config, rng, start), actions)
    ensures var w, s := NewWorld(id, config, rng, start), NewEndpoint(id, config, rng, start);
      && Runs(w, History(s, actions))
      && var v, u := After(w, History(s, actions)), AfterAll(s, actions);
         && v.c == u.c && v.now <= u.now
         && v.l.dispatched == Departures(s, actions)
         && forall x: InFlight :: v.l.outstanding[x] == |Carriers(TokensIn(u.tasks), x)|
  {
    hide Interleaves, AfterAll, History, Departures, Carriers;
    var w, s := NewWorld(id, config, rng, start), NewEndpoint(id, config, rng, start);
    forall x: InFlight
      ensures |Carriers(TokensIn(s.tasks), x)| == 0
    {
      NobodyCarries(TokensIn(s.tasks), x);
    }
    InterleavingsAreRuns(w, s, actions);
  }

  /** So pacing holds of shared endpoints: however tasks interleave, in any
      stretch the departures are one, one per speed-up, and what the smallest
      spacing adopted allows. */
  lemma SharedWindow(w: World, s: System, actions: seq<Action>, m: Interval, start: Instant, length: nat)
    requires Inv(s) && Interleaves(s, actions) && Agree(w, s) && start + length + m <= MAX_INSTANT
    ensures Sound(w) && Runs(w, History(s, actions))
    ensures var es := History(s, actions);
      InWindow(es, start, start + length) && Pacing.SpacedBy(m, ControllerPacing.Trace(w, es)) ==>
        Departures(s, actions) <= 1 + RunSpeedups(w, es) + length / m
  {
    hide Interleaves, AfterAll, History, Departures, Inv, Runs, RunSpeedups, InWindow, Pacing.SpacedBy, TokensMatch, Sound;
    InterleavingsAreRuns(w, s, actions);
    var es := History(s, actions);
    if InWindow(es, start, start + length) && Pacing.SpacedBy(m, ControllerPacing.Trace(w, es)) {
      WindowOfRun(w, es, m, start, length);
    }
  }
}
