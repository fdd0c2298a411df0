/** The owner's and the requests' steps on one Tower endpoint are one run of its
    controller, so that all that holds of runs holds of Tower endpoints. */
module TowerHistory {
  import opened Clock
  import opened ControllerModel
  import opened ControllerRuns
  import opened Ledgers
  import opened Ownership
  import opened Sleepers
  import opened TowerProtocol
  import opened TowerSafety
  import opened TowerTheorems
  import opened Histories
  import opened RunPacing
  import ControllerPacing
  import Pacing
  import Probe

  function Drained(op: Op, now: Instant): seq<Event> {
    [Event(op, now), Event(Take, now)]
  }

  /** What one step does under the controller's lock. */
  function EventsOf(s: System, a: Action): seq<Event> {
    match a
    case Call(_) => if s.failed then [] else [Event(Reserve, s.now)]
    case Read(_) => Drained(Refresh, s.now)
    case Inspect(t) =>
      if s.failed || !RequestOf(s, t).Registered? then [] else Drained(Check(RequestOf(s, t).r), s.now)
    case Publish(_) => Drained(FailAdmission, s.now)
    case Commit(t) => if RequestOf(s, t).Committing? then Drained(Dispatch(RequestOf(s, t).r), s.now) else []
    case Respond(t, completion) =>
      if RequestOf(s, t).Served? then Drained(Report(RequestOf(s, t).token, completion, s.now), s.now) else []
    case Release(t) =>
      var held := Held(RequestOf(s, t));
      if held.Some? then Drained(Cancel(held.value), s.now) else []
    case _ => []
  }

  /** Whether a step sends a request on its way. */
  predicate Departs(s: System, a: Action)
    requires Healthy(s.c)
  {
    a.Commit? && RequestOf(s, a.t).Committing? && Dispatched(s.c, RequestOf(s, a.t).r, s.now).1.Ok?
  }

  ghost function History(s: System, actions: seq<Action>): seq<Event>
    requires Inv(s) && Interleaves(s, actions)
    decreases |actions|
  {
    if actions == [] then []
    else
      DoKeeps(s, actions[0]);
      EventsOf(s, actions[0]) + History(Do(s, actions[0]), actions[1..])
  }

  ghost function Departures(s: System, actions: seq<Action>): nat
    requires Inv(s) && Interleaves(s, actions)
    decreases |actions|
  {
    if actions == [] then 0
    else
      DoKeeps(s, actions[0]);
      ControllerIsKept(s);
      (if Departs(s, actions[0]) then 1 else 0) + Departures(Do(s, actions[0]), actions[1..])
  }

  /** The run and the requests agree. */
  ghost predicate Agree(w: World, s: System) {
    Linked(w, s.c, s.now, TokensIn(s.requests))
  }

  lemma TokenIn(s: System, t: nat)
    ensures TokenOf(TokensIn(s.requests), t) == Token(RequestOf(s, t))
  {}

  /** One request moves together with the controller. */
  lemma MovedAgrees(w: World, s: System, t: nat, q: Request, u: System, tokens: Tokens)
    requires Linked(w, u.c, s.now, tokens) && tokens == TokensIn(s.requests)[t := Token(q)]
    requires u.requests == s.requests[t := q] && u.now == s.now
    ensures Agree(w, u)
  {
    hide Linked, Token;
    BooksBecome(s, t, q);
  }

  lemma QuietAgrees(w: World, s: System, u: System)
    requires Agree(w, s) && u.c == s.c && s.now <= u.now
    requires forall t :: Token(RequestOf(u, t)) == Token(RequestOf(s, t))
    ensures Agree(w, u)
  {
    hide TokensMatch, Sound, Token;
    forall t
      ensures TokenOf(TokensIn(u.requests), t) == TokenOf(TokensIn(s.requests), t)
    {
      TokenIn(s, t);
      TokenIn(u, t);
    }
    LinkStays(w, s.c, s.now, TokensIn(s.requests), u.now, TokensIn(u.requests));
  }

  /** A step's events are allowed next, and lead to where the step leads. */
  ghost predicate Carried(w: World, s: System, a: Action)
    requires Inv(s) && Enabled(s, a) && Sound(w)
  {
    ControllerIsKept(s);
    && Runs(w, EventsOf(s, a))
    && Agree(After(w, EventsOf(s, a)), Do(s, a))
    && After(w, EventsOf(s, a)).l.dispatched == w.l.dispatched + if Departs(s, a) then 1 else 0
  }

  /** A section in which request `t` keeps, gains or gives up its token. */
  lemma SectionAgrees(w: World, s: System, t: nat, op: Op, q: Request, u: System)
    requires Agree(w, s) && Entitled(s.c, op, Token(RequestOf(s, t))) && Healthy(s.c) && Permitted(s.c, op)
    requires Token(q) == TokenAfter(Step(s.c, op, s.now).1, Token(RequestOf(s, t)))
    requires u.c == Taken(Step(s.c, op, s.now).0).0 && u.requests == s.requests[t := q] && u.now == s.now
    ensures Sound(w) && Runs(w, Drained(op, s.now)) && Agree(After(w, Drained(op, s.now)), u)
    ensures After(w, Drained(op, s.now)).l.dispatched
            == w.l.dispatched + if Step(s.c, op, s.now).1.NewDispatch? then 1 else 0
  {
    hide Step, TokensMatch, Sound, Token, Entitled, Healthy, Permitted, TokenAfter;
    TokenIn(s, t);
    SectionLinks(w, s.c, s.now, TokensIn(s.requests), t, op);
    MovedAgrees(After(w, Drained(op, s.now)), s, t, q, u, TokensIn(s.requests)[t := Token(q)]);
  }

  /** Step `a` of request `t` is this operation, and then drains the flags. */
  ghost predicate Performs(s: System, a: Action, t: nat, op: Op)
    requires Inv(s) && Enabled(s, a)
  {
    ControllerIsKept(s);
    var u, before := Do(s, a), Token(RequestOf(s, t));
    && Entitled(s.c, op, before) && Permitted(s.c, op) && EventsOf(s, a) == Drained(op, s.now)
    && t in u.requests && u.requests == s.requests[t := u.requests[t]] && u.now == s.now
    && var (d, note) := Step(s.c, op, s.now);
       && u.c == Taken(d).0 && Token(u.requests[t]) == TokenAfter(note, before)
       && (Departs(s, a) <==> note.NewDispatch?)
  }

  lemma PerformingIsCarried(w: World, s: System, a: Action, t: nat, op: Op)
    requires Inv(s) && Enabled(s, a) && Agree(w, s) && Performs(s, a, t, op)
    ensures Sound(w) && Carried(w, s, a)
  {
    hide Inv, Agree, Do, Enabled, Entitled, Permitted, Step, EventsOf, Departs, Token, TokenAfter, Sound, Healthy, Kept;
    ControllerIsKept(s);
    SectionAgrees(w, s, t, op, Do(s, a).requests[t], Do(s, a));
  }

  lemma ReadPerforms(s: System, t: nat)
    requires Inv(s) && Enabled(s, Read(t))
    ensures Performs(s, Read(t), t, Refresh)
  {
    hide Inv, Kept, Healthy, LockFree, Holding, Refreshed;
    ControllerIsKept(s);
  }

  lemma InspectPerforms(s: System, t: nat)
    requires Inv(s) && Enabled(s, Inspect(t)) && !s.failed
    ensures Performs(s, Inspect(t), t, Check(RequestOf(s, t).r))
  {
    hide Inv, Kept, Healthy, LockFree, Holding, Checked;
    ControllerIsKept(s);
  }

  lemma PublishPerforms(s: System, t: nat)
    requires Inv(s) && Enabled(s, Publish(t))
    ensures Performs(s, Publish(t), t, FailAdmission)
  {
    hide Inv, Kept, Healthy, LockFree, Holding, AdmissionFailed;
    ControllerIsKept(s);
  }

  lemma CommittedIs(s: System, t: nat)
    requires Healthy(s.c) && RequestOf(s, t).Committing?
    ensures var u := Committed(s, t);
      var (d, result) := Dispatched(s.c, RequestOf(s, t).r, s.now);
      && t in u.requests && u.requests == s.requests[t := u.requests[t]] && u.now == s.now && u.c == Taken(d).0
      && Token(u.requests[t]) == match result case Ok(token) => Some(token) case Err(_) => None
  {
    hide Dispatched, Healthy;
  }

  lemma CommitPerforms(s: System, t: nat)
    requires Inv(s) && Enabled(s, Commit(t))
    ensures Performs(s, Commit(t), t, Dispatch(RequestOf(s, t).r))
  {
    hide Inv, Kept, Healthy, LockFree, Holding, Dispatched, Committed, Taken;
    ControllerIsKept(s);
    CommittedIs(s, t);
  }

  lemma RespondPerforms(s: System, t: nat, completion: Completion)
    requires Inv(s) && Enabled(s, Respond(t, completion))
    ensures Performs(s, Respond(t, completion), t, Report(RequestOf(s, t).token, completion, s.now))
  {
    hide Inv, Kept, Healthy, LockFree, Holding, Completed, GivenUp;
    ControllerIsKept(s);
    RespondTokenIsOurs(s, t);
    ReportIsStep(s.c, RequestOf(s, t).token, completion, s.now);
  }

  lemma ReleasePerforms(s: System, t: nat)
    requires Inv(s) && Enabled(s, Release(t))
    ensures Performs(s, Release(t), t, Cancel(RequestOf(s, t).r))
  {
    hide Inv, Kept, Healthy, LockFree, Holding, CancelledOne;
    ControllerIsKept(s);
  }

  lemma CallIsCarried(w: World, s: System, t: nat)
    requires Inv(s) && Enabled(s, Call(t)) && Agree(w, s)
    ensures Sound(w) && Carried(w, s, Call(t))
  {
    hide Inv, Kept, TokensMatch, Reserved, Sound, Healthy;
    ControllerIsKept(s);
    var u := Do(s, Call(t));
    TokenIn(s, t);
    if s.failed {
      QuietAgrees(w, s, u);
    } else {
      EventLinks(w, s.c, s.now, TokensIn(s.requests), t, Reserve);
      MovedAgrees(After(w, [Event(Reserve, s.now)]), s, t, u.requests[t], u, TokensIn(s.requests)[t := None]);
    }
  }

  lemma InspectIsCarried(w: World, s: System, t: nat)
    requires Inv(s) && Enabled(s, Inspect(t)) && Agree(w, s)
    ensures Sound(w) && Carried(w, s, Inspect(t))
  {
    hide Inv, Kept, TokensMatch, Checked, Sound, Healthy, Performs;
    ControllerIsKept(s);
    if s.failed {
      QuietAgrees(w, s, Do(s, Inspect(t)));
    } else {
      InspectPerforms(s, t);
      PerformingIsCarried(w, s, Inspect(t), t, Check(RequestOf(s, t).r));
    }
  }

  /** The steps that touch neither the controller nor any token. */
  predicate Private(a: Action) {
    !a.Call? && !a.Read? && !a.Inspect? && !a.Publish? && !a.Commit? && !a.Respond? && !a.Release?
  }

  lemma NoticingKeepsToken(q: Request)
    ensures Token(Noticed(q)) == Token(q)
  {}

  lemma DeliveredToken(s: System, t: nat)
    requires RequestOf(s, t).Announcing? || RequestOf(s, t).Publishing?
    ensures Token(RequestOf(Delivered(s, t), t)) == Token(RequestOf(s, t))
  {
    hide AllNoticed;
  }

  lemma StrangersStayAway(s: System, t: nat, v: nat)
    requires RequestOf(s, t).Announcing? || RequestOf(s, t).Publishing?
    requires v !in s.requests
    ensures v !in Delivered(s, t).requests
  {}

  lemma NotifyIsQuiet(s: System, t: nat)
    requires Enabled(s, Notify(t))
    ensures var u := Delivered(s, t);
      u.c == s.c && u.now == s.now && forall v :: Token(RequestOf(u, v)) == Token(RequestOf(s, v))
  {
    hide Token, Noticed, AllNoticed;
    var u := Delivered(s, t);
    forall v
      ensures Token(RequestOf(u, v)) == Token(RequestOf(s, v))
    {
      if v == t {
        DeliveredToken(s, t);
      } else if v in s.requests {
        OthersDelivered(s, t, v);
        NoticingKeepsToken(s.requests[v]);
      } else {
        StrangersStayAway(s, t, v);
      }
    }
  }

  /** Nobody's token and nothing about the controller changes. */
  ghost predicate Quiet(s: System, u: System) {
    u.c == s.c && s.now <= u.now && forall v :: Token(RequestOf(u, v)) == Token(RequestOf(s, v))
  }

  lemma WaitingIsQuiet(s: System, a: Action)
    requires Inv(s) && Enabled(s, a) && (a.Register? || a.Wake? || a.Acquire? || a.CheckClosure? || a.Drop?)
    ensures Quiet(s, Do(s, a))
  {
    hide Inv, LockFree, Holding;
  }

  lemma PollIsQuiet(s: System, t: nat, answer: Readiness)
    requires RequestOf(s, t).Polling?
    ensures Quiet(s, InnerPolled(s, t, answer))
  {}

  lemma ContactIsQuiet(s: System, a: Action)
    requires Inv(s) && Enabled(s, a) && (a.PollReady? || a.PollInner? || a.CallInner? || a.Tick?)
    ensures Quiet(s, Do(s, a))
  {
    hide Inv, MaySchedule, InnerPolled, LockFree, Holding;
    if a.PollInner? {
      PollIsQuiet(s, a.t, a.answer);
    }
  }

  lemma PrivateIsQuiet(s: System, a: Action)
    requires Inv(s) && Enabled(s, a) && Private(a)
    ensures Quiet(s, Do(s, a))
  {
    hide Inv, Delivered, Enabled, Token;
    if a.Notify? {
      NotifyIsQuiet(s, a.t);
    } else if a.PollReady? || a.PollInner? || a.CallInner? || a.Tick? {
      ContactIsQuiet(s, a);
    } else {
      WaitingIsQuiet(s, a);
    }
  }

  lemma PrivateIsCarried(w: World, s: System, a: Action)
    requires Inv(s) && Enabled(s, a) && Private(a) && Agree(w, s)
    ensures Sound(w) && Carried(w, s, a)
  {
    hide Inv, Do, TokensMatch, Sound, Enabled, Healthy, Kept;
    ControllerIsKept(s);
    PrivateIsQuiet(s, a);
    QuietAgrees(w, s, Do(s, a));
  }

  /** Every step is a stretch of the run. */
  lemma StepIsCarried(w: World, s: System, a: Action)
    requires Inv(s) && Enabled(s, a) && Agree(w, s)
    ensures Sound(w) && Carried(w, s, a)
  {
    hide Inv, Do, Agree, Carried, Performs;
    match a
    case Call(t) => CallIsCarried(w, s, t);
    case Read(t) =>
      ReadPerforms(s, t);
      PerformingIsCarried(w, s, a, t, Refresh);
    case Inspect(t) => InspectIsCarried(w, s, t);
    case Publish(t) =>
      PublishPerforms(s, t);
      PerformingIsCarried(w, s, a, t, FailAdmission);
    case Commit(t) =>
      CommitPerforms(s, t);
      PerformingIsCarried(w, s, a, t, Dispatch(RequestOf(s, t).r));
    case Respond(t, completion) =>
      RespondPerforms(s, t, completion);
      PerformingIsCarried(w, s, a, t, Report(RequestOf(s, t).token, completion, s.now));
    case Release(t) =>
      ReleasePerforms(s, t);
      PerformingIsCarried(w, s, a, t, Cancel(RequestOf(s, t).r));
    case _ => PrivateIsCarried(w, s, a);
  }

  /** In every interleaving the controller goes through the history, the run's
      outstanding tokens are those the requests carry, and it dispatches exactly
      where a request's commit succeeds. */
  lemma {:induction false} InterleavingsAreRuns(w: World, s: System, actions: seq<Action>)
    requires Inv(s) && Interleaves(s, actions) && Agree(w, s)
    ensures Runs(w, History(s, actions))
    ensures var v := After(w, History(s, actions));
      && Agree(v, AfterAll(s, actions))
      && v.l.dispatched == w.l.dispatched + Departures(s, actions)
    decreases |actions|
  {
    hide Inv, Do, TokensMatch, Sound, Departs, EventsOf, Enabled;
    if actions == [] {
    } else {
      var a := actions[0];
      DoKeeps(s, a);
      StepIsCarried(w, s, a);
      var v := After(w, EventsOf(s, a));
      InterleavingsAreRuns(v, Do(s, a), actions[1..]);
      RunsConcat(w, EventsOf(s, a), History(Do(s, a), actions[1..]));
    }
  }

  /** From its creation on, a Tower endpoint goes through one run of a new
      controller, whatever the interleaving: what every run keeps holds of it. */
  lemma EveryInterleavingIsARun(id: nat, config: Config, rng: Probe.Rng, start: Instant, actions: seq<Action>)
    requires config.Valid() && rng.Valid()
    requires Interleaves(NewEndpoint(id, config, rng, start), actions)
    ensures var w, s := NewWorld(id, config, rng, start), NewEndpoint(id, config, rng, start);
      && Runs(w, History(s, actions))
      && var v, u := After(w, History(s, actions)), AfterAll(s, actions);
         && v.c == u.c && v.now <= u.now
         && v.l.dispatched == Departures(s, actions)
         && forall x: InFlight :: v.l.outstanding[x] == |Carriers(TokensIn(u.requests), x)|
  {
    hide Interleaves, AfterAll, History, Departures;
    var w, s := NewWorld(id, config, rng, start), NewEndpoint(id, config, rng, start);
    assert forall x: InFlight :: Carriers(TokensIn(s.requests), x) == {};
    hide Carriers;
    InterleavingsAreRuns(w, s, actions);
  }

  /** So pacing holds of Tower endpoints: however requests interleave, in any
      stretch the departures are one, one per speed-up, and what the smallest
      spacing adopted allows. */
  lemma SharedWindow(w: World, s: System, actions: seq<Action>, m: Interval, start: Instant, length: nat)
    requires Inv(s) && Interleaves(s, actions) && Agree(w, s) && start + length + m <= MAX_INSTANT
    ensures Sound(w) && Runs(w, History(s, actions))
    ensures var es := History(s, actions);
      InWindow(es, start, start + length) && Pacing.SpacedBy(m, ControllerPacing.Trace(w, es)) ==>
        Departures(s, actions) <= 1 + RunSpeedups(w, es) + length / m
  {
    hide Interleaves, AfterAll, History, Departures, Inv, Runs, RunSpeedups, InWindow, Pacing.SpacedBy, TokensMatch, Sound;
    InterleavingsAreRuns(w, s, actions);
    var es := History(s, actions);
    if InWindow(es, start, start + length) && Pacing.SpacedBy(m, ControllerPacing.Trace(w, es)) {
      WindowOfRun(w, es, m, start, length);
    }
  }
}
