/** Critical sections of a shared endpoint as events of one controller run. */
module Histories {
  import opened Clock
  import opened ControllerModel
  import opened ControllerRuns
  import opened Ledgers
  import opened Ownership
  import Latency

  /** Who carries the token `x`. */
  function Carriers(tokens: Tokens, x: InFlight): set<nat> {
    set t | t in tokens && tokens[t] == Some(x)
  }

  ghost predicate TokensMatch(l: Ledger, tokens: Tokens) {
    forall x: InFlight :: l.outstanding[x] == |Carriers(tokens, x)|
  }

  /** The run has led to this controller, and its outstanding tokens are the
      ones being carried. */
  ghost predicate Linked(w: World, c: State, now: Instant, tokens: Tokens) {
    Sound(w) && w.c == c && w.now <= now && TokensMatch(w.l, tokens)
  }

  lemma {:induction false} RunsConcat(w: World, es: seq<Event>, fs: seq<Event>)
    requires Sound(w) && Runs(w, es) && Sound(After(w, es)) && Runs(After(w, es), fs)
    ensures Runs(w, es + fs) && After(w, es + fs) == After(After(w, es), fs)
    decreases |es|
  {
    hide Sound, Allowed, Next;
    if es == [] {
      assert es + fs == fs;
    } else {
      assert (es + fs)[0] == es[0] && (es + fs)[1..] == es[1..] + fs;
      NextIsSound(w, es[0]);
      RunsConcat(Next(w, es[0]), es[1..], fs);
    }
  }

  /** The token a task carries after its step. */
  function TokenAfter(note: Note, before: Option<InFlight>): Option<InFlight> {
    match note
    case NewDispatch(token) => Some(token)
    case NewCompletion(_, _) => None
    case NewAbandonment(_) => None
    case _ => before
  }

  /** A task reports only the token it carries, and dispatches only with none. */
  predicate Entitled(c: State, op: Op, carried: Option<InFlight>) {
    match op
    case Complete(token, outcome, rtt) =>
      token.owner == c.id ==> carried == Some(token) && Measurable(c.latency, outcome, rtt)
    case Abandon(token) => token.owner == c.id ==> carried == Some(token)
    case Dispatch(_) => carried == None
    case _ => true
  }

  lemma CarriersGain(tokens: Tokens, t: nat, token: InFlight, x: InFlight)
    requires TokenOf(tokens, t) == None
    ensures |Carriers(tokens[t := Some(token)], x)| == |Carriers(tokens, x)| + if x == token then 1 else 0
  {
    assert Carriers(tokens[t := Some(token)], x) == if x == token then Carriers(tokens, x) + {t} else Carriers(tokens, x);
  }

  lemma CarriersLose(tokens: Tokens, t: nat, token: InFlight, x: InFlight)
    requires TokenOf(tokens, t) == Some(token)
    ensures |Carriers(tokens, x)| == |Carriers(tokens[t := None], x)| + if x == token then 1 else 0
  {
    assert Carriers(tokens, x) == if x == token then Carriers(tokens[t := None], x) + {t} else Carriers(tokens[t := None], x);
  }

  lemma CarriersStay(tokens: Tokens, others: Tokens, x: InFlight)
    requires forall t :: TokenOf(others, t) == TokenOf(tokens, t)
    ensures Carriers(others, x) == Carriers(tokens, x)
  {
    assert forall t :: t in Carriers(others, x) <==> TokenOf(others, t) == Some(x);
  }

  /** Nobody's token changed. */
  lemma LinkStays(w: World, c: State, now: Instant, tokens: Tokens, later: Instant, others: Tokens)
    requires Linked(w, c, now, tokens) && now <= later && forall t :: TokenOf(others, t) == TokenOf(tokens, t)
    ensures Linked(w, c, later, others)
  {
    hide Sound, Carriers;
    forall x: InFlight
      ensures w.l.outstanding[x] == |Carriers(others, x)|
    {
      CarriersStay(tokens, others, x);
    }
  }

  lemma EntitledIsAllowed(w: World, c: State, now: Instant, tokens: Tokens, t: nat, op: Op)
    requires Linked(w, c, now, tokens) && Entitled(c, op, TokenOf(tokens, t))
    ensures Allowed(w, Event(op, now))
  {
    hide Sound, Measurable;
    if (op.Complete? || op.Abandon?) && op.token.owner == c.id {
      assert t in Carriers(tokens, op.token);
      assert w.l.outstanding[op.token] == |Carriers(tokens, op.token)|;
    }
  }

  predicate NoteFits(note: Note, carried: Option<InFlight>) {
    match note
    case NewDispatch(_) => carried == None
    case NewCompletion(token, _) => carried == Some(token)
    case NewAbandonment(token) => carried == Some(token)
    case _ => true
  }

  lemma EntitledNoteFits(c: State, op: Op, now: Instant, carried: Option<InFlight>)
    requires Healthy(c) && Permitted(c, op) && Entitled(c, op, carried)
    ensures NoteFits(Step(c, op, now).1, carried)
  {
    NoteNamesTheToken(c, op, now);
    hide Healthy, Permitted, Measurable;
    assert Step(c, op, now).1.NewDispatch? ==> op.Dispatch?;
  }

  lemma PostingMatches(l: Ledger, note: Note, now: Instant, rtt: Duration, tokens: Tokens, t: nat)
    requires NoteFits(note, TokenOf(tokens, t)) && TokensMatch(l, tokens)
    ensures TokensMatch(Posted(l, note, now, rtt), tokens[t := TokenAfter(note, TokenOf(tokens, t))])
  {
    var after := tokens[t := TokenAfter(note, TokenOf(tokens, t))];
    hide Carriers;
    forall x: InFlight
      ensures Posted(l, note, now, rtt).outstanding[x] == |Carriers(after, x)|
    {
      assert l.outstanding[x] == |Carriers(tokens, x)|;
      match note
      case NewDispatch(token) => CarriersGain(tokens, t, token, x);
      case NewCompletion(token, _) => CarriersLose(tokens, t, token, x);
      case NewAbandonment(token) => CarriersLose(tokens, t, token, x);
      case _ => CarriersStay(tokens, after, x);
    }
  }

  /** One operation of one task is one event of the run. */
  lemma EventLinks(w: World, c: State, now: Instant, tokens: Tokens, t: nat, op: Op)
    requires Linked(w, c, now, tokens) && Entitled(c, op, TokenOf(tokens, t))
    ensures Healthy(c) && Permitted(c, op)
    ensures var es := [Event(op, now)];
      var (d, note) := Step(c, op, now);
      && Runs(w, es) && Linked(After(w, es), d, now, tokens[t := TokenAfter(note, TokenOf(tokens, t))])
      && After(w, es).l.dispatched == w.l.dispatched + if note.NewDispatch? then 1 else 0
  {
    hide Step, Balanced, TokensMatch, Allowed, Entitled;
    var e := Event(op, now);
    EntitledIsAllowed(w, c, now, tokens, t, op);
    AllowedIsPermitted(w, e);
    NextIsSound(w, e);
    EntitledNoteFits(c, op, now, TokenOf(tokens, t));
    PostingMatches(w.l, Step(c, op, now).1, now, Latency.ExpectedRtt(Step(c, op, now).0.latency), tokens, t);
    assert [e][1..] == [] && Runs(Next(w, e), []);
  }

  /** A critical section that ends by draining the flags. */
  lemma SectionLinks(w: World, c: State, now: Instant, tokens: Tokens, t: nat, op: Op)
    requires Linked(w, c, now, tokens) && Entitled(c, op, TokenOf(tokens, t))
    ensures Healthy(c) && Permitted(c, op)
    ensures var es := [Event(op, now), Event(Take, now)];
      var (d, note) := Step(c, op, now);
      && Runs(w, es) && Linked(After(w, es), Taken(d).0, now, tokens[t := TokenAfter(note, TokenOf(tokens, t))])
      && After(w, es).l.dispatched == w.l.dispatched + if note.NewDispatch? then 1 else 0
  {
    hide Sound, TokensMatch, Runs, After, Healthy;
    EventLinks(w, c, now, tokens, t, op);
    var first, second := [Event(op, now)], [Event(Take, now)];
    var (d, note) := Step(c, op, now);
    var v, after := After(w, first), tokens[t := TokenAfter(note, TokenOf(tokens, t))];
    EventLinks(v, d, now, after, t, Take);
    RunsConcat(w, first, second);
    assert first + second == [Event(op, now), Event(Take, now)];
    LinkStays(After(v, second), Taken(d).0, now, after[t := TokenOf(after, t)], now, after);
  }
}
