/** What it means that a request was paced: it was told to wait for the pacer. */
module PacedTokens {
  import opened Clock
  import opened ControllerModel
  import opened VirtualQueue
  import opened ControllerRuns
  import opened Ledgers
  import opened QueueIds
  import Gcra
  import Probe

  /** The queued request `id` carries the mark. */
  ghost predicate Marked(pending: seq<Pending>, id: nat) {
    exists i :: 0 <= i < |pending| && pending[i].id == id && pending[i].paced
  }

  /** This operation answers the reservation that it has to wait for a deadline. */
  predicate Tells(c: State, op: Op, now: Instant, r: Reservation)
    requires Healthy(c)
  {
    match op
    case Check(asked) => asked == r && Checked(c, r, now).1.WaitUntil?
    case Dispatch(asked) =>
      asked == r && Dispatched(c, r, now).1.Err? && Dispatched(c, r, now).1.error.WaitUntil?
    case _ => false
  }

  predicate SameMarks(p: seq<Pending>, q: seq<Pending>) {
    |q| == |p| && forall i :: 0 <= i < |p| ==> q[i].id == p[i].id && q[i].paced == p[i].paced
  }

  lemma SameMarksMark(p: seq<Pending>, q: seq<Pending>, id: nat)
    requires SameMarks(p, q)
    ensures Marked(q, id) <==> Marked(p, id)
    ensures Holds(q, id) <==> Holds(p, id)
  {
    assert SameIds(p, q);
    SameIdsHold(p, q);
    if Marked(p, id) {
      var i :| 0 <= i < |p| && p[i].id == id && p[i].paced;
      assert q[i].id == id && q[i].paced;
    }
    if Marked(q, id) {
      var i :| 0 <= i < |q| && q[i].id == id && q[i].paced;
      assert p[i].id == id && p[i].paced;
    }
  }

  lemma MarkedIsHeld(p: seq<Pending>, id: nat)
    ensures Marked(p, id) ==> Holds(p, id)
  {}

  /** The mark of a queued request, `told` or not, after an operation. */
  ghost predicate MarkFollows(c: State, d: State, told: bool, id: nat) {
    Marked(d.pending, id) <==> Holds(d.pending, id) && (Marked(c.pending, id) || told)
  }

  lemma UnmarkedFollows(c: State, d: State, id: nat)
    requires SameMarks(c.pending, d.pending)
    ensures MarkFollows(c, d, false, id) && (Holds(d.pending, id) <==> Holds(c.pending, id))
  {
    SameMarksMark(c.pending, d.pending, id);
    MarkedIsHeld(c.pending, id);
  }

  lemma RefreshingMarks(c: State, now: Instant)
    requires Healthy(c) && Cached(c, now)
    ensures SameMarks(c.pending, Refreshed(c, now).pending)
  {
    RefreshingCaches(c, now);
  }

  lemma RateUpdateMarks(c: State, now: Instant)
    requires Healthy(c) && Cached(c, now)
    ensures SameMarks(c.pending, RateUpdated(c, now).pending)
  {
    RateUpdateCaches(c, now);
  }

  lemma HeadIsMarked(p: seq<Pending>, nextId: nat, id: nat)
    requires OrderedIds(p, nextId) && p != []
    ensures var q := p[0 := p[0].(paced := true)];
      && (Marked(q, id) <==> Marked(p, id) || id == p[0].id)
      && (Holds(q, id) <==> Holds(p, id))
  {
    var q := p[0 := p[0].(paced := true)];
    assert SameIds(p, q);
    SameIdsHold(p, q);
    assert q[0].paced;
    if Marked(p, id) {
      var i :| 0 <= i < |p| && p[i].id == id && p[i].paced;
      assert q[i].id == id && q[i].paced;
    }
    if Marked(q, id) && id != p[0].id {
      var i :| 0 <= i < |q| && q[i].id == id && q[i].paced;
      assert p[i].id == id && p[i].paced;
    }
  }

  lemma CheckingMarks(c: State, r: Reservation, now: Instant, id: nat)
    requires Healthy(c) && Cached(c, now)
    ensures var (d, state) := Checked(c, r, now);
      && MarkFollows(c, d, r == Reservation(c.id, id) && state.WaitUntil?, id)
      && (Holds(d.pending, id) <==> Holds(c.pending, id))
  {
    hide Refreshed, Healthy;
    CheckIs(c, r, now);
    MarkedIsHeld(c.pending, id);
    if AtHead(c, r) {
      var d := Refreshed(c, now);
      RefreshingMarks(c, now);
      RefreshingCaches(c, now);
      UnmarkedFollows(c, d, id);
      HeadIsMarked(d.pending, d.nextId, id);
    }
  }

  lemma RemovingMarks(p: seq<Pending>, nextId: nat, i: nat, id: nat)
    requires OrderedIds(p, nextId) && i < |p|
    ensures var q := p[..i] + p[i + 1..];
      && (Holds(q, id) <==> Holds(p, id) && id != p[i].id)
      && (Marked(q, id) <==> Marked(p, id) && id != p[i].id)
  {
    var q := p[..i] + p[i + 1..];
    RemovingOne(p, nextId, i, q);
    if Marked(p, id) && id != p[i].id {
      var j :| 0 <= j < |p| && p[j].id == id && p[j].paced;
      assert q[if j < i then j else j - 1] == p[j];
    }
    if Marked(q, id) {
      var j :| 0 <= j < |q| && q[j].id == id && q[j].paced;
      assert p[if j < i then j else j + 1] == q[j];
    }
  }

  lemma RebuildingMarks(p: seq<Pending>, next: Instant, interval: Interval)
    ensures SameMarks(p, Rebuilt(p, next, interval))
  {}

  lemma CancellingMarks(c: State, r: Reservation, now: Instant, id: nat)
    requires Cached(c, now)
    ensures MarkFollows(c, CancelledOne(c, r, now).0, false, id)
  {
    hide SlotAt;
    MarkedIsHeld(c.pending, id);
    var i := Position(c.pending, r.id);
    if CancelledOne(c, r, now).1 {
      var rest := c.pending[..i] + c.pending[i + 1..];
      RemovingMarks(c.pending, c.nextId, i, id);
      RebuildingMarks(rest, Gcra.NextAt(c.pacer, now), c.pacer.interval);
      SameMarksMark(rest, CancelledOne(c, r, now).0.pending, id);
    }
  }

  lemma StartingMarks(d: State, now: Instant, id: nat)
    requires Cached(d, now) && d.pending != []
    ensures MarkFollows(d, Started(d, now).0, false, id)
    ensures Started(d, now).1.paced <==> Marked(d.pending, d.pending[0].id)
  {
    hide SlotAt;
    var e := Started(d, now).0;
    assert d.pending[..0] + d.pending[1..] == d.pending[1..];
    RemovingMarks(d.pending, d.nextId, 0, id);
    RebuildingMarks(d.pending[1..], Gcra.NextAt(Gcra.Committed(d.pacer, now), now), d.pacer.interval);
    SameMarksMark(d.pending[1..], e.pending, id);
    MarkedIsHeld(d.pending, id);
  }

  lemma ReadyIsHead(c: State, r: Reservation, now: Instant)
    requires Healthy(c) && Cached(c, now) && Checked(c, r, now).1 == Ready
    ensures var d := Checked(c, r, now).0;
      r.owner == c.id && d.pending != [] && d.pending[0].id == r.id && Holds(c.pending, r.id)
  {
    hide Refreshed;
    CheckIs(c, r, now);
    RefreshingCaches(c, now);
    assert c.pending[0].id == r.id;
  }

  /** A dispatch takes its own mark along, and leaves the others'. */
  lemma DispatchingMarks(c: State, r: Reservation, now: Instant, id: nat)
    requires Healthy(c) && Cached(c, now)
    ensures var (d, note) := Step(c, Dispatch(r), now);
      && MarkFollows(c, d, Tells(c, Dispatch(r), now, Reservation(c.id, id)), id)
      && (note.NewDispatch? ==> (note.token.paced <==> Marked(c.pending, r.id)) && r.owner == c.id)
  {
    hide Checked, Started, Healthy, Cached;
    CheckingKeeps(c, r, now);
    CheckingMarks(c, r, now, id);
    CheckingMarks(c, r, now, r.id);
    var (d, state) := Checked(c, r, now);
    if state == Ready {
      ReadyIsHead(c, r, now);
      StartingMarks(d, now, id);
      MarkedIsHeld(d.pending, id);
    }
  }

  lemma AppendingMarks(p: seq<Pending>, last: Pending, id: nat)
    requires !last.paced
    ensures Marked(p + [last], id) <==> Marked(p, id)
  {
    var q := p + [last];
    if Marked(p, id) {
      var i :| 0 <= i < |p| && p[i].id == id && p[i].paced;
      assert q[i] == p[i];
    }
  }

  lemma ReservingMarks(c: State, now: Instant, id: nat)
    requires Healthy(c) && Cached(c, now)
    ensures MarkFollows(c, Reserved(c, now).0, false, id)
  {
    hide NextVirtualSlot, Healthy;
    MarkedIsHeld(c.pending, id);
    var (d, result) := Reserved(c, now);
    if result.Ok? {
      var last := Pending(c.nextId, NextVirtualSlot(c, now), false);
      AppendingOne(c.pending, last);
      AppendingMarks(c.pending, last, id);
    }
  }

  /** Feedback keeps every mark. */
  lemma UpdatingMarks(c: State, d: State, now: Instant, id: nat)
    requires Healthy(d) && Cached(d, now) && d.pending == c.pending
    ensures MarkFollows(c, RateUpdated(d, now), false, id)
  {
    hide RateUpdated, Healthy, Cached;
    RateUpdateMarks(d, now);
    UnmarkedFollows(c, RateUpdated(d, now), id);
  }

  /** Every operation keeps the marks of queued requests, but for the one it
      tells to wait. */
  lemma StepMarks(c: State, op: Op, now: Instant, id: nat)
    requires Healthy(c) && Cached(c, now) && Permitted(c, op)
    ensures MarkFollows(c, Step(c, op, now).0, Tells(c, op, now, Reservation(c.id, id)), id)
  {
    hide RateUpdated, Refreshed, Learned, Checked, Dispatched, CancelledOne, MarkFollows;
    UnmarkedFollows(c, c, id);
    match op
    case Reserve => ReservingMarks(c, now, id);
    case Cancel(r) => CancellingMarks(c, r, now, id);
    case Check(r) => CheckingMarks(c, r, now, id);
    case Dispatch(r) => DispatchingMarks(c, r, now, id);
    case Complete(token, outcome, rtt) =>
      if token.owner == c.id {
        var b := c.(completed := c.completed + 1);
        CompletionIs(c, token, outcome, rtt, now);
        LearningTouches(b, token, outcome, rtt, now);
        var e := Learned(b, token, outcome, rtt, now);
        UpdatingMarks(c, Released(e, EpochAfterFeedback(e, now)), now, id);
      }
    case Abandon(token) =>
      if token.owner == c.id {
        var d := Penalised(c, now);
        UpdatingMarks(c, Released(d, if d.inflight > 1 then d.epoch else None), now, id);
      }
    case FailAdmission => UpdatingMarks(c, Penalised(c, now), now, id);
    case Refresh =>
      RefreshingMarks(c, now);
      UnmarkedFollows(c, Refreshed(c, now), id);
    case Take => UnmarkedFollows(c, Taken(c).0, id);
  }

  /** At some point of the run the reservation `id` was told to wait for a deadline. */
  ghost predicate Told(w: World, es: seq<Event>, id: nat)
    requires Sound(w) && Runs(w, es)
    decreases |es|
  {
    && es != []
    && (|| Tells(w.c, es[0].op, es[0].at, Reservation(w.c.id, id))
        || (NextIsSound(w, es[0]); Told(Next(w, es[0]), es[1..], id)))
  }

  /** Issued before, and not queued any more. */
  predicate Left(c: State, id: nat) {
    id < c.nextId && !Holds(c.pending, id)
  }

  lemma FreshId(c: State, op: Op, now: Instant)
    requires Healthy(c) && Permitted(c, op)
    ensures Step(c, op, now).1.NewReservation? ==> Step(c, op, now).1.id == c.nextId
  {}

  lemma StepLeaves(w: World, e: Event, id: nat)
    requires Sound(w) && Allowed(w, e) && Left(w.c, id)
    ensures Left(Next(w, e).c, id)
  {
    hide Step, Healthy, Cached, Balanced, Permitted;
    AllowedIsPermitted(w, e);
    StepKeeps(w.c, e.op, e.at);
    StepQueue(w.c, e.op, e.at);
    FreshId(w.c, e.op, e.at);
    var d := Next(w, e).c;
    if SameIds(w.c.pending, d.pending) {
      SameIdsHold(w.c.pending, d.pending);
    }
  }

  lemma {:induction false} RunsLeave(w: World, es: seq<Event>, id: nat)
    requires Sound(w) && Runs(w, es) && Left(w.c, id)
    ensures Left(After(w, es).c, id)
    decreases |es|
  {
    hide Sound, Allowed, Next, Left;
    if es == [] {
    } else {
      NextIsSound(w, es[0]);
      StepLeaves(w, es[0], id);
      RunsLeave(Next(w, es[0]), es[1..], id);
    }
  }

  lemma NextMarks(w: World, e: Event, id: nat)
    requires Sound(w) && Allowed(w, e)
    ensures Next(w, e).c.id == w.c.id
    ensures MarkFollows(w.c, Next(w, e).c, Tells(w.c, e.op, e.at, Reservation(w.c.id, id)), id)
  {
    hide Step, Healthy, Cached, Balanced, MarkFollows, Tells;
    AllowedIsPermitted(w, e);
    StepKeeps(w.c, e.op, e.at);
    StepMarks(w.c, e.op, e.at, id);
  }

  /** Only the request at the head is told to wait. */
  lemma ToldIsHeld(c: State, op: Op, now: Instant, id: nat)
    requires Healthy(c)
    ensures Tells(c, op, now, Reservation(c.id, id)) ==> Holds(c.pending, id)
  {
    hide Refreshed;
    assert c.pending != [] && c.pending[0].id == id ==> Holds(c.pending, id);
  }

  lemma HeldOrLeft(w: World, e: Event, id: nat)
    requires Sound(w) && Allowed(w, e)
    ensures var d := Next(w, e).c;
      Holds(w.c.pending, id) ==> Holds(d.pending, id) || Left(d, id)
  {
    hide Step, Healthy, Permitted;
    AllowedIsPermitted(w, e);
    StepKeeps(w.c, e.op, e.at);
  }

  /** A request that has not left carries the mark iff it did so before or was
      told to wait since. */
  lemma {:induction false} RunsMark(w: World, es: seq<Event>, id: nat)
    requires Sound(w) && Runs(w, es) && !Left(w.c, id)
    ensures var d := After(w, es).c;
      Marked(d.pending, id) <==> Holds(d.pending, id) && (Marked(w.c.pending, id) || Told(w, es, id))
    decreases |es|
  {
    hide Allowed, Next, Tells, Healthy, Balanced, Cached, Marked, Holds;
    MarkedIsHeld(w.c.pending, id);
    if es == [] {
    } else {
      var v := Next(w, es[0]);
      NextIsSound(w, es[0]);
      NextMarks(w, es[0], id);
      if Left(v.c, id) {
        RunsLeave(v, es[1..], id);
        MarkedIsHeld(After(w, es).c.pending, id);
      } else {
        RunsMark(v, es[1..], id);
        MarkedIsHeld(v.c.pending, id);
        HeldOrLeft(w, es[0], id);
        ToldIsHeld(w.c, es[0].op, es[0].at, id);
      }
    }
  }

  /** In every run of a new controller the token of a dispatched request says
      that it was paced iff the run had told its reservation to wait for a
      deadline, on a check or on a dispatch attempt. */
  lemma PacedIffTold(id: nat, config: Config, rng: Probe.Rng, start: Instant, es: seq<Event>, last: Event)
    requires config.Valid() && rng.Valid() && Runs(NewWorld(id, config, rng, start), es)
    requires var w := After(NewWorld(id, config, rng, start), es);
      && Sound(w) && Allowed(w, last) && Permitted(w.c, last.op) && last.op.Dispatch?
      && Step(w.c, last.op, last.at).1.NewDispatch?
    ensures var w0 := NewWorld(id, config, rng, start);
      Step(After(w0, es).c, last.op, last.at).1.token.paced <==> Told(w0, es, last.op.r.id)
  {
    var w0, r := NewWorld(id, config, rng, start), last.op.r;
    var c := After(w0, es).c;
    assert !Left(w0.c, r.id) && !Marked(w0.c.pending, r.id);
    AllowedIsPermitted(After(w0, es), last);
    RunsMark(w0, es, r.id);
    hide Runs, After, Told, Healthy, Cached, Tells;
    DispatchingMarks(c, r, last.at, r.id);
    StepQueue(c, last.op, last.at);
  }
}
