/** Which reservations each operation adds to or takes off the queue. */
module QueueIds {
  import opened Clock
  import opened ControllerModel
  import opened VirtualQueue
  import opened ControllerRuns

  predicate SameIds(p: seq<Pending>, q: seq<Pending>) {
    |p| == |q| && forall i :: 0 <= i < |p| ==> q[i].id == p[i].id
  }

  lemma SameIdsHold(p: seq<Pending>, q: seq<Pending>)
    requires SameIds(p, q)
    ensures forall id :: Holds(q, id) == Holds(p, id)
  {
    forall id
      ensures Holds(q, id) == Holds(p, id)
    {
      if Holds(p, id) {
        var i :| 0 <= i < |p| && p[i].id == id;
        assert q[i].id == id;
      }
      if Holds(q, id) {
        var i :| 0 <= i < |q| && q[i].id == id;
        assert p[i].id == id;
      }
    }
  }

  lemma RemovingOne(p: seq<Pending>, nextId: nat, i: nat, q: seq<Pending>)
    requires OrderedIds(p, nextId) && i < |p| && SameIds(p[..i] + p[i + 1..], q)
    ensures forall id :: Holds(q, id) <==> Holds(p, id) && id != p[i].id
  {
    var rest := p[..i] + p[i + 1..];
    SameIdsHold(rest, q);
    forall id
      ensures Holds(rest, id) <==> Holds(p, id) && id != p[i].id
    {
      if Holds(p, id) && id != p[i].id {
        var j :| 0 <= j < |p| && p[j].id == id;
        assert rest[if j < i then j else j - 1].id == id;
      }
      if Holds(rest, id) {
        var j :| 0 <= j < |rest| && rest[j].id == id;
        assert p[if j < i then j else j + 1].id == id;
      }
    }
  }

  lemma AppendingOne(p: seq<Pending>, last: Pending)
    ensures forall id :: Holds(p + [last], id) <==> Holds(p, id) || id == last.id
  {
    var q := p + [last];
    assert q[|p|] == last;
    forall id
      ensures Holds(q, id) <==> Holds(p, id) || id == last.id
    {
      if Holds(p, id) {
        var i :| 0 <= i < |p| && p[i].id == id;
        assert q[i].id == id;
      }
    }
  }

  /** The queue after an operation whose outcome was `note`. */
  ghost predicate QueueFollows(c: State, op: Op, d: State, note: Note) {
    match note
    case NewReservation(n) =>
      !Holds(c.pending, n) && forall id :: Holds(d.pending, id) <==> Holds(c.pending, id) || id == n
    case NewCancellation =>
      && op.Cancel? && op.r.owner == c.id && Holds(c.pending, op.r.id)
      && forall id :: Holds(d.pending, id) <==> Holds(c.pending, id) && id != op.r.id
    case NewDispatch(_) =>
      && op.Dispatch? && op.r.owner == c.id && Holds(c.pending, op.r.id)
      && forall id :: Holds(d.pending, id) <==> Holds(c.pending, id) && id != op.r.id
    case _ => SameIds(c.pending, d.pending)
  }

  lemma CheckingKeepsIds(c: State, r: Reservation, now: Instant)
    requires Healthy(c) && Cached(c, now)
    ensures SameIds(c.pending, Checked(c, r, now).0.pending)
  {
    hide Refreshed;
    CheckIs(c, r, now);
    RefreshingCaches(c, now);
  }

  lemma StartedTail(d: State, now: Instant)
    requires d.pending != []
    ensures SameIds(d.pending[1..], Started(d, now).0.pending)
    ensures Started(d, now).1.owner == d.id && Started(d, now).1.at == now
  {}

  /** A dispatch pops the head and keeps the order of the others. */
  lemma DispatchPopsHead(c: State, r: Reservation, now: Instant)
    requires Healthy(c) && Cached(c, now) && Dispatched(c, r, now).1.Ok?
    ensures var (e, result) := Dispatched(c, r, now);
      && r.owner == c.id && c.pending != [] && c.pending[0].id == r.id && SameIds(c.pending[1..], e.pending)
      && result.value.owner == c.id && result.value.at == now
  {
    CheckIs(c, r, now);
    hide Refreshed, Checked, Started, Healthy, Cached;
    CheckingKeeps(c, r, now);
    CheckingKeepsIds(c, r, now);
    StartedTail(Checked(c, r, now).0, now);
  }

  lemma DispatchingQueue(c: State, r: Reservation, now: Instant)
    requires Healthy(c) && Cached(c, now)
    ensures var (d, note) := Step(c, Dispatch(r), now); QueueFollows(c, Dispatch(r), d, note)
  {
    hide Checked, Started, Healthy;
    if Dispatched(c, r, now).1.Ok? {
      DispatchPopsHead(c, r, now);
      assert Holds(c.pending, r.id);
      assert c.pending[..0] + c.pending[1..] == c.pending[1..];
      RemovingOne(c.pending, c.nextId, 0, Dispatched(c, r, now).0.pending);
    } else {
      CheckingKeepsIds(c, r, now);
    }
  }

  lemma RateUpdateKeepsIds(c: State, now: Instant)
    requires Healthy(c) && Cached(c, now)
    ensures SameIds(c.pending, RateUpdated(c, now).pending)
  {
    RateUpdateCaches(c, now);
  }

  lemma CompletingQueue(c: State, token: InFlight, outcome: Outcome, rtt: Duration, now: Instant)
    requires Healthy(c) && Cached(c, now) && Permitted(c, Complete(token, outcome, rtt)) && token.owner == c.id
    ensures SameIds(c.pending, Step(c, Complete(token, outcome, rtt), now).0.pending)
  {
    var e := Learned(c.(completed := c.completed + 1), token, outcome, rtt, now);
    LearningTouches(c.(completed := c.completed + 1), token, outcome, rtt, now);
    hide Learned, RateUpdated;
    CompletionIs(c, token, outcome, rtt, now);
    RateUpdateKeepsIds(Released(e, EpochAfterFeedback(e, now)), now);
  }

  lemma CancellingQueue(c: State, r: Reservation, now: Instant)
    requires Cached(c, now)
    ensures var (d, removed) := CancelledOne(c, r, now);
      && removed == (r.owner == c.id && Holds(c.pending, r.id))
      && QueueFollows(c, Cancel(r), d, if removed then NewCancellation else Nothing)
  {
    var (d, removed) := CancelledOne(c, r, now);
    var i := Position(c.pending, r.id);
    assert i == |c.pending| ==> !Holds(c.pending, r.id);
    assert i < |c.pending| ==> Holds(c.pending, r.id);
    if removed {
      RemovingOne(c.pending, c.nextId, i, d.pending);
    }
  }

  /** Every operation changes the set of queued reservations as it says. */
  lemma StepQueue(c: State, op: Op, now: Instant)
    requires Healthy(c) && Cached(c, now) && Permitted(c, op)
    ensures var (d, note) := Step(c, op, now); QueueFollows(c, op, d, note)
  {
    hide RateUpdated, Refreshed, Learned;
    match op
    case Reserve =>
      if Step(c, op, now).1.NewReservation? {
        AppendingOne(c.pending, Pending(c.nextId, NextVirtualSlot(c, now), false));
      }
    case Cancel(r) => CancellingQueue(c, r, now);
    case Check(r) => CheckingKeepsIds(c, r, now);
    case Dispatch(r) => DispatchingQueue(c, r, now);
    case Complete(token, outcome, rtt) =>
      if token.owner == c.id {
        CompletingQueue(c, token, outcome, rtt, now);
        CompletionIs(c, token, outcome, rtt, now);
      }
    case Abandon(token) =>
      if token.owner == c.id {
        var d := Penalised(c, now);
        RateUpdateKeepsIds(Released(d, if d.inflight > 1 then d.epoch else None), now);
      }
    case FailAdmission => RateUpdateKeepsIds(Penalised(c, now), now);
    case Refresh => RefreshingCaches(c, now);
    case Take =>
  }
}
