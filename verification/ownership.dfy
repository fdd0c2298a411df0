/** Who holds which queued reservation and which dispatched request. */
module Ownership {
  import opened Clock
  import opened ControllerModel

  type Holdings = map<nat, Option<Reservation>>

  type Tokens = map<nat, Option<InFlight>>

  ghost predicate HasHolder(c: State, held: Holdings, id: nat) {
    exists t :: t in held && held[t] == Some(Reservation(c.id, id))
  }

  /** Every queued reservation has exactly one holder, and every holder's
      reservation is queued. */
  ghost predicate Owned(c: State, held: Holdings) {
    && (forall t | t in held && held[t].Some? :: held[t].value.owner == c.id && Holds(c.pending, held[t].value.id))
    && (forall t, u | t in held && u in held && t != u && held[t].Some? :: held[t] != held[u])
    && (forall i :: 0 <= i < |c.pending| ==> HasHolder(c, held, c.pending[i].id))
  }

  function Runners(tokens: Tokens): set<nat> {
    set t | t in tokens && tokens[t].Some?
  }

  /** Every request counted as under way has exactly one holder. */
  ghost predicate Counted(c: State, tokens: Tokens) {
    && c.inflight == |Runners(tokens)|
    && forall t | t in tokens && tokens[t].Some? :: tokens[t].value.owner == c.id
  }

  function HeldBy(held: Holdings, t: nat): Option<Reservation> {
    if t in held then held[t] else None
  }

  function TokenOf(tokens: Tokens, t: nat): Option<InFlight> {
    if t in tokens then tokens[t] else None
  }

  predicate Is(r: Option<Reservation>, c: State, id: nat) {
    r == Some(Reservation(c.id, id))
  }

  /** The queue gained what one holder gained and lost what it lost. */
  ghost predicate QueueMatches(c: State, d: State, before: Option<Reservation>, after: Option<Reservation>) {
    && d.id == c.id
    && (forall id :: Holds(d.pending, id) <==> (Holds(c.pending, id) && !Is(before, c, id)) || Is(after, c, id))
    && (after.Some? ==> after.value.owner == c.id)
    && (after.Some? && after != before ==> !Holds(c.pending, after.value.id))
  }

  lemma OwnedAfter(c: State, d: State, held: Holdings, t: nat, after: Option<Reservation>)
    requires Owned(c, held) && QueueMatches(c, d, HeldBy(held, t), after)
    ensures Owned(d, held[t := after])
  {
    var held' := held[t := after];
    forall u | u in held' && held'[u].Some?
      ensures held'[u].value.owner == d.id && Holds(d.pending, held'[u].value.id)
    {
      if u == t {
        assert Is(after, c, after.value.id);
      } else {
        var id := held[u].value.id;
        assert Holds(c.pending, id) && !Is(HeldBy(held, t), c, id);
      }
    }
    forall u, v | u in held' && v in held' && u != v && held'[u].Some?
      ensures held'[u] != held'[v]
    {
      if (u == t || v == t) && after != HeldBy(held, t) {
        var w := if u == t then v else u;
        assert held[w].Some? ==> Holds(c.pending, held[w].value.id);
      }
    }
    forall i | 0 <= i < |d.pending|
      ensures HasHolder(d, held', d.pending[i].id)
    {
      var id := d.pending[i].id;
      assert Holds(d.pending, id);
      if Is(after, c, id) {
        assert held'[t] == Some(Reservation(d.id, id));
      } else {
        var j :| 0 <= j < |c.pending| && c.pending[j].id == id;
        assert HasHolder(c, held, c.pending[j].id);
        var u :| u in held && held[u] == Some(Reservation(c.id, c.pending[j].id));
        assert u != t && held'[u] == Some(Reservation(d.id, id));
      }
    }
  }

  function One(token: Option<InFlight>): nat {
    if token.Some? then 1 else 0
  }

  lemma CountedAfter(c: State, d: State, tokens: Tokens, t: nat, after: Option<InFlight>)
    requires Counted(c, tokens) && d.id == c.id
    requires d.inflight == c.inflight - One(TokenOf(tokens, t)) + One(after)
    requires after.Some? ==> after.value.owner == c.id
    ensures Counted(d, tokens[t := after])
  {
    var others := Runners(tokens) - {t};
    assert Runners(tokens) == if TokenOf(tokens, t).Some? then others + {t} else others;
    assert Runners(tokens[t := after]) == if after.Some? then others + {t} else others;
  }
}
