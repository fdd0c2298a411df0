/** Threads that lock one endpoint, or two in the order of their ranks. */
module LockOrder {
  /** Every lock has a rank that never changes: its address, or the address of
      the endpoint it guards. A snapshot of endpoints may come and go; the ranks
      of the locks it names stay. */
  type Ranking = nat -> nat

  datatype Thread =
    | Idle
    | WantsOne(lock: nat)
    | HoldsOne(lock: nat)
    | WantsLower(lower: nat, upper: nat)
    | WantsUpper(lower: nat, upper: nat)     // has the lower lock
    | HoldsBoth(lower: nat, upper: nat)

  type Threads = map<nat, Thread>

  predicate Has(t: Thread, lock: nat) {
    match t
    case HoldsOne(l) => l == lock
    case WantsUpper(lower, _) => lower == lock
    case HoldsBoth(lower, upper) => lower == lock || upper == lock
    case _ => false
  }

  predicate Waits(t: Thread) {
    t.WantsOne? || t.WantsLower? || t.WantsUpper?
  }

  function Wanted(t: Thread): nat
    requires Waits(t)
  {
    match t
    case WantsOne(lock) => lock
    case WantsLower(lower, _) => lower
    case WantsUpper(_, upper) => upper
  }

  predicate Free(ts: Threads, lock: nat) {
    forall t | t in ts :: !Has(ts[t], lock)
  }

  datatype Action = LockOne(t: nat, lock: nat) | LockPair(t: nat, a: nat, b: nat) | Take(t: nat) | Release(t: nat)

  /** The two locks of a pair are distinct endpoints, so they differ in rank. */
  predicate Enabled(ts: Threads, rank: Ranking, a: Action) {
    match a
    case LockOne(t, _) => t !in ts || ts[t].Idle?
    case LockPair(t, first, second) => (t !in ts || ts[t].Idle?) && rank(first) != rank(second)
    case Take(t) => t in ts && Waits(ts[t]) && Free(ts, Wanted(ts[t]))
    case Release(t) => t in ts && (ts[t].HoldsOne? || ts[t].HoldsBoth?)
  }

  function Taken(t: Thread): Thread
    requires Waits(t)
  {
    match t
    case WantsOne(lock) => HoldsOne(lock)
    case WantsLower(lower, upper) => WantsUpper(lower, upper)
    case WantsUpper(lower, upper) => HoldsBoth(lower, upper)
  }

  function Do(ts: Threads, rank: Ranking, a: Action): Threads
    requires Enabled(ts, rank, a)
  {
    match a
    case LockOne(t, lock) => ts[t := WantsOne(lock)]
    case LockPair(t, first, second) =>
      ts[t := if rank(first) < rank(second) then WantsLower(first, second) else WantsLower(second, first)]
    case Take(t) => ts[t := Taken(ts[t])]
    case Release(t) => ts[t := Idle]
  }

  predicate InRankOrder(t: Thread, rank: Ranking) {
    t.WantsLower? || t.WantsUpper? || t.HoldsBoth? ==> rank(t.lower) < rank(t.upper)
  }

  /** Locks exclude each other, and pairs are taken in the order of rank. */
  ghost predicate Inv(ts: Threads, rank: Ranking) {
    && (forall t | t in ts :: InRankOrder(ts[t], rank))
    && (forall t, u, lock | t in ts && u in ts && Has(ts[t], lock) && Has(ts[u], lock) :: t == u)
  }

  lemma DoKeeps(ts: Threads, rank: Ranking, a: Action)
    requires Inv(ts, rank) && Enabled(ts, rank, a)
    ensures Inv(Do(ts, rank, a), rank)
  {}

  ghost predicate Follows(ts: Threads, rank: Ranking, actions: seq<Action>)
    decreases |actions|
  {
    if actions == [] then true
    else Enabled(ts, rank, actions[0]) && Follows(Do(ts, rank, actions[0]), rank, actions[1..])
  }

  ghost function AfterAll(ts: Threads, rank: Ranking, actions: seq<Action>): Threads
    requires Follows(ts, rank, actions)
    decreases |actions|
  {
    if actions == [] then ts else AfterAll(Do(ts, rank, actions[0]), rank, actions[1..])
  }

  lemma {:induction false} RunsKeep(ts: Threads, rank: Ranking, actions: seq<Action>)
    requires Inv(ts, rank) && Follows(ts, rank, actions)
    ensures Inv(AfterAll(ts, rank, actions), rank)
    decreases |actions|
  {
    if actions == [] {
    } else {
      DoKeeps(ts, rank, actions[0]);
      RunsKeep(Do(ts, rank, actions[0]), rank, actions[1..]);
    }
  }

  /** `path[i]` waits for a lock that `path[i + 1]` has. */
  ghost predicate WaitPath(ts: Threads, path: seq<nat>) {
    && (forall i :: 0 <= i < |path| ==> path[i] in ts && Waits(ts[path[i]]))
    && forall i :: 0 <= i < |path| - 1 ==> Has(ts[path[i + 1]], Wanted(ts[path[i]]))
  }

  lemma {:induction false} RanksRise(ts: Threads, rank: Ranking, path: seq<nat>)
    requires Inv(ts, rank) && WaitPath(ts, path) && |path| >= 2
    ensures rank(Wanted(ts[path[0]])) < rank(Wanted(ts[path[|path| - 1]]))
    decreases |path|
  {
    if |path| <= 2 {
    } else {
      var rest := path[..|path| - 1];
      RanksRise(ts, rank, rest);
      assert Has(ts[path[|path| - 2 + 1]], Wanted(ts[path[|path| - 2]]));
    }
  }

  /** The wait-for relation has no cycle, whatever pairs the threads drew. */
  lemma NoWaitCycle(rank: Ranking, actions: seq<Action>, path: seq<nat>)
    requires Follows(map[], rank, actions)
    requires WaitPath(AfterAll(map[], rank, actions), path) && |path| >= 2
    ensures path[0] != path[|path| - 1]
  {
    RunsKeep(map[], rank, actions);
    RanksRise(AfterAll(map[], rank, actions), rank, path);
  }

  lemma {:induction false} HighestWaiter(ts: Threads, rank: Ranking, waiting: set<nat>) returns (t: nat)
    requires waiting != {} && forall u | u in waiting :: u in ts && Waits(ts[u])
    ensures t in waiting && forall u | u in waiting :: rank(Wanted(ts[u])) <= rank(Wanted(ts[t]))
    decreases |waiting|
  {
    var first :| first in waiting;
    var others := waiting - {first};
    assert forall v | v in waiting :: v == first || v in others;
    t := first;
    if others == {} {
    } else {
      var u := HighestWaiter(ts, rank, others);
      if rank(Wanted(ts[u])) > rank(Wanted(ts[t])) {
        t := u;
      }
    }
  }

  /** As long as some thread waits, some thread can take its lock or release
      what it has: there is no deadlock. */
  lemma SomeoneMoves(ts: Threads, rank: Ranking) returns (a: Action)
    requires Inv(ts, rank) && exists t :: t in ts && Waits(ts[t])
    ensures (a.Take? || a.Release?) && Enabled(ts, rank, a)
  {
    var waiting := set t | t in ts && Waits(ts[t]);
    var t :| t in ts && Waits(ts[t]);
    assert t in waiting;
    t := HighestWaiter(ts, rank, waiting);
    if Free(ts, Wanted(ts[t])) {
      return Take(t);
    }
    var u :| u in ts && Has(ts[u], Wanted(ts[t]));
    assert Waits(ts[u]) ==> u in waiting;
    return Release(u);
  }
}
