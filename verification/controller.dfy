/** The controller object, proved against `ControllerModel`. */
module Controller {
  import opened Clock
  import opened Gcra
  import opened Latency
  import opened Gradient
  import opened Probe
  import opened ControllerModel

  class EndpointController {
    const id: nat
    const config: Config
    const latency: LatencyEstimator
    const gradient: Gradient2
    const pacer: GcraPacer
    const probe: Prober
    var pending: seq<Pending>
    var nextId: nat
    var inflight: nat
    var completed: nat
    var failures: nat
    var epoch: Option<Epoch>
    var changes: Changes

    ghost const Repr: set<object> := {this, latency, latency.buckets, gradient, pacer, probe}

    function Model(): State
      reads this, latency, latency.buckets, gradient, pacer, probe
    {
      State(id, config, latency.Model(), gradient.Model(), pacer.Model(), probe.Model(), probe.Source(),
            pending, nextId, inflight, completed, failures, epoch, changes)
    }

    ghost predicate Valid()
      reads this, latency, latency.buckets, gradient, pacer, probe
    {
      Healthy(Model())
    }

    constructor (id: nat, config: Config, draws: nat -> Draw, now: Instant)
      requires config.Valid() && Rng(draws, 0).Valid()
      ensures Model() == InitialState(id, config, Rng(draws, 0), now)
      ensures Valid() && fresh(Repr)
    {
      InitialRateFits(config);
      this.id, this.config := id, config;
      latency := new LatencyEstimator(config.LatencySettings());
      gradient := new Gradient2(config.GradientTuning());
      var rate := config.initialConcurrency as real / config.expectedRtt as real;
      pacer := new GcraPacer(rate, now);
      probe := new Prober(draws);
      pending, nextId, inflight, completed, failures := [], 0, 0, 0, 0;
      epoch, changes := None, QUIET;
    }

    method TakeChanges() returns (taken: Changes)
      modifies this
      ensures (Model(), taken) == Taken(old(Model()))
      ensures old(Valid()) ==> Valid()
    {
      taken := changes;
      changes := QUIET;
    }

    method Reserve(now: Instant) returns (r: Result<Reservation, ScheduleError>)
      modifies this
      ensures (Model(), r) == Reserved(old(Model()), now)
      ensures old(Valid()) ==> Valid()
    {
      if |pending| >= config.queueCapacity {
        return Err(QueueFull);
      }
      var slot := NextVirtualSlot(Model(), now);
      if nextId == U64_MAX {
        return Err(IdExhausted);
      }
      r := Ok(Reservation(id, nextId));
      pending := pending + [Pending(nextId, slot, false)];
      nextId := nextId + 1;
    }

    method RebuildVirtualQueue(now: Instant)
      modifies this`pending
      ensures pending == Rebuilt(old(pending), NextAt(pacer.Model(), now), pacer.interval)
    {
      var start := NextAt(pacer.Model(), now);
      var next, i := start, 0;
      while i < |pending|
        invariant 0 <= i <= |pending| == |old(pending)|
        invariant next == SlotAt(start, pacer.interval, i)
        invariant pending[..i] == Rebuilt(old(pending), start, pacer.interval)[..i]
        invariant pending[i..] == old(pending)[i..]
      {
        pending := pending[i := pending[i].(slot := next)];
        next := SaturatingAdd(next, pacer.interval);
        i := i + 1;
      }
    }

    method Cancel(r: Reservation, now: Instant) returns (removed: bool)
      modifies this
      ensures (Model(), removed) == CancelledOne(old(Model()), r, now)
      ensures old(Valid()) ==> Valid()
    {
      if r.owner != id {
        return false;
      }
      var i := 0;
      while i < |pending| && pending[i].id != r.id
        invariant 0 <= i <= |pending|
        invariant Position(pending, r.id) == i + Position(pending[i..], r.id)
      {
        assert pending[i..][1..] == pending[i + 1..];
        i := i + 1;
      }
      if i == |pending| {
        return false;
      }
      pending := pending[..i] + pending[i + 1..];
      changes := Changes(true, true);
      RebuildVirtualQueue(now);
      return true;
    }

    method UpdateRate(now: Instant)
      requires Valid()
      modifies this, pacer, probe
      ensures Model() == RateUpdated(old(Model()), now) && Valid()
    {
      RateUpdatedIsHealthy(Model(), now);
      var _ := probe.Active(now);
      var previous := pacer.interval;
      var rate := RateAt(Model(), now);
      pacer.SetRate(rate, now);
      var next := NextAt(pacer.Model(), now);
      var headExpired := pending != [] && pending[0].slot < next;
      if pacer.interval != previous || headExpired {
        changes := changes.(dispatch := true);
        RebuildVirtualQueue(now);
      }
    }

    method ConsultProbe(now: Instant)
      requires Valid()
      modifies probe
      ensures Model() == ProbeConsulted(old(Model()), now)
    {
      if latency.samples > 0 || (inflight > 0 && pending != []) {
        probe.MaybeStart(DEFAULT_SCHEDULE, now);
      }
    }

    method Refresh(now: Instant)
      requires Valid()
      modifies this, pacer, probe
      ensures Model() == Refreshed(old(Model()), now) && Valid()
    {
      RefreshedIsHealthy(Model(), now);
      ConsultingIsHealthy(Model(), now);
      var previous := NextRefreshAt(Model());
      ConsultProbe(now);
      var _ := probe.Active(now);
      UpdateRate(now);
      changes := changes.(dispatch := changes.dispatch || previous != NextRefreshAt(Model()));
    }

    method IsQueued(wanted: nat) returns (queued: bool)
      ensures queued == Holds(pending, wanted)
    {
      var i := 0;
      while i < |pending|
        invariant 0 <= i <= |pending|
        invariant forall j :: 0 <= j < i ==> pending[j].id != wanted
      {
        if pending[i].id == wanted {
          return true;
        }
        i := i + 1;
      }
      return false;
    }

    method DispatchStateOf(r: Reservation, now: Instant) returns (state: DispatchState)
      requires Valid()
      modifies this, pacer, probe
      ensures (Model(), state) == Checked(old(Model()), r, now) && Valid()
    {
      CheckedIsHealthy(Model(), r, now);
      if r.owner != id || pending == [] {
        return Cancelled;
      }
      if pending[0].id != r.id {
        var queued := IsQueued(r.id);
        return if queued then WaitForPrevious else Cancelled;
      }
      Refresh(now);
      if inflight >= config.maxInflight {
        return InflightLimit;
      }
      var slot := pending[0].slot;
      if slot > now {
        var refresh := NextRefreshAt(Model());
        pending := pending[0 := pending[0].(paced := true)];
        return WaitUntil(if refresh.Some? && refresh.value < slot then refresh.value else slot);
      }
      return Ready;
    }

    method OnDispatched(r: Reservation, now: Instant) returns (result: Result<InFlight, DispatchState>)
      requires Valid()
      modifies this, pacer, probe
      ensures (Model(), result) == Dispatched(old(Model()), r, now) && Valid()
    {
      DispatchedIsHealthy(Model(), r, now);
      CheckedIsHealthy(Model(), r, now);
      var state := DispatchStateOf(r, now);
      if state != Ready {
        return Err(state);
      }
      var token := Start(now);
      return Ok(token);
    }

    /** Pops the ready head and commits it. */
    method Start(now: Instant) returns (token: InFlight)
      requires pending != []
      modifies this, pacer
      ensures (Model(), token) == Started(old(Model()), now)
    {
      token := InFlight(id, now, pending[0].paced);
      pending := pending[1..];
      if inflight == 0 {
        epoch := Some(Epoch(now, ExpectedRtt(latency.Model())));
      }
      inflight := inflight + 1;
      changes := Changes(true, true);
      pacer.Commit(now);
      RebuildVirtualQueue(now);
    }

    /** The learning half of `OnComplete`. */
    method Learn(token: InFlight, outcome: Outcome, rtt: Duration, now: Instant)
      requires Valid() && Measurable(latency.Model(), outcome, rtt)
      modifies this`failures, latency, latency.buckets, gradient
      ensures Model() == Learned(old(Model()), token, outcome, rtt, now)
    {
      match outcome
      case Success =>
        latency.ObserveAt(rtt, now);
        var _ := gradient.OnRttAt(ShortRtt(latency.Model()), BaselineRtt(latency.Model()), inflight, token.paced, now);
      case Failure =>
        failures := failures + 1;
        gradient.OnFailureAt(now);
    }

    /** Drops one request from the inflight count after feedback. */
    method ReleaseWithFeedback(now: Instant)
      requires Valid() && inflight > 0
      modifies this, pacer, probe
      ensures Model() == RateUpdated(Released(old(Model()), EpochAfterFeedback(old(Model()), now)), now) && Valid()
    {
      ExpectedRttInRange(Model());
      inflight := inflight - 1;
      changes := changes.(dispatch := true);
      epoch := if inflight > 0 then Some(Epoch(now, ExpectedRtt(latency.Model()))) else None;
      UpdateRate(now);
    }

    method OnComplete(token: InFlight, outcome: Outcome, rtt: Duration, now: Instant) returns (owned: bool)
      requires Valid()
      requires token.owner == id ==> inflight > 0 && Measurable(latency.Model(), outcome, rtt)
      modifies Repr
      ensures (Model(), owned) == Completed(old(Model()), token, outcome, rtt, now) && Valid()
    {
      hide Learned, RateUpdated, Healthy, Released;
      if token.owner != id {
        return false;
      }
      CountingIsHealthy(Model());
      completed := completed + 1;
      LearningIsHealthy(Model(), token, outcome, rtt, now);
      Learn(token, outcome, rtt, now);
      ReleaseWithFeedback(now);
      return true;
    }

    method Penalise(now: Instant)
      requires Valid()
      modifies this`failures, gradient
      ensures Model() == Penalised(old(Model()), now) && Valid()
    {
      failures := failures + 1;
      gradient.OnFailureAt(now);
    }

    method OnAbandoned(token: InFlight, now: Instant) returns (owned: bool)
      requires Valid()
      requires token.owner == id ==> inflight > 0
      modifies Repr
      ensures (Model(), owned) == GivenUp(old(Model()), token, now) && Valid()
    {
      if token.owner != id {
        return false;
      }
      Penalise(now);
      inflight := inflight - 1;
      changes := changes.(dispatch := true);
      if inflight == 0 {
        epoch := None;
      }
      UpdateRate(now);
      return true;
    }

    method OnAdmissionFailure(now: Instant)
      requires Valid()
      modifies Repr
      ensures Model() == AdmissionFailed(old(Model()), now) && Valid()
    {
      Penalise(now);
      UpdateRate(now);
    }

    method Finish(token: InFlight, completion: Completion, now: Instant) returns (owned: bool)
      requires Valid() && Reportable(Model(), token, completion, now)
      requires token.owner == id ==> inflight > 0
      modifies Repr
      ensures (Model(), owned) == Finished(old(Model()), token, completion, now) && Valid()
    {
      var rtt := Since(now, token.at);
      match completion
      case Succeeded => owned := OnComplete(token, Success, rtt, now);
      case Failed => owned := OnComplete(token, Failure, rtt, now);
      case Abandoned => owned := OnAbandoned(token, now);
    }

    method LoadAt(now: Instant) returns (load: Duration)
      requires Valid()
      modifies this, pacer, probe
      ensures (Model(), load) == Load(old(Model()), now) && Valid()
    {
      Refresh(now);
      var slot := NextVirtualSlot(Model(), now);
      var at := SaturatingAdd(slot, ExpectedRtt(latency.Model()));
      load := Since(at, now);
    }
  }
}
