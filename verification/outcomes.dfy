/** What the controller's answers mean to an adapter. */
module Outcomes {
  import opened Clock
  import opened ControllerModel
  import opened VirtualQueue
  import opened ControllerRuns
  import opened Synchrony
  import opened QueueIds
  import opened Sleepers
  import FeedbackRuns
  import GradientLaws
  import PacedTokens
  import Arithmetic

  /** Room in the queue: the horizon is not full. */
  predicate HasRoom(c: State) {
    |c.pending| < c.config.queueCapacity
  }

  lemma ReservationIs(c: State, now: Instant)
    requires Healthy(c) && Cached(c, now)
    ensures var (d, result) := Reserved(Refreshed(c, now), now);
      if HasRoom(c) && c.nextId < U64_MAX then
        && result == Ok(Reservation(c.id, c.nextId)) && d.nextId == c.nextId + 1
        && |d.pending| == |c.pending| + 1 && d.pending[|c.pending|].id == c.nextId
        && SameIds(c.pending, d.pending[..|c.pending|])
      else
        result == Err(if HasRoom(c) then IdExhausted else QueueFull) && SameIds(c.pending, d.pending)
  {
    hide Refreshed, NextVirtualSlot;
    RefreshingCaches(c, now);
  }

  /** What a queued reservation is told: to go, if it is at the head, below the
      inflight cap and due at the refreshed pacer, or why not. */
  lemma AnswerIs(c: State, r: Reservation, now: Instant)
    requires Healthy(c) && Cached(c, now) && r.owner == c.id && Holds(c.pending, r.id)
    ensures c.pending != []
    ensures var state, tat := Checked(c, r, now).1, Refreshed(c, now).pacer.tat;
      if c.pending[0].id != r.id then state == WaitForPrevious
      else if c.inflight >= c.config.maxInflight then state == InflightLimit
      else if tat <= now then state == Ready
      else state.WaitUntil? && state.at <= tat && (now < MAX_INSTANT ==> now < state.at)
  {
    hide Refreshed;
    CheckIs(c, r, now);
    ReadyExactly(c, r, now);
    RefreshingCaches(c, now);
    if Checked(c, r, now).1.WaitUntil? && now < MAX_INSTANT {
      DeadlineExactly(c, r, now);
    }
  }

  /** A waiting head is asked again when its slot comes, or earlier, when the
      running probe ends or, under demand, the next probe decision falls due. */
  lemma DeadlineIs(c: State, r: Reservation, now: Instant)
    requires Healthy(c) && Cached(c, now) && Checked(c, r, now).1.WaitUntil?
    ensures var (d, state) := Checked(c, r, now);
      && d.pending != []
      && var slot := d.pending[0].slot;
         var turn := if d.probe.active.Some? then Some(d.probe.active.value.until)
                     else if d.latency.samples > 0 || d.inflight > 0 then d.probe.nextProbeAt
                     else None;
         state.at == if turn.Some? && turn.value < slot then turn.value else slot
  {
    hide Refreshed;
    RefreshingCaches(c, now);
  }

  /** A new reservation is due one spacing after the last one in the queue, or
      when the pacer grants it if there is none, and in no case in the past. */
  lemma ReservedSlotIs(c: State, now: Instant)
    requires Cached(c, now)
    ensures var (d, result) := Reserved(c, now);
      result.Ok? ==>
        && d.pending != []
        && var due := if c.pending == [] then c.pacer.tat
                      else AddSat(c.pending[|c.pending| - 1].slot, c.pacer.interval);
           d.pending[|d.pending| - 1] == Pending(result.value.id, if due < now then now else due, false)
  {}

  lemma TokenIs(c: State, r: Reservation, now: Instant)
    requires Healthy(c) && Cached(c, now)
    ensures var result := Dispatched(c, r, now).1;
      result.Ok? ==> result.value.owner == c.id && result.value.at == now
  {
    hide Refreshed, Checked;
    CheckingKeeps(c, r, now);
  }

  /** What a dispatch attempt of a queued reservation comes to. */
  lemma DispatchIs(c: State, r: Reservation, now: Instant)
    requires Kept(c, now) && r.owner == c.id && Holds(c.pending, r.id)
    ensures c.pending != []
    ensures var (d, result) := Dispatched(c, r, now);
      if c.pending[0].id == r.id && c.inflight < c.config.maxInflight && Refreshed(c, now).pacer.tat <= now then
        && result.Ok? && result.value == InFlight(c.id, now, result.value.paced)
        && (result.value.paced <==> PacedTokens.Marked(c.pending, r.id))
        && d.inflight == c.inflight + 1 && !Holds(d.pending, r.id)
      else
        result.Err? && result.error == Checked(c, r, now).1 && result.error != Ready && d.inflight == c.inflight
  {
    hide Refreshed, Checked, Healthy, Cached, InStep, PacedTokens.Marked;
    AnswerIs(c, r, now);
    PacedTokens.DispatchingMarks(c, r, now, r.id);
    StepQueue(c, Dispatch(r), now);
    StepKeeps(c, Dispatch(r), now);
    TokenIs(c, r, now);
  }

  lemma FinishTeaches(c: State, token: InFlight, completion: Completion, now: Instant)
    requires Kept(c, now) && token.owner == c.id && c.inflight > 0 && Reportable(c, token, completion, now)
    ensures var d := Finished(c, token, completion, now).0;
      && d.inflight == c.inflight - 1 && SameIds(c.pending, d.pending)
      && d.completed == c.completed + (if completion == Abandoned then 0 else 1)
      && d.failures == c.failures + (if completion == Succeeded then 0 else 1)
      && (completion == Succeeded ==>
            var rtt := Since(now, token.at);
            var v := (if rtt < c.latency.settings.minRtt then c.latency.settings.minRtt else rtt) as real;
            && d.latency.samples == c.latency.samples + 1
            && Arithmetic.Keeps(c.latency.long, d.latency.long, v, 1.0 - c.config.longAlpha))
      && (completion != Succeeded ==>
            && d.latency == c.latency
            && GradientLaws.Shrinks(0.25, c.gradient.concurrency, 0.7, d.gradient.concurrency))
  {
    hide Completed, GivenUp, Healthy, Cached, InStep, Arithmetic.Keeps, GradientLaws.Shrinks, Learned;
    var op := Report(token, completion, now);
    ReportIsStep(c, token, completion, now);
    StepKeeps(c, op, now);
    StepQueue(c, op, now);
    if completion == Succeeded {
      FeedbackRuns.SuccessTeaches(c, token, Since(now, token.at), now);
      FeedbackRuns.LearningUpdates(c, token, Since(now, token.at), now);
    } else {
      FeedbackRuns.StepTeaches(c, op, now);
    }
  }

  lemma CancellingFlags(c: State, r: Reservation, now: Instant)
    requires CancelledOne(c, r, now).1
    ensures CancelledOne(c, r, now).0.changes == Changes(true, true)
  {}

  /** Each change is reported once: what one drain reports the next one does not. */
  lemma DrainsOnce(c: State)
    ensures var (d, changes) := Taken(c);
      && d == c.(changes := d.changes) && changes == c.changes
      && Taken(d) == (d, Changes(false, false))
  {}
}
