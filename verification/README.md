# Loadpace, verified

Loadpace paces requests to the endpoints of a service. One controller per
endpoint learns an operating point from response times, turns it into a spacing
between requests, keeps a short queue of reservations whose slots predict what
the pacer will grant, and slows down while feedback is missing. Adapters let
many tasks share a controller: they register for notifications, inspect it
under a lock, and sleep; whoever changes it drains its wakeup flags under the
lock and notifies after unlocking.

This project models that code and proves what it promises over whole runs and
all interleavings. Run `dafny verify dfyconfig.toml`.

## How it is organised

- `clock`, `arithmetic`: instants and durations in nanoseconds, saturating
  addition, the two roundings, and the few product facts the proofs need.
- `gcra`, `pacing`: the pacer, and what any history of rate changes and
  dispatches does to it.
- `latency`, `latency_history`, `gradient`, `probe`: the learning components.
- `controller_model`: every controller operation as a function of the state;
  `controller`: the object with mutable fields, each method proved equal to it.
- `virtual_queue`, `queue_ids`: the queue as an exact cache of the pacer.
- `controller_runs`, `ledger`: arbitrary runs, with a ledger beside the state.
- `failed_dispatch`: what a dispatch that fails may leave behind.
- `operating_point`, `feedback_runs`: Little's law, the spacing that follows
  from what was learned, and what each kind of feedback teaches over runs.
- `paced_tokens`, `outcomes`: what a token's mark says about the answers given
  before, and what each answer of the controller means.
- `controller_pacing`, `run_pacing`, `silence`, `synchrony`, `exposure`,
  `probing`: pacing, decay and exposure over runs.
- `lapsed_probe`: a run after which a negative probe lapses unnoticed.
- `wakeups`, `prediction`: what the change flags and load readings promise.
- `ownership`, `sleepers`, `tokio_protocol`, `tokio_safety`, `tokio_theorems`,
  `tokio_outcomes`: the Tokio adapter as interleaved steps of any number of
  tasks, and what each step leads to.
- `tower_protocol`, `tower_safety`, `tower_theorems`, `tower_outcomes`: the
  Tower adapter, with the lock around the inner service and terminal failure.
- `histories`, `tokio_history`, `tower_history`: every interleaving of either
  adapter is one run of its controller, so that what holds of runs holds there.
- `simulator_model`, `simulator`: the discrete-event loop.
- `pairs`, `lock_order`, `selection`: reserving at one of two endpoints, the
  order of their locks, and selection while the answer set is replaced.

## Reading the model

Time is a natural number of nanoseconds up to `MAX_INSTANT`, which the platform
decides and the model leaves open; durations have the width of Rust's
`Duration`. Rates are per nanosecond. Concurrency, rates and RTT estimates are
exact reals; the only rounding is the one to whole nanoseconds, half to even,
where a real becomes a duration. The two EWMA weights and the halving curve
`h => 2^-h` come from the floating-point library and are parameters; lemmas
about decay assume of the curve that it is positive, never rises, and is
`2^-n` at every whole `n`. A random source is the stream of numbers it will
deliver. The clock never runs backward between critical sections.

A success is accepted while the smoothed RTT estimate, this sample included,
stays within `RTT_LIMIT`, a fifth of the largest duration; the sample itself may
be larger. `ControllerModel.LimitIsTight` shows that beyond this limit the
slowest rate has no representable spacing, at which point the pacer panics.

Where the code and its comments differ, the model follows the code. A failed
`on_dispatched` is documented to leave the reservation's state unchanged
(`loadpace/src/controller.rs:566-575`), but it may refresh the rate and mark a
waiting head as paced: `FailedDispatch.FailedDispatchMarks` gives an input, and
`FailedDispatch.FailedDispatchKeeps` says exactly when nothing changes. `cancel`,
`on_complete` and `on_abandoned` are exact no-ops for foreign tokens, as
documented (`Wakeups.StrangersChangeNothing`).

Two bounds one might expect do not hold as they stand, and the exceptions are
stated. The spacing in force can be wider than the one the code would derive at
present, but only where a negative probe has lapsed unnoticed:
`LapsedProbe.LapsedNegativeWitness` reaches such a state by a run of a new
controller, and `Synchrony.LapsedNegativeExactly` compares the two spacings at
every instant, in the grace period and in the decay after it. And the window
bound 1 + W/m fails across rate changes, because every rescaling rounds the wait
to whole nanoseconds: after many slow-downs whose waits round down, a speed-up
sets a request free early (`Pacing.RoundingForgives`). So two bounds are proved:
one more request per speed-up, or half a nanosecond more per rate change.

## Model

| member | source | states |
|---|---|---|
| Clock.SaturatingAdd | loadpace/src/gcra.rs:96-118 | the binary search returns the sum, or the last representable instant when the sum overflows |
| Clock.FromNanosRounds | loadpace/src/gcra.rs:128-140 | a real within range is converted to a duration at most half a nanosecond away |
| Clock.TiesGoToEven | loadpace/src/gcra.rs:128-140 | halfway between two nanoseconds the even one is taken |
| Clock.FromNanosSaturates | loadpace/src/gcra.rs:128-140 | a negative number becomes zero, one beyond the range the largest duration |
| Gcra.GcraPacer.constructor | loadpace/src/gcra.rs:22-27 | a new pacer grants one request at once and has the spacing of its rate |
| Gcra.GcraPacer.SetRate | loadpace/src/gcra.rs:50-60 | the pacer becomes the specified rescaling of its old value |
| Gcra.GcraPacer.Commit | loadpace/src/gcra.rs:69-72 | the arrival time moves one spacing past the later of itself and the dispatch |
| Gcra.SlowerRateWidens | loadpace/src/gcra.rs:80-94 | a lower rate never has a narrower spacing |
| Gcra.SpacingAtLeast | loadpace/src/gcra.rs:80-94 | at most one request per n nanoseconds means a spacing of at least n |
| Gcra.SlowingKeepsWait | loadpace/src/gcra.rs:50-60 | slowing down never brings the next slot closer |
| Gcra.RateChangeKeepsPhase | loadpace/src/gcra.rs:44-60 | a rate change keeps the phase up to half a nanosecond of the new spacing |
| Pacing.EventOwes | loadpace/src/gcra.rs:50-72 | whatever the rates, never more than one whole spacing is owed, although rescaling rounds |
| Pacing.HistoryOwes | loadpace/src/gcra.rs:50-72 | the same after any history, also where the clock ends |
| Pacing.AdmissionBudget | loadpace/src/gcra.rs:50-72 | while spacings are at least m, each admission costs m nanoseconds and only a speed-up forgives one |
| Pacing.WindowBound | loadpace/src/gcra.rs:50-72 | a window of length W holds at most 1 + speed-ups + W/m admissions |
| Pacing.ConstantRateWindow | loadpace/src/gcra.rs:3-8 | at a constant spacing I a window of length W holds at most 1 + W/I admissions |
| Pacing.PromptAdmissions | loadpace/src/gcra.rs:69-72 | a pacer that is never left waiting grants its k-th request exactly k spacings after it was due, so it is no slower than the bounds allow |
| Pacing.BoundIsAttained | loadpace/src/gcra.rs:69-72 | the constant-rate bound is attained: a window of n spacings that opens with an admission can hold n more |
| Pacing.PhaseIsWorkedOff | loadpace/src/gcra.rs:50-72 | the phase owed at any time is waited out, each stretch counted by the spacing in force, up to rounding |
| Pacing.PacingAcrossRateChanges | loadpace/src/gcra.rs:50-72 | between consecutive admissions at least one spacing elapses, less 1/(2·new spacing) per rescale |
| Pacing.RoundingBudget | loadpace/src/gcra.rs:50-72 | across arbitrary rate changes each admission costs m nanoseconds, each rescale forgives half a nanosecond |
| Pacing.WindowAcrossRateChanges | loadpace/src/gcra.rs:50-72 | a window opened by an admission holds at most 1 + (W + rescales/2)/m admissions |
| Pacing.RoundingForgives | loadpace/src/gcra.rs:50-60 | the allowance for rounding is needed: four events after which two admissions lie 9 apart although every spacing was at least 10 |
| Latency.LatencyEstimator.constructor | loadpace/src/latency.rs:58-88 | a new estimator starts from the configured RTT with empty buckets |
| Latency.LatencyEstimator.ObserveAt | loadpace/src/latency.rs:101-117 | the object moves to the specified estimator: clamped sample, both EWMAs, rotation, least bucket; EstimatesConverge pins the weights |
| Latency.LatencyEstimator.LeastBucket | loadpace/src/latency.rs:108-112 | the fold over the bucket array is the least filled bucket |
| Latency.LatencyEstimator.AdvanceBaselineWindow | loadpace/src/latency.rs:149-177 | the array rotation equals the specified one, including the full reset |
| LatencyHistory.HistoryAgrees | loadpace/src/latency.rs:101-177 | after any samples in time order every bucket holds the minimum of exactly the samples of its slot |
| LatencyHistory.BaselineIsLeast | loadpace/src/latency.rs:108-142 | the reported baseline is the least bucket, and clamping it again changes nothing |
| LatencyHistory.RollingMinimum | loadpace/src/latency.rs:101-178 | the baseline is a sample younger than eight bucket durations and at most every sample of age up to seven |
| LatencyHistory.EstimatesConverge | loadpace/src/latency.rs:101-104 | after n samples of one value each estimate keeps exactly (1 - its own weight)^n of its distance from that value, a value below the minimum RTT counting as the minimum |
| Gradient.Gradient2.constructor | loadpace/src/gradient.rs:61-98 | a new control starts at its initial concurrency, within bounds, with no update pending |
| Gradient.Gradient2.OnRttAt | loadpace/src/gradient.rs:189-224 | the object follows the specified control law and reports whether it updated |
| Gradient.Gradient2.OnFailureAt | loadpace/src/gradient.rs:232-238 | the object follows the specified failure response, whose cost FailuresCompound states |
| GradientLaws.ConcurrencyStaysInBounds | loadpace/src/gradient.rs:189-238 | concurrency stays in bounds over every run of feedback |
| GradientLaws.HealthyUpdateGate | loadpace/src/gradient.rs:189-223 | whatever feedback came before, an RTT leads to an update iff the caller is not application limited and a whole interval has passed since the last update, if any |
| GradientLaws.GrowthIsTimeLimited | loadpace/src/gradient.rs:189-238 | from any reachable control, growth over time T is at most gain·smoothing·(1 + T/interval), however many responses arrive |
| GradientLaws.OnlyCongestionCosts | loadpace/src/gradient.rs:189-224 | an RTT within tolerance of its reference never costs concurrency; an unpaced response changes nothing |
| GradientLaws.Contraction | loadpace/src/gradient.rs:204-220 | under a fixed gradient g < 1 the distance to gain/(1-g) shrinks by exactly 1 - smoothing·(1-g), without crossing |
| GradientLaws.ConcurrencyConverges | loadpace/src/gradient.rs:189-224 | under steady congestion n updates leave exactly (1 - smoothing·(1-g))^n of the distance to gain/(1-g), g being the ratio of tolerated to measured RTT |
| GradientLaws.ToleratedGrowth | loadpace/src/gradient.rs:207-220 | an update within the tolerance adds exactly gain·smoothing, up to the maximum |
| GradientLaws.CongestedUpdate | loadpace/src/gradient.rs:207-220 | an update beyond it moves by the smoothing towards gain above concurrency·ratio, the ratio of tolerated to measured RTT being at least a half, within bounds |
| GradientLaws.FailuresCompound | loadpace/src/gradient.rs:232-238 | after n failures in a row concurrency is the larger of its minimum and concurrency·factor^n |
| Probe.RandomInterval | loadpace/src/probe.rs:261-269 | the drawn delay lies between the two configured bounds |
| Probe.IntervalFollowsJitter | loadpace/src/probe.rs:261-269 | it is the shorter one plus the drawn share of the span, to within half a nanosecond |
| Probe.Prober.Active | loadpace/src/probe.rs:131-136 | an expired probe is dropped, a running one reported |
| Probe.Prober.MaybeStart | loadpace/src/probe.rs:229-259 | the object follows the specified decision and consumes a draw exactly when it decides |
| ControllerModel.ExpectedRttInRange | loadpace/src/latency.rs:119-122 | in every healthy state the expected RTT is positive and within the limit |
| ControllerModel.ProbingKeepsRate | loadpace/src/controller.rs:852-858 | every probed rate is positive and its reciprocal fits a duration |
| ControllerModel.FlooredRateBound | loadpace/src/controller.rs:872-875 | the floor keeps the decayed rate representable |
| ControllerModel.DerivedRate | loadpace/src/controller.rs:852-876 | the rate derived at any instant, lapsed probes dropped, is positive and one the pacer accepts, in every healthy state; its value is OperatingPoint.LittlesLaw |
| ControllerModel.LimitIsTight | loadpace/src/gcra.rs:80-94 | at the lowest concurrency under the weakest probe the rate is representable iff the RTT respects the limit |
| ControllerModel.LearningIsHealthy | loadpace/src/controller.rs:661-680 | learning from a failure, or from any success that leaves the estimate within the limit, keeps all rates representable |
| ControllerModel.CheckedIsHealthy | loadpace/src/controller.rs:524-564 | so does asking for the dispatch state |
| ControllerModel.DispatchedIsHealthy | loadpace/src/controller.rs:577-609 | so does dispatching |
| OperatingPoint.ExpectedRttIsLearned | loadpace/src/latency.rs:119-122 | the RTT that rates are derived from is the learned long-term estimate, to within half a nanosecond |
| OperatingPoint.LittlesLaw | loadpace/src/controller.rs:852-858 | in every healthy state and at every instant within the grace period, rate · learned RTT == learned concurrency; a running positive probe adds its delta to the rate, a negative one multiplies it |
| OperatingPoint.SpacingIsRttPerRequest | loadpace/src/controller.rs:837-858 | after every operation that re-derives the rate, unprobed and within grace, the pacer's spacing is the learned RTT divided by the learned concurrency, to within half a nanosecond |
| OperatingPoint.SilenceHalvesRate | loadpace/src/controller.rs:860-876 | exactly k RTTs past the grace period the rate is the probed rate divided by 2^k, above the floor of two requests per longest duration |
| OperatingPoint.StartsAsConfigured | loadpace/src/controller.rs:363-396 | a new controller spaces by the configured RTT per configured unit of concurrency, grants its first request at once, and has learned nothing |
| FeedbackRuns.StepTeaches | loadpace/src/controller.rs:676-725 | each failed completion, abandonment and admission failure takes exactly three tenths off the concurrency, down to a quarter; no other operation but a success moves the operating point |
| FeedbackRuns.LearningUpdates | loadpace/src/controller.rs:661-675 | a success moves each estimate by its own weight and, if it was paced, at least half the concurrency was under way and two configured RTTs have passed, updates the concurrency by the short RTT against the rolling minimum |
| FeedbackRuns.EachFailureCosts | loadpace/src/controller.rs:676-725 | over every run without a success, however it mixes operations, concurrency is the larger of a quarter and 0.7^failures of what it was |
| FeedbackRuns.RunsObserve | loadpace/src/controller.rs:661-663 | after every run the estimator is what its successes, in order, make of it |
| FeedbackRuns.RunsKeepRollingMinimum | loadpace/src/controller.rs:664-675 | so in every run of a new controller the congestion reference is the rolling minimum over seven to eight eighths of a window, the larger of a minute and 1200 configured RTTs |
| Controller.EndpointController.constructor | loadpace/src/controller.rs:363-396 | a new controller is in the specified initial state |
| Controller.EndpointController.TakeChanges | loadpace/src/controller.rs:441-443 | returns the flags and clears them, and nothing else |
| Controller.EndpointController.Reserve | loadpace/src/controller.rs:465-488 | appends a reservation at the next virtual slot, or reports a full queue or exhausted ids without change |
| Controller.EndpointController.Cancel | loadpace/src/controller.rs:498-516 | removes the reservation and rebuilds the tail, or returns false without change |
| Controller.EndpointController.RebuildVirtualQueue | loadpace/src/controller.rs:878-884 | the loop lays the slots one spacing apart from the pacer's next slot |
| Controller.EndpointController.UpdateRate | loadpace/src/controller.rs:837-850 | re-derives the rate, rebuilding and flagging iff the spacing changed or the head's slot fell behind |
| Controller.EndpointController.ConsultProbe | loadpace/src/controller.rs:739-743 | consults the probe schedule only under demand |
| Controller.EndpointController.Refresh | loadpace/src/controller.rs:732-747 | probe decision, expiry and rate update, flagged when the next transition moved |
| Controller.EndpointController.IsQueued | loadpace/src/controller.rs:537-540 | finds out whether an id is queued |
| Controller.EndpointController.DispatchStateOf | loadpace/src/controller.rs:524-564 | the specified answer and state change for every reservation, foreign and stale ones included |
| Controller.EndpointController.OnDispatched | loadpace/src/controller.rs:577-609 | dispatches a ready head or returns its state |
| Controller.EndpointController.Start | loadpace/src/controller.rs:587-608 | pops the head, opens the epoch, counts, flags, commits and rebuilds; the mark of its token is PacedTokens.PacedIffTold |
| Controller.EndpointController.OnComplete | loadpace/src/controller.rs:647-690 | learns, releases, restarts the silence clock and re-derives the rate |
| Controller.EndpointController.OnAbandoned | loadpace/src/controller.rs:701-716 | penalises and releases without restarting the silence clock |
| Controller.EndpointController.OnAdmissionFailure | loadpace/src/controller.rs:721-725 | penalises without touching inflight accounting |
| Controller.EndpointController.Finish | loadpace/src/controller.rs:624-636 | routes each completion with the elapsed time since dispatch |
| Controller.EndpointController.LoadAt | loadpace/src/controller.rs:759-772 | refreshes and returns the predicted completion delay |
| VirtualQueue.ScheduleInClosedForm | loadpace/src/controller.rs:878-884 | slot i of a rebuilt queue is the next slot plus i spacings, saturated once |
| VirtualQueue.ReservingCaches | loadpace/src/controller.rs:465-488 | reserving keeps the cache: head between arrival time and present, slots a spacing apart, slot i at most i spacings out |
| VirtualQueue.CancellingCaches | loadpace/src/controller.rs:498-516 | cancelling anywhere in the queue keeps the cache |
| VirtualQueue.StartingCaches | loadpace/src/controller.rs:587-602 | dispatching keeps the cache |
| VirtualQueue.RefreshingCaches | loadpace/src/controller.rs:732-747 | a refresh keeps the cache, touches only probe, pacer, slots and flags, and puts the head on the pacer's slot |
| VirtualQueue.ReadyExactly | loadpace/src/controller.rs:524-564 | Ready iff own head, below the cap, and due at the refreshed pacer |
| VirtualQueue.TransitionIsAhead | loadpace/src/controller.rs:823-835 | after a refresh the next probe transition is strictly ahead |
| VirtualQueue.DeadlineExactly | loadpace/src/controller.rs:552-562 | a deadline is strictly ahead and is the earlier of the head's slot and the next transition |
| ControllerRuns.CheckIs | loadpace/src/controller.rs:524-564 | which of the five answers is given, exactly, and that only a head refreshes |
| Outcomes.AnswerIs | loadpace/src/controller.rs:524-564 | a queued reservation is Ready iff it is the head, below the cap and due at the refreshed pacer; otherwise the answer names the first of these that fails |
| Outcomes.DeadlineIs | loadpace/src/controller.rs:552-562 | the deadline is the earlier of the head's slot and the end of the running probe or, without one and under demand, the next probe decision |
| Outcomes.DispatchIs | loadpace/src/controller.rs:577-609 | a dispatch succeeds under exactly that condition; its token then carries the instant and the head's mark, and a failed dispatch returns the answer of a check |
| Outcomes.ReservationIs | loadpace/src/controller.rs:465-488 | a reservation gets the next identity at the tail iff there is room and identities are left; a full queue and exhausted identities are told apart |
| Outcomes.FinishTeaches | loadpace/src/controller.rs:647-716 | finishing releases one request, counts it by what became of it, and teaches the time since its dispatch or costs concurrency |
| PacedTokens.StepMarks | loadpace/src/controller.rs:552-562 | one operation marks a queued reservation iff it answered WaitUntil to it, and a dispatch puts the mark into the token |
| PacedTokens.PacedIffTold | loadpace/src/controller.rs:476-483 | in every run, the token of a dispatched reservation says it was paced iff some earlier check or failed dispatch of that reservation was answered WaitUntil |
| FailedDispatch.RefreshMovesExactly | loadpace/src/controller.rs:732-747 | a refresh changes the controller iff a probe has lapsed, a decision is due, another spacing is called for, or the head fell behind |
| FailedDispatch.FailedDispatchKeeps | loadpace/src/controller.rs:566-585 | a failed dispatch leaves the controller alone iff the reservation is not at the head, or no refresh is due and the head is at the cap or already marked as paced |
| FailedDispatch.FailedDispatchMarks | loadpace/src/controller.rs:566-585 | from a new controller, reserved twice and dispatched once: a second attempt at the same instant fails and yet marks the head as paced |
| ControllerRuns.SuccessCostsOnlyUnderCongestion | loadpace/src/controller.rs:662-674 | a success costs concurrency only when the short RTT has left the tolerance around the rolling minimum |
| ControllerRuns.StepKeeps | loadpace/src/controller.rs:465-747 | every operation keeps rates representable and the queue a cache, and moves the counters and the epoch as it says |
| Ledgers.NextIsSound | loadpace/src/controller.rs:465-725 | one operation with arbitrary reservations and tokens keeps the books |
| Ledgers.RunsStaySound | loadpace/src/controller.rs:465-747 | so does every run, and time does not run backward |
| Ledgers.EveryRunKeepsTheBooks | loadpace/src/controller.rs:465-725 | reserved = queued + cancelled + dispatched; dispatched = inflight + completed + abandoned; failures add up; caps hold; the epoch dates from the latest busy-period start or real feedback, with the RTT expected then |
| Ledgers.EveryRateFits | loadpace/src/controller.rs:852-876 | in every run, at every later instant, the rate derived there, lapsed probes dropped, is accepted by the pacer |
| ControllerPacing.StepPaces | loadpace/src/controller.rs:577-747 | an operation leaves the pacer alone, or adopts the rate of the resulting state and commits iff a request dispatched |
| ControllerPacing.RunsPace | loadpace/src/controller.rs:577-608 | every run drives the pacer through a legal history that admits once per dispatch |
| RunPacing.WindowOfRun | loadpace/src/controller.rs:577-608 | any stretch of a run holds at most 1 + speed-ups + W/m dispatches |
| RunPacing.RunsOwe | loadpace/src/gcra.rs:50-72 | a run that begins with at most one spacing owed ends so, whatever the rates do |
| RunPacing.EveryRunOwes | loadpace/src/gcra.rs:50-72 | so in every run of a new controller at most one spacing is ever owed |
| RunPacing.WindowOfRunByRounding | loadpace/src/controller.rs:577-608 | any stretch of a run holds at most 1 + (W + rate changes/2)/m dispatches |
| RunPacing.ConstantSpacingWindow | loadpace/src/controller.rs:577-608 | while the spacing stays I any window of length W holds at most 1 + W/I dispatches |
| RunPacing.ConsecutiveDispatches | loadpace/src/controller.rs:577-608 | between consecutive dispatches of a run one whole spacing elapses, less the rounding of the rescales |
| RunPacing.WindowFromDispatch | loadpace/src/controller.rs:577-608 | a window opened by a dispatch holds, that one included, at most 1 + speed-ups + W/m dispatches |
| RunPacing.WindowAfterDispatch | loadpace/src/controller.rs:577-608 | a window opened by a dispatch holds at most 1 + (W + rescales/2)/m dispatches |
| Silence.RateUndecayed | loadpace/src/controller.rs:860-868 | during one expected RTT of silence the rate is the probed rate |
| Silence.StepCurveHalves | loadpace/src/controller.rs:870-871 | curves with the halving assumed of the platform's exist |
| Silence.SilenceWidensSpacing | loadpace/src/controller.rs:860-876 | k expected RTTs after the grace period the spacing has doubled k times, unless at the floor |
| Synchrony.StepStaysInStep | loadpace/src/controller.rs:837-850 | after every operation the spacing in force is the one some instant so far called for |
| Synchrony.RunsStayInStep | loadpace/src/controller.rs:837-850 | and so after every run |
| Synchrony.SpacingLags | loadpace/src/controller.rs:837-876 | unless a negative probe has lapsed unnoticed, the spacing in force is never wider than the one the code derives at present |
| Synchrony.LapsedNegativeExactly | loadpace/src/controller.rs:852-876 | where one has, the spacing in force is at least the derived one if the probe's factor times the decay at its adoption is at most the present decay, and at most the derived one if it is at least that |
| Synchrony.LapsedNegativeOvershoots | loadpace/src/controller.rs:852-858 | in particular, during the grace period it is the probe's spacing and at least the derived one |
| LapsedProbe.LapsedNegativeWitness | loadpace/src/controller.rs:732-747 | two reservations, a dispatch and a poll of a new controller whose draw starts a negative probe: a second later the spacing is wider than the derived one, until the next rate update |
| Synchrony.OnlyFeedbackTeaches | loadpace/src/controller.rs:692-725 | without feedback the RTT estimate stays and concurrency can only fall |
| Synchrony.SilenceNeverSpeedsUp | loadpace/src/controller.rs:837-876 | without feedback an operation shrinks the spacing only where a positive probe starts or a negative one ends |
| Synchrony.RefreshIsIdempotent | loadpace/src/controller.rs:732-747 | a second refresh at one instant changes nothing |
| Synchrony.CheckIsIdempotent | loadpace/src/controller.rs:524-564 | asking again at one instant gives the same answer and changes nothing |
| Exposure.LastWindow | loadpace/src/controller.rs:860-876 | the k-th further expected RTT of silence holds at most 1 + RTT/(pace·2^(k-1)) dispatches, and one per speed-up |
| Exposure.ExposureWithinBudget | loadpace/src/controller.rs:860-876 | the sum of these windows bounds the first n + 1 RTTs |
| Exposure.SpeedupsAreProbes | loadpace/src/controller.rs:837-850 | during silence every speed-up is the start of a positive probe or the end of a negative one |
| Exposure.BlackholeExposure | loadpace/src/controller.rs:860-876 | an endpoint silent after feedback receives from then on at most n + 1 + 3·RTT/pace requests, and one per such boost, in n + 1 RTTs, however it is polled |
| Exposure.BlackholeExposureByTheClock | loadpace/src/controller.rs:860-876 | the same with the boosts bounded by two and one per elapsed second |
| Exposure.ExposureInTime | loadpace/src/controller.rs:860-876 | the sum of the windows again, each further one counting half its time, whatever the probes do |
| Exposure.BlackholeExposureByRounding | loadpace/src/controller.rs:860-876 | after feedback, beyond n + 1 requests each costs a whole pace out of three RTTs, with no charge for probes: rounding adds half a nanosecond per rate change |
| Exposure.IdleDispatchOpens | loadpace/src/controller.rs:592-598 | every dispatch of an idle endpoint opens an epoch with the RTT it expects |
| Exposure.OpenedWithinBudget | loadpace/src/controller.rs:592-602 | the windows summed for silence that a dispatch opens, this dispatch included |
| Exposure.OpenedExposure | loadpace/src/controller.rs:592-602 | an endpoint silent from an opening dispatch on receives, this dispatch included, at most n + 1 + 3·RTT/pace requests, and one per boost, in the first n + 1 RTTs |
| Exposure.OpenedExposureByTheClock | loadpace/src/controller.rs:592-602 | the same with the boosts bounded by two and one per elapsed second |
| Exposure.OpenedExposureByRounding | loadpace/src/controller.rs:592-602 | the same without a charge for probes, by half a nanosecond per rate change |
| Probing.StepProbes | loadpace/src/controller.rs:732-747 | a decision consumes one draw, only when due, and does with it what the schedule says: a tenth +20 requests per second, a twentieth 0.8 times, for a second; only a decision starts a probe and only its end stops one |
| Probing.RefreshDecides | loadpace/src/controller.rs:732-747 | a refresh makes a decision exactly when one is due under demand, and leaves no probe that is over |
| Probing.DecisionsLieApart | loadpace/src/probe.rs:229-259 | consecutive probe decisions of any run are at least the minimal interval apart |
| Probing.BoostsAreRare | loadpace/src/probe.rs:229-259 | a span of T seconds holds at most 2 + T starts of positive or ends of negative probes |
| Probing.TransitionsAreRare | loadpace/src/probe.rs:229-259 | a span of T seconds holds at most 3 + 2·T probe transitions |
| Wakeups.StepFlags | loadpace/src/controller.rs:732-747 | flags are only raised; admission exactly when a reservation leaves; an unset dispatch flag means nobody was disturbed |
| Wakeups.FlagsAreComplete | loadpace/src/controller.rs:428-443 | between two drains an unset dispatch flag leaves every slot, position, cap distance and future refresh deadline; admission is set iff some reservation left |
| Wakeups.FlagsAreEarned | loadpace/src/controller.rs:837-850 | the dispatch flag is raised only where the spacing, the head's slot, the next refresh or the inflight count changed, or a reservation was cancelled |
| Wakeups.StrangersChangeNothing | loadpace/src/controller.rs:498-541 | stale or foreign reservations and tokens change nothing and are answered as such |
| Prediction.LoadPricesTheSlot | loadpace/src/controller.rs:759-772 | a load reading prices exactly the slot a reservation made next receives |
| Prediction.StepDelays | loadpace/src/controller.rs:498-609 | without a narrower spacing or a cancellation ahead no operation brings a queued slot closer |
| Prediction.PredictionHolds | loadpace/src/controller.rs:815-821 | in every such run a reservation is never dispatched before its predicted slot |
| QueueIds.StepQueue | loadpace/src/controller.rs:465-609 | every operation adds to and removes from the queue exactly the reservation it reports |
| QueueIds.DispatchPopsHead | loadpace/src/controller.rs:587-608 | a dispatch pops its own head and keeps the order of the others |
| Sleepers.CheckStands | loadpace-tokio/src/lib.rs:262-286 | a live reservation is never told that it was cancelled, and a waiting decision is valid when given |
| Sleepers.CheckSpares | loadpace-tokio/src/lib.rs:276-286 | dropping the flags of a failed attempt is harmless: nobody else's decision depends on what it changed |
| Sleepers.DecisionStands | loadpace-tokio/src/lib.rs:66-84 | an operation that leaves the dispatch flag down leaves every cached decision valid |
| Sleepers.StepIsCourteous | loadpace-tokio/src/lib.rs:66-84 | every operation leaves sleepers alone or raises the flag that wakes them |
| Ownership.OwnedAfter | loadpace-tokio/src/lib.rs:243-246 | each queued reservation keeps exactly one live holder when one task moves on |
| Ownership.CountedAfter | loadpace-tokio/src/lib.rs:327-330 | each inflight count keeps exactly one live holder when one task moves on |
| TokioSafety.TryReserveKeeps | loadpace-tokio/src/lib.rs:136-144 | refreshing and reserving keeps the protocol's invariant |
| TokioSafety.ReadKeeps | loadpace-tokio/src/lib.rs:226-235 | so does reading the load, or being the other one of a pair |
| TokioSafety.SucceededAttemptKeeps | loadpace-tokio/src/lib.rs:262-275 | so does a dispatch whose flags are delivered after unlocking |
| TokioSafety.FailedAttemptKeeps | loadpace-tokio/src/lib.rs:276-286 | so does a failed attempt that drops its flags |
| TokioSafety.DropKeeps | loadpace-tokio/src/lib.rs:311-319 | so does dropping a reservation |
| TokioSafety.FinishKeeps | loadpace-tokio/src/lib.rs:344-361 | so does finishing or dropping an active request |
| TokioSafety.NotifyKeeps | loadpace-tokio/src/lib.rs:76-83 | so does each notification on its own, admission before dispatch |
| TokioSafety.DoKeeps | loadpace-tokio/src/lib.rs:66-361 | every step of every task keeps the invariant |
| TokioTheorems.NoLostWakeup | loadpace-tokio/src/lib.rs:211-289 | in every interleaving an un-notified sleeper's decision is valid or a notification is coming; likewise for a sleeping ready(), whose return is TokioOutcomes.ReadyFindsRoom; the unreachable arm is never reached |
| TokioTheorems.NoMissedReadiness | loadpace-tokio/src/lib.rs:254-289 | an un-notified sleeper that could dispatch now, with no notification coming, has a timer that is due |
| TokioTheorems.HeadIsNeverStranded | loadpace-tokio/src/lib.rs:254-289 | the head's owner is awake, will be notified, has a timer, or waits for a request under way |
| TokioOutcomes.ReadyReturnsWithRoom | loadpace-tokio/src/lib.rs:211-221 | ready() returns only by looking while the queue has room, and always then; a registered task that looks at a full queue goes to sleep |
| TokioOutcomes.ReadyFindsRoom | loadpace-tokio/src/lib.rs:211-221 | in every interleaving a call of ready() has returned only if it looked at a moment when the queue had room |
| TokioOutcomes.TryReserveOutcome | loadpace-tokio/src/lib.rs:136-144 | a task holds the next identity at the tail iff there was room and an identity, and nothing otherwise |
| TokioOutcomes.AttemptOutcome | loadpace-tokio/src/lib.rs:254-289 | an attempt starts the request iff it is the head, below the cap and due; otherwise the task sleeps with the reason that applies |
| TokioOutcomes.FinishOutcome | loadpace-tokio/src/lib.rs:342-361 | finishing teaches the time since the dispatch, a failure or abandonment costs concurrency, and the inflight count drops by one |
| TokioOutcomes.DropOutcome | loadpace-tokio/src/lib.rs:311-319 | dropping takes that reservation and no other off the queue and announces it |
| TokioOutcomes.NotifyOutcome | loadpace-tokio/src/lib.rs:66-84 | everyone waiting for room is notified, then everyone waiting to dispatch, and only then the task goes on |
| TokioOutcomes.NotificationsAreDelivered | loadpace-tokio/src/lib.rs:76-83 | a waiting task is notified only by an announcement of what it waits for, and registers without a notification |
| Histories.EventLinks | loadpace-tokio/src/lib.rs:66-84 | one operation of one task is one event of a run, and the outstanding tokens stay those carried by the tasks |
| TokioHistory.InterleavingsAreRuns | loadpace-tokio/src/lib.rs:136-361 | every interleaving drives the controller through a run that dispatches exactly where an attempt succeeds |
| TokioHistory.EveryInterleavingIsARun | loadpace-tokio/src/lib.rs:136-361 | so from its creation on a shared endpoint is one run of a new controller, and the outstanding tokens are the ones the tasks carry |
| TokioHistory.SharedWindow | loadpace-tokio/src/lib.rs:254-289 | however tasks interleave, any stretch holds at most 1 + speed-ups + W/m departures |
| SimulatorModel.HeadPolls | loadpace/src/simulator.rs:254-262 | a mirrored queue's head is never unknown or behind another, and asking twice gives the same answer and the same controller |
| SimulatorModel.SettledStays | loadpace/src/simulator.rs:265-305 | an endpoint whose head has to wait is changed neither by a refresh nor by being asked again at that instant |
| SimulatorModel.Capacity | loadpace/src/simulator.rs:270-287 | an endpoint completes at most workers·⌊elapsed/service time⌋ requests |
| Simulator.FirstFree | loadpace/src/simulator.rs:270-275 | the first worker among those free earliest |
| Simulator.AskHead | loadpace/src/simulator.rs:254-262 | keeps the books; afterwards the head is ready or settled |
| Simulator.DispatchHead | loadpace/src/simulator.rs:269-294 | moves a ready head to a worker that is free first, which serves it for one service time once it is free, and keeps the books |
| Simulator.DriveOne | loadpace/src/simulator.rs:265-305 | keeps the books and leaves no head ready; the branch for an unknown reservation is dead |
| Simulator.DriveAll | loadpace/src/simulator.rs:264-306 | the same for all endpoints, with every new job ending strictly later |
| Simulator.CompleteOne | loadpace/src/simulator.rs:316-323 | hands a job back within the accepted RTT range; the controller learns exactly the time from its dispatch to its end |
| Simulator.CompleteReady | loadpace/src/simulator.rs:308-329 | every endpoint is handed back exactly its jobs that end by now, and exactly the others remain, in order |
| Simulator.NextDispatch | loadpace/src/simulator.rs:159-162 | the earliest instant that any endpoint's controller names for its head, or none if none does |
| Simulator.ChooseP2c | loadpace/src/simulator.rs:227-252 | of two distinct draws among exactly the endpoints with room, the one with the lower load; the only one; none iff every horizon is full |
| Simulator.Offer | loadpace/src/simulator.rs:177-190 | an arrival is turned away iff every horizon is full, unless ids run out |
| Simulator.Admit | loadpace/src/simulator.rs:177-190 | an arrival turned away while ids last finds every queue full and leaves every endpoint at rest |
| Simulator.NextEvent | loadpace/src/simulator.rs:157-172 | nothing happens before it and something happens at it; no job is ever overdue, so each is completed exactly when it ends; after the first iteration it lies strictly ahead |
| Simulator.Simulate | loadpace/src/simulator.rs:109-225 | terminates; arrivals, acceptances, dispatches and completions add up; queues and throughput stay within capacity; the deepest queue is within some horizon, at least every final queue, and, if any arrival was turned away, as deep as the largest horizon, the last two while clock and ids last |
| TowerSafety.FailureIsPublished | loadpace-tower/src/service.rs:410-430 | whoever holds the service lock and is about to check finds every inner failure published |
| TowerSafety.PublishKeeps | loadpace-tower/src/service.rs:414-430 | publishing the failure drops its flags but notifies everyone |
| TowerSafety.CommitKeeps | loadpace-tower/src/service.rs:435-446 | dispatching under the service lock keeps calls in reservation order |
| TowerSafety.InspectKeeps | loadpace-tower/src/service.rs:376-400 | checking under the lock may drop its flags |
| TowerSafety.ReleaseKeeps | loadpace-tower/src/service.rs:353-365 | a failing or dropped request gives its slot back |
| TowerSafety.CallKeeps | loadpace-tower/src/service.rs:281-304 | a call reserves only before closure |
| TowerSafety.DoKeeps | loadpace-tower/src/service.rs:37-479 | every step of the owner and of every request keeps the invariant |
| TowerTheorems.CallsFollowReservations | loadpace-tower/src/service.rs:404-448 | in every interleaving inner calls happen in reservation order, and a readiness error is the inner service's last contact |
| TowerTheorems.NobodyIsForgotten | loadpace-tower/src/service.rs:270-402 | no dispatch sleeper and no parked owner misses a wakeup, also across the failure; a granted call finds room |
| TowerTheorems.ClosureHolds | loadpace-tower/src/service.rs:411-430 | after closure no step reserves, dispatches, polls or calls, and queued requests stay doomed |
| TowerTheorems.FailureIsTerminal | loadpace-tower/src/service.rs:367-448 | in every continuation a request queued at closure can only end in the shared error or be withdrawn |
| TowerOutcomes.PollReadyOutcome | loadpace-tower/src/service.rs:270-279 | the owner may call iff there is room and no failure; it is parked, with its waker stored, iff there is neither |
| TowerOutcomes.CallOutcome | loadpace-tower/src/service.rs:281-304 | a granted call takes the next identity at the tail; after the failure it ends in the shared error at once and reserves nothing |
| TowerOutcomes.InspectOutcome | loadpace-tower/src/service.rs:367-402 | a request that looks learns of the failure, goes for the service iff it is the head, below the cap and due, and otherwise sleeps with the reason |
| TowerOutcomes.CommitOutcome | loadpace-tower/src/service.rs:435-446 | with the service ready, a request is dispatched iff it is still due; otherwise it waits again and keeps the lock |
| TowerOutcomes.PublishOutcome | loadpace-tower/src/service.rs:414-430 | publishing closes the endpoint, costs concurrency as one failure and takes the owner's waker |
| TowerOutcomes.RespondOutcome | loadpace-tower/src/service.rs:464-472 | a served request ends as answered or withdrawn and reports back accordingly |
| TowerOutcomes.NotifyOutcome | loadpace-tower/src/service.rs:425-430 | the owner is woken first, then every waiting request, and only then the request goes on, still holding the lock if it waits again |
| TowerOutcomes.NotificationsAreDelivered | loadpace-tower/src/service.rs:370-376 | a waiting request is notified only by an announcement, and registers without a notification |
| TowerOutcomes.EndingsAreJustified | loadpace-tower/src/service.rs:450-473 | in every interleaving a request ends as answered only after the inner service responded to it, and in the shared error only after the failure was published |
| TowerTheorems.EndedFreesItsSlot | loadpace-tower/src/service.rs:353-365 | every occupied slot belongs to a request that has not ended |
| TowerTheorems.NothingLeaks | loadpace-tower/src/service.rs:353-365 | when all requests have ended the queue is empty and nothing is under way |
| TowerHistory.InterleavingsAreRuns | loadpace-tower/src/service.rs:270-479 | every interleaving drives the controller through a run that dispatches exactly where a commit succeeds |
| TowerHistory.EveryInterleavingIsARun | loadpace-tower/src/service.rs:270-479 | so from its creation on a Tower endpoint is one run of a new controller |
| TowerHistory.SharedWindow | loadpace-tower/src/service.rs:435-446 | however requests interleave, any stretch holds at most 1 + speed-ups + W/m departures |
| Pairs.ReservePair | loadpace/src/p2c.rs:34-55 | the two controllers and the outcome are exactly the specified ones |
| Pairs.PairReservesOnce | loadpace/src/p2c.rs:15-55 | succeeds iff either has room, adds one reservation to the cheaper one unless it has no room, and otherwise leaves both queues alone |
| Pairs.CancelUndoesReserve | loadpace/src/controller.rs:465-516 | reserving and later cancelling leaves the same reservations queued |
| LockOrder.DoKeeps | loadpace-tokio/src/lib.rs:166-186 | locking and releasing keeps locks exclusive and pairs in rank order |
| LockOrder.NoWaitCycle | loadpace-rama/src/dns.rs:584-608 | whatever pairs any number of threads draw, the wait-for relation is acyclic |
| LockOrder.SomeoneMoves | loadpace-rama/src/dns.rs:584-608 | while some thread waits, some thread can proceed |
| Selection.ReserveP2c | loadpace-rama/src/dns.rs:562-612 | reserves exactly one slot, at the only endpoint or at the cheaper of two distinct draws unless it has no room, and none anywhere iff no drawn endpoint has room |
| Selection.Attempt | loadpace-rama/src/dns.rs:296-306 | whatever other tasks do after a pass has reserved, its reservation is still queued when it looks again |
| Selection.CancelFindsIt | loadpace-rama/src/dns.rs:310-313 | the holder's cancellation then finds its reservation and takes it off the queue for good |
| Selection.Select | loadpace-rama/src/dns.rs:294-314 | amid arbitrary operations of other tasks, publishes only what the same pass reserved, still queued and still in the answer set; every abandoned pass's reservation is gone for good; where nobody interferes, exactly the chosen endpoint has gained one |
| Selection.OnlyItsHolderRemovesIt | loadpace-rama/src/dns.rs:310-313 | whatever other tasks do, a reservation stays queued until its holder cancels or dispatches it |

## Left out

- Floating point: rounding, overflow and NaN of `f64`, so that loads are compared as exact durations and not as rounded seconds.
- Quality of randomness, probabilities and fairness: draws are arbitrary inputs.
- Wrap-around of the counters for completions, failures, samples, updates, inflight and controller ids: they are unbounded; the reservation id is bounded as in the code.
- Controller.EndpointController.constructor: requires an expected RTT of at most a fifth of the largest duration; the code accepts more, and then may panic as soon as concurrency falls or a negative probe starts.
- Controller.EndpointController.OnComplete: requires that a success leave the smoothed RTT estimate within a fifth of the largest duration; the code accepts more, and then may panic at the next rate it cannot represent, as LimitIsTight shows.
- Controller.EndpointController.Finish: requires the same of the elapsed time of a success.
- Simulator.Simulate: requires a duration and expected RTTs of at most a fifth of the largest duration, which keeps every estimate within that limit, and treats controllers as values handed back and forth, not as shared objects.
- Exposure.BlackholeExposure: bounds exposure above the floor that keeps spacings representable; the further request per boost pays for waits that earlier rescalings rounded down, and BlackholeExposureByRounding replaces it by half a nanosecond per rate change.
- Pacing.WindowAcrossRateChanges: assumes, like BlackholeExposureByRounding, that adopted spacings fit before the end of the clock; a spacing cut off there loses its phase.
- TokioTheorems.NoMissedReadiness: assumes that the halving curve never rises.
- Selection.Select: follows a given list of passes; what other tasks do is an arbitrary list of operations per endpoint and pass, of which those the controller does not permit are skipped.
- The adapters are state machines over their atomic steps, not methods: pinning, wakers, runtimes, poisoned locks and the fairness of locks are not modelled, and a timer is a step that may happen once its deadline has come.
- The Tower adapter reads the clock just before locking when it finishes a request; the model takes the time inside the critical section.
- The Rama service is the same register, check and sleep protocol as the Tokio adapter.
- Name resolution, caches, eviction, layers, discovery streams, error types, configuration builders and snapshots of metrics.
- The clock-reading convenience wrappers, such as `observe` and `on_rtt`, around the methods with explicit instants.
