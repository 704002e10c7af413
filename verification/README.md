# Verified model of the adaptive executor

The adaptive executor runs submitted functions on a pool of worker processes and decides, every
few milliseconds, which queued tasks may start.  It learns how much memory, VRAM and time a
function needs, commits those estimates while a task runs, lets later tasks pass a blocked head of
the queue only if they do not delay it, retries tasks that the OOM killer took, and stops what can
never fit.  This project models that logic in Dafny and proves what it is meant to guarantee.

## What is here

- `Quantities`, `Admission`, `Planning`: the scheduler's vocabulary (gigabytes that may be unbounded,
  moments that may never come, tasks, pools), the one admissibility test, and a planning cycle as
  functions on values.  `Rotation` and `Slots` say in which order GPUs come and when there is a slot,
  `Spread` the same of whole plans.  `Planner` is the same cycle as the object with mutable pools, occupants, held
  identities and queue that the program runs; every loop is proved to compute the function of the
  same name.
- `Reservations`, `StrictFifo`, `Plans`: theorems about one cycle.  The reservation is the exact moment
  the head first fits; after all backfill it still is; every decision was admissible when taken; the
  plan begins with what strict FIFO, which is specified without the planner, starts.
- `Runs`: cycle after cycle on a fixed machine, the head's reservation never moves later.
- `Turns`: which queued tasks a cycle starts, task by task: those strict FIFO reaches and those that
  pass the blocked head in their turn.  `ExclusiveHeads`: the machine drains for an exclusive head.
- `Fairness`: one cycle of backfill and a head at the front, against strict FIFO.  `Twins`,
  `SideBySide`, `Races`, `EarlyStarts`: whole runs of this scheduler and of strict FIFO from one world,
  with the same arrivals, the same starts that find no worker and every task taking its own time, and
  exactly when strict FIFO is the first to start a task, anywhere in the queue.  `NeverLater` says when
  it never is, and `LostRaces` has two runs in which it is.
- `Overtaking`, `Stalling`, `SharedGpus`: where backfill and the cold-start canary fall short of what
  is documented, each with a case and the exact condition.
- `Profiles`, `Estimates`, `LearnedProfiles`, `Stores`: the observation window, the nearest-rank p90, the crash
  floor, what an estimate says about the observations, the aggregate and per-bucket profiles, and what is saved and loaded.
- `Accounting`: commitment of the part of an estimate that has not shown up as use.
- `ExecutorState`: the executor as a state machine.  Each section under the executor's lock is one
  atomic step, any thread may act between any two steps, results arrive in any order, stale or
  repeated, and a task that has been popped from the in-flight table but not yet settled or re-queued
  is held by the handler that popped it.  `ExecutorInvariants`, `ExecutorDispatch`, `ExecutorRuns`
  prove what every step keeps and what therefore holds in every reachable state;
  `ExecutorProgress` lists the moves a task can make and bounds them; `Draining` is about results
  delivered before a worker died, `LastWords` about the same with every other thread's steps in between,
  and `LastSweep` about whole sweeps over the workers; `Refreshing` says what a cycle knows about each task, `Outcomes` what results, timeouts and crashes
  leave behind; `Headroom`, `Feasibility`, `Recycling`, `ExecutorSpread` and `ExecutorReservations` carry
  the planner's promises to the executor.
- `AdaptiveExecutor`: the executor as the object the program runs, its tables and fields updated in
  place by loops in the program's order; every method is proved to do to the whole state what the
  step of the state machine does, and to keep the invariant.  `ExecutorRefinement` holds the reasons.

Gigabytes and seconds are exact reals.  Unknown durations, infinite reservations and infinite
capacity are separate constructors, not numbers.  Tables keyed by id that keep insertion order are
sequences.  The clock, the monitor's readings, observed growth, which processes are alive, exit codes
and the contents of result queues are parameters: any values at all.  The planner is given
non-negative sizes; the executor proves that it only ever passes such sizes.

## Where the code falls short of its documentation

The model follows the code.

- "The head task never starts later than it would under strict FIFO"
  (docs/features/backfill-scheduling.md:163-167) fails in three ways that need no cold task.  What the
  code keeps is the reservation of a task that is already at the front, the time at which it could start
  if every task ran exactly its estimate (`Runs.ReservationNeverSlips`,
  `ExecutorReservations.ExecutorNeverSlips`).
  - A task that finishes early would let strict FIFO start the head before its reservation, while a
    backfilled task holds what the head needs until then: `Fairness.FifoStartsItEarlier`.
  - A backfilled task leaves room for the head, but not for the head and the task after it, which strict
    FIFO would start with it: `LostRaces.OvertakenBeforeTheFront`.  Every task there runs exactly its
    estimate.
  - A backfilled task that has long finished has moved the GPU rotation on, so that a later task is put
    on another GPU and the one after it no longer fits: `LostRaces.MisplacedByThePast`.

  `Races.FirstLossExactly` is the exact condition, for runs of any length and a task anywhere in the
  queue: as long as nothing has been lost, strict FIFO starts a task that waits here and is not planned
  if and only if it does so, the task does not pass a blocked head in its turn, and some task up to it is
  held up, either because there is room for it beside what is in flight in both runs but not beside what
  is in flight here alone, or because it needs VRAM and something stands on another GPU than under strict
  FIFO.  What is in flight here alone is what strict FIFO has yet to start (`Races.AloneAreEarly`), and
  `EarlyStarts.EarlyExactly` says how it got in.  On one GPU or none only crowding is left
  (`EarlyStarts.FirstLossWithOneGpu`); where nobody has ever passed a blocked head nothing is lost
  (`EarlyStarts.LossNeedsOvertaking`).  If nobody passed a blocked head before a task came to the front,
  nothing exclusive was in flight then and nothing in flight then ends before its estimate, nothing
  outlives its estimate afterwards, and the task is not exclusive and not held by the canary, then it is
  planned by the time strict FIFO starts it (`NeverLater.NeverLaterThanFifo`).  With overtaking on the way,
  `NeverLater.NeverLaterFromFront` asks instead that what was in flight when it came to the front, and
  should still hold, is in flight under strict FIFO too.
- The canary is a further way to the same failure: a task of a cold head's own profile identity that is
  not itself cold, because it was submitted with a hint, may be backfilled past the head, and the
  canary then holds the head back for as long as that task runs, reservation or not
  (`Overtaking.OvertakenIsClamped`).  `Overtaking.FifoWouldHaveStartedIt` is a case,
  `Overtaking.OvertakenExactly` the condition on a given queue and `Overtaking.CanBeOvertaken` that on
  the head, its profile and the free resources.
- "A backfill task never consumes VRAM on the GPU the head is reserving unless it finishes before the
  reservation" (docs/features/backfill-scheduling.md:168-169) is stronger than the code, which asks
  only that the head still fits: `SharedGpus.SharesTheReservedGpu` is a case, `SharedGpus.SharesExactly` the
  exact condition, and `SharedGpus.KeptFreeStaysFree` has a test on free VRAM and sizes, before the
  call, under which the promise is kept.
- The canary "never stalls feasible non-cold work" (docs/features/backfill-scheduling.md:182-185) fails
  both when the cold-blocked head does not fit beside the running canary, which no projection ever
  releases, and when it does but not beside the warm task as well:
  `Stalling.ColdHeadStallsFeasibleWork`, `Stalling.FittingColdHeadStallsFeasibleWork`.  A warm task that
  could start is refused exactly when, on every GPU with room for it, it takes the room the head would
  need in the end: `Stalling.RefusedExactly`, `Stalling.StallsWarmWorkExactly`.
- The infeasibility sweep is there so that no task sits queued for ever
  (adaptive_executor/adaptive_executor.py:329-333).  It overlooks an estimate exactly at the limit, because
  rejection and admission are both strict, and a few limits it cannot see; such a task at the head stalls
  the queue.  `Feasibility.SweepIsSound` has the exact condition, `Feasibility.LimitIsOverlooked` a
  concrete case and `Feasibility.OverlookedHeadStalls` the consequence.
- A dead worker that had already been told to stop drops the task it was on
  (adaptive_executor/adaptive_executor.py:1132-1138): its future stays running for ever.
  `LastWords.DroppedForGood` is a run that ends so; it takes a worker that is given up before its result
  or a timeout was taken (`LastWords.FirstTakerDecides`), after shutdown has begun
  (`ExecutorRuns.FuturesAgree`).

## Model

| member | source | states |
|---|---|---|
| Admission.FitsMonotone | adaptive_executor/scheduling.py:299-324 | A task that is admissible against some pools is admissible against any pools at least as roomy in memory, slots and every GPU. |
| Admission.AdmissibilityTestsAgree | adaptive_executor/scheduling.py:282-422 | The two-part test of backfill (no GPU involved, then some GPU option) and the single test of front admission are equivalent, and the GPU front admission picks is the first option backfill would try. |
| Admission.OptionsExist | adaptive_executor/scheduling.py:408-422 | Wherever the round robin stands, some GPU option exists exactly when some GPU of the rotation has room. |
| Rotation.PickIsFirst | adaptive_executor/scheduling.py:282-297 | The GPU picked is the first with room going onwards around the rotation from the index, and the index is left one place after it; with room nowhere there is no GPU and the index stays. |
| Rotation.OptionsAreOnward | adaptive_executor/scheduling.py:408-422 | The options are exactly the GPUs with room, in the order in which the rotation comes to them from the index onwards, each leaving the index one place on. |
| Slots.FitsExactly | adaptive_executor/scheduling.py:273-324 | A task is admissible if and only if a worker is left, it would be alone if it is exclusive, there are workers enough for everybody at its cores where usage is measured and others run, it needs less than the free memory, and some GPU has room if it needs one. |
| Slots.IdleHasSlot | adaptive_executor/scheduling.py:273-280 | An idle machine has a slot for a task of any number of cores. |
| Admission.StateAtGrows | adaptive_executor/scheduling.py:370-383 | Projections to later moments are roomier, and none is tighter than the present. |
| Admission.StateAtTake | adaptive_executor/scheduling.py:480-502 | Taking resources now and projecting comes to the same as projecting and then taking, at every moment and for every GPU. |
| Planner.PlanDispatch | adaptive_executor/scheduling.py:169-176 | Running the planner object over its own mutable state yields exactly the decisions and round-robin index of the planning function. |
| Planner.BackfillPlanner.PickGpu | adaptive_executor/scheduling.py:282-297 | The offset loop returns the first GPU with room from the index onwards and the place after it, or none and the index unmoved. |
| Planner.BackfillPlanner.Fits | adaptive_executor/scheduling.py:299-324 | The chain of early returns decides admissibility in workers, exclusiveness, cores, memory and GPUs, with the GPU and index an admission would use. |
| Planner.BackfillPlanner.Admit | adaptive_executor/scheduling.py:326-363 | An admission appends the decision, takes resources and a slot, holds the identity, and becomes an occupant only at the front. |
| Planner.BackfillPlanner.StateAt | adaptive_executor/scheduling.py:370-383 | The loop over occupants gives back exactly what has been released by the moment asked for. |
| Planner.BackfillPlanner.ComputeReservation | adaptive_executor/scheduling.py:385-392 | The loop over release times returns the first at which the head is admissible, else infinity. |
| Planner.BackfillPlanner.GpuOptions | adaptive_executor/scheduling.py:408-422 | The loop lists all GPUs with room in the order of increasing offsets from the index, each with the place after it. |
| Planner.BackfillPlanner.PlaceBackfill | adaptive_executor/scheduling.py:449-478 | The option loop returns the first placement allowed by rule (b) or rule (a), and which rule it was. |
| Planner.BackfillPlanner.Backfill | adaptive_executor/scheduling.py:424-447 | The loop skips canary-blocked and unfitting candidates and admits, in queue order, exactly those that a rule lets past the head, on the placement that rule found. |
| Planner.BackfillPlanner.Run | adaptive_executor/scheduling.py:205-259 | Early returns, the front-admission loop and backfill leave exactly the state and the plan of the cycle as a function: nothing beside a running exclusive task, FIFO admission, then backfill behind the blocked head. |
| Reservations.ReleaseTimesAreReleases | adaptive_executor/scheduling.py:367-368 | The release times are exactly the occupants' known remaining times, without duplicates, ascending. |
| Reservations.ReservationIsEarliestFit | adaptive_executor/scheduling.py:385-392 | For a head that does not fit now, at any moment whatever, not only at release times, the head fits the projection if and only if the reservation is due by then; an infinite reservation means it never fits. |
| Reservations.BackfillOneSteps | adaptive_executor/scheduling.py:424-478 | A candidate is admitted if and only if the canary does not hold it, it fits now, and on some GPU with room for it it finishes before the reservation or the head still fits at its reservation beside it; otherwise nothing changes. |
| Reservations.TryOptionsIsFirst | adaptive_executor/scheduling.py:449-478 | The placement found is the first option on which a rule lets the candidate go, by rule (b) exactly if it finishes before the reservation; none is found exactly if there is no such option. |
| Reservations.BackfillKeepsHead | adaptive_executor/scheduling.py:424-502 | After all backfill, booked with rule-(b) tasks releasing at their durations and rule-(a) tasks never, the head still fits at its reservation. |
| Reservations.BackfillShrinks | adaptive_executor/scheduling.py:424-502 | No backfill makes any projection roomier than it was. |
| Reservations.BackfillNeverDelaysHead | adaptive_executor/scheduling.py:385-502 | After all backfill the head fits the projection to any moment exactly when its original reservation is due: the earliest fit, in memory, slots and per GPU, has not moved. |
| Reservations.UnreachableReservationStalls | adaptive_executor/scheduling.py:238-254 | If the head would not fit even after every known release, backfill admits nothing at all. |
| Reservations.InfiniteReservationKeepsRoom | adaptive_executor/scheduling.py:245-254 | With an infinite reservation nothing passes by rule (b), and if anything passes, the head still fits once every known release has happened. |
| Plans.EveryDecisionJustified | adaptive_executor/scheduling.py:205-254 | Every decision, front or backfill, fitted what the earlier ones left, sits on a GPU with room if it needs one, and respected the canary. |
| Plans.PlanWithinWorkers | adaptive_executor/scheduling.py:311-316 | A plan with any decision leaves running plus planned tasks within the worker cap. |
| Spread.PlanWithinCores | adaptive_executor/scheduling.py:273-316 | Every decision, front or backfill, leaves a worker, and where usage is measured workers enough for all that run by then at the cores of the task that joins. |
| Plans.PoolsStayPositive | adaptive_executor/scheduling.py:317-348 | After a plan, free memory is strictly positive, and so is free VRAM on every GPU a decision went to. |
| Plans.RoundRobinInRange | adaptive_executor/scheduling.py:282-297 | The round-robin index stays in range over any cycle. |
| Spread.PlanIndexFollows | adaptive_executor/scheduling.py:282-297 | After a plan the round-robin index stands one place after the GPU taken last, or where it stood. |
| Spread.FrontProjection | adaptive_executor/scheduling.py:342-383 | After front admission the projection to any moment is what is free then if everything in flight and everything started at the front in this very cycle runs exactly its estimate. |
| Plans.OneColdTaskPerIdentity | adaptive_executor/scheduling.py:261-269 | A cold task is planned only if no running task holds its identity, and no other cold task of that identity is planned with it. |
| Plans.PlanRefinesFifo | adaptive_executor/scheduling.py:205-254 | The decisions are a subsequence of the queue in order, nothing planned twice, that begins with exactly what the independently specified strict FIFO starts and passes over the first blocked task. |
| Plans.FrontStops | adaptive_executor/scheduling.py:214-236 | Front admission stops only with the queue empty, right after an exclusive task, or at a task that the canary blocks or that does not fit. |
| Turns.PlanIsFifoThenPassers | adaptive_executor/scheduling.py:205-254 | The decisions of any plan are exactly what strict FIFO starts, followed by the candidates that pass the blocked head in their turns, each on the first option on which a rule lets it. |
| Turns.StartsExactly | adaptive_executor/scheduling.py:205-254 | A queued task, wherever it stands, is planned if and only if strict FIFO reaches it or it passes the blocked head in its turn. |
| SideBySide.FifoAtGoesInTurn | docs/features/backfill-scheduling.md:163-167 | A strict FIFO cycle starts exactly the longest prefix of the queue in which each task may start beside what is in flight and the starts before it. |
| StrictFifo.FrontIsFifo | adaptive_executor/scheduling.py:214-236 | Front admission starts exactly what strict FIFO, specified on its own by the order-free admissibility test, starts. |
| StrictFifo.FifoStartsFrontExactly | docs/features/backfill-scheduling.md:163-167 | Strict FIFO starts something exactly if nothing exclusive runs and the first task is neither held by the canary nor too big. |
| Plans.ExclusiveRunsAlone | adaptive_executor/scheduling.py:205-243 | A plan is empty while an exclusive task runs, and a plan with an exclusive task in it is that task alone with nothing running, including by way of backfill. |
| ExclusiveHeads.ExclusiveHeadExactly | docs/features/backfill-scheduling.md:119-121 | With an exclusive task at the front a plan is that task alone if nothing is in flight and it fits, and otherwise empty. |
| ExclusiveHeads.MachineDrains | docs/features/backfill-scheduling.md:119-121 | Over any run in which it waits at the front nothing is planned and what is in flight only drains, and it is planned, alone, in the first cycle that finds the machine idle with room for it. |
| Plans.IdleMachineStalls | adaptive_executor/scheduling.py:238-254 | On an idle machine a head that does not fit stalls the whole queue. |
| Plans.PlanNeverDelaysHead | adaptive_executor/scheduling.py:205-502 | For the blocked head of a whole plan with a finite reservation, the earliest fit after every decision, front and backfill, is exactly that reservation. |
| Plans.UnreachableHeadStallsPlan | adaptive_executor/scheduling.py:238-254 | A head that known releases can never make room for, blocked by resources or by the canary, reduces the plan to what strict FIFO admits. |
| Plans.CanaryBlockedHeadKeepsRoom | adaptive_executor/scheduling.py:245-254 | Behind a canary-blocked head only rule (a) admits, and whatever it admits leaves the head room once all finite-duration occupants are done. |
| Runs.AppointmentKept | adaptive_executor/scheduling.py:370-502 | If the head could start at some absolute time after this cycle, it still can after the next, whatever was shipped, finished or newly queued in between. |
| Runs.AppointmentMet | adaptive_executor/scheduling.py:214-233 | A cycle at or after the head's appointed time plans the head first. |
| Runs.CycleNeverSlips | adaptive_executor/scheduling.py:370-502 | From one cycle to the next the head is planned, or waits with a finite reservation no later in absolute time. |
| Runs.ReservationNeverSlips | adaptive_executor/scheduling.py:370-502 | Over a run of any length, while the head is at the front, its absolute reservation never moves later, and any cycle at or after it plans the head. |
| Fairness.FifoStartsExactly | docs/features/backfill-scheduling.md:163-167 | A strict FIFO cycle starts the front task exactly if it may start beside what is in flight. |
| Fairness.FifoWinsExactly | docs/features/backfill-scheduling.md:163-167 | One cycle of backfill and a task at the front of both queues afterwards: there are later moments, the same tasks having finished, at which strict FIFO starts it and this scheduler does not, if and only if some of the tasks in flight or started by strict FIFO leave it free to start, and together with those that pass in their turns do not. |
| Fairness.FifoStartsItEarlier | adaptive_executor/scheduling.py:449-478 | A warm head of 40 GB, a task of 90 s let past it by rule (b), and a runner that finishes after 1 s instead of 100: strict FIFO starts the head then, and this scheduler does not while the task of 90 s runs. |
| Fairness.FifoNoSooner | docs/features/backfill-scheduling.md:163-167 | If no task in flight finishes before its estimate, strict FIFO starts a waiting head no sooner than its reservation. |
| Fairness.FifoNeverSooner | docs/features/backfill-scheduling.md:163-167 | From a cycle in which the head already waits at the front: if strict FIFO starts it, no task in flight having finished early, then in every run of this scheduler in which no task outlives its estimate and the canary does not hold the head, a cycle at or after that moment plans it if none before did. |
| SideBySide.LostExactly | docs/features/backfill-scheduling.md:163-167 | In any two worlds: strict FIFO starts a task that waits here and is not planned if and only if it does so, the task does not pass in its turn, and some task up to it is held up, with or without what is in flight here alone. |
| Races.FirstLossExactly | docs/features/backfill-scheduling.md:163-167 | After any number of cycles of both from one world, nothing lost so far, and for a task anywhere in the queue: it is lost if and only if strict FIFO starts it, it does not pass in its turn, and some task up to it is crowded out by what is in flight here alone, or needs VRAM while something stands on another GPU than under strict FIFO. |
| Races.AloneAreEarly | docs/features/backfill-scheduling.md:163-167 | As long as nothing is lost, what is in flight here alone is exactly what is in flight here and still waits under strict FIFO. |
| Races.MisplacedMeansScattered | adaptive_executor/scheduling.py:282-297 | A task that does not fit even beside what is in flight in both needs VRAM, and something stands on another GPU here than under strict FIFO. |
| Races.EverLosesExactly | docs/features/backfill-scheduling.md:163-167 | A run loses something if and only if, in some cycle before which it has not, strict FIFO starts a task that is held back here. |
| EarlyStarts.EarlyExactly | adaptive_executor/scheduling.py:424-478 | A task that waits under strict FIFO is in flight here if and only if in some earlier cycle it was reached in turn or passed the blocked head in its turn, found a worker, and has not yet run for its time. |
| EarlyStarts.LossNeedsOvertaking | adaptive_executor/scheduling.py:424-478 | Something is lost only if some task passed a blocked head in an earlier cycle; until then the two runs are one. |
| EarlyStarts.FirstLossWithOneGpu | adaptive_executor/scheduling.py:282-297 | With at most one GPU in the rotation the exact condition is crowding alone. |
| NeverLater.NeverLaterFromFront | docs/features/backfill-scheduling.md:163-167 | A task at the front here is planned by the time strict FIFO starts it, anywhere in its queue, if whatever was in flight here then and should still hold is in flight there, and from then on no task outlives its estimate and the canary does not hold it. |
| NeverLater.NeverLaterThanFifo | docs/features/backfill-scheduling.md:163-167 | The same if nobody passed a blocked head before the task came to the front and no task in flight then ends before its estimate. |
| LostRaces.OvertakenBeforeTheFront | adaptive_executor/scheduling.py:480-502 | From one world, every task running exactly its estimate: a long task passes by rule (a), strict FIFO starts the head and the next task when the runner ends, and this scheduler only the head; the next task waits for as long as the head runs. |
| LostRaces.MisplacedByThePast | adaptive_executor/scheduling.py:282-297 | From one world, every task running exactly its estimate: a brief task passes by rule (b) and ends, and with nothing in flight here strict FIFO starts a task that this scheduler does not, because the rotation has moved on. |
| Overtaking.CanBeOvertaken | adaptive_executor/profiles.py:119-156 | Over every queue of the executor, in which tasks of a cold head's identity have no expected duration and at least the memory their common profile allows: one can be let past, and then for good, if and only if the head is cold, there is a slot and more than that memory now, and the head still fits at its reservation beside it and a slot more. |
| Overtaking.UnobservedEstimates | adaptive_executor/profiles.py:119-156 | Estimates from a profile without observations have no duration and at least 0.1 GB and the crash floor, and that minimum is reached. |
| Overtaking.SomeQueueOvertakes | adaptive_executor/scheduling.py:424-447 | Over every queue the planner may be given, with the minimum sizes and by either rule: the same with 0.1 GB, or a finite reservation where the overtaking is not to hold for good. |
| Overtaking.OvertakenExactly | adaptive_executor/scheduling.py:424-447 | The given queue overtakes a cold head if and only if some candidate of its identity passes it when its turn comes. |
| Overtaking.SiblingClamps | adaptive_executor/scheduling.py:261-269 | While a task of a cold head's identity is in flight, the canary blocks the head and no plan starts it. |
| Overtaking.OvertakenIsClamped | adaptive_executor/scheduling.py:261-269 | Over any run in which a task of a cold head's identity was planned and is still in flight at the end, every cycle after the first finds the head blocked by the canary and does not start it. |
| Overtaking.FifoWouldHaveStartedIt | adaptive_executor/scheduling.py:238-254 | With the executor's own default estimate for the head and a hinted sibling of 0.75 GB: strict FIFO starts the head when the runner finishes and this scheduler does not, although it fits, for as long as the sibling runs. |
| SharedGpus.SharesTheReservedGpu | adaptive_executor/scheduling.py:480-502 | A concrete plan puts a task of unknown duration on the GPU the waiting head would be given at its reservation, the only one there is. |
| SharedGpus.PutOnExactly | adaptive_executor/scheduling.py:449-502 | A candidate that outlasts the reservation is put on GPU g if and only if the canary, memory and slots let it start and g is the first GPU with room now beside which the head still fits at its reservation. |
| SharedGpus.SharesExactly | docs/features/backfill-scheduling.md:168-169 | It is put on the very GPU the head would be given if and only if that GPU is its first choice now, memory and slots do for both, and either that GPU has VRAM for both or another could take the head. |
| SharedGpus.BackfillSharesExactly | docs/features/backfill-scheduling.md:168-169 | A whole backfill puts some candidate by rule (a) on the GPU the head would be given as of that turn if and only if some candidate in its turn outlasts the reservation, at which the head still fits, and shares its GPU. |
| SharedGpus.KeptFreeStaysFree | docs/features/backfill-scheduling.md:168-169 | If one GPU only can take the head, and no candidate that outlasts the reservation leaves it enough VRAM there, no backfill puts such a candidate on it. |
| Stalling.ColdHeadStallsFeasibleWork | adaptive_executor/scheduling.py:245-254 | A canary-blocked head that does not fit beside the canary stalls a warm task that fits. |
| Stalling.FittingColdHeadStallsFeasibleWork | adaptive_executor/scheduling.py:245-254 | So does one that fits beside the canary, but not beside the canary and the warm task. |
| Stalling.NothingPassesExactly | adaptive_executor/scheduling.py:424-447 | Backfill admits nothing if and only if no candidate passes the head as things stand before it. |
| Stalling.RefusedExactly | adaptive_executor/scheduling.py:245-254 | Behind a canary-blocked head a warm task that could start at its turn is refused if and only if, on every GPU with room for it, the head would not fit beside it even after every known release. |
| Stalling.StallsWarmWorkExactly | adaptive_executor/scheduling.py:238-254 | A whole plan refuses some feasible warm task behind a canary-blocked head if and only if that condition holds of some feasible warm task at its turn. |
| Stalling.FirstFeasibleRefusedExactly | adaptive_executor/scheduling.py:245-254 | For a feasible warm task that nothing ahead of it passes, the condition is read off the state before backfill. |
| Accounting.CreditIsExact | adaptive_executor/accounting.py:34-42 | Observed use plus commitment is the larger of estimate and use: nothing counted twice, nothing forgotten, never negative. |
| Accounting.CommitmentShrinksWithUse | adaptive_executor/accounting.py:58-60 | Observing more on any task never commits more in total. |
| Accounting.CommittedVramPerGpu | adaptive_executor/accounting.py:63-76 | The table has an entry for exactly the pinned GPUs, each the sum of the remainders on it. |
| Profiles.WindowIsLastObserved | adaptive_executor/profiles.py:57-60 | After any history of observations and crashes the window holds exactly the last observations, up to its size. |
| Profiles.AHundredAreKept | adaptive_executor/profiles.py:38-61 | A new profile keeps the last hundred observations. |
| Profiles.FloorIsItsHistory | adaptive_executor/profiles.py:57-95 | After any history the floor is the largest one set since the last clearing, a clearing being an observation that ends five in a row, some possibly older than the floor, below half of it. |
| Profiles.LargestFloorIsLargest | adaptive_executor/profiles.py:63-70 | The ratchet is a maximum: it was set, and no other floor set in the history exceeds it. |
| Profiles.SmallWindowNeverClears | adaptive_executor/profiles.py:84-86 | A window of one to four observations never clears a floor. |
| Profiles.EstimateRespectsFloor | adaptive_executor/profiles.py:145-155 | Whatever the hints, an estimate is at least the floor and the fixed minimums, and has a duration exactly when there is history. |
| Profiles.P90IsOrderStatistic | adaptive_executor/profiles.py:101-106 | The p90 is a value of the sample strictly exceeded by at most a tenth, rounded up, of the other values, and any smaller number is exceeded by more. |
| Profiles.P90IsPermutationInvariant | adaptive_executor/profiles.py:101-106 | The p90 depends on the sample only as a multiset. |
| Profiles.EstimateNearP90 | adaptive_executor/profiles.py:108-155 | Without hint and floor, and from 0.1 GB up, the memory estimate lies between one and one and a half times the p90, and equals it from ten observations on. |
| Estimates.EstimateFromIsEstimate | adaptive_executor/profiles.py:97-158 | For any history, floor and hints: memory and VRAM are each their own hint, or else the value of their own kind that at most a tenth of the other observations exceed, or a default, padded by 50% less 5% for each of the first ten observations, with their own minimum and, for memory, the floor; the duration is the value so characterised among the durations, and exists if there is history; cores are the mean CPU use over 100. |
| Estimates.HintDecides | adaptive_executor/profiles.py:107-147 | With hints, memory and VRAM are the padded hints whatever was observed, but for the floor. |
| Estimates.VramNearNinetieth | adaptive_executor/profiles.py:116-156 | Without a hint the VRAM estimate lies between the p90 of the observed VRAM and half as much again, and is it from ten observations on. |
| LearnedProfiles.LearnedProfile.Add | adaptive_executor/profiles.py:57-61 | Appending, trimming the window in place and trying to recover the floor do to the profile what one observation event does. |
| LearnedProfiles.LearnedProfile.SetMemoryFloor | adaptive_executor/profiles.py:63-75 | In place, the floor becomes the larger of the old floor and the new value, observations and window untouched: the crash event of the history theorems. |
| LearnedProfiles.LearnedProfile.MaybeRecoverFloor | adaptive_executor/profiles.py:77-95 | In place, the floor is cleared or kept, and cleared only under the five-observation rule, observations and window untouched: the recovery of the history theorems. |
| Stores.IdentityNamesEstimate | adaptive_executor/profiles.py:192-249 | The identity reported to the canary names the very profile estimation copies, with its sample count, and reading changes no profile. |
| Stores.BucketDecides | adaptive_executor/profiles.py:192-249 | If the key is given and its bucket has an observation, the profile selected is the bucket's and the identity its key, whatever the aggregate holds; otherwise they are the aggregate's. |
| Stores.ObservationOpensBucket | adaptive_executor/profiles.py:251-280 | Once an observation is recorded for an origin with a key, the next selection for it is its bucket, where that observation is the last. |
| Stores.KeysTellApart | adaptive_executor/profiles.py:31-46 | Buckets of one function, functions that differ in name only and functions that differ in module only have different keys. |
| Stores.RecordWritesBoth | adaptive_executor/profiles.py:251-307 | An event lands once on the aggregate, once on the bucket if there is one, and nowhere else. |
| Stores.WarmStaysWarm | adaptive_executor/profiles.py:228-249 | No event recorded anywhere turns a warm origin cold or empties a profile. |
| Stores.ProfileRoundTrip | adaptive_executor/profiles.py:329-402 | Saving and loading one profile, in list or dictionary shape, brings back its observations and its floor, and does not clear the floor on the way. |
| Stores.LoadedExactly | adaptive_executor/profiles.py:365-409 | One unreadable entry empties the store; otherwise every entry comes back with the last hundred of its observations in order and its floor. |
| Stores.StoreRoundTrip | adaptive_executor/profiles.py:329-409 | Loading what was saved restores the store exactly if and only if every profile has the default window. |
| Stores.RecordKeepsDefaultWindow | adaptive_executor/profiles.py:251-307 | Recording into a store with default windows keeps default windows. |
| ProfileStores.ProfileStore.Write | adaptive_executor/profiles.py:251-327 | Both writes land in place and a save is due exactly when a batch is full or the interval has passed, with the counters reset then and only then. |
| ProfileStores.ProfileStore.Get | adaptive_executor/profiles.py:192-226 | Reading returns the bucket's profile if that has been observed and else the aggregate's, and may enter an empty aggregate but changes no profile. |
| ProfileStores.ProfileStore.Restore | adaptive_executor/profiles.py:382-409 | The entry-by-entry load gives the loaded store, and one unreadable entry empties it. |
| ExecutorInvariants.NeverIgnored | adaptive_executor/adaptive_executor.py:971-973 | No task in flight is marked as ignoring its result, and its future is running: the branch for ignored results is never taken. |
| ExecutorInvariants.PenalizedIsQueueable | adaptive_executor/adaptive_executor.py:1143-1207 | A penalized task is fit to be queued again: doubled exactly once more, exclusive, unplaced, unobserved, and counted as one more retry. |
| ExecutorInvariants.TakeTimeoutKeepsInv | adaptive_executor/adaptive_executor.py:1006-1035 | The locked part of a timeout, killing or not, keeps the executor's invariant. |
| ExecutorInvariants.TakeLostKeepsInv | adaptive_executor/adaptive_executor.py:1120-1141 | The locked part of losing a worker keeps the invariant, whether its task is retried, dropped or already gone. |
| ExecutorInvariants.CheckWorkersKeepsInv | adaptive_executor/adaptive_executor.py:1082-1100 | Moving dead workers out of the pool and reaping exited ones keeps the invariant, whichever processes died. |
| ExecutorInvariants.StopAllKeepsInv | adaptive_executor/adaptive_executor.py:1277-1287 | Telling every worker to stop keeps the invariant. |
| ExecutorDispatch.HandshakeNeverRaises | adaptive_executor/adaptive_executor.py:371-391 | The running handshake of a queued task never raises, first attempt or retry. |
| ExecutorDispatch.AcquireKeepsInv | adaptive_executor/adaptive_executor.py:751-782 | Reusing, spawning or evicting yields an idle worker pinned as wanted, moves no task, and stays within the cap. |
| ExecutorDispatch.BackpressureIsExact | adaptive_executor/adaptive_executor.py:751-782 | No worker can be had exactly when the pool is at its cap and every worker in it is busy, stopped or dead; while one with the right pin is idle, none is spawned or evicted. |
| ExecutorDispatch.ShipAllShips | adaptive_executor/adaptive_executor.py:357-406 | Carrying out a plan appends to what is in flight exactly some of the planned tasks, in plan order, each on its planned GPU with its observations reset. |
| ExecutorRuns.ApplyKeepsInv | adaptive_executor/adaptive_executor.py:318-1287 | Every step of every thread keeps the invariant: conservation, futures agreeing with places, exact retry accounting, and worker matching. |
| ExecutorRuns.TasksAreConserved | adaptive_executor/adaptive_executor.py:318-1216 | After any interleaving a submitted id occurs exactly once among queue, in-flight table, handlers, finished and dropped, and an unknown id nowhere. |
| ExecutorRuns.InFlightIsSafe | adaptive_executor/adaptive_executor.py:393-399 | In every reachable state pool and in-flight table are within the cap, an exclusive task in flight is the only one, cold tasks in flight have different identities, and distinct tasks are on distinct workers, each busy with that task, pinned to its GPU and not retiring. |
| ExecutorRuns.FuturesAgree | adaptive_executor/adaptive_executor.py:371-391 | In every reachable state: in flight or held means running, a done future still queued is a cancelled one, at most one handshake and one settlement per future, finished means done, and dropping happens only during shutdown. |
| ExecutorRuns.RetriesDouble | adaptive_executor/adaptive_executor.py:1143-1207 | In every reachable state a task queued for its k-th retry was sent k times, is exclusive, has no expected duration, and carries exactly 2^k times the estimate it was first sent with; re-estimation has not touched it. |
| ExecutorRuns.DispatchShips | adaptive_executor/adaptive_executor.py:352-406 | A dispatch cycle appends to what is in flight exactly what it sent for the plan of the queue it saw, stamped with the cycle's time. |
| ExecutorRuns.PlanPromises | adaptive_executor/adaptive_executor.py:498-568 | A plan made from a reachable state respects the cap, exclusive isolation and the canary against what is actually in flight. |
| ExecutorRuns.DispatchKeepsFlight | adaptive_executor/adaptive_executor.py:318-406 | A dispatch cycle keeps the cap, exclusive isolation and one cold task an identity over everything in flight. |
| Refreshing.QueueIsRefreshed | adaptive_executor/adaptive_executor.py:329-456 | After a cycle's preparation every task has been refreshed if due, so that it carries its profile's estimate and at least its floor, and is left in the queue if and only if that estimate is not infeasible. |
| Refreshing.SubmittedLast | adaptive_executor/adaptive_executor.py:280-310 | A new task stands last in an otherwise unchanged queue, with the estimate of its own profile under its own hints. |
| Refreshing.StampedExactly | adaptive_executor/adaptive_executor.py:583-614 | A queued task is cold if and only if nothing has been observed for what it is estimated from and neither hint was given, and goes by that identity. |
| Refreshing.CommitsTheRest | adaptive_executor/adaptive_executor.py:537-661 | A task in flight commits, and is expected to release, what its estimate exceeds its measured growth by, in memory and on its own GPU. |
| ExecutorSpread.DispatchWithinCores | adaptive_executor/scheduling.py:273-316 | Over a dispatch cycle each task that joins what is in flight finds a worker left, and where usage is measured workers enough for all in flight by then at its cores. |
| ExecutorSpread.RotationGoesOn | adaptive_executor/adaptive_executor.py:352-356 | A dispatch cycle leaves the index for the next one just after the last GPU it planned for. |
| ExecutorSpread.UnmeasuredFitsExactly | docs/features/backfill-scheduling.md:127-128 | Without a snapshot a task is admissible if and only if a worker is left, it would be alone if exclusive, and there is any GPU if it needs one. |
| ExecutorProgress.EveryStepMoves | adaptive_executor/adaptive_executor.py:318-1216 | For each kind of step, exactly what it can do to one task's place, number of sends and future, and that it does nothing to others. |
| ExecutorProgress.CarriedOutExactly | adaptive_executor/adaptive_executor.py:360-400 | A planned task stays queued exactly when no worker can be had, leaves for good exactly when it was cancelled, and is sent in every other case. |
| ExecutorProgress.EveryMoveDescends | adaptive_executor/adaptive_executor.py:1143-1175 | Every change of place of a task, re-queueing included, strictly lowers a rank made of remaining retries and place, and no step raises it. |
| ExecutorProgress.TasksMoveBoundedly | adaptive_executor/adaptive_executor.py:1167-1175 | In any run a task is sent at most r + 1 times and changes place at most 3r + 4 times, for r allowed crash retries. |
| ExecutorProgress.CrashTeaches | adaptive_executor/adaptive_executor.py:1174-1200 | After a crash that looks like an OOM, no task of the same function and bucket is estimated below what the crashed task was admitted with, whatever the hints. |
| Outcomes.ResultTeaches | adaptive_executor/adaptive_executor.py:974-988 | The observation of a taken result, good or bad, reaches the aggregate and the bucket of its task, where it is last, and no other profile; a result nobody holds teaches nothing. |
| Outcomes.CrashDecides | adaptive_executor/adaptive_executor.py:1143-1207 | A crash with exit code -9 or 137 within the allowed retries puts the task at the very front, exclusive and doubled, before an unchanged queue, and teaches its profile what it was admitted with; any other fails it and teaches nothing. |
| Outcomes.TimeoutDecides | adaptive_executor/adaptive_executor.py:1006-1035 | If timed-out workers are killed the worker leaves the pool, poisoned and off every task; if not it stays, off the task, and the late result is to be ignored; nobody else leaves. |
| Outcomes.FreedExactly | adaptive_executor/adaptive_executor.py:812-850 | A worker whose result is handled stays in the pool, free and one task older, unless it has reached its allowance, when it leaves it, stopped. |
| Outcomes.ResultFreesWorker | adaptive_executor/adaptive_executor.py:949-973 | A result frees the worker it names, in flight or stale alike: it stays in the pool one task older, or leaves it stopped at its allowance; no other worker changes. |
| Outcomes.GoneAreMoved | adaptive_executor/adaptive_executor.py:1082-1100 | Exactly the workers whose process is gone leave the pool and the retiring list, those of the pool for the crash handler. |
| Outcomes.FirstIdleIsFirst | adaptive_executor/adaptive_executor.py:751-771 | The worker reused or evicted is the first in the pool that is idle, alive, not stopped and pinned as wanted. |
| Outcomes.OutForGood | adaptive_executor/adaptive_executor.py:751-850 | A worker that has left the pool is in the pool in no continuation of any run. |
| Outcomes.KilledForGood | adaptive_executor/adaptive_executor.py:1006-1045 | So a worker killed for a timeout is never reused. |
| ExecutorProgress.TakenResultIsFinal | adaptive_executor/adaptive_executor.py:949-988 | Once a result is taken from flight, no continuation of the run queues, sends or fails the task again, and its future ends with exactly that result. |
| ExecutorProgress.OverIsForever | adaptive_executor/adaptive_executor.py:1245-1260 | A settled task never moves again and its future never changes. |
| ExecutorProgress.DoneIsForever | adaptive_executor/adaptive_executor.py:1220-1260 | A done future never changes again, but that a cancelled one is noticed, and its task is never sent again. |
| ExecutorProgress.WarmIsForever | adaptive_executor/adaptive_executor.py:583-598 | Over any run of the executor a store key with observations never loses them all: a warm identity never becomes cold. |
| Draining.DrainDelivers | adaptive_executor/adaptive_executor.py:896-913 | Draining a queue settles every task in flight that has a message in it with its first message, current or earlier, and moves no other task. |
| Draining.DeliveredBeforeDeath | adaptive_executor/adaptive_executor.py:1120-1141 | Draining a dead worker and then giving it up, one after the other: if its queue holds a result for the task it was on, the task is settled with it and nothing is queued, retried or failed; such a worker's queue is never poisoned. |
| Draining.LostWithoutMessage | adaptive_executor/adaptive_executor.py:1132-1141 | Drained and given up one after the other without such a result, the task goes to the crash handler, or, if the worker had been told to stop, is dropped with its future still running. |
| Draining.BurySettles | adaptive_executor/adaptive_executor.py:1120-1207 | Handling a dead worker from start to end: a result in its queue decides, and without one its task is dropped if it had been told to stop, queued again after signal 9 within the allowed retries, and otherwise failed. |
| Draining.ReapDelivers | adaptive_executor/adaptive_executor.py:1082-1118 | Tasks in flight with a message in a readable queue of a reaped worker are settled with one of them, and no other task is touched. |
| LastSweep.SweepSettles | adaptive_executor/adaptive_executor.py:1082-1207 | A whole sweep over the workers, reaping and burying any number of them: a task whose worker has died, and about which no other queue the sweep reads has a message, meets the fate its own worker's queue, exit code and orders decide. |
| LastWords.UntakenFlies | adaptive_executor/adaptive_executor.py:1120-1141 | Until its result or timeout is taken or its worker given up, nothing any thread does touches the task of a dead worker. |
| LastWords.FirstTakerDecides | adaptive_executor/adaptive_executor.py:949-1141 | With steps of all threads before and after: a result taken first is what the future ends with, a timeout taken first fails the task, and a worker given up first leaves the task to the crash handler or, if it had been told to stop, settled never. |
| LastWords.DeliveredIsNotLost | adaptive_executor/adaptive_executor.py:1120-1141 | Once the drain has taken a result for the task a dead worker was on, whatever else has happened, the task is settled or with the handler that took it, and giving up the worker moves no task. |
| LastWords.DroppedForGood | adaptive_executor/adaptive_executor.py:1132-1138 | From the initial state, submit, dispatch, stop all, find the worker dead, give it up: the task is dropped, and in every continuation its future stays running. |
| Headroom.DispatchKeepsHeadroom | adaptive_executor/adaptive_executor.py:511-535 | After any cycle that ships something under a snapshot, use plus commitment plus headroom is strictly below total memory, and likewise on every GPU shipped to. |
| Headroom.HeadroomIsInvariant | adaptive_executor/adaptive_executor.py:511-661 | Under a static snapshot and no observed credit that holds in every reachable state with something in flight, on every GPU in use. |
| Feasibility.EverFitsExactly | adaptive_executor/scheduling.py:299-324 | Whatever is running, used or released, a task can be admissible in some situation on a machine exactly when it is strictly within the totals less headroom, on a GPU of the rotation if it needs one. |
| Feasibility.SweepIsSound | adaptive_executor/adaptive_executor.py:458-496 | An estimate the sweep rejects is admissible in no situation on that machine; one it keeps is admissible in some, unless it meets one of the listed overlooked limits, and then in none. |
| Feasibility.LimitIsOverlooked | adaptive_executor/adaptive_executor.py:475-483 | A concrete estimate exactly at the limit is neither rejected nor ever admissible. |
| Feasibility.RejectedIsNeverPlanned | adaptive_executor/adaptive_executor.py:329-348 | No plan made under a snapshot of the machine contains a task the sweep would reject. |
| Feasibility.OverlookedHeadStalls | adaptive_executor/adaptive_executor.py:329-333 | A queue head that no situation admits stalls every plan completely. |
| Recycling.PoolStaysFresh | adaptive_executor/adaptive_executor.py:812-817 | In every reachable state a worker in the pool has handled fewer results than its allowance or is being stopped. |
| ExecutorReservations.PlansAgree | adaptive_executor/adaptive_executor.py:498-614 | On a static machine without observed growth the executor's plan is the plan of the planner's run over the same tasks. |
| ExecutorReservations.CyclesAreChained | adaptive_executor/adaptive_executor.py:318-406 | In any run of the executor, whatever the other threads do, consecutive dispatch cycles are consecutive cycles of the planner's run. |
| ExecutorReservations.ExecutorNeverSlips | adaptive_executor/adaptive_executor.py:318-406 | In any such run, while a waiting head stays at the front unchanged, its absolute reservation never moves later from cycle to cycle, and a cycle at or after it plans the head. |
| AdaptiveExecutor.AdaptiveExecutor.constructor | adaptive_executor/adaptive_executor.py:123-177 | A new executor has nothing queued, running or pooled, and satisfies the invariant. |
| AdaptiveExecutor.AdaptiveExecutor.InfeasibleEstimate | adaptive_executor/adaptive_executor.py:458-496 | Comparing with the largest GPU found by a scan rejects exactly the estimates beyond total memory, or beyond every GPU, less headroom, where that is known. |
| AdaptiveExecutor.AdaptiveExecutor.Submit | adaptive_executor/adaptive_executor.py:280-310 | A feasible task is queued last with its estimate; an infeasible one changes nothing. |
| AdaptiveExecutor.AdaptiveExecutor.ReestimatePending | adaptive_executor/adaptive_executor.py:408-456 | In place, each waiting task that is due and has no crash penalty is given the estimate of its profile under its own hints if that has other samples or another floor than last seen, and notes both; every other keeps its estimate. |
| AdaptiveExecutor.AdaptiveExecutor.SweepInfeasible | adaptive_executor/adaptive_executor.py:334-348 | Rebuilding the queue while settling one by one expels exactly the infeasible tasks; a cancelled one keeps its future. |
| AdaptiveExecutor.AdaptiveExecutor.MeasureCapacity | adaptive_executor/adaptive_executor.py:507-535 | The loop over GPUs yields total less use, headroom and commitment for exactly the known GPUs, or unbounded amounts without a snapshot. |
| AdaptiveExecutor.AdaptiveExecutor.BuildDispatchPlan | adaptive_executor/adaptive_executor.py:498-568 | Every in-flight task's observed growth is refreshed and every queued task stamped with its identity and coldness, in place, and the plan returned is the planner's for exactly those tasks, releases and free capacities. |
| AdaptiveExecutor.AdaptiveExecutor.GetOrSpawnIdleWorker | adaptive_executor/adaptive_executor.py:751-771 | The loops reuse the first alive idle worker with the wanted pin, else evict at the cap, else spawn, else report none. |
| AdaptiveExecutor.AdaptiveExecutor.CarryOutAll | adaptive_executor/adaptive_executor.py:357-406 | Looking tasks up in the unchanged queue and removing them all at the end comes to the same as removing each as it is sent or found cancelled. |
| AdaptiveExecutor.AdaptiveExecutor.MaybeDispatch | adaptive_executor/adaptive_executor.py:318-406 | Re-estimation, sweep, plan and shipping, each in place, together are the atomic dispatch step of the state machine, and keep the invariant. |
| AdaptiveExecutor.AdaptiveExecutor.TakeResult | adaptive_executor/adaptive_executor.py:956-973 | Freeing or recycling the worker and popping the task is the state machine's step, whatever result arrives from whatever worker. |
| AdaptiveExecutor.AdaptiveExecutor.ProcessResult | adaptive_executor/adaptive_executor.py:949-988 | A result frees its worker and, if its task is still in flight, is recorded and settles it; a stale one does neither. |
| AdaptiveExecutor.AdaptiveExecutor.DrainQueue | adaptive_executor/adaptive_executor.py:896-913 | A readable queue is processed first to last, a poisoned one not at all. |
| AdaptiveExecutor.AdaptiveExecutor.HandleTimeout | adaptive_executor/adaptive_executor.py:1006-1045 | A timeout of a task still in flight takes it off its worker and fails it; otherwise nothing happens. |
| AdaptiveExecutor.AdaptiveExecutor.CheckWorkers | adaptive_executor/adaptive_executor.py:1082-1118 | Dead workers leave the pool and exited retired ones are reaped, the readable queues of the reaped are drained, and then each dead worker is drained and its task retried, failed or dropped, in order. |
| AdaptiveExecutor.AdaptiveExecutor.HandleDeadWorker | adaptive_executor/adaptive_executor.py:1120-1165 | Drain first, then retry or fail or drop the task the worker died on, if any is left. |
| AdaptiveExecutor.AdaptiveExecutor.FinishLost | adaptive_executor/adaptive_executor.py:1143-1207 | A crash that looks like an OOM within the retry limit teaches the floor and re-queues the task first, doubled and exclusive; any other fails it. |
| AdaptiveExecutor.AdaptiveExecutor.FailPendingFutures | adaptive_executor/adaptive_executor.py:1209-1216 | Popping and failing task by task expels the whole queue, leaving cancelled futures as they are. |
| AdaptiveExecutor.AdaptiveExecutor.StopAllWorkers | adaptive_executor/adaptive_executor.py:1277-1287 | Every worker of the pool, and no other, is marked as stopped. |

## Left out

- Floating point: gigabytes and seconds are reals, so rounding, not-a-number and the exact index of a percentile under rounding are not modelled.
- Processes, queues and signals: psutil and NVML sampling, subprocess start, kill escalation, queue feeders, logging and function resolution appear only as arbitrary readings, deaths, exit codes and messages.
- Files: JSON text, atomic replacement, flushing on request and the order of two concurrent disk writes; an entry that cannot be read back is one constructor.
- Instruction-level interleaving: a section under the executor's lock is one step.  A caller's cancel inside a dispatch cycle is taken to come before or after it, and a cycle reads the clock once.
- Writing an observation or a floor to the profile store and settling or re-queueing right after it is one step, although other threads may run between the two.
- Submission: reading the profile, estimating and appending are one step, although the program takes the lock only to append, so that another thread may record or dispatch in between.
- Aliasing: queued and in-flight tasks and worker slots are values inside the tables, so sharing of one mutable record between a table and a handler is not captured; the profile store inside the executor is a value too, and the empty profile that reading may create there is not.
- ExecutorState.Submit: which calls are refused because the executor is shut down, or because the function cannot be imported, is not modelled.
- ExecutorProgress.TasksMoveBoundedly: bounds moves but does not promise that any thread ever takes a step.
- ExecutorRuns.FuturesAgree: does not promise that every future is done after shutdown; a crash retry may be queued after the queue was failed, and a dropped task is never settled.
- Runs.ReservationNeverSlips: assumes, as the design does, fixed capacity, no observed credit, no task outliving its estimate, and the same head at the front, neither exclusive nor blocked by the canary, in the cycles it speaks of.
- Races.FirstLossExactly: assumes fixed capacity and no observed credit, and that the same starts find no worker in both runs; cancellations and crash retries are not part of the comparison.
- Timeouts: which tasks have timed out and when is arbitrary; the scan of start times is not modelled.
- Physical isolation: a task failed by a timeout may still be running in its worker; isolation is stated over the in-flight table.
- The set of ids settled without a result is written by the program and never read by it; it is part of the finished set here.
- CPU-core totals of running tasks, which nothing reads.
- The simulation harness, the monitor and the worker process.
