/** What a planning cycle does, as functions on values.  The class `Planner` computes
    these with loops over its own fields; the theorems about plans are stated here. */
module Planning {
  import opened Quantities
  import opened Admission

  /** Why a task was admitted: at the front, by rule (b), or by rule (a). */
  datatype Rule = Front | ShortEnough | Disjoint

  datatype Placement = Placement(task: PendingEntry, gpu: Option<int>, rule: Rule)

  datatype Decision = Decision(pendingId: string, gpu: Option<int>)

  datatype Plan = Plan(decisions: seq<Decision>, nextGpu: int)

  datatype PlanState = PlanState(
    queue: seq<PendingEntry>, occupants: seq<RunningEntry>, pools: Pools, rr: int,
    admitted: seq<Placement>, held: set<string>)

  datatype FrontEnd = Drained | SoleExclusive | Blocked

  function Decisions(admitted: seq<Placement>): (r: seq<Decision>)
    ensures |r| == |admitted|
  {
    seq(|admitted|, i requires 0 <= i < |admitted| => Decision(admitted[i].task.id, admitted[i].gpu))
  }

  // ----- a cycle -----

  /** Identities the running tasks hold. */
  function HeldBy(running: seq<RunningEntry>): set<string> {
    set r | r in running && r.identity.Some? :: r.identity.value
  }

  function Start(pending: seq<PendingEntry>, running: seq<RunningEntry>, cap: Capacity): PlanState {
    PlanState(pending, running, Pools(cap.memoryFree, cap.gpuFree, cap.runningCount), cap.nextGpu,
              [], HeldBy(running))
  }

  predicate CanaryBlocked(held: set<string>, task: PendingEntry) {
    task.cold && task.identity.Some? && task.identity.value in held
  }

  function IdentityOf(task: PendingEntry): set<string> {
    if task.identity.Some? then {task.identity.value} else {}
  }

  /** How an admitted task weighs on later projections.  A rule-(a) task is taken to
      hold its resources for ever; the others release at their duration. */
  function OccupantOf(a: Placement): RunningEntry {
    RunningEntry(a.task.id, a.task.memory, a.task.vram, a.gpu,
                 if a.rule.Disjoint? then None else a.task.duration, false, None)
  }

  function OccupantsOf(admitted: seq<Placement>): (r: seq<RunningEntry>)
    ensures |r| == |admitted|
  {
    seq(|admitted|, i requires 0 <= i < |admitted| => OccupantOf(admitted[i]))
  }

  function Admit(st: PlanState, task: PendingEntry, choice: Choice, rule: Rule): PlanState {
    var a := Placement(task, choice.gpu, rule);
    PlanState(st.queue,
              if rule.Front? then st.occupants + [OccupantOf(a)] else st.occupants,
              Take(st.pools, task.memory, task.vram, choice.gpu),
              choice.next,
              st.admitted + [a],
              st.held + IdentityOf(task))
  }

  /** The front task may start now. */
  predicate FrontAdmits(cap: Capacity, st: PlanState) {
    && st.queue != []
    && !CanaryBlocked(st.held, st.queue[0])
    && FitsPools(cap, st.queue[0], st.pools, st.rr)
  }

  function FrontStep(cap: Capacity, st: PlanState): PlanState
    requires st.queue != []
  {
    Admit(st, st.queue[0], ChoiceFor(cap, st.queue[0], st.pools, st.rr), Front).(queue := st.queue[1..])
  }

  /** Greedy admission from the front, as strict FIFO would do it. */
  function AdmitFront(cap: Capacity, st: PlanState): (r: (PlanState, FrontEnd))
    ensures r.1.Blocked? ==> r.0.queue != []
    decreases |st.queue|
  {
    if st.queue == [] then (st, Drained)
    else if !FrontAdmits(cap, st) then (st, Blocked)
    else if st.queue[0].exclusive then (FrontStep(cap, st), SoleExclusive)
    else AdmitFront(cap, FrontStep(cap, st))
  }

  /** `Fits`, as it is computed: by looking for a first GPU. */
  predicate FitsPools(cap: Capacity, task: PendingEntry, p: Pools, rr: int) {
    FitsNonGpu(cap, task, p) &&
    (task.vram > 0.0 ==> PickGpu(cap.gpuOrder, p.gpu, task.vram, rr).gpu.Some?)
  }

  // ----- the reservation -----

  /** Insertion into an ascending list without duplicates. */
  function InsertTime(times: seq<real>, x: real): seq<real> {
    if times == [] then [x]
    else if x < times[0] then [x] + times
    else if x == times[0] then times
    else [times[0]] + InsertTime(times[1..], x)
  }

  /** The distinct release times of the occupants, ascending. */
  function ReleaseTimes(occupants: seq<RunningEntry>): seq<real> {
    if occupants == [] then []
    else
      var times := ReleaseTimes(occupants[..|occupants| - 1]);
      var o := occupants[|occupants| - 1];
      if o.remaining.Some? then InsertTime(times, o.remaining.value) else times
  }

  function FirstFit(cap: Capacity, head: PendingEntry, st: PlanState, times: seq<real>): Moment {
    if times == [] then Infinity
    else if FitsPools(cap, head, StateAt(st.pools, st.occupants, At(times[0])), st.rr) then At(times[0])
    else FirstFit(cap, head, st, times[1..])
  }

  function Reservation(cap: Capacity, head: PendingEntry, st: PlanState): Moment {
    FirstFit(cap, head, st, ReleaseTimes(st.occupants))
  }

  // ----- backfill -----

  predicate HeadStillFitsWithHold(cap: Capacity, st: PlanState, head: PendingEntry, candidate: PendingEntry,
                                  gpu: Option<int>, reservation: Moment) {
    FitsPools(cap, head,
              Take(StateAt(st.pools, st.occupants, reservation), candidate.memory, candidate.vram, gpu),
              st.rr)
  }

  predicate FinishesBefore(candidate: PendingEntry, reservation: Moment) {
    reservation.At? && candidate.duration.Some? && candidate.duration.value <= reservation.seconds
  }

  function PlacementOptions(cap: Capacity, st: PlanState, candidate: PendingEntry): seq<Choice> {
    if candidate.vram <= 0.0 then [Choice(None, st.rr)]
    else GpuOptions(cap.gpuOrder, st.pools.gpu, candidate.vram, st.rr)
  }

  /** The first option on which the candidate may pass the head, and by which rule. */
  function TryOptions(cap: Capacity, st: PlanState, head: PendingEntry, candidate: PendingEntry,
                      reservation: Moment, options: seq<Choice>): Option<(Choice, Rule)> {
    if options == [] then None
    else if FinishesBefore(candidate, reservation) then Some((options[0], ShortEnough))
    else if HeadStillFitsWithHold(cap, st, head, candidate, options[0].gpu, reservation)
    then Some((options[0], Disjoint))
    else TryOptions(cap, st, head, candidate, reservation, options[1..])
  }

  function BackfillOne(cap: Capacity, st: PlanState, head: PendingEntry, reservation: Moment,
                       candidate: PendingEntry): PlanState {
    if CanaryBlocked(st.held, candidate) || !FitsNonGpu(cap, candidate, st.pools) then st
    else
      match TryOptions(cap, st, head, candidate, reservation, PlacementOptions(cap, st, candidate))
      case None => st
      case Some((choice, rule)) => Admit(st, candidate, choice, rule)
  }

  function Backfill(cap: Capacity, st: PlanState, head: PendingEntry, reservation: Moment,
                    candidates: seq<PendingEntry>): PlanState {
    if candidates == [] then st
    else
      var st' := Backfill(cap, st, head, reservation, candidates[..|candidates| - 1]);
      BackfillOne(cap, st', head, reservation, candidates[|candidates| - 1])
  }

  function HeadReservation(cap: Capacity, st: PlanState, head: PendingEntry): Moment {
    if CanaryBlocked(st.held, head) then Infinity else Reservation(cap, head, st)
  }

  predicate AnyExclusive(running: seq<RunningEntry>) {
    exists r :: r in running && r.exclusive
  }

  /** A whole cycle: nothing beside a running exclusive task, then front admission, then backfill. */
  function Cycle(cap: Capacity, st: PlanState): PlanState {
    if AnyExclusive(st.occupants) then st
    else
      var (front, end) := AdmitFront(cap, st);
      if end != Blocked || front.queue[0].exclusive then front
      else
        var head := front.queue[0];
        Backfill(cap, front, head, HeadReservation(cap, front, head), front.queue[1..])
  }

  function PlanFor(pending: seq<PendingEntry>, running: seq<RunningEntry>, cap: Capacity): PlanState {
    Cycle(cap, Start(pending, running, cap))
  }
}
