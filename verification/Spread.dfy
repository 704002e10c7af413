/** How a plan is spread over GPUs and cores, and what its front starts release when. */
module Spread {
  import opened Quantities
  import opened Admission
  import opened Rotation
  import opened Slots
  import opened Planning
  import opened Reservations
  import opened StrictFifo
  import opened Plans
  import opened Runs
  import opened Turns

  // ----- cores -----

  /** Each decision of a plan leaves slots for all that run by then: as many as there are workers, and
      where usage is measured, workers enough for everybody at the cores of the task that joins. */
  lemma PlanWithinCores(pending: seq<PendingEntry>, running: seq<RunningEntry>, cap: Capacity, j: int)
    requires 0 <= j < |PlanFor(pending, running, cap).admitted|
    ensures HasSlot(cap, PlanFor(pending, running, cap).admitted[j].task, cap.runningCount + j)
  {
    var p, held := Start(pending, running, cap).pools, HeldBy(running);
    var admitted := PlanFor(pending, running, cap).admitted;
    EveryDecisionJustified(pending, running, cap);
    assert JustifiedAt(cap, p, held, admitted, j);
    FitsExactly(cap, admitted[j].task, PoolsAfter(p, admitted[..j]));
    SlotsCounted(p, admitted[..j]);
  }

  // ----- the rotation -----

  /** The index stands one place after GPU `g`. */
  ghost predicate JustAfter(order: seq<int>, rr: int, g: int) {
    exists i :: 0 <= i < |order| && order[i] == g && rr == (i + 1) % |order|
  }

  /** The last placement that took a GPU, or none. */
  function LastGpu(admitted: seq<Placement>): Option<int> {
    if admitted == [] then None
    else
      var a := admitted[|admitted| - 1];
      if a.gpu.Some? then a.gpu else LastGpu(admitted[..|admitted| - 1])
  }

  /** The index stands just after the last GPU taken, or where it stood. */
  ghost predicate IndexFollows(order: seq<int>, before: int, st: PlanState) {
    var last := LastGpu(st.admitted);
    if last == None then st.rr == before else JustAfter(order, st.rr, last.value)
  }

  lemma PlaceThenNext(order: seq<int>, rr: int, k: int)
    requires order != []
    ensures JustAfter(order, Place(order, rr, k + 1), Onward(order, rr, k))
  {
    OneOn(rr + k, |order|);
    assert order[Place(order, rr, k)] == Onward(order, rr, k);
  }

  lemma ChosenFollows(order: seq<int>, gpu: map<int, Amount>, vram: real, rr: int, i: int)
    requires 0 <= i < |GpuOptions(order, gpu, vram, rr)|
    ensures var c := GpuOptions(order, gpu, vram, rr)[i]; c.gpu.Some? && JustAfter(order, c.next, c.gpu.value)
  {
    var offsets := OptionsAreOnward(order, gpu, vram, rr);
    hide GpuOptions, HasRoom;
    PlaceThenNext(order, rr, offsets[i]);
  }

  lemma AdmitFollows(order: seq<int>, before: int, st: PlanState, task: PendingEntry, choice: Choice, rule: Rule)
    requires IndexFollows(order, before, st)
    requires if choice.gpu.Some? then JustAfter(order, choice.next, choice.gpu.value) else choice.next == st.rr
    ensures IndexFollows(order, before, Admit(st, task, choice, rule))
  {
    var a := Placement(task, choice.gpu, rule);
    assert (st.admitted + [a])[..|st.admitted|] == st.admitted;
  }

  lemma {:induction false} FrontFollows(cap: Capacity, before: int, st: PlanState)
    requires IndexFollows(cap.gpuOrder, before, st)
    ensures IndexFollows(cap.gpuOrder, before, AdmitFront(cap, st).0)
    decreases |st.queue|
  {
    if st.queue != [] && FrontAdmits(cap, st) {
      var head := st.queue[0];
      var choice := ChoiceFor(cap, head, st.pools, st.rr);
      if head.vram > 0.0 { ChosenFollows(cap.gpuOrder, st.pools.gpu, head.vram, st.rr, 0); }
      AdmitFollows(cap.gpuOrder, before, st, head, choice, Front);
      FrontFollows(cap, before, FrontStep(cap, st));
    }
  }

  lemma {:induction false} BackfillFollows(cap: Capacity, before: int, st: PlanState, head: PendingEntry, r: Moment,
                                           candidates: seq<PendingEntry>)
    requires IndexFollows(cap.gpuOrder, before, st)
    ensures IndexFollows(cap.gpuOrder, before, Backfill(cap, st, head, r, candidates))
  {
    if candidates != [] {
      var n := |candidates| - 1;
      var mid, c := Backfill(cap, st, head, r, candidates[..n]), candidates[n];
      BackfillFollows(cap, before, st, head, r, candidates[..n]);
      var options := PlacementOptions(cap, mid, c);
      var k := TryOptionsIsFirst(cap, mid, head, c, r, options);
      if k < |options| {
        if c.vram > 0.0 { ChosenFollows(cap.gpuOrder, mid.pools.gpu, c.vram, mid.rr, k); }
        AdmitFollows(cap.gpuOrder, before, mid, c, options[k], if EndsBy(c, r) then ShortEnough else Disjoint);
      }
    }
  }

  /** After a plan the index stands one place after the GPU it took last, or where it stood. */
  lemma PlanIndexFollows(pending: seq<PendingEntry>, running: seq<RunningEntry>, cap: Capacity)
    ensures IndexFollows(cap.gpuOrder, cap.nextGpu, PlanFor(pending, running, cap))
  {
    var st := Start(pending, running, cap);
    FrontFollows(cap, cap.nextGpu, st);
    if !AnyExclusive(running) {
      PlanAfterFront(pending, running, cap);
      var front := AdmitFront(cap, st).0;
      if AdmitFront(cap, st).1.Blocked? && !front.queue[0].exclusive {
        BackfillFollows(cap, cap.nextGpu, front, front.queue[0], HeadReservation(cap, front, front.queue[0]),
                        front.queue[1..]);
      }
    }
  }

  // ----- what front starts release -----

  /** The blocked head's prospects count everything that is or is about to be in flight: the projection
      from which its reservation is computed is what is free at that moment if the tasks in flight and the
      front starts of this very cycle all run exactly their estimates. */
  lemma FrontProjection(m: Machine, w: World, when: real)
    requires !AnyExclusive(Running(w.tasks, w.now)) && Punctual(w)
    ensures var front := FrontOf(m, w);
      StateAt(front.pools, front.occupants, At(when - w.now)) ==
        FreeAt(m.Idle(), w.tasks + Shipped(FifoAt(m, w), w.now), when)
  {
    var front := FrontOf(m, w);
    FrontIsWhereFifoStops(m, w);
    FrontTakesAndBooks(m, w);
    hide AdmitFront, FifoAt, FrontOf, StateAt, FreeAt;
    ShippedAsBooked(m.Idle(), w.tasks, front.admitted, w.now, when);
  }

  lemma FrontTakesAndBooks(m: Machine, w: World)
    ensures var front := FrontOf(m, w);
      && front.pools == PoolsAfter(Committed(m.Idle(), w.tasks), front.admitted)
      && front.occupants == Running(w.tasks, w.now) + OccupantsOf(front.admitted)
      && (forall i :: 0 <= i < |front.admitted| ==> front.admitted[i].rule.Front?)
  {
    var cap, start := CapacityOf(m, w), StartAt(m, w);
    FrontIsPrefix(cap, start);
    FrontIsBooked(cap, start);
    FrontIsSound(cap, start.pools, start.held, start);
    StartPools(m, w);
    hide AdmitFront, Justified;
    var front := AdmitFront(cap, start).0;
    assert front.admitted[0..] == front.admitted;
  }

  lemma {:induction false} ShippedAsBooked(p: Pools, tasks: seq<Task>, starts: seq<Placement>, now: real, when: real)
    requires forall i :: 0 <= i < |tasks| && tasks[i].entry.duration.Some? ==>
      now - tasks[i].started < tasks[i].entry.duration.value
    requires forall i :: 0 <= i < |starts| ==> starts[i].rule.Front?
    ensures StateAt(PoolsAfter(Committed(p, tasks), starts), Running(tasks, now) + OccupantsOf(starts), At(when - now))
      == FreeAt(p, tasks + Shipped(starts, now), when)
  {
    var t := At(when - now);
    if starts == [] {
      ProjectionIsFreeAt(p, tasks, now, when);
      assert Running(tasks, now) + OccupantsOf(starts) == Running(tasks, now);
      assert tasks + Shipped(starts, now) == tasks;
    } else {
      var pre, a := starts[..|starts| - 1], starts[|starts| - 1];
      ShippedAsBooked(p, tasks, pre, now, when);
      var pools, occupants := PoolsAfter(Committed(p, tasks), pre), Running(tasks, now) + OccupantsOf(pre);
      assert Running(tasks, now) + OccupantsOf(starts) == occupants + [OccupantOf(a)];
      assert tasks + Shipped(starts, now) == (tasks + Shipped(pre, now)) + [Task(a.task, a.gpu, now)];
      OccupantProjected(pools, occupants, OccupantOf(a), t);
      FreeAtSnoc(p, tasks + Shipped(pre, now), Task(a.task, a.gpu, now), when);
    }
  }
}
