/** Strict FIFO, said without the planner: start tasks from the front of the queue, each on what
    the ones before it leave, and stop at the first that may not start. */
module StrictFifo {
  import opened Admission
  import opened Planning
  import opened Reservations

  /** What strict FIFO starts from `queue`, given free pools and held identities. */
  ghost function Fifo(cap: Capacity, queue: seq<PendingEntry>, p: Pools, held: set<string>, rr: int): seq<Placement> {
    if queue == [] || CanaryBlocked(held, queue[0]) || !Fits(cap, queue[0], p) then []
    else
      var task, choice := queue[0], ChoiceFor(cap, queue[0], p, rr);
      [Placement(task, choice.gpu, Front)]
      + (if task.exclusive then []
         else Fifo(cap, queue[1..], Take(p, task.memory, task.vram, choice.gpu), held + IdentityOf(task), choice.next))
  }

  /** The round-robin index strict FIFO leaves. */
  ghost function FifoIndex(cap: Capacity, queue: seq<PendingEntry>, p: Pools, held: set<string>, rr: int): int {
    if queue == [] || CanaryBlocked(held, queue[0]) || !Fits(cap, queue[0], p) then rr
    else
      var task, choice := queue[0], ChoiceFor(cap, queue[0], p, rr);
      if task.exclusive then choice.next
      else FifoIndex(cap, queue[1..], Take(p, task.memory, task.vram, choice.gpu), held + IdentityOf(task), choice.next)
  }

  /** What strict FIFO starts in a cycle: nothing beside a running exclusive task. */
  ghost function FifoCycle(pending: seq<PendingEntry>, running: seq<RunningEntry>, cap: Capacity): seq<Placement> {
    if AnyExclusive(running) then []
    else Fifo(cap, pending, Pools(cap.memoryFree, cap.gpuFree, cap.runningCount), HeldBy(running), cap.nextGpu)
  }

  ghost function FifoCycleIndex(pending: seq<PendingEntry>, running: seq<RunningEntry>, cap: Capacity): int {
    if AnyExclusive(running) then cap.nextGpu
    else FifoIndex(cap, pending, Pools(cap.memoryFree, cap.gpuFree, cap.runningCount), HeldBy(running), cap.nextGpu)
  }

  /** Strict FIFO starts a prefix of the queue. */
  lemma {:induction false} FifoIsPrefix(cap: Capacity, queue: seq<PendingEntry>, p: Pools, held: set<string>, rr: int)
    ensures var starts := Fifo(cap, queue, p, held, rr);
      |starts| <= |queue| && forall i :: 0 <= i < |starts| ==> starts[i].task == queue[i]
  {
    if queue != [] {
      var choice := ChoiceFor(cap, queue[0], p, rr);
      FifoIsPrefix(cap, queue[1..], Take(p, queue[0].memory, queue[0].vram, choice.gpu), held + IdentityOf(queue[0]),
                   choice.next);
    }
  }

  /** A step of the planner's front admission is a start of strict FIFO, and it stops where
      strict FIFO stops. */
  lemma {:induction false} FrontIsFifo(cap: Capacity, st: PlanState)
    ensures AdmitFront(cap, st).0.admitted == st.admitted + Fifo(cap, st.queue, st.pools, st.held, st.rr)
    ensures AdmitFront(cap, st).0.rr == FifoIndex(cap, st.queue, st.pools, st.held, st.rr)
    decreases |st.queue|
  {
    if st.queue != [] {
      FitsIsComputed(cap, st.queue[0], st.pools, st.rr);
      if FrontAdmits(cap, st) {
        var next := FrontStep(cap, st);
        var starts := Fifo(cap, st.queue, st.pools, st.held, st.rr);
        assert next.admitted == st.admitted + [starts[0]];
        FrontIsFifo(cap, next);
        assert next.admitted + starts[1..] == st.admitted + starts;
      }
    }
  }

  /** Strict FIFO starts the front task exactly when it may start. */
  lemma FifoStartsFrontExactly(pending: seq<PendingEntry>, running: seq<RunningEntry>, cap: Capacity)
    ensures FifoCycle(pending, running, cap) != [] <==>
      && pending != [] && !AnyExclusive(running) && !CanaryBlocked(HeldBy(running), pending[0])
      && Fits(cap, pending[0], Pools(cap.memoryFree, cap.gpuFree, cap.runningCount))
  {
  }
}
