/** Which queued tasks a cycle starts: those strict FIFO reaches, and those that pass the blocked head
    when their turn comes. */
module Turns {
  import opened Quantities
  import opened Admission
  import opened Planning
  import opened Reservations
  import opened StrictFifo
  import opened Plans
  import opened Stalling
  import opened Runs

  // ----- strict FIFO in a cycle -----

  ghost function FifoAt(m: Machine, w: World): seq<Placement> {
    FifoCycle(w.queue, Running(w.tasks, w.now), CapacityOf(m, w))
  }

  ghost function FifoIndexAt(m: Machine, w: World): int {
    FifoCycleIndex(w.queue, Running(w.tasks, w.now), CapacityOf(m, w))
  }

  /** Where strict FIFO stops in this cycle. */
  function FrontOf(m: Machine, w: World): PlanState {
    AdmitFront(CapacityOf(m, w), StartAt(m, w)).0
  }

  /** The head of the queue is blocked and others may pass it. */
  ghost predicate MayBePassed(m: Machine, w: World) {
    var (front, end) := AdmitFront(CapacityOf(m, w), StartAt(m, w));
    !AnyExclusive(Running(w.tasks, w.now)) && end.Blocked? && !front.queue[0].exclusive
  }

  // ----- who passes -----

  /** Where a candidate that passes goes: the first option on which a rule lets it. */
  ghost predicate FirstOption(cap: Capacity, st: PlanState, head: PendingEntry, r: Moment, c: PendingEntry, k: int) {
    && 0 <= k < |PlacementOptions(cap, st, c)| && MayGo(cap, st, head, r, c, PlacementOptions(cap, st, c)[k].gpu)
    && (forall j :: 0 <= j < k ==> !MayGo(cap, st, head, r, c, PlacementOptions(cap, st, c)[j].gpu))
  }

  ghost function PlacedAt(cap: Capacity, st: PlanState, head: PendingEntry, r: Moment, c: PendingEntry): Placement
    requires Passes(cap, st, head, r, c)
  {
    PassersFit(cap, st, head, r, c);
    var k :| FirstOption(cap, st, head, r, c, k);
    Placement(c, PlacementOptions(cap, st, c)[k].gpu, if EndsBy(c, r) then ShortEnough else Disjoint)
  }

  lemma PassersFit(cap: Capacity, st: PlanState, head: PendingEntry, r: Moment, c: PendingEntry)
    requires Passes(cap, st, head, r, c)
    ensures exists k :: FirstOption(cap, st, head, r, c, k)
    ensures !CanaryBlocked(st.held, c) && FitsNonGpu(cap, c, st.pools)
  {
    var k := TryOptionsIsFirst(cap, st, head, c, r, PlacementOptions(cap, st, c));
    SomeOptionWillDo(cap, st, head, r, c);
    hide MayGo, MayGoSomewhere, PlacementOptions, TryOptions;
    assert FirstOption(cap, st, head, r, c, k);
  }

  /** The candidates that pass the head at their turns, where each goes and by which rule. */
  ghost function PassersAmong(cap: Capacity, st: PlanState, head: PendingEntry, r: Moment,
                              candidates: seq<PendingEntry>): seq<Placement> {
    if candidates == [] then []
    else
      var n := |candidates| - 1;
      var turn, c := AtTurn(cap, st, head, r, candidates, n), candidates[n];
      PassersAmong(cap, st, head, r, candidates[..n])
      + (if Passes(cap, turn, head, r, c) then [PlacedAt(cap, turn, head, r, c)] else [])
  }

  lemma PassingIsAdmission(cap: Capacity, st: PlanState, head: PendingEntry, r: Moment, c: PendingEntry)
    ensures BackfillOne(cap, st, head, r, c).admitted ==
      st.admitted + (if Passes(cap, st, head, r, c) then [PlacedAt(cap, st, head, r, c)] else [])
  {
    var options := PlacementOptions(cap, st, c);
    var k := TryOptionsIsFirst(cap, st, head, c, r, options);
    var a := BackfillOneSteps(cap, st, head, r, c);
    if Passes(cap, st, head, r, c) {
      PassersFit(cap, st, head, r, c);
      assert forall i :: FirstOption(cap, st, head, r, c, i) ==> i == k;
    }
  }

  /** Backfill admits exactly the candidates that pass at their turns. */
  lemma {:induction false} BackfillAdmitsPassers(cap: Capacity, st: PlanState, head: PendingEntry, r: Moment,
                                                 candidates: seq<PendingEntry>)
    ensures Backfill(cap, st, head, r, candidates).admitted == st.admitted + PassersAmong(cap, st, head, r, candidates)
  {
    if candidates != [] {
      var n := |candidates| - 1;
      BackfillAdmitsPassers(cap, st, head, r, candidates[..n]);
      PassingIsAdmission(cap, Backfill(cap, st, head, r, candidates[..n]), head, r, candidates[n]);
      hide BackfillOne, Passes;
    }
  }

  /** What the cycle starts beyond strict FIFO. */
  ghost function Passers(m: Machine, w: World): seq<Placement> {
    if !MayBePassed(m, w) then []
    else
      var cap, front := CapacityOf(m, w), FrontOf(m, w);
      PassersAmong(cap, front, front.queue[0], HeadReservation(cap, front, front.queue[0]), front.queue[1..])
  }

  /** Strict FIFO stops where front admission does. */
  lemma FrontIsWhereFifoStops(m: Machine, w: World)
    requires !AnyExclusive(Running(w.tasks, w.now))
    ensures var front := FrontOf(m, w);
      && front.admitted == FifoAt(m, w) && front.rr == FifoIndexAt(m, w)
      && |front.admitted| <= |w.queue| && front.queue == w.queue[|front.admitted|..]
  {
    FrontIsFifo(CapacityOf(m, w), StartAt(m, w));
    FrontIsPrefix(CapacityOf(m, w), StartAt(m, w));
    hide Fifo, FifoIndex, AdmitFront;
  }

  /** A plan is what strict FIFO starts, and then whoever passes the blocked head. */
  lemma PlanIsFifoThenPassers(m: Machine, w: World)
    ensures PlanAt(m, w).admitted == FifoAt(m, w) + Passers(m, w)
    ensures Passers(m, w) == [] ==> PlanAt(m, w).rr == FifoIndexAt(m, w)
  {
    var running, cap := Running(w.tasks, w.now), CapacityOf(m, w);
    if !AnyExclusive(running) {
      PlanAfterFront(w.queue, running, cap);
      FrontIsWhereFifoStops(m, w);
      if MayBePassed(m, w) {
        var front := FrontOf(m, w);
        var r := HeadReservation(cap, front, front.queue[0]);
        BackfillAdmitsPassers(cap, front, front.queue[0], r, front.queue[1..]);
        BackfillGrows(cap, front, front.queue[0], r, front.queue[1..]);
      }
      hide AdmitFront, Backfill, Fifo, PassersAmong, HeadReservation;
    }
  }

  /** Queued task `q` passes the blocked head when its turn comes: the canary does not hold it, it
      fits what is free by then, and on some GPU a rule lets it. */
  ghost predicate PassesInTurn(m: Machine, w: World, q: int) {
    var cap, front := CapacityOf(m, w), FrontOf(m, w);
    && MayBePassed(m, w) && |FifoAt(m, w)| < q < |w.queue| && |w.queue| == |FifoAt(m, w)| + |front.queue|
    && var head, k := front.queue[0], q - |FifoAt(m, w)| - 1;
       var r := HeadReservation(cap, front, head);
       Passes(cap, AtTurn(cap, front, head, r, front.queue[1..], k), head, r, w.queue[q])
  }

  ghost predicate DistinctIds(queue: seq<PendingEntry>) {
    forall i, j :: 0 <= i < j < |queue| ==> queue[i].id != queue[j].id
  }

  ghost predicate Among(task: PendingEntry, admitted: seq<Placement>) {
    exists i :: 0 <= i < |admitted| && admitted[i].task == task
  }

  lemma AmongJoined(task: PendingEntry, xs: seq<Placement>, ys: seq<Placement>)
    ensures Among(task, xs + ys) <==> Among(task, xs) || Among(task, ys)
  {
    if i :| 0 <= i < |xs| && xs[i].task == task { assert (xs + ys)[i] == xs[i]; }
    if i :| 0 <= i < |ys| && ys[i].task == task { assert (xs + ys)[|xs| + i] == ys[i]; }
  }

  lemma {:induction false} PasserExactly(cap: Capacity, st: PlanState, head: PendingEntry, r: Moment,
                                         candidates: seq<PendingEntry>, k: int)
    requires DistinctIds(candidates) && 0 <= k < |candidates|
    ensures Among(candidates[k], PassersAmong(cap, st, head, r, candidates)) <==>
      Passes(cap, AtTurn(cap, st, head, r, candidates, k), head, r, candidates[k])
  {
    var n := |candidates| - 1;
    var pre := candidates[..n];
    LastPasser(cap, st, head, r, candidates, candidates[k]);
    hide PassersAmong, Among, Passes;
    if k < n {
      PasserExactly(cap, st, head, r, pre, k);
      assert pre[..k] == candidates[..k];
    } else {
      NotAmongEarlier(cap, st, head, r, candidates);
    }
  }

  lemma LastPasser(cap: Capacity, st: PlanState, head: PendingEntry, r: Moment, candidates: seq<PendingEntry>,
                   task: PendingEntry)
    requires candidates != []
    ensures var n := |candidates| - 1;
      Among(task, PassersAmong(cap, st, head, r, candidates)) <==>
        (|| Among(task, PassersAmong(cap, st, head, r, candidates[..n]))
         || (task == candidates[n] && Passes(cap, AtTurn(cap, st, head, r, candidates, n), head, r, candidates[n])))
  {
    var n := |candidates| - 1;
    var turn, c := AtTurn(cap, st, head, r, candidates, n), candidates[n];
    var last := if Passes(cap, turn, head, r, c) then [PlacedAt(cap, turn, head, r, c)] else [];
    AmongJoined(task, PassersAmong(cap, st, head, r, candidates[..n]), last);
    hide AtTurn, Passes;
    assert last != [] ==> last[0].task == c;
  }

  lemma NotAmongEarlier(cap: Capacity, st: PlanState, head: PendingEntry, r: Moment, candidates: seq<PendingEntry>)
    requires DistinctIds(candidates) && candidates != []
    ensures var n := |candidates| - 1; !Among(candidates[n], PassersAmong(cap, st, head, r, candidates[..n]))
  {
    PassersAreCandidates(cap, st, head, r, candidates[..|candidates| - 1]);
    hide PassersAmong;
  }

  lemma {:induction false} PassersAreCandidates(cap: Capacity, st: PlanState, head: PendingEntry, r: Moment,
                                                candidates: seq<PendingEntry>)
    ensures forall a :: a in PassersAmong(cap, st, head, r, candidates) ==> a.task in candidates
  {
    if candidates != [] {
      PassersAreCandidates(cap, st, head, r, candidates[..|candidates| - 1]);
    }
  }

  /** Which queued task a plan starts, wherever it stands: one that strict FIFO reaches, or one that
      passes the blocked head in its turn. */
  lemma StartsExactly(m: Machine, w: World, q: int)
    requires DistinctIds(w.queue) && 0 <= q < |w.queue|
    ensures Among(w.queue[q], FifoAt(m, w)) <==> q < |FifoAt(m, w)|
    ensures Among(w.queue[q], PlanAt(m, w).admitted) <==> q < |FifoAt(m, w)| || PassesInTurn(m, w, q)
  {
    var task, starts := w.queue[q], FifoAt(m, w);
    PlanIsFifoThenPassers(m, w);
    AmongJoined(task, starts, Passers(m, w));
    FifoAtIsPrefix(m, w);
    hide PlanAt, FifoAt;
    assert Among(task, starts) <==> q < |starts| by {
      if q < |starts| { assert starts[q].task == task; }
    }
    if MayBePassed(m, w) {
      FrontIsWhereFifoStops(m, w);
      PasserInQueue(m, w, q);
    }
  }

  lemma FifoAtIsPrefix(m: Machine, w: World)
    ensures |FifoAt(m, w)| <= |w.queue| && forall i :: 0 <= i < |FifoAt(m, w)| ==> FifoAt(m, w)[i].task == w.queue[i]
  {
    var cap := CapacityOf(m, w);
    FifoIsPrefix(cap, w.queue, Pools(cap.memoryFree, cap.gpuFree, cap.runningCount),
                 HeldBy(Running(w.tasks, w.now)), cap.nextGpu);
  }

  lemma PasserInQueue(m: Machine, w: World, q: int)
    requires DistinctIds(w.queue) && 0 <= q < |w.queue| && MayBePassed(m, w)
    ensures Among(w.queue[q], Passers(m, w)) <==> PassesInTurn(m, w, q)
  {
    FrontIsWhereFifoStops(m, w);
    var cap, front, n := CapacityOf(m, w), FrontOf(m, w), |FifoAt(m, w)|;
    var head, candidates := front.queue[0], front.queue[1..];
    var r := HeadReservation(cap, front, head);
    hide FifoAt, HeadReservation, AtTurn, AdmitFront, Passes, PassersAmong;
    DistinctTail(w.queue, candidates, n + 1, q);
    if q > n {
      PasserExactly(cap, front, head, r, candidates, q - n - 1);
    } else {
      PassersAreCandidates(cap, front, head, r, candidates);
    }
  }

  lemma DistinctTail(queue: seq<PendingEntry>, tail: seq<PendingEntry>, n: nat, q: int)
    requires DistinctIds(queue) && n <= |queue| && tail == queue[n..] && 0 <= q < |queue|
    ensures DistinctIds(tail) && if q < n then queue[q] !in tail else tail[q - n] == queue[q]
  {
    if queue[q] in tail {
      var k :| 0 <= k < |tail| && tail[k] == queue[q];
      assert queue[n + k] == queue[q];
    }
  }
}
