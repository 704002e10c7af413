/** Theorems about whole plans. */
module Plans {
  import opened Quantities
  import opened Admission
  import opened Planning
  import opened Reservations
  import opened StrictFifo

  // ----- every decision was admissible when it was taken -----

  function PoolsAfter(p: Pools, admitted: seq<Placement>): Pools {
    if admitted == [] then p
    else
      var a := admitted[|admitted| - 1];
      Take(PoolsAfter(p, admitted[..|admitted| - 1]), a.task.memory, a.task.vram, a.gpu)
  }

  function Identities(admitted: seq<Placement>): set<string> {
    set i | 0 <= i < |admitted| && admitted[i].task.identity.Some? :: admitted[i].task.identity.value
  }

  /** The task sits on a GPU of the rotation that has room for it, or needs none. */
  ghost predicate WellPlaced(cap: Capacity, p: Pools, a: Placement) {
    if a.task.vram > 0.0
    then a.gpu.Some? && a.gpu.value in cap.gpuOrder && HasRoom(p.gpu, a.gpu.value, a.task.vram)
    else a.gpu == None
  }

  /** Decision `j` respected the canary, and fitted what the earlier decisions left. */
  ghost predicate JustifiedAt(cap: Capacity, p: Pools, held: set<string>, admitted: seq<Placement>, j: int)
    requires 0 <= j < |admitted|
  {
    && Fits(cap, admitted[j].task, PoolsAfter(p, admitted[..j]))
    && WellPlaced(cap, PoolsAfter(p, admitted[..j]), admitted[j])
    && !CanaryBlocked(held + Identities(admitted[..j]), admitted[j].task)
  }

  ghost predicate Justified(cap: Capacity, p: Pools, held: set<string>, admitted: seq<Placement>) {
    forall j :: 0 <= j < |admitted| ==> JustifiedAt(cap, p, held, admitted, j)
  }

  /** A planning state reached from pools `p` and held identities `held`. */
  ghost predicate Sound(cap: Capacity, p: Pools, held: set<string>, st: PlanState) {
    && st.pools == PoolsAfter(p, st.admitted)
    && st.held == held + Identities(st.admitted)
    && Justified(cap, p, held, st.admitted)
  }

  lemma PoolsAfterSnoc(p: Pools, admitted: seq<Placement>, a: Placement)
    ensures PoolsAfter(p, admitted + [a]) == Take(PoolsAfter(p, admitted), a.task.memory, a.task.vram, a.gpu)
  {
    assert (admitted + [a])[..|admitted|] == admitted;
  }

  lemma IdentitiesSnoc(admitted: seq<Placement>, a: Placement)
    ensures Identities(admitted + [a]) == Identities(admitted) + IdentityOf(a.task)
  {
    var all := admitted + [a];
    assert forall i :: 0 <= i < |admitted| ==> all[i] == admitted[i];
    assert all[|admitted|] == a;
    forall x | x in Identities(admitted) + IdentityOf(a.task) ensures x in Identities(all) {
      if x in Identities(admitted) {
        var i :| 0 <= i < |admitted| && admitted[i].task.identity == Some(x);
        assert all[i].task.identity == Some(x);
      } else {
        assert all[|admitted|].task.identity == Some(x);
      }
    }
  }

  lemma AdmitKeepsSound(cap: Capacity, p: Pools, held: set<string>, st: PlanState,
                        task: PendingEntry, choice: Choice, rule: Rule)
    requires Sound(cap, p, held, st)
    requires Fits(cap, task, st.pools) && !CanaryBlocked(st.held, task)
    requires WellPlaced(cap, st.pools, Placement(task, choice.gpu, rule))
    ensures Sound(cap, p, held, Admit(st, task, choice, rule))
  {
    var a := Placement(task, choice.gpu, rule);
    var st' := Admit(st, task, choice, rule);
    PoolsAfterSnoc(p, st.admitted, a);
    IdentitiesSnoc(st.admitted, a);
    forall j | 0 <= j < |st'.admitted| ensures JustifiedAt(cap, p, held, st'.admitted, j) {
      assert st'.admitted[..j] == st.admitted[..j];
      if j < |st.admitted| {
        assert JustifiedAt(cap, p, held, st.admitted, j);
      } else {
        assert st.admitted[..j] == st.admitted;
      }
    }
  }

  lemma FrontStepIsSound(cap: Capacity, p: Pools, held: set<string>, st: PlanState)
    requires Sound(cap, p, held, st) && FrontAdmits(cap, st)
    ensures Sound(cap, p, held, FrontStep(cap, st))
  {
    var head := st.queue[0];
    var choice := ChoiceFor(cap, head, st.pools, st.rr);
    FitsIsComputed(cap, head, st.pools, st.rr);
    OptionsSound(cap.gpuOrder, st.pools.gpu, head.vram, st.rr, |cap.gpuOrder|);
    AdmitKeepsSound(cap, p, held, st, head, choice, Front);
    assert Sound(cap, p, held, Admit(st, head, choice, Front));
  }

  lemma {:induction false} FrontIsSound(cap: Capacity, p: Pools, held: set<string>, st: PlanState)
    requires Sound(cap, p, held, st)
    ensures Sound(cap, p, held, AdmitFront(cap, st).0)
    decreases |st.queue|
  {
    if FrontAdmits(cap, st) {
      FrontStepIsSound(cap, p, held, st);
      if !st.queue[0].exclusive {
        FrontIsSound(cap, p, held, FrontStep(cap, st));
      }
    }
  }

  lemma BackfillOneIsSound(cap: Capacity, p: Pools, held: set<string>, st: PlanState, head: PendingEntry,
                           reservation: Moment, candidate: PendingEntry)
    requires Sound(cap, p, held, st)
    ensures Sound(cap, p, held, BackfillOne(cap, st, head, reservation, candidate))
  {
    var options := PlacementOptions(cap, st, candidate);
    TryOptionsChecked(cap, st, head, candidate, reservation, options);
    OptionsSound(cap.gpuOrder, st.pools.gpu, candidate.vram, st.rr, |cap.gpuOrder|);
    if !CanaryBlocked(st.held, candidate) && FitsNonGpu(cap, candidate, st.pools) {
      var r := TryOptions(cap, st, head, candidate, reservation, options);
      if r.Some? {
        AdmissibilityTestsAgree(cap, candidate, st.pools, st.rr);
        AdmitKeepsSound(cap, p, held, st, candidate, r.value.0, r.value.1);
      }
    }
  }

  lemma {:induction false} BackfillIsSound(cap: Capacity, p: Pools, held: set<string>, st: PlanState,
                                           head: PendingEntry, reservation: Moment,
                                           candidates: seq<PendingEntry>)
    requires Sound(cap, p, held, st)
    ensures Sound(cap, p, held, Backfill(cap, st, head, reservation, candidates))
  {
    if candidates != [] {
      var pre, c := candidates[..|candidates| - 1], candidates[|candidates| - 1];
      BackfillIsSound(cap, p, held, st, head, reservation, pre);
      BackfillOneIsSound(cap, p, held, Backfill(cap, st, head, reservation, pre), head, reservation, c);
    }
  }

  /** Every decision of a plan, front or backfill, respected the canary and fitted the
      pools left by the decisions before it, on the GPU it was given. */
  lemma EveryDecisionJustified(pending: seq<PendingEntry>, running: seq<RunningEntry>, cap: Capacity)
    ensures var start := Start(pending, running, cap);
      Sound(cap, start.pools, start.held, PlanFor(pending, running, cap))
  {
    var start := Start(pending, running, cap);
    assert Sound(cap, start.pools, start.held, start);
    FrontIsSound(cap, start.pools, start.held, start);
    var (front, end) := AdmitFront(cap, start);
    if !AnyExclusive(running) && end.Blocked? && !front.queue[0].exclusive {
      BackfillIsSound(cap, start.pools, start.held, front, front.queue[0],
                      HeadReservation(cap, front, front.queue[0]), front.queue[1..]);
    }
  }

  // ----- what justification gives -----

  lemma {:induction false} SlotsCounted(p: Pools, admitted: seq<Placement>)
    ensures PoolsAfter(p, admitted).slots == p.slots + |admitted|
    ensures PoolsAfter(p, admitted).gpu.Keys == p.gpu.Keys
  {
    if admitted != [] {
      SlotsCounted(p, admitted[..|admitted| - 1]);
    }
  }

  /** A plan never uses more worker slots than there are. */
  lemma PlanWithinWorkers(pending: seq<PendingEntry>, running: seq<RunningEntry>, cap: Capacity)
    ensures var admitted := PlanFor(pending, running, cap).admitted;
      admitted != [] ==> cap.runningCount + |admitted| <= cap.maxWorkers
  {
    EveryDecisionJustified(pending, running, cap);
    var start := Start(pending, running, cap);
    var admitted := PlanFor(pending, running, cap).admitted;
    if admitted != [] {
      var j := |admitted| - 1;
      assert JustifiedAt(cap, start.pools, start.held, admitted, j);
      SlotsCounted(start.pools, admitted[..j]);
    }
  }

  lemma {:induction false} GpuShrinks(p: Pools, admitted: seq<Placement>, k: nat, g: int)
    requires k <= |admitted| && g in p.gpu
    requires forall i :: k <= i < |admitted| ==> admitted[i].gpu != Some(g)
    ensures g in PoolsAfter(p, admitted).gpu && g in PoolsAfter(p, admitted[..k]).gpu
    ensures PoolsAfter(p, admitted).gpu[g] == PoolsAfter(p, admitted[..k]).gpu[g]
    decreases |admitted|
  {
    if k < |admitted| {
      var pre := admitted[..|admitted| - 1];
      GpuShrinks(p, pre, k, g);
      assert pre[..k] == admitted[..k];
    } else {
      assert admitted[..k] == admitted;
      SlotsCounted(p, admitted);
    }
  }

  /** Memory left after the last decision is still positive, and so is the VRAM left on
      every GPU that received a task. */
  lemma PoolsStayPositive(pending: seq<PendingEntry>, running: seq<RunningEntry>, cap: Capacity)
    ensures var fin := PlanFor(pending, running, cap);
      && (fin.admitted != [] ==> fin.pools.memory.Exceeds(0.0))
      && (forall j :: 0 <= j < |fin.admitted| && fin.admitted[j].gpu.Some? ==>
            fin.admitted[j].gpu.value in fin.pools.gpu && fin.pools.gpu[fin.admitted[j].gpu.value].Exceeds(0.0))
  {
    EveryDecisionJustified(pending, running, cap);
    var start := Start(pending, running, cap);
    var fin := PlanFor(pending, running, cap);
    hide PlanFor, Justified, PoolsAfter;
    if fin.admitted != [] { MemoryStaysPositive(cap, start.pools, start.held, fin.admitted); }
    forall j | 0 <= j < |fin.admitted| && fin.admitted[j].gpu.Some?
      ensures fin.admitted[j].gpu.value in fin.pools.gpu && fin.pools.gpu[fin.admitted[j].gpu.value].Exceeds(0.0)
    {
      GpuStaysPositive(cap, start.pools, start.held, fin.admitted, j);
    }
  }

  lemma MemoryStaysPositive(cap: Capacity, p: Pools, held: set<string>, admitted: seq<Placement>)
    requires Justified(cap, p, held, admitted) && admitted != []
    ensures PoolsAfter(p, admitted).memory.Exceeds(0.0)
  {
    assert JustifiedAt(cap, p, held, admitted, |admitted| - 1);
  }

  lemma GpuStaysPositive(cap: Capacity, p: Pools, held: set<string>, admitted: seq<Placement>, j: int)
    requires Justified(cap, p, held, admitted) && 0 <= j < |admitted| && admitted[j].gpu.Some?
    ensures var g, left := admitted[j].gpu.value, PoolsAfter(p, admitted).gpu; g in left && left[g].Exceeds(0.0)
  {
    var k := LastOn(admitted, j);
    assert JustifiedAt(cap, p, held, admitted, k);
    SlotsCounted(p, admitted[..k]);
    assert admitted[..k + 1] == admitted[..k] + [admitted[k]];
    PoolsAfterSnoc(p, admitted[..k], admitted[k]);
    GpuShrinks(p, admitted, k + 1, admitted[k].gpu.value);
  }

  /** The last decision for the GPU of decision `j`. */
  lemma LastOn(admitted: seq<Placement>, j: int) returns (k: int)
    requires 0 <= j < |admitted|
    ensures j <= k < |admitted| && admitted[k].gpu == admitted[j].gpu
    ensures forall i :: k < i < |admitted| ==> admitted[i].gpu != admitted[j].gpu
  {
    k := |admitted| - 1;
    while admitted[k].gpu != admitted[j].gpu
      invariant j <= k < |admitted|
      invariant forall i :: k < i < |admitted| ==> admitted[i].gpu != admitted[j].gpu
      decreases k
    {
      k := k - 1;
    }
  }

  /** The round-robin index stays inside the rotation. */
  lemma RoundRobinInRange(pending: seq<PendingEntry>, running: seq<RunningEntry>, cap: Capacity)
    requires cap.gpuOrder != [] ==> 0 <= cap.nextGpu < |cap.gpuOrder|
    ensures cap.gpuOrder != [] ==> 0 <= PlanFor(pending, running, cap).rr < |cap.gpuOrder|
  {
    var start := Start(pending, running, cap);
    FrontIndexInRange(cap, start);
    var (front, end) := AdmitFront(cap, start);
    if !AnyExclusive(running) && end.Blocked? && !front.queue[0].exclusive {
      BackfillIndexInRange(cap, front, front.queue[0], HeadReservation(cap, front, front.queue[0]), front.queue[1..]);
    }
  }

  lemma {:induction false} FrontIndexInRange(cap: Capacity, st: PlanState)
    requires cap.gpuOrder != [] ==> 0 <= st.rr < |cap.gpuOrder|
    ensures cap.gpuOrder != [] ==> 0 <= AdmitFront(cap, st).0.rr < |cap.gpuOrder|
    decreases |st.queue|
  {
    if FrontAdmits(cap, st) {
      OptionsSound(cap.gpuOrder, st.pools.gpu, st.queue[0].vram, st.rr, |cap.gpuOrder|);
      FrontIndexInRange(cap, FrontStep(cap, st));
    }
  }

  lemma {:induction false} BackfillIndexInRange(cap: Capacity, st: PlanState, head: PendingEntry, reservation: Moment,
                                                candidates: seq<PendingEntry>)
    requires cap.gpuOrder != [] ==> 0 <= st.rr < |cap.gpuOrder|
    ensures cap.gpuOrder != [] ==> 0 <= Backfill(cap, st, head, reservation, candidates).rr < |cap.gpuOrder|
  {
    if candidates != [] {
      var pre, c := candidates[..|candidates| - 1], candidates[|candidates| - 1];
      BackfillIndexInRange(cap, st, head, reservation, pre);
      var mid := Backfill(cap, st, head, reservation, pre);
      OptionsSound(cap.gpuOrder, mid.pools.gpu, c.vram, mid.rr, |cap.gpuOrder|);
      TryOptionsChecked(cap, mid, head, c, reservation, PlacementOptions(cap, mid, c));
    }
  }

  /** The canary: a cold task is planned only if no running task and no task planned
      before it holds its identity, so a plan starts at most one cold task of an identity. */
  lemma OneColdTaskPerIdentity(pending: seq<PendingEntry>, running: seq<RunningEntry>, cap: Capacity, j: int)
    requires 0 <= j < |PlanFor(pending, running, cap).admitted|
    requires var task := PlanFor(pending, running, cap).admitted[j].task; task.cold && task.identity.Some?
    ensures var admitted := PlanFor(pending, running, cap).admitted;
      && (forall r :: r in running ==> r.identity != admitted[j].task.identity)
      && (forall i :: 0 <= i < |admitted| && i != j && admitted[i].task.cold ==>
            admitted[i].task.identity != admitted[j].task.identity)
  {
    EveryDecisionJustified(pending, running, cap);
    var start := Start(pending, running, cap);
    var admitted := PlanFor(pending, running, cap).admitted;
    assert JustifiedAt(cap, start.pools, start.held, admitted, j);
    forall i | 0 <= i < |admitted| && i != j && admitted[i].task.cold
      ensures admitted[i].task.identity != admitted[j].task.identity
    {
      assert JustifiedAt(cap, start.pools, start.held, admitted, i);
      assert i < j ==> admitted[..j][i] == admitted[i];
      assert j < i ==> admitted[..i][j] == admitted[j];
    }
  }

  // ----- the plan refines FIFO -----

  /** Front admission takes a prefix of the queue, in order. */
  lemma {:induction false} FrontIsPrefix(cap: Capacity, st: PlanState)
    ensures var f := AdmitFront(cap, st).0;
      var n := |st.admitted|;
      && st.admitted <= f.admitted
      && |f.admitted| - n <= |st.queue| && f.queue == st.queue[|f.admitted| - n..]
      && (forall i :: n <= i < |f.admitted| ==>
            f.admitted[i].rule.Front? && f.admitted[i].task == st.queue[i - n])
    decreases |st.queue|
  {
    if FrontAdmits(cap, st) && !st.queue[0].exclusive {
      FrontIsPrefix(cap, FrontStep(cap, st));
    }
  }

  /** Every front admission is booked as an occupant that starts now. */
  lemma {:induction false} FrontIsBooked(cap: Capacity, st: PlanState)
    ensures var f := AdmitFront(cap, st).0;
      st.admitted <= f.admitted && f.occupants == st.occupants + OccupantsOf(f.admitted[|st.admitted|..])
    decreases |st.queue|
  {
    var n := |st.admitted|;
    var f := AdmitFront(cap, st).0;
    if FrontAdmits(cap, st) {
      var st' := FrontStep(cap, st);
      var a := st'.admitted[n];
      if st.queue[0].exclusive {
        assert f.admitted[n..] == [a];
      } else {
        FrontIsBooked(cap, st');
        assert f.admitted[n..] == [a] + f.admitted[n + 1..];
        assert OccupantsOf(f.admitted[n..]) == [OccupantOf(a)] + OccupantsOf(f.admitted[n + 1..]);
      }
    } else {
      assert OccupantsOf(f.admitted[n..]) == [];
    }
  }

  /** Front admission stops because the queue is drained, because an exclusive task was
      admitted last, or because its first task is blocked. */
  lemma {:induction false} FrontStops(cap: Capacity, st: PlanState)
    ensures var (f, end) := AdmitFront(cap, st);
      && (end.Drained? ==> f.queue == [])
      && (end.SoleExclusive? ==> f.admitted != [] && f.admitted[|f.admitted| - 1].task.exclusive)
      && (end.Blocked? ==> CanaryBlocked(f.held, f.queue[0]) || !Fits(cap, f.queue[0], f.pools))
    decreases |st.queue|
  {
    if FrontAdmits(cap, st) {
      FrontStops(cap, FrontStep(cap, st));
    } else if st.queue != [] {
      FitsIsComputed(cap, st.queue[0], st.pools, st.rr);
    }
  }

  /** The positions in the queue of the tasks of a plan. */
  ghost predicate Increasing(at: seq<int>) {
    forall i, j :: 0 <= i < j < |at| ==> at[i] < at[j]
  }

  lemma {:induction false} BackfillKeepsOrder(cap: Capacity, st: PlanState, head: PendingEntry, reservation: Moment,
                                              candidates: seq<PendingEntry>) returns (at: seq<int>)
    ensures var fin := Backfill(cap, st, head, reservation, candidates);
      && |fin.admitted| == |st.admitted| + |at| && Increasing(at)
      && (forall i :: 0 <= i < |at| ==>
            0 <= at[i] < |candidates| && fin.admitted[|st.admitted| + i].task == candidates[at[i]])
  {
    at := [];
    if candidates != [] {
      var pre, c := candidates[..|candidates| - 1], candidates[|candidates| - 1];
      at := BackfillKeepsOrder(cap, st, head, reservation, pre);
      var mid := Backfill(cap, st, head, reservation, pre);
      var a := BackfillOneSteps(cap, mid, head, reservation, c);
      if BackfillOne(cap, mid, head, reservation, c) != mid {
        at := at + [|candidates| - 1];
      }
    }
  }

  /** Where the plan goes after front admission. */
  lemma PlanAfterFront(pending: seq<PendingEntry>, running: seq<RunningEntry>, cap: Capacity)
    requires !AnyExclusive(running)
    ensures var (front, end) := AdmitFront(cap, Start(pending, running, cap));
      PlanFor(pending, running, cap) ==
        if end.Blocked? && !front.queue[0].exclusive
        then Backfill(cap, front, front.queue[0], HeadReservation(cap, front, front.queue[0]), front.queue[1..])
        else front
  {
  }

  /** A plan is what strict FIFO admits now, followed by later tasks in queue order; the
      first blocked task is passed over, nothing is planned twice, and the decisions strict
      FIFO makes are exactly the first ones.  `at` gives the queue position of each decision. */
  lemma PlanRefinesFifo(pending: seq<PendingEntry>, running: seq<RunningEntry>, cap: Capacity) returns (at: seq<int>)
    requires !AnyExclusive(running)
    ensures var fin := PlanFor(pending, running, cap);
      var fifo := FifoCycle(pending, running, cap);
      && |at| == |fin.admitted| && Increasing(at)
      && (forall i :: 0 <= i < |at| ==> 0 <= at[i] < |pending| && fin.admitted[i].task == pending[at[i]])
      && fifo <= fin.admitted && fifo == AdmitFront(cap, Start(pending, running, cap)).0.admitted
      && (forall i :: 0 <= i < |fifo| ==> at[i] == i)
      && (forall i :: |fifo| <= i < |at| ==> at[i] > |fifo|)
  {
    at := PlanPositions(pending, running, cap);
    FrontIsFifo(cap, Start(pending, running, cap));
    hide PlanFor, AdmitFront, Fifo;
    assert [] + FifoCycle(pending, running, cap) == FifoCycle(pending, running, cap);
  }

  /** The queue positions of a plan's decisions: first those of front admission, then later ones. */
  lemma PlanPositions(pending: seq<PendingEntry>, running: seq<RunningEntry>, cap: Capacity) returns (at: seq<int>)
    requires !AnyExclusive(running)
    ensures var fin := PlanFor(pending, running, cap);
      var front := AdmitFront(cap, Start(pending, running, cap)).0.admitted;
      && |at| == |fin.admitted| && Increasing(at)
      && (forall i :: 0 <= i < |at| ==> 0 <= at[i] < |pending| && fin.admitted[i].task == pending[at[i]])
      && front <= fin.admitted
      && (forall i :: 0 <= i < |front| ==> at[i] == i)
      && (forall i :: |front| <= i < |at| ==> at[i] > |front|)
  {
    hide PlanFor, AdmitFront, Backfill, HeadReservation;
    var (front, end) := AdmitFront(cap, Start(pending, running, cap));
    PlanAfterFront(pending, running, cap);
    FrontIsPrefix(cap, Start(pending, running, cap));
    var fifo := |front.admitted|;
    at := seq(fifo, i => i);
    if end.Blocked? && !front.queue[0].exclusive {
      at := BackfillPositions(cap, front, pending, at);
    }
  }

  /** Extending the FIFO positions by those of the backfilled tasks. */
  lemma BackfillPositions(cap: Capacity, front: PlanState, pending: seq<PendingEntry>, first: seq<int>)
    returns (at: seq<int>)
    requires front.queue != [] && |first| == |front.admitted| <= |pending| && front.queue == pending[|first|..]
    requires forall i :: 0 <= i < |first| ==> first[i] == i && front.admitted[i].task == pending[i]
    ensures var head := front.queue[0];
      var fin := Backfill(cap, front, head, HeadReservation(cap, front, head), front.queue[1..]);
      && |at| == |fin.admitted| && Increasing(at) && first <= at && front.admitted <= fin.admitted
      && (forall i :: 0 <= i < |at| ==> 0 <= at[i] < |pending| && fin.admitted[i].task == pending[at[i]])
      && (forall i :: |first| <= i < |at| ==> at[i] > |first|)
  {
    hide Backfill, HeadReservation;
    var head, candidates := front.queue[0], front.queue[1..];
    var r := HeadReservation(cap, front, head);
    var fin := Backfill(cap, front, head, r, candidates);
    var later := BackfillKeepsOrder(cap, front, head, r, candidates);
    BackfillFrame(cap, front, head, r, candidates);
    assert candidates == pending[|first| + 1..];
    at := Shifted(first, later);
    hide Shifted, Increasing;
    PositionsJoin(pending, front.admitted, fin.admitted, first, later, at);
  }

  lemma PositionsJoin(pending: seq<PendingEntry>, front: seq<Placement>, fin: seq<Placement>, first: seq<int>,
                      later: seq<int>, at: seq<int>)
    requires |first| == |front| < |pending| && front <= fin && |fin| == |front| + |later| == |at| && first <= at
    requires forall i :: 0 <= i < |first| ==> first[i] == i && front[i].task == pending[i]
    requires forall i :: 0 <= i < |later| ==>
      0 <= later[i] < |pending| - |first| - 1 && fin[|front| + i].task == pending[|first| + 1..][later[i]]
    requires forall i :: |first| <= i < |at| ==> at[i] == later[i - |first|] + |first| + 1
    ensures forall i :: 0 <= i < |at| ==> 0 <= at[i] < |pending| && fin[i].task == pending[at[i]]
    ensures forall i :: |first| <= i < |at| ==> at[i] > |first|
  {
    forall i | 0 <= i < |at| ensures 0 <= at[i] < |pending| && fin[i].task == pending[at[i]] {
      if i < |first| {
        assert fin[i] == front[i] && at[i] == first[i];
      } else {
        assert fin[|front| + (i - |first|)].task == pending[|first| + 1..][later[i - |first|]];
      }
    }
  }

  /** Positions behind the blocked task, counted from the front of the queue. */
  ghost function Shifted(first: seq<int>, later: seq<int>): (at: seq<int>)
    requires forall i :: 0 <= i < |first| ==> first[i] == i
    requires Increasing(later) && forall i :: 0 <= i < |later| ==> later[i] >= 0
    ensures |at| == |first| + |later| && Increasing(at) && first <= at
    ensures forall i :: |first| <= i < |at| ==> at[i] == later[i - |first|] + |first| + 1
  {
    first + seq(|later|, i requires 0 <= i < |later| => later[i] + |first| + 1)
  }

  // ----- exclusive tasks -----

  lemma {:induction false} NothingRunningNeverReserves(cap: Capacity, head: PendingEntry, st: PlanState)
    requires st.occupants == []
    ensures Reservation(cap, head, st) == Infinity
  {
  }

  /** On an idle machine a head that does not fit stalls the whole queue behind it. */
  lemma IdleMachineStalls(pending: seq<PendingEntry>, cap: Capacity)
    requires AllSized(pending) && pending != [] && !Fits(cap, pending[0], Start(pending, [], cap).pools)
    ensures PlanFor(pending, [], cap).admitted == []
  {
    var start := Start(pending, [], cap);
    FitsIsComputed(cap, pending[0], start.pools, start.rr);
    if !pending[0].exclusive {
      NothingRunningNeverReserves(cap, pending[0], start);
      UnreachableReservationStalls(cap, start, pending[0], pending[1..]);
    }
  }

  /** Exclusive isolation: a plan is empty while an exclusive task runs, and a plan with an
      exclusive task in it is that task alone, on an idle machine. */
  lemma ExclusiveRunsAlone(pending: seq<PendingEntry>, running: seq<RunningEntry>, cap: Capacity)
    requires AllSized(pending) && cap.runningCount == |running|
    ensures var admitted := PlanFor(pending, running, cap).admitted;
      && (AnyExclusive(running) ==> admitted == [])
      && (forall j :: 0 <= j < |admitted| && admitted[j].task.exclusive ==> running == [] && |admitted| == 1)
  {
    var admitted := PlanFor(pending, running, cap).admitted;
    forall j | 0 <= j < |admitted| && admitted[j].task.exclusive
      ensures running == [] && |admitted| == 1
    {
      EveryDecisionJustified(pending, running, cap);
      var start := Start(pending, running, cap);
      assert JustifiedAt(cap, start.pools, start.held, admitted, j);
      SlotsCounted(start.pools, admitted[..j]);
      ExclusiveFirstIsOnly(pending, cap);
    }
  }

  /** On an idle machine, a plan that begins with an exclusive task ends with it. */
  lemma ExclusiveFirstIsOnly(pending: seq<PendingEntry>, cap: Capacity)
    requires AllSized(pending) && cap.runningCount == 0
    requires var admitted := PlanFor(pending, [], cap).admitted; admitted != [] && admitted[0].task.exclusive
    ensures |PlanFor(pending, [], cap).admitted| == 1
  {
    var start := Start(pending, [], cap);
    if FrontAdmits(cap, start) {
      if !pending[0].exclusive {
        var _ := PlanRefinesFifo(pending, [], cap);
        FrontIsPrefix(cap, FrontStep(cap, start));
      }
    } else if pending != [] {
      FitsIsComputed(cap, pending[0], start.pools, start.rr);
      IdleMachineStalls(pending, cap);
    }
  }

  // ----- the blocked head, at the level of plans -----

  /** The plan's blocked head: what strict FIFO is stuck on, when it is not exclusive. */
  ghost predicate BlockedHead(pending: seq<PendingEntry>, running: seq<RunningEntry>, cap: Capacity, front: PlanState,
                              head: PendingEntry)
  {
    && !AnyExclusive(running)
    && AdmitFront(cap, Start(pending, running, cap)) == (front, Blocked)
    && front.queue[0] == head && !head.exclusive
  }

  ghost predicate SoundInput(pending: seq<PendingEntry>, running: seq<RunningEntry>) {
    AllSized(pending) && NonNegative(running)
  }

  lemma FrontBooks(pending: seq<PendingEntry>, running: seq<RunningEntry>, cap: Capacity, front: PlanState)
    requires SoundInput(pending, running) && front == AdmitFront(cap, Start(pending, running, cap)).0
    ensures front.occupants == running + OccupantsOf(front.admitted) && NonNegative(front.occupants)
    ensures AllSized(front.queue)
  {
    FrontIsPrefix(cap, Start(pending, running, cap));
    FrontIsBooked(cap, Start(pending, running, cap));
    assert front.admitted[0..] == front.admitted;
    forall i | 0 <= i < |front.admitted| ensures Sized(front.admitted[i].task) {
      assert front.admitted[i].task == pending[i];
    }
  }

  /** The whole plan keeps the head's appointment.  For a resource-blocked head with a
      finite reservation, after every decision of the plan is booked, the head fits the
      projection to `t` exactly when its reservation is due by `t`. */
  lemma PlanNeverDelaysHead(pending: seq<PendingEntry>, running: seq<RunningEntry>, cap: Capacity,
                            front: PlanState, head: PendingEntry, t: Moment)
    requires SoundInput(pending, running) && BlockedHead(pending, running, cap, front, head)
    requires !CanaryBlocked(front.held, head) && Reservation(cap, head, front).At?
    ensures var fin := PlanFor(pending, running, cap);
      (Fits(cap, head, StateAt(fin.pools, running + OccupantsOf(fin.admitted), t)) <==>
       Due(Reservation(cap, head, front), t))
  {
    var r := Reservation(cap, head, front);
    var fin := PlanFor(pending, running, cap);
    PlanAfterFront(pending, running, cap);
    FrontBooks(pending, running, cap, front);
    assert !Fits(cap, head, front.pools) by { FrontStops(cap, Start(pending, running, cap)); }
    BackfillNeverDelaysHead(cap, front, head, front.queue[1..], t);
    BackfillFrame(cap, front, head, r, front.queue[1..]);
    BookedTogether(running, front, fin);
  }

  lemma BookedTogether(running: seq<RunningEntry>, front: PlanState, fin: PlanState)
    requires front.occupants == running + OccupantsOf(front.admitted) && front.admitted <= fin.admitted
    ensures running + OccupantsOf(fin.admitted) == Booked(front.occupants, fin, |front.admitted|)
  {
    var n := |front.admitted|;
    var early, late := front.admitted, fin.admitted[n..];
    assert fin.admitted == early + late;
    OccupantsJoin(early, late);
    hide OccupantsOf;
    assert running + (OccupantsOf(early) + OccupantsOf(late)) == (running + OccupantsOf(early)) + OccupantsOf(late);
  }

  lemma OccupantsJoin(a: seq<Placement>, b: seq<Placement>)
    ensures OccupantsOf(a + b) == OccupantsOf(a) + OccupantsOf(b)
  {
  }

  /** A head that known releases can never make room for stalls all overtaking, whether it
      is blocked by resources or by the canary: the plan is what strict FIFO admits. */
  lemma UnreachableHeadStallsPlan(pending: seq<PendingEntry>, running: seq<RunningEntry>, cap: Capacity,
                                  front: PlanState, head: PendingEntry)
    requires SoundInput(pending, running) && BlockedHead(pending, running, cap, front, head)
    requires !Fits(cap, head, StateAt(front.pools, front.occupants, Infinity))
    ensures HeadReservation(cap, front, head) == Infinity
    ensures PlanFor(pending, running, cap) == front
  {
    FrontStops(cap, Start(pending, running, cap));
    FrontBooks(pending, running, cap, front);
    if !CanaryBlocked(front.held, head) {
      ReservationIsEarliestFit(cap, head, front, Infinity);
    }
    UnreachableReservationStalls(cap, front, head, front.queue[1..]);
  }

  /** Behind a canary-blocked head nothing passes by rule (b), and whatever passes leaves
      the head room once every known release has happened. */
  lemma CanaryBlockedHeadKeepsRoom(pending: seq<PendingEntry>, running: seq<RunningEntry>, cap: Capacity,
                                   front: PlanState, head: PendingEntry)
    requires BlockedHead(pending, running, cap, front, head) && CanaryBlocked(front.held, head)
    ensures var fin := PlanFor(pending, running, cap);
      && (forall i :: |front.admitted| <= i < |fin.admitted| ==> fin.admitted[i].rule.Disjoint?)
      && (fin != front ==> Fits(cap, head, StateAt(fin.pools, front.occupants, Infinity)))
  {
    InfiniteReservationKeepsRoom(cap, front, head, front.queue[1..]);
    BackfillFrame(cap, front, head, Infinity, front.queue[1..]);
  }
}
