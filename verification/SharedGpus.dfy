/** When a backfilled task that outlasts the reservation is put on the GPU the head waits for. */
module SharedGpus {
  import opened Quantities
  import opened Admission
  import opened Planning
  import opened Reservations
  import opened Stalling

  /** The pools as projected to the reservation. */
  function AtReservation(st: PlanState, r: Moment): Pools {
    StateAt(st.pools, st.occupants, r)
  }

  /** The GPU the head would be given at its reservation, as things stand. */
  function ReservedGpu(cap: Capacity, st: PlanState, head: PendingEntry, r: Moment): Option<int> {
    PickGpu(cap.gpuOrder, AtReservation(st, r).gpu, head.vram, st.rr).gpu
  }

  /** The step admits the candidate by rule (a), on GPU `g`. */
  predicate PutOn(cap: Capacity, st: PlanState, head: PendingEntry, r: Moment, candidate: PendingEntry, g: int) {
    BackfillOne(cap, st, head, r, candidate).admitted == st.admitted + [Placement(candidate, Some(g), Disjoint)]
  }

  /** The head still fits at its reservation while the candidate holds option `k` for ever. */
  ghost predicate FitsBeside(cap: Capacity, st: PlanState, head: PendingEntry, r: Moment, candidate: PendingEntry,
                             k: int)
    requires 0 <= k < |PlacementOptions(cap, st, candidate)|
  {
    var gpu := PlacementOptions(cap, st, candidate)[k].gpu;
    Fits(cap, head, Take(AtReservation(st, r), candidate.memory, candidate.vram, gpu))
  }

  /** Option `k` is the first beside which the head still fits at its reservation. */
  ghost predicate FirstBeside(cap: Capacity, st: PlanState, head: PendingEntry, r: Moment, candidate: PendingEntry,
                              k: int) {
    && 0 <= k < |PlacementOptions(cap, st, candidate)| && FitsBeside(cap, st, head, r, candidate, k)
    && (forall j :: 0 <= j < k ==> !FitsBeside(cap, st, head, r, candidate, j))
  }

  /** A candidate that does not finish before the reservation is put on GPU `g` exactly if the canary
      and everything but GPUs let it start, and `g` is the first GPU with room for it now beside
      which the head still fits at its reservation. */
  lemma PutOnExactly(cap: Capacity, st: PlanState, head: PendingEntry, r: Moment, candidate: PendingEntry, g: int)
    requires candidate.vram > 0.0 && !EndsBy(candidate, r)
    ensures PutOn(cap, st, head, r, candidate, g) <==>
      && !CanaryBlocked(st.held, candidate) && FitsNonGpu(cap, candidate, st.pools)
      && exists k ::
           FirstBeside(cap, st, head, r, candidate, k) && PlacementOptions(cap, st, candidate)[k].gpu == Some(g)
  {
    var options := PlacementOptions(cap, st, candidate);
    var k := TryOptionsIsFirst(cap, st, head, candidate, r, options);
    var placed := BackfillOne(cap, st, head, r, candidate).admitted;
    assert placed == (if CanaryBlocked(st.held, candidate) || !FitsNonGpu(cap, candidate, st.pools) || k == |options|
                      then st.admitted else st.admitted + [Placement(candidate, options[k].gpu, Disjoint)]);
    assert PutOn(cap, st, head, r, candidate, g) ==>
      |placed| == |st.admitted| + 1 && placed[|st.admitted|] == Placement(candidate, Some(g), Disjoint);
    hide BackfillOne, TryOptions, PlacementOptions, StateAt, Fits;
    if k < |options| {
      assert FirstBeside(cap, st, head, r, candidate, k);
      assert forall i :: FirstBeside(cap, st, head, r, candidate, i) ==> i == k;
    } else {
      assert forall i :: 0 <= i < |options| ==> !FitsBeside(cap, st, head, r, candidate, i);
    }
  }

  // ----- on the GPU the head waits for -----

  /** A GPU of the rotation other than `h` has room for the head in pools `q`. */
  ghost predicate RoomElsewhere(cap: Capacity, head: PendingEntry, q: Pools, h: int) {
    exists i :: 0 <= i < |cap.gpuOrder| && cap.gpuOrder[i] != h && HasRoom(q.gpu, cap.gpuOrder[i], head.vram)
  }

  /** Beside the candidate on GPU `g`: memory and slots must do, and some GPU must still have room. */
  lemma BesideExactly(cap: Capacity, head: PendingEntry, q: Pools, candidate: PendingEntry, g: int, h: int)
    requires head.vram > 0.0 && h in cap.gpuOrder && HasRoom(q.gpu, h, head.vram)
    ensures Fits(cap, head, Take(q, candidate.memory, candidate.vram, Some(g))) <==>
      && FitsNonGpu(cap, head, Take(q, candidate.memory, 0.0, None))
      && (g == h ==> q.gpu[h].Exceeds(head.vram + candidate.vram) || RoomElsewhere(cap, head, q, h))
  {
    var after := Take(q, candidate.memory, candidate.vram, Some(g));
    var at :| 0 <= at < |cap.gpuOrder| && cap.gpuOrder[at] == h;
    assert HasRoom(after.gpu, cap.gpuOrder[at], head.vram) <==>
      (g == h ==> q.gpu[h].Exceeds(head.vram + candidate.vram));
    if RoomElsewhere(cap, head, q, h) {
      var i :| 0 <= i < |cap.gpuOrder| && cap.gpuOrder[i] != h && HasRoom(q.gpu, cap.gpuOrder[i], head.vram);
      assert g == h ==> HasRoom(after.gpu, cap.gpuOrder[i], head.vram);
    }
    if RoomOnSomeGpu(cap.gpuOrder, after.gpu, head.vram) {
      var i :| 0 <= i < |cap.gpuOrder| && HasRoom(after.gpu, cap.gpuOrder[i], head.vram);
      assert g == h && cap.gpuOrder[i] != h ==> HasRoom(q.gpu, cap.gpuOrder[i], head.vram);
    }
  }

  /** The candidate shares the head's GPU: `h` is its first choice now, memory and slots do for both,
      and either `h` has VRAM for both or the head could turn to another GPU. */
  ghost predicate Shares(cap: Capacity, st: PlanState, head: PendingEntry, r: Moment, candidate: PendingEntry, h: int) {
    var q := AtReservation(st, r);
    && !CanaryBlocked(st.held, candidate) && FitsNonGpu(cap, candidate, st.pools)
    && PickGpu(cap.gpuOrder, st.pools.gpu, candidate.vram, st.rr).gpu == Some(h)
    && FitsNonGpu(cap, head, Take(q, candidate.memory, 0.0, None))
    && ((h in q.gpu && q.gpu[h].Exceeds(head.vram + candidate.vram)) || RoomElsewhere(cap, head, q, h))
  }

  lemma ReservedHasRoom(cap: Capacity, st: PlanState, head: PendingEntry, r: Moment)
    requires head.vram > 0.0 && Fits(cap, head, AtReservation(st, r))
    ensures var h := ReservedGpu(cap, st, head, r);
      h.Some? && h.value in cap.gpuOrder && HasRoom(AtReservation(st, r).gpu, h.value, head.vram)
  {
    OptionsExist(cap.gpuOrder, AtReservation(st, r).gpu, head.vram, st.rr);
    OptionsSound(cap.gpuOrder, AtReservation(st, r).gpu, head.vram, st.rr, |cap.gpuOrder|);
  }

  /** Exactly when a candidate that outlasts the reservation is put on the very GPU the head would be
      given at its reservation, over all pools, rotations and sizes. */
  lemma SharesExactly(cap: Capacity, st: PlanState, head: PendingEntry, r: Moment, candidate: PendingEntry)
    requires head.vram > 0.0 && Fits(cap, head, AtReservation(st, r))
    requires candidate.vram > 0.0 && !EndsBy(candidate, r)
    ensures ReservedGpu(cap, st, head, r).Some?
    ensures var h := ReservedGpu(cap, st, head, r).value;
      PutOn(cap, st, head, r, candidate, h) <==> Shares(cap, st, head, r, candidate, h)
  {
    ReservedHasRoom(cap, st, head, r);
    var h, q := ReservedGpu(cap, st, head, r).value, AtReservation(st, r);
    var options := PlacementOptions(cap, st, candidate);
    OptionsSound(cap.gpuOrder, st.pools.gpu, candidate.vram, st.rr, |cap.gpuOrder|);
    PutOnExactly(cap, st, head, r, candidate, h);
    hide AtReservation, ReservedGpu, PutOn, Fits, FitsNonGpu, RoomElsewhere;
    forall k | 0 <= k < |options|
      ensures FitsBeside(cap, st, head, r, candidate, k) <==>
        && FitsNonGpu(cap, head, Take(q, candidate.memory, 0.0, None))
        && (options[k].gpu == Some(h) ==>
              q.gpu[h].Exceeds(head.vram + candidate.vram) || RoomElsewhere(cap, head, q, h))
    {
      BesideExactly(cap, head, q, candidate, options[k].gpu.value, h);
    }
    if Shares(cap, st, head, r, candidate, h) {
      assert FirstBeside(cap, st, head, r, candidate, 0);
    }
    if k :| FirstBeside(cap, st, head, r, candidate, k) && options[k].gpu == Some(h) {
      assert k > 0 ==> !FitsBeside(cap, st, head, r, candidate, 0);
    }
  }

  // ----- over a whole backfill -----

  /** Backfill puts candidate `k` by rule (a) on the GPU the head would be given as of that turn. */
  ghost predicate TakesReserved(cap: Capacity, st: PlanState, head: PendingEntry, r: Moment,
                                candidates: seq<PendingEntry>, k: int) {
    && 0 <= k < |candidates| && candidates[k].vram > 0.0
    && var turn, next := AtTurn(cap, st, head, r, candidates, k), AtTurn(cap, st, head, r, candidates, k + 1);
       && ReservedGpu(cap, turn, head, r).Some?
       && next.admitted == turn.admitted + [Placement(candidates[k], ReservedGpu(cap, turn, head, r), Disjoint)]
  }

  /** Candidate `k` outlasts the reservation, the head still fits at it, and they share a GPU. */
  ghost predicate SharesInTurn(cap: Capacity, st: PlanState, head: PendingEntry, r: Moment,
                               candidates: seq<PendingEntry>, k: int) {
    && 0 <= k < |candidates| && candidates[k].vram > 0.0 && !EndsBy(candidates[k], r)
    && var turn := AtTurn(cap, st, head, r, candidates, k);
       && Fits(cap, head, AtReservation(turn, r)) && ReservedGpu(cap, turn, head, r).Some?
       && Shares(cap, turn, head, r, candidates[k], ReservedGpu(cap, turn, head, r).value)
  }

  /** Who is put anywhere by rule (a) outlasts the reservation and leaves the head room. */
  lemma DisjointLeavesRoom(cap: Capacity, st: PlanState, head: PendingEntry, r: Moment, c: PendingEntry, g: int)
    requires Sized(c) && PutOn(cap, st, head, r, c, g)
    ensures !EndsBy(c, r) && Fits(cap, head, AtReservation(st, r))
  {
    var a := BackfillOneSteps(cap, st, head, r, c);
    var fin := BackfillOne(cap, st, head, r, c);
    hide BackfillOne, Fits, StateAt;
    assert |fin.admitted| == |st.admitted| + 1 && fin.admitted[|st.admitted|] == Placement(c, Some(g), Disjoint);
    var q := AtReservation(st, r);
    TakeShrinks(q, c.memory, c.vram, a.gpu);
    FitsMonotone(cap, head, Take(q, c.memory, c.vram, a.gpu), q);
  }

  lemma TakesReservedExactly(cap: Capacity, st: PlanState, head: PendingEntry, r: Moment, candidates: seq<PendingEntry>,
                             k: int)
    requires head.vram > 0.0 && AllSized(candidates)
    ensures TakesReserved(cap, st, head, r, candidates, k) <==> SharesInTurn(cap, st, head, r, candidates, k)
  {
    if 0 <= k < |candidates| && candidates[k].vram > 0.0 {
      var turn, c := AtTurn(cap, st, head, r, candidates, k), candidates[k];
      var h := ReservedGpu(cap, turn, head, r);
      assert candidates[..k + 1][..k] == candidates[..k];
      assert AtTurn(cap, st, head, r, candidates, k + 1) == BackfillOne(cap, turn, head, r, c);
      hide AtTurn, BackfillOne, AtReservation, ReservedGpu, Fits, Shares;
      if h.Some? && PutOn(cap, turn, head, r, c, h.value) {
        DisjointLeavesRoom(cap, turn, head, r, c, h.value);
      }
      if !EndsBy(c, r) && Fits(cap, head, AtReservation(turn, r)) {
        SharesExactly(cap, turn, head, r, c);
      }
    }
  }

  /** Exactly when a backfill puts a task that outlasts the reservation on the GPU the head would be given
      as of that turn: some candidate shares it in its turn. */
  lemma BackfillSharesExactly(cap: Capacity, st: PlanState, head: PendingEntry, r: Moment,
                              candidates: seq<PendingEntry>)
    requires head.vram > 0.0 && AllSized(candidates)
    ensures (exists k :: TakesReserved(cap, st, head, r, candidates, k)) <==>
      exists k :: SharesInTurn(cap, st, head, r, candidates, k)
  {
    forall k ensures TakesReserved(cap, st, head, r, candidates, k) <==> SharesInTurn(cap, st, head, r, candidates, k) {
      TakesReservedExactly(cap, st, head, r, candidates, k);
    }
  }

  // ----- when no GPU is shared -----

  /** Before the call: GPU `h` is the only one of the rotation that can take the head at its
      reservation, and no candidate that outlasts the reservation leaves the head enough VRAM on it. */
  ghost predicate KeptFree(cap: Capacity, st: PlanState, head: PendingEntry, r: Moment, candidates: seq<PendingEntry>,
                           h: int) {
    var q := AtReservation(st, r);
    && !RoomElsewhere(cap, head, q, h)
    && forall k :: 0 <= k < |candidates| && candidates[k].vram > 0.0 && !EndsBy(candidates[k], r) ==>
         h in q.gpu ==> !q.gpu[h].Exceeds(head.vram + candidates[k].vram)
  }

  /** Tighter pools keep it free as well. */
  lemma StillKeptFree(cap: Capacity, st: PlanState, mid: PlanState, head: PendingEntry, r: Moment, c: PendingEntry,
                      h: int)
    requires KeptFree(cap, st, head, r, [c], h) && Roomier(AtReservation(mid, r), AtReservation(st, r))
    requires head.vram > 0.0 && c.vram > 0.0 && !EndsBy(c, r)
    ensures !Fits(cap, head, Take(AtReservation(mid, r), c.memory, c.vram, Some(h)))
  {
    var q, p := AtReservation(st, r), AtReservation(mid, r);
    hide AtReservation;
    assert [c][0] == c;
    var after := Take(p, c.memory, c.vram, Some(h));
    forall i | 0 <= i < |cap.gpuOrder| ensures !HasRoom(after.gpu, cap.gpuOrder[i], head.vram) {
      assert cap.gpuOrder[i] != h ==> !HasRoom(q.gpu, cap.gpuOrder[i], head.vram);
    }
  }

  /** Then no backfill that outlasts the reservation is put on that GPU, whatever is backfilled before. */
  lemma {:induction false} KeptFreeStaysFree(cap: Capacity, st: PlanState, head: PendingEntry, r: Moment,
                                             candidates: seq<PendingEntry>, h: int)
    requires AllSized(candidates) && head.vram > 0.0 && KeptFree(cap, st, head, r, candidates, h)
    ensures var fin := Backfill(cap, st, head, r, candidates);
      && st.admitted <= fin.admitted && Roomier(AtReservation(fin, r), AtReservation(st, r))
      && forall i :: |st.admitted| <= i < |fin.admitted| && fin.admitted[i].rule.Disjoint? ==>
           fin.admitted[i].gpu != Some(h)
  {
    if candidates != [] {
      var pre, c := candidates[..|candidates| - 1], candidates[|candidates| - 1];
      hide Backfill, BackfillOne, Passes, EndsBy, StateAt, Fits, RoomElsewhere;
      assert candidates[|candidates| - 1] == c && KeptFree(cap, st, head, r, [c], h);
      assert KeptFree(cap, st, head, r, pre, h);
      LastBackfilled(cap, st, head, r, candidates);
      hide KeptFree;
      KeptFreeStaysFree(cap, st, head, r, pre, h);
      BackfillFrame(cap, st, head, r, pre);
      var mid := Backfill(cap, st, head, r, pre);
      var a := BackfillOneSteps(cap, mid, head, r, c);
      var fin := BackfillOne(cap, mid, head, r, c);
      if fin != mid {
        StateAtTake(mid.pools, mid.occupants, r, c.memory, c.vram, a.gpu);
        TakeShrinks(AtReservation(mid, r), c.memory, c.vram, a.gpu);
        RoomierTransitive(AtReservation(fin, r), AtReservation(mid, r), AtReservation(st, r));
        if a.gpu.Some? {
          GpuMeansVram(cap, mid, head, r, c, a);
        }
        if c.vram > 0.0 && !EndsBy(c, r) {
          StillKeptFree(cap, st, mid, head, r, c, h);
        }
      }
    }
  }

  lemma LastBackfilled(cap: Capacity, st: PlanState, head: PendingEntry, r: Moment, candidates: seq<PendingEntry>)
    requires candidates != []
    ensures var n := |candidates| - 1;
      Backfill(cap, st, head, r, candidates)
      == BackfillOne(cap, Backfill(cap, st, head, r, candidates[..n]), head, r, candidates[n])
  {
    hide BackfillOne;
  }

  /** Only a task that needs VRAM is given a GPU. */
  lemma GpuMeansVram(cap: Capacity, st: PlanState, head: PendingEntry, r: Moment, c: PendingEntry, a: Placement)
    requires BackfillOne(cap, st, head, r, c).admitted == st.admitted + [a] && a.gpu.Some?
    ensures c.vram > 0.0
  {
    var options := PlacementOptions(cap, st, c);
    var k := TryOptionsIsFirst(cap, st, head, c, r, options);
    var fin := BackfillOne(cap, st, head, r, c);
    assert |fin.admitted| == |st.admitted| + 1 && fin.admitted[|st.admitted|] == a;
    assert k < |options| && fin.admitted[|st.admitted|].gpu == options[k].gpu;
  }

  // ----- a case in which one is -----

  const RUNNER := RunningEntry("runner", 30.0, 0.0, None, Some(10.0), false, None)
  const HEAD := PendingEntry("head", 40.0, 8.0, 1.0, None, false, None, false)
  const SQUATTER := PendingEntry("squatter", 5.0, 4.0, 1.0, None, false, None, false)
  const ONE_GPU := Capacity(Finite(20.0), map[0 := Finite(16.0)], [0], 0, 4, 1, true)

  /** With one GPU of 16 GB and a head that waits for memory, a task of unknown duration is put on the
      only GPU the head can go to. */
  lemma SharesTheReservedGpu()
    ensures PlanFor([HEAD, SQUATTER], [RUNNER], ONE_GPU).admitted == [Placement(SQUATTER, Some(0), Disjoint)]
    ensures SQUATTER.duration == None
    ensures ReservedGpu(ONE_GPU, Start([HEAD, SQUATTER], [RUNNER], ONE_GPU), HEAD, At(10.0)) == Some(0)
  {
    var cap := ONE_GPU;
    var st := Start([HEAD, SQUATTER], [RUNNER], cap);
    assert !AnyExclusive([RUNNER]) && AdmitFront(cap, st) == (st, Blocked);
    assert [RUNNER][..0] == [] && StateAt(st.pools, [], At(10.0)) == st.pools;
    var q := Pools(Finite(50.0), map[0 := Finite(16.0)], 0);
    assert AtReservation(st, At(10.0)) == q;
    OnlyGpu(st.pools.gpu, SQUATTER.vram, 0);
    OnlyGpu(q.gpu, HEAD.vram, 0);
    assert ReleaseTimes([RUNNER]) == [10.0] && Reservation(cap, HEAD, st) == At(10.0);
    assert cap.gpuOrder[0] == 0 && HasRoom(q.gpu, cap.gpuOrder[0], HEAD.vram);
    SharesExactly(cap, st, HEAD, At(10.0), SQUATTER);
    assert Shares(cap, st, HEAD, At(10.0), SQUATTER, 0);
    assert st.queue[1..] == [SQUATTER] && [SQUATTER][..0] == [];
    assert Backfill(cap, st, HEAD, At(10.0), []) == st;
    assert st.admitted + [Placement(SQUATTER, Some(0), Disjoint)] == [Placement(SQUATTER, Some(0), Disjoint)];
  }

  lemma OnlyGpu(gpu: map<int, Amount>, vram: real, rr: int)
    requires HasRoom(gpu, 0, vram)
    ensures GpuOptions([0], gpu, vram, rr) == [Choice(Some(0), 0)]
  {
    assert OptionsUpTo([0], gpu, vram, rr, 0) == [];
  }
}
