/** The vocabulary of the planner: tasks, occupants, resource pools, and the one
    admissibility test everything else is built from. */
module Admission {
  import opened Quantities

  /** A queued task, as the scheduler sees it. */
  datatype PendingEntry = PendingEntry(
    id: string, memory: real, vram: real, cpu: real, duration: Option<real>,
    exclusive: bool, identity: Option<string>, cold: bool)

  /** A task holding resources.  `remaining.None?` means it is assumed never to release. */
  datatype RunningEntry = RunningEntry(
    id: string, memory: real, vram: real, gpu: Option<int>, remaining: Option<real>,
    exclusive: bool, identity: Option<string>)

  /** What a dispatch cycle may hand out. */
  datatype Capacity = Capacity(
    memoryFree: Amount, gpuFree: map<int, Amount>, gpuOrder: seq<int>, nextGpu: int,
    maxWorkers: int, runningCount: int, snapshotPresent: bool)

  /** Resources still free, and worker slots already used. */
  datatype Pools = Pools(memory: Amount, gpu: map<int, Amount>, slots: int)

  /** A GPU (or none) together with the round-robin index that choosing it leaves. */
  datatype Choice = Choice(gpu: Option<int>, next: int)

  // ----- pool arithmetic -----

  function Take(p: Pools, memory: real, vram: real, gpu: Option<int>): Pools {
    Pools(p.memory.Minus(memory),
          if gpu.Some? && gpu.value in p.gpu
          then p.gpu[gpu.value := p.gpu[gpu.value].Minus(vram)] else p.gpu,
          p.slots + 1)
  }

  function Give(p: Pools, memory: real, vram: real, gpu: Option<int>): Pools {
    Pools(p.memory.Plus(memory),
          if gpu.Some? && gpu.value in p.gpu
          then p.gpu[gpu.value := p.gpu[gpu.value].Plus(vram)] else p.gpu,
          p.slots - 1)
  }

  /** `q` is at least as roomy as `p`, on every GPU, in memory and in slots. */
  ghost predicate Roomier(p: Pools, q: Pools) {
    && p.memory.AtMost(q.memory)
    && p.gpu.Keys == q.gpu.Keys
    && (forall g :: g in p.gpu ==> p.gpu[g].AtMost(q.gpu[g]))
    && q.slots <= p.slots
  }

  /** An occupant has released its resources by `t`. */
  predicate Released(o: RunningEntry, t: Moment) {
    o.remaining.Some? && (t.Infinity? || o.remaining.value <= t.seconds)
  }

  /** The pools projected to `t`: everything released by then has been given back. */
  function StateAt(p: Pools, occupants: seq<RunningEntry>, t: Moment): Pools {
    if occupants == [] then p
    else
      var q := StateAt(p, occupants[..|occupants| - 1], t);
      var o := occupants[|occupants| - 1];
      if Released(o, t) then Give(q, o.memory, o.vram, o.gpu) else q
  }

  // ----- the admissibility test -----

  function EffectiveMax(cap: Capacity, task: PendingEntry): int {
    if !cap.snapshotPresent then cap.maxWorkers
    else if task.cpu > 1.0 then
      var n := Truncate(cap.maxWorkers as real / task.cpu);
      if n > 1 then n else 1
    else cap.maxWorkers
  }

  /** Truncation toward zero, as an integer conversion does. */
  function Truncate(x: real): int {
    if x >= 0.0 then x.Floor else -((-x).Floor)
  }

  ghost predicate RoomOnSomeGpu(order: seq<int>, gpu: map<int, Amount>, vram: real) {
    exists i :: 0 <= i < |order| && HasRoom(gpu, order[i], vram)
  }

  predicate HasRoom(gpu: map<int, Amount>, g: int, vram: real) {
    g in gpu && gpu[g].Exceeds(vram)
  }

  /** The part of admissibility that does not involve a GPU. */
  predicate FitsNonGpu(cap: Capacity, task: PendingEntry, p: Pools) {
    && !(task.exclusive && p.slots > 0)
    && p.slots < cap.maxWorkers
    && p.slots < EffectiveMax(cap, task)
    && p.memory.Exceeds(task.memory)
  }

  /** `task` may start against pools `p`. */
  ghost predicate Fits(cap: Capacity, task: PendingEntry, p: Pools) {
    FitsNonGpu(cap, task, p) && (task.vram > 0.0 ==> RoomOnSomeGpu(cap.gpuOrder, p.gpu, task.vram))
  }

  /** The GPUs with room, in round-robin order from `rr`, among the first `n` offsets. */
  function OptionsUpTo(order: seq<int>, gpu: map<int, Amount>, vram: real, rr: int, n: nat): seq<Choice>
    requires n <= |order|
  {
    if n == 0 then []
    else
      var idx := (rr + n - 1) % |order|;
      OptionsUpTo(order, gpu, vram, rr, n - 1)
      + (if HasRoom(gpu, order[idx], vram) then [Choice(Some(order[idx]), (idx + 1) % |order|)] else [])
  }

  function GpuOptions(order: seq<int>, gpu: map<int, Amount>, vram: real, rr: int): seq<Choice> {
    OptionsUpTo(order, gpu, vram, rr, |order|)
  }

  /** Round-robin first fit: the first option, or no GPU and an unmoved index. */
  function PickGpu(order: seq<int>, gpu: map<int, Amount>, vram: real, rr: int): Choice {
    var options := GpuOptions(order, gpu, vram, rr);
    if options == [] then Choice(None, rr) else options[0]
  }

  /** Where an admitted task goes: a picked GPU if it needs VRAM, none otherwise. */
  function ChoiceFor(cap: Capacity, task: PendingEntry, p: Pools, rr: int): Choice {
    if task.vram > 0.0 then PickGpu(cap.gpuOrder, p.gpu, task.vram, rr) else Choice(None, rr)
  }

  // ----- lemmas: the order on pools -----

  lemma RoomierTransitive(p: Pools, q: Pools, r: Pools)
    requires Roomier(p, q) && Roomier(q, r)
    ensures Roomier(p, r)
  {
  }

  /** Admission is monotone: what fits still fits in roomier pools. */
  lemma FitsMonotone(cap: Capacity, task: PendingEntry, p: Pools, q: Pools)
    requires Roomier(p, q) && Fits(cap, task, p)
    ensures Fits(cap, task, q)
  {
    if task.vram > 0.0 {
      var i :| 0 <= i < |cap.gpuOrder| && HasRoom(p.gpu, cap.gpuOrder[i], task.vram);
      assert HasRoom(q.gpu, cap.gpuOrder[i], task.vram);
    }
  }

  lemma TakeMonotone(p: Pools, q: Pools, m: real, v: real, g: Option<int>)
    requires Roomier(p, q)
    ensures Roomier(Take(p, m, v, g), Take(q, m, v, g))
  {
  }

  lemma GiveMonotone(p: Pools, q: Pools, m: real, v: real, g: Option<int>)
    requires Roomier(p, q)
    ensures Roomier(Give(p, m, v, g), Give(q, m, v, g))
  {
  }

  lemma TakeShrinks(p: Pools, m: real, v: real, g: Option<int>)
    requires m >= 0.0 && v >= 0.0
    ensures Roomier(Take(p, m, v, g), p)
  {
  }

  lemma GiveGrows(p: Pools, m: real, v: real, g: Option<int>)
    requires m >= 0.0 && v >= 0.0
    ensures Roomier(p, Give(p, m, v, g))
  {
  }

  lemma GiveUndoesTake(p: Pools, m: real, v: real, g: Option<int>)
    ensures Give(Take(p, m, v, g), m, v, g) == p
  {
    assert Give(Take(p, m, v, g), m, v, g).gpu == p.gpu;
  }

  lemma TakeGiveCommute(p: Pools, m: real, v: real, g: Option<int>, n: real, w: real, h: Option<int>)
    ensures Take(Give(p, n, w, h), m, v, g) == Give(Take(p, m, v, g), n, w, h)
  {
    assert Take(Give(p, n, w, h), m, v, g).gpu == Give(Take(p, m, v, g), n, w, h).gpu;
  }

  // ----- lemmas: projection -----

  ghost predicate NonNegative(occupants: seq<RunningEntry>) {
    forall i :: 0 <= i < |occupants| ==> occupants[i].memory >= 0.0 && occupants[i].vram >= 0.0
  }

  lemma {:induction false} StateAtMonotone(p: Pools, q: Pools, occupants: seq<RunningEntry>, t: Moment)
    requires Roomier(p, q)
    ensures Roomier(StateAt(p, occupants, t), StateAt(q, occupants, t))
  {
    if occupants != [] {
      StateAtMonotone(p, q, occupants[..|occupants| - 1], t);
    }
  }

  /** Later projections are roomier. */
  lemma {:induction false} StateAtGrows(p: Pools, occupants: seq<RunningEntry>, t: Moment, u: Moment)
    requires NonNegative(occupants) && t.NoLaterThan(u)
    ensures Roomier(StateAt(p, occupants, t), StateAt(p, occupants, u))
    ensures Roomier(p, StateAt(p, occupants, t))
  {
    if occupants != [] {
      var o := occupants[|occupants| - 1];
      var pre := occupants[..|occupants| - 1];
      StateAtGrows(p, pre, t, u);
      var a, b := StateAt(p, pre, t), StateAt(p, pre, u);
      GiveGrows(a, o.memory, o.vram, o.gpu);
      GiveGrows(b, o.memory, o.vram, o.gpu);
      GiveMonotone(a, b, o.memory, o.vram, o.gpu);
    }
  }

  /** Only which occupants have released matters. */
  lemma {:induction false} StateAtDependsOnReleases(p: Pools, occupants: seq<RunningEntry>, t: Moment, u: Moment)
    requires forall i :: 0 <= i < |occupants| ==> (Released(occupants[i], t) <==> Released(occupants[i], u))
    ensures StateAt(p, occupants, t) == StateAt(p, occupants, u)
  {
    if occupants != [] {
      StateAtDependsOnReleases(p, occupants[..|occupants| - 1], t, u);
    }
  }

  lemma {:induction false} StateAtUnreleased(p: Pools, occupants: seq<RunningEntry>, t: Moment)
    requires forall i :: 0 <= i < |occupants| ==> !Released(occupants[i], t)
    ensures StateAt(p, occupants, t) == p
  {
    if occupants != [] {
      StateAtUnreleased(p, occupants[..|occupants| - 1], t);
    }
  }

  /** Taking now and projecting is projecting and then taking. */
  lemma {:induction false} StateAtTake(p: Pools, occupants: seq<RunningEntry>, t: Moment, m: real, v: real,
                                       g: Option<int>)
    ensures StateAt(Take(p, m, v, g), occupants, t) == Take(StateAt(p, occupants, t), m, v, g)
  {
    if occupants != [] {
      var o := occupants[|occupants| - 1];
      StateAtTake(p, occupants[..|occupants| - 1], t, m, v, g);
      TakeGiveCommute(StateAt(p, occupants[..|occupants| - 1], t), m, v, g, o.memory, o.vram, o.gpu);
    }
  }

  lemma StateAtSnoc(p: Pools, occupants: seq<RunningEntry>, o: RunningEntry, t: Moment)
    ensures StateAt(p, occupants + [o], t) ==
      if Released(o, t) then Give(StateAt(p, occupants, t), o.memory, o.vram, o.gpu)
      else StateAt(p, occupants, t)
  {
    assert (occupants + [o])[..|occupants + [o]| - 1] == occupants;
  }

  /** More occupants only add releases. */
  lemma {:induction false} StateAtMoreOccupants(p: Pools, occupants: seq<RunningEntry>, more: seq<RunningEntry>,
                                                t: Moment)
    requires NonNegative(more)
    ensures Roomier(StateAt(p, occupants, t), StateAt(p, occupants + more, t))
  {
    if more == [] {
      assert occupants + more == occupants;
    } else {
      var pre, o := more[..|more| - 1], more[|more| - 1];
      StateAtMoreOccupants(p, occupants, pre, t);
      assert occupants + more == (occupants + pre) + [o];
      StateAtSnoc(p, occupants + pre, o, t);
      GiveGrows(StateAt(p, occupants + pre, t), o.memory, o.vram, o.gpu);
    }
  }

  // ----- lemmas: GPU options -----

  /** Every option is a GPU of the order with room, and keeps the index in range. */
  lemma {:induction false} OptionsSound(order: seq<int>, gpu: map<int, Amount>, vram: real, rr: int, n: nat)
    requires n <= |order|
    ensures forall i :: 0 <= i < |OptionsUpTo(order, gpu, vram, rr, n)| ==>
      var c := OptionsUpTo(order, gpu, vram, rr, n)[i];
      c.gpu.Some? && c.gpu.value in order && HasRoom(gpu, c.gpu.value, vram) && 0 <= c.next < |order|
  {
    if n > 0 {
      OptionsSound(order, gpu, vram, rr, n - 1);
    }
  }

  lemma OneMoreOption(order: seq<int>, gpu: map<int, Amount>, vram: real, rr: int, offset: nat)
    requires offset < |order|
    ensures var idx := (rr + offset) % |order|;
      OptionsUpTo(order, gpu, vram, rr, offset + 1) == OptionsUpTo(order, gpu, vram, rr, offset)
        + (if HasRoom(gpu, order[idx], vram) then [Choice(Some(order[idx]), (idx + 1) % |order|)] else [])
  {
    hide HasRoom;
  }

  lemma {:induction false} OptionsGrow(order: seq<int>, gpu: map<int, Amount>, vram: real, rr: int, k: nat, n: nat)
    requires k <= n <= |order|
    ensures OptionsUpTo(order, gpu, vram, rr, k) <= OptionsUpTo(order, gpu, vram, rr, n)
  {
    if k < n {
      OptionsGrow(order, gpu, vram, rr, k, n - 1);
    }
  }

  /** The rotation reaches every position: some offset lands on `i`. */
  lemma RotationReaches(rr: int, n: int, i: int) returns (offset: int)
    requires 0 <= i < n
    ensures 0 <= offset < n && (rr + offset) % n == i
  {
    offset := (i - rr) % n;
    var q, k := (i - rr) / n, (rr + offset) / n;
    assert rr + offset == i - q * n;
    assert rr + offset == k * n + (rr + offset) % n;
    assert (k + q) * n == i - (rr + offset) % n;
    SmallMultiple(k + q, n, i - (rr + offset) % n);
  }

  lemma MultipleBound(a: int, n: int)
    requires n > 0
    ensures a >= 1 ==> a * n >= n
    ensures a <= -1 ==> a * n <= -n
  {
  }

  lemma SmallMultiple(a: int, n: int, d: int)
    requires n > 0 && a * n == d && -n < d < n
    ensures d == 0
  {
    MultipleBound(a, n);
  }

  /** Every GPU of the rotation with room is some option. */
  lemma OptionFor(order: seq<int>, gpu: map<int, Amount>, vram: real, rr: int, i: int) returns (k: int)
    requires 0 <= i < |order| && HasRoom(gpu, order[i], vram)
    ensures 0 <= k < |GpuOptions(order, gpu, vram, rr)| && GpuOptions(order, gpu, vram, rr)[k].gpu == Some(order[i])
  {
    var n := |order|;
    var offset := RotationReaches(rr, n, i);
    var upTo := OptionsUpTo(order, gpu, vram, rr, offset + 1);
    OptionsGrow(order, gpu, vram, rr, offset + 1, n);
    k := |upTo| - 1;
    assert upTo[k] == Choice(Some(order[i]), (i + 1) % n);
  }

  /** There is an option exactly when some GPU has room, wherever the round robin starts. */
  lemma OptionsExist(order: seq<int>, gpu: map<int, Amount>, vram: real, rr: int)
    ensures GpuOptions(order, gpu, vram, rr) != [] <==> RoomOnSomeGpu(order, gpu, vram)
  {
    var n := |order|;
    OptionsSound(order, gpu, vram, rr, n);
    if GpuOptions(order, gpu, vram, rr) != [] {
      var c := GpuOptions(order, gpu, vram, rr)[0];
      var i :| 0 <= i < n && order[i] == c.gpu.value;
      assert HasRoom(gpu, order[i], vram);
    }
    if RoomOnSomeGpu(order, gpu, vram) {
      var i :| 0 <= i < n && HasRoom(gpu, order[i], vram);
      var offset := RotationReaches(rr, n, i);
      assert OptionsUpTo(order, gpu, vram, rr, offset + 1) != [];
      OptionsGrow(order, gpu, vram, rr, offset + 1, n);
    }
  }

  /** Backfill's two-part test and front admission's single test are the same test. */
  lemma AdmissibilityTestsAgree(cap: Capacity, task: PendingEntry, p: Pools, rr: int)
    ensures Fits(cap, task, p) <==>
      FitsNonGpu(cap, task, p) &&
      (task.vram > 0.0 ==> GpuOptions(cap.gpuOrder, p.gpu, task.vram, rr) != [])
    ensures Fits(cap, task, p) && task.vram > 0.0 ==>
      PickGpu(cap.gpuOrder, p.gpu, task.vram, rr) == GpuOptions(cap.gpuOrder, p.gpu, task.vram, rr)[0]
  {
    OptionsExist(cap.gpuOrder, p.gpu, task.vram, rr);
  }
}
