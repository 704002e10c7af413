/** The planner as the program runs it: one object, loops over its own fields.  Every
    method is proved to compute the function of the same name in `Planning`. */
module Planner {
  import opened Quantities
  import opened Admission
  import opened Rotation
  import opened Slots
  import opened Planning
  import opened Reservations

  class BackfillPlanner {
    const cap: Capacity
    var queue: seq<PendingEntry>
    var occupants: seq<RunningEntry>
    var pools: Pools
    var rr: int
    var decisions: seq<Decision>
    var heldIdentities: set<string>
    // Which task each decision is about and why it was taken; only specifications read it.
    ghost var admitted: seq<Placement>

    ghost predicate Valid()
      reads this
    {
      decisions == Decisions(admitted)
    }

    ghost function View(): PlanState
      reads this
    {
      PlanState(queue, occupants, pools, rr, admitted, heldIdentities)
    }

    constructor (pending: seq<PendingEntry>, running: seq<RunningEntry>, capacity: Capacity)
      ensures Valid() && cap == capacity
      ensures View() == Planning.Start(pending, running, capacity)
    {
      cap := capacity;
      queue := pending;
      occupants := running;
      pools := Pools(capacity.memoryFree, capacity.gpuFree, capacity.runningCount);
      rr := capacity.nextGpu;
      decisions := [];
      heldIdentities := Planning.HeldBy(running);
      admitted := [];
    }

    /** Round-robin first fit over `gpuFree`. */
    method PickGpu(vram: real, gpuFree: map<int, Amount>, from: int) returns (gpu: Option<int>, next: int)
      ensures Choice(gpu, next) == Admission.PickGpu(cap.gpuOrder, gpuFree, vram, from)
      ensures PicksFirst(cap.gpuOrder, gpuFree, vram, from, Choice(gpu, next))
    {
      PickIsFirst(cap.gpuOrder, gpuFree, vram, from);
      var order := cap.gpuOrder;
      var n := |order|;
      assert n > 0 ==> OptionsUpTo(order, gpuFree, vram, from, 0) == [];
      hide PicksFirst, OptionsUpTo, HasRoom;
      if n == 0 {
        return None, from;
      }
      var offset := 0;
      while offset < n
        invariant 0 <= offset <= n
        invariant OptionsUpTo(order, gpuFree, vram, from, offset) == []
      {
        var idx := (from + offset) % n;
        OneMoreOption(order, gpuFree, vram, from, offset);
        if HasRoom(gpuFree, order[idx], vram) {
          OptionsGrow(order, gpuFree, vram, from, offset + 1, n);
          return Some(order[idx]), (idx + 1) % n;
        }
        offset := offset + 1;
      }
      return None, from;
    }

    method Fits(task: PendingEntry, p: Pools, from: int) returns (fits: bool, gpu: Option<int>, next: int)
      ensures fits == FitsPools(cap, task, p, from)
      ensures fits ==> Choice(gpu, next) == ChoiceFor(cap, task, p, from)
      ensures !fits ==> gpu == None && next == from
      ensures fits <==> HasSlot(cap, task, p.slots) && p.memory.Exceeds(task.memory)
                        && (task.vram > 0.0 ==> RoomOnSomeGpu(cap.gpuOrder, p.gpu, task.vram))
    {
      FitsIsComputed(cap, task, p, from);
      FitsExactly(cap, task, p);
      hide Admission.Fits, HasSlot, RoomOnSomeGpu;
      if task.exclusive && p.slots > 0 {
        return false, None, from;
      }
      if p.slots >= cap.maxWorkers {
        return false, None, from;
      }
      if p.slots >= EffectiveMax(cap, task) {
        return false, None, from;
      }
      if !p.memory.Exceeds(task.memory) {
        return false, None, from;
      }
      gpu, next := None, from;
      if task.vram > 0.0 {
        gpu, next := PickGpu(task.vram, p.gpu, from);
        if gpu == None {
          return false, None, from;
        }
      }
      fits := true;
    }

    /** Record a decision and consume its resources; the caller has already moved `rr`. */
    method Admit(task: PendingEntry, gpu: Option<int>, rule: Rule)
      requires Valid()
      modifies this
      ensures Valid() && View() == Planning.Admit(old(View()), task, Choice(gpu, old(rr)), rule)
    {
      decisions := decisions + [Decision(task.id, gpu)];
      pools := Take(pools, task.memory, task.vram, gpu);
      if task.identity.Some? {
        heldIdentities := heldIdentities + {task.identity.value};
      }
      if rule.Front? {
        occupants := occupants + [RunningEntry(task.id, task.memory, task.vram, gpu, task.duration, false, None)];
      }
      admitted := admitted + [Placement(task, gpu, rule)];
    }

    method ReleaseTimes() returns (times: seq<real>)
      ensures times == Planning.ReleaseTimes(occupants)
    {
      times := [];
      var i := 0;
      while i < |occupants|
        invariant 0 <= i <= |occupants|
        invariant times == Planning.ReleaseTimes(occupants[..i])
      {
        assert occupants[..i + 1][..i] == occupants[..i];
        if occupants[i].remaining.Some? {
          times := InsertTime(times, occupants[i].remaining.value);
        }
        i := i + 1;
      }
      assert occupants[..i] == occupants;
    }

    /** The live pools projected to `t`. */
    method StateAt(t: Moment) returns (p: Pools)
      ensures p == Admission.StateAt(pools, occupants, t)
    {
      p := pools;
      var i := 0;
      while i < |occupants|
        invariant 0 <= i <= |occupants|
        invariant p == Admission.StateAt(pools, occupants[..i], t)
      {
        assert occupants[..i + 1][..i] == occupants[..i];
        var o := occupants[i];
        if Released(o, t) {
          p := Give(p, o.memory, o.vram, o.gpu);
        }
        i := i + 1;
      }
      assert occupants[..i] == occupants;
    }

    method ComputeReservation(head: PendingEntry) returns (reservation: Moment)
      ensures reservation == Planning.Reservation(cap, head, View())
    {
      var times := ReleaseTimes();
      var i := 0;
      while i < |times|
        invariant 0 <= i <= |times|
        invariant FirstFit(cap, head, View(), times[i..]) == Planning.Reservation(cap, head, View())
      {
        var p := StateAt(At(times[i]));
        var fits, _, _ := Fits(head, p, rr);
        assert times[i..][1..] == times[i + 1..];
        if fits {
          return At(times[i]);
        }
        i := i + 1;
      }
      return Infinity;
    }

    method GpuOptions(vram: real) returns (options: seq<Choice>)
      ensures options == Admission.GpuOptions(cap.gpuOrder, pools.gpu, vram, rr)
      ensures exists offsets :: OptionsAt(cap.gpuOrder, pools.gpu, vram, rr, options, offsets, |cap.gpuOrder|)
    {
      ghost var offsets := OptionsAreOnward(cap.gpuOrder, pools.gpu, vram, rr);
      var order := cap.gpuOrder;
      var n := |order|;
      options := [];
      assert options == OptionsUpTo(order, pools.gpu, vram, rr, 0);
      hide OptionsAt, OptionsUpTo, HasRoom;
      for offset := 0 to n
        invariant options == OptionsUpTo(order, pools.gpu, vram, rr, offset)
      {
        var idx := (rr + offset) % n;
        OneMoreOption(order, pools.gpu, vram, rr, offset);
        if HasRoom(pools.gpu, order[idx], vram) {
          options := options + [Choice(Some(order[idx]), (idx + 1) % n)];
        }
      }
    }

    method HeadStillFitsWithHold(head: PendingEntry, candidate: PendingEntry, gpu: Option<int>, reservation: Moment)
      returns (ok: bool)
      ensures ok == Planning.HeadStillFitsWithHold(cap, View(), head, candidate, gpu, reservation)
    {
      var p := StateAt(reservation);
      p := Take(p, candidate.memory, candidate.vram, gpu);
      var fits, _, _ := Fits(head, p, rr);
      return fits;
    }

    method PlaceBackfill(head: PendingEntry, candidate: PendingEntry, reservation: Moment, short: bool)
      returns (placement: Option<(Choice, Rule)>)
      requires short == FinishesBefore(candidate, reservation)
      ensures placement ==
        TryOptions(cap, View(), head, candidate, reservation, PlacementOptions(cap, View(), candidate))
    {
      var options;
      if candidate.vram <= 0.0 {
        options := [Choice(None, rr)];
      } else {
        options := GpuOptions(candidate.vram);
      }
      var i := 0;
      while i < |options|
        invariant 0 <= i <= |options|
        invariant TryOptions(cap, View(), head, candidate, reservation, options[i..])
          == TryOptions(cap, View(), head, candidate, reservation, options)
      {
        assert options[i..][1..] == options[i + 1..];
        if short {
          return Some((options[i], ShortEnough));
        }
        var ok := HeadStillFitsWithHold(head, candidate, options[i].gpu, reservation);
        if ok {
          return Some((options[i], Disjoint));
        }
        i := i + 1;
      }
      return None;
    }

    method Backfill(head: PendingEntry, reservation: Moment)
      requires Valid() && queue != []
      modifies this
      ensures Valid() && View() == Planning.Backfill(cap, old(View()), head, reservation, old(queue)[1..])
    {
      hide TryOptions, PlacementOptions, FinishesBefore, Take;
      var candidates := queue[1..];
      ghost var before := View();
      var i := 0;
      while i < |candidates|
        invariant 0 <= i <= |candidates|
        invariant Valid() && View() == Planning.Backfill(cap, before, head, reservation, candidates[..i])
      {
        var candidate := candidates[i];
        assert candidates[..i + 1][..i] == candidates[..i];
        i := i + 1;
        if Planning.CanaryBlocked(heldIdentities, candidate) {
          continue;
        }
        if !FitsNonGpu(cap, candidate, pools) {
          continue;
        }
        var short := FinishesBefore(candidate, reservation);
        var placement := PlaceBackfill(head, candidate, reservation, short);
        if placement == None {
          continue;
        }
        var (choice, rule) := placement.value;
        rr := choice.next;
        Admit(candidate, choice.gpu, rule);
      }
      assert candidates[..i] == candidates;
    }

    /** One dispatch cycle. */
    method Run() returns (plan: Plan)
      requires Valid()
      modifies this
      ensures Valid() && View() == Planning.Cycle(cap, old(View()))
      ensures plan == Plan(Decisions(View().admitted), View().rr)
    {
      if AnyExclusive(occupants) {
        return Plan(decisions, rr);
      }
      ghost var start := View();
      while queue != []
        invariant Valid() && AdmitFront(cap, View()) == AdmitFront(cap, start)
        decreases |queue|
      {
        var head := queue[0];
        if Planning.CanaryBlocked(heldIdentities, head) {
          break;
        }
        var fits, gpu, next := Fits(head, pools, rr);
        if !fits {
          break;
        }
        rr := next;
        Admit(head, gpu, Front);
        queue := queue[1..];
        if head.exclusive {
          return Plan(decisions, rr);
        }
      }
      if queue == [] {
        return Plan(decisions, rr);
      }
      var head := queue[0];
      if head.exclusive {
        return Plan(decisions, rr);
      }
      var reservation := Infinity;
      if !Planning.CanaryBlocked(heldIdentities, head) {
        reservation := ComputeReservation(head);
      }
      Backfill(head, reservation);
      return Plan(decisions, rr);
    }
  }

  /** The scheduler's entry point: a function of its inputs. */
  method PlanDispatch(pending: seq<PendingEntry>, running: seq<RunningEntry>, capacity: Capacity)
    returns (plan: Plan)
    ensures plan == Plan(Decisions(PlanFor(pending, running, capacity).admitted),
                         PlanFor(pending, running, capacity).rr)
  {
    var planner := new BackfillPlanner(pending, running, capacity);
    plan := planner.Run();
  }
}
