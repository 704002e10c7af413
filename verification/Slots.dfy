/** How many tasks may run at once: the worker cap, and for a task of many cores fewer. */
module Slots {
  import opened Quantities
  import opened Admission

  /** There is a slot for the task.  An exclusive task needs the machine to itself; and where usage is
      measured, a task of more than one core joins others only if the workers suffice for everybody at
      that many cores each. */
  ghost predicate HasSlot(cap: Capacity, task: PendingEntry, slots: int) {
    && slots < cap.maxWorkers && (task.exclusive ==> slots <= 0)
    && (cap.snapshotPresent && task.cpu > 1.0 && slots > 0 ==>
          (slots + 1) as real * task.cpu <= cap.maxWorkers as real)
  }

  lemma Quotient(x: real, c: real, k: int)
    requires c > 0.0
    ensures k as real <= x / c <==> k as real * c <= x
  {
    var q := x / c;
    assert q * c == x;
    if k as real <= q {
      assert (q - k as real) * c >= 0.0;
    } else {
      assert (k as real - q) * c > 0.0;
    }
  }

  lemma FloorAtLeast(x: real, k: int)
    ensures k <= x.Floor <==> k as real <= x
  {
  }

  /** A task is admissible exactly if there is a slot for it, more memory than it takes, and a GPU with
      room if it needs one. */
  lemma FitsExactly(cap: Capacity, task: PendingEntry, p: Pools)
    ensures Fits(cap, task, p) <==>
      && HasSlot(cap, task, p.slots) && p.memory.Exceeds(task.memory)
      && (task.vram > 0.0 ==> RoomOnSomeGpu(cap.gpuOrder, p.gpu, task.vram))
  {
    if cap.snapshotPresent && task.cpu > 1.0 && 0 < p.slots < cap.maxWorkers {
      var x := cap.maxWorkers as real / task.cpu;
      Quotient(cap.maxWorkers as real, task.cpu, p.slots + 1);
      Quotient(cap.maxWorkers as real, task.cpu, 0);
      FloorAtLeast(x, p.slots + 1);
    }
  }

  /** An idle machine has a slot for any task, whatever its cores. */
  lemma IdleHasSlot(cap: Capacity, task: PendingEntry, p: Pools)
    requires cap.maxWorkers > 0 && p.slots == 0
    requires p.memory.Exceeds(task.memory) && (task.vram > 0.0 ==> RoomOnSomeGpu(cap.gpuOrder, p.gpu, task.vram))
    ensures Fits(cap, task, p)
  {
    FitsExactly(cap, task, p);
  }
}
