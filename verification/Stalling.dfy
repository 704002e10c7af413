/** Which queued tasks a blocked head holds back: exactly those that no rule lets past it. */
module Stalling {
  import opened Quantities
  import opened Admission
  import opened Planning
  import opened Reservations
  import opened Plans

  /** The planning state when the turn of candidate `k` comes. */
  function AtTurn(cap: Capacity, st: PlanState, head: PendingEntry, r: Moment, candidates: seq<PendingEntry>,
                  k: nat): PlanState
    requires k <= |candidates|
  {
    Backfill(cap, st, head, r, candidates[..k])
  }

  /** A turn admits its candidate exactly if the candidate passes the head there and then. */
  lemma TurnByTurn(cap: Capacity, st: PlanState, head: PendingEntry, r: Moment, candidates: seq<PendingEntry>, k: nat)
    returns (a: Placement)
    requires k < |candidates|
    ensures var turn, next := AtTurn(cap, st, head, r, candidates, k), AtTurn(cap, st, head, r, candidates, k + 1);
      if Passes(cap, turn, head, r, candidates[k])
      then next.admitted == turn.admitted + [a] && a.task == candidates[k]
           && (a.rule.ShortEnough? <==> EndsBy(candidates[k], r)) && !a.rule.Front?
      else next == turn
  {
    assert candidates[..k + 1][..k] == candidates[..k];
    a := BackfillOneSteps(cap, AtTurn(cap, st, head, r, candidates, k), head, r, candidates[k]);
  }

  /** Nothing passes the head exactly if nothing passes it as things stand before any backfill. */
  lemma {:induction false} NothingPassesExactly(cap: Capacity, st: PlanState, head: PendingEntry, r: Moment,
                                                candidates: seq<PendingEntry>)
    ensures Backfill(cap, st, head, r, candidates) == st <==>
      forall k :: 0 <= k < |candidates| ==> !Passes(cap, st, head, r, candidates[k])
  {
    if candidates != [] {
      var pre, c := candidates[..|candidates| - 1], candidates[|candidates| - 1];
      NothingPassesExactly(cap, st, head, r, pre);
      BackfillFrame(cap, st, head, r, pre);
      var a := BackfillOneSteps(cap, Backfill(cap, st, head, r, pre), head, r, c);
      assert candidates == pre + [c];
      hide Passes, BackfillOne;
      if Backfill(cap, st, head, r, pre) == st {
        forall k | 0 <= k < |pre| ensures candidates[k] == pre[k] {
        }
      } else {
        BackfillGrows(cap, st, head, r, pre);
        var k :| 0 <= k < |pre| && Passes(cap, st, head, r, pre[k]);
        assert candidates[k] == pre[k];
      }
    }
  }

  /** Backfill that changed anything admitted something. */
  lemma {:induction false} BackfillGrows(cap: Capacity, st: PlanState, head: PendingEntry, r: Moment,
                                         candidates: seq<PendingEntry>)
    ensures var fin := Backfill(cap, st, head, r, candidates);
      |fin.admitted| >= |st.admitted| && (fin != st ==> |fin.admitted| > |st.admitted|)
  {
    if candidates != [] {
      var pre, c := candidates[..|candidates| - 1], candidates[|candidates| - 1];
      BackfillGrows(cap, st, head, r, pre);
      var a := BackfillOneSteps(cap, Backfill(cap, st, head, r, pre), head, r, c);
    }
  }

  // ----- behind a head that the canary blocks -----

  /** A task that is not cold and could start now. */
  ghost predicate FeasibleWarm(cap: Capacity, st: PlanState, task: PendingEntry) {
    !task.cold && Fits(cap, task, st.pools)
  }

  /** Wherever there is room for the task now, the head would not fit beside it even once every
      known release has happened. */
  ghost predicate TakesTheHeadsRoom(cap: Capacity, st: PlanState, head: PendingEntry, task: PendingEntry) {
    var last := StateAt(st.pools, st.occupants, Infinity);
    if task.vram <= 0.0 then !Fits(cap, head, Take(last, task.memory, task.vram, None))
    else forall i :: 0 <= i < |cap.gpuOrder| && HasRoom(st.pools.gpu, cap.gpuOrder[i], task.vram) ==>
           !Fits(cap, head, Take(last, task.memory, task.vram, Some(cap.gpuOrder[i])))
  }

  lemma PassingIsLeavingRoom(cap: Capacity, st: PlanState, head: PendingEntry, task: PendingEntry)
    requires FeasibleWarm(cap, st, task)
    ensures Passes(cap, st, head, Infinity, task) <==> !TakesTheHeadsRoom(cap, st, head, task)
  {
  }

  /** The plan comes to candidate `k` behind the blocked head and leaves it, though it is warm and
      could start. */
  ghost predicate Refused(cap: Capacity, front: PlanState, k: int)
    requires front.queue != [] && 0 <= k < |front.queue| - 1
  {
    var head, candidates := front.queue[0], front.queue[1..];
    var r := HeadReservation(cap, front, head);
    && FeasibleWarm(cap, AtTurn(cap, front, head, r, candidates, k), candidates[k])
    && AtTurn(cap, front, head, r, candidates, k + 1) == AtTurn(cap, front, head, r, candidates, k)
  }

  /** Behind a head that the canary blocks, a warm task that could start at its turn is refused
      exactly if, wherever it could go, it takes the room the head would need in the end. */
  lemma RefusedExactly(pending: seq<PendingEntry>, running: seq<RunningEntry>, cap: Capacity,
                       front: PlanState, head: PendingEntry, k: int)
    requires BlockedHead(pending, running, cap, front, head) && CanaryBlocked(front.held, head)
    requires 0 <= k < |front.queue| - 1
    ensures var candidates := front.queue[1..];
      var turn := AtTurn(cap, front, head, Infinity, candidates, k);
      && PlanFor(pending, running, cap) == AtTurn(cap, front, head, Infinity, candidates, |candidates|)
      && (Refused(cap, front, k) <==>
            FeasibleWarm(cap, turn, candidates[k]) && TakesTheHeadsRoom(cap, turn, head, candidates[k]))
  {
    var candidates := front.queue[1..];
    var turn := AtTurn(cap, front, head, Infinity, candidates, k);
    PlanAfterFront(pending, running, cap);
    assert candidates[..|candidates|] == candidates;
    var a := TurnByTurn(cap, front, head, Infinity, candidates, k);
    hide Backfill, Passes, FeasibleWarm, TakesTheHeadsRoom, AtTurn;
    if FeasibleWarm(cap, turn, candidates[k]) {
      PassingIsLeavingRoom(cap, turn, head, candidates[k]);
    }
  }

  /** The plan stalls some feasible warm task behind a canary-blocked head exactly if, at the turn of
      some feasible warm task, that task would take the head's room wherever it could go. */
  lemma StallsWarmWorkExactly(pending: seq<PendingEntry>, running: seq<RunningEntry>, cap: Capacity,
                              front: PlanState, head: PendingEntry)
    requires BlockedHead(pending, running, cap, front, head) && CanaryBlocked(front.held, head)
    ensures (exists k :: 0 <= k < |front.queue| - 1 && Refused(cap, front, k)) <==>
      (exists k :: 0 <= k < |front.queue| - 1 && HeadNeedsIt(cap, front, head, k))
  {
    forall k | 0 <= k < |front.queue| - 1 ensures Refused(cap, front, k) <==> HeadNeedsIt(cap, front, head, k) {
      RefusedExactly(pending, running, cap, front, head, k);
    }
  }

  ghost predicate HeadNeedsIt(cap: Capacity, front: PlanState, head: PendingEntry, k: int)
    requires front.queue != [] && 0 <= k < |front.queue| - 1
  {
    var turn := AtTurn(cap, front, head, Infinity, front.queue[1..], k);
    FeasibleWarm(cap, turn, front.queue[1..][k]) && TakesTheHeadsRoom(cap, turn, head, front.queue[1..][k])
  }

  /** Before the call: if nothing ahead of candidate `k` may pass as things stand, then a warm task
      that could start is refused exactly if it takes the head's room as things stand. */
  lemma FirstFeasibleRefusedExactly(pending: seq<PendingEntry>, running: seq<RunningEntry>, cap: Capacity,
                                    front: PlanState, head: PendingEntry, k: int)
    requires BlockedHead(pending, running, cap, front, head) && CanaryBlocked(front.held, head)
    requires 0 <= k < |front.queue| - 1 && FeasibleWarm(cap, front, front.queue[1..][k])
    requires forall i :: 0 <= i < k ==> !Passes(cap, front, head, Infinity, front.queue[1..][i])
    ensures Refused(cap, front, k) <==> TakesTheHeadsRoom(cap, front, head, front.queue[1..][k])
  {
    var candidates := front.queue[1..];
    NothingPassesExactly(cap, front, head, Infinity, candidates[..k]);
    RefusedExactly(pending, running, cap, front, head, k);
  }

  // ----- two cases of feasible work stalled behind a cold head -----

  /** Four workers, and `memory` GB admittable beside one running task. */
  function FourWorkers(memory: real): Capacity {
    Capacity(Finite(memory), map[], [], 0, 4, 1, true)
  }

  const BIG_HEAD := PendingEntry("head", 8.0, 0.0, 1.0, None, false, Some("f"), true)
  const BIG_CANARY := RunningEntry("canary", 8.0, 0.0, None, None, false, Some("f"))
  const HEAD := PendingEntry("head", 1.5, 0.0, 1.0, None, false, Some("f"), true)
  const CANARY := RunningEntry("canary", 1.5, 0.0, None, None, false, Some("f"))
  const SMALL := PendingEntry("small", 1.0, 0.0, 1.0, None, false, Some("g"), false)

  /** A cold head that does not fit beside its running canary, which no projection releases, stalls a
      warm task that fits. */
  lemma ColdHeadStallsFeasibleWork()
    ensures Fits(FourWorkers(4.0), SMALL, Pools(Finite(4.0), map[], 1))
    ensures PlanFor([BIG_HEAD, SMALL], [BIG_CANARY], FourWorkers(4.0)).admitted == []
  {
    OneCandidate(4.0, BIG_HEAD, BIG_CANARY);
  }

  /** So does one that fits beside the canary, but not beside the canary and the warm task. */
  lemma FittingColdHeadStallsFeasibleWork()
    ensures Fits(FourWorkers(2.0), HEAD, Pools(Finite(2.0), map[], 1))
    ensures Fits(FourWorkers(2.0), SMALL, Pools(Finite(2.0), map[], 1))
    ensures PlanFor([HEAD, SMALL], [CANARY], FourWorkers(2.0)).admitted == []
  {
    OneCandidate(2.0, HEAD, CANARY);
  }

  lemma OneCandidate(memory: real, head: PendingEntry, canary: RunningEntry)
    requires head.cold && head.identity == canary.identity == Some("f") && !head.exclusive && !canary.exclusive
    requires head.memory >= memory - 1.0 && head.vram == 0.0 && canary.remaining == None
    ensures PlanFor([head, SMALL], [canary], FourWorkers(memory)).admitted == []
  {
    var cap := FourWorkers(memory);
    var st := Start([head, SMALL], [canary], cap);
    assert canary in [canary];
    assert CanaryBlocked(st.held, head) && AdmitFront(cap, st) == (st, Blocked);
    assert st.queue[1..] == [SMALL];
    StateAtUnreleased(st.pools, [canary], Infinity);
    assert !MayGo(cap, st, head, Infinity, SMALL, None);
    NothingPassesExactly(cap, st, head, Infinity, [SMALL]);
  }
}
