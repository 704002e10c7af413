/** Headroom: what the planner promises about its pools, as a statement about the machine. */
module Headroom {
  import opened Quantities
  import opened Profiles
  import opened Stores
  import opened Accounting
  import opened Admission
  import opened Planning
  import opened Reservations
  import opened Plans
  import opened ExecutorState
  import opened ExecutorInvariants
  import opened ExecutorDispatch
  import opened ExecutorRuns

  // ----- sums -----

  function MemoryPlanned(admitted: seq<Placement>): real {
    if admitted == [] then 0.0
    else MemoryPlanned(admitted[..|admitted| - 1]) + admitted[|admitted| - 1].task.memory
  }

  function VramPlanned(admitted: seq<Placement>, g: int): real {
    if admitted == [] then 0.0
    else
      var a := admitted[|admitted| - 1];
      VramPlanned(admitted[..|admitted| - 1], g) + (if a.gpu == Some(g) then a.task.vram else 0.0)
  }

  /** The pools after a plan are the pools before it less what was planned. */
  lemma {:induction false} PoolsAreSums(p: Pools, admitted: seq<Placement>)
    ensures var q := PoolsAfter(p, admitted);
      && q.memory == p.memory.Minus(MemoryPlanned(admitted)) && q.gpu.Keys == p.gpu.Keys
      && (forall g :: g in p.gpu ==> q.gpu[g] == p.gpu[g].Minus(VramPlanned(admitted, g)))
  {
    if admitted != [] {
      PoolsAreSums(p, admitted[..|admitted| - 1]);
    }
  }

  lemma {:induction false} CommittedAppend(a: seq<Work>, b: seq<Work>, g: int)
    ensures TotalCommitted(MemoryUsages(a + b)) == TotalCommitted(MemoryUsages(a)) + TotalCommitted(MemoryUsages(b))
    ensures CommittedOn(VramUsages(a + b), g) == CommittedOn(VramUsages(a), g) + CommittedOn(VramUsages(b), g)
  {
    if b == [] {
      assert a + b == a;
    } else {
      var pre, w := b[..|b| - 1], b[|b| - 1];
      CommittedAppend(a, pre, g);
      assert a + b == (a + pre) + [w] && b == pre + [w];
      CommittedSnoc(a + pre, w, g);
      CommittedSnoc(pre, w, g);
    }
  }

  lemma CommittedSnoc(ws: seq<Work>, w: Work, g: int)
    ensures TotalCommitted(MemoryUsages(ws + [w])) ==
      TotalCommitted(MemoryUsages(ws)) + CommittedGb(w.estimate.memory, w.observedMemory)
    ensures CommittedOn(VramUsages(ws + [w]), g) ==
      CommittedOn(VramUsages(ws), g) + (if w.gpu == Some(g) then CommittedGb(w.estimate.vram, w.observedVram) else 0.0)
  {
    assert MemoryUsages(ws + [w])[..|ws|] == MemoryUsages(ws);
    assert VramUsages(ws + [w])[..|ws|] == VramUsages(ws);
  }

  /** What was sent commits no more than what was planned. */
  lemma {:induction false} SentWithinPlan(sent: seq<Work>, admitted: seq<Placement>, g: int)
    requires SentFrom(sent, admitted)
    requires forall i :: 0 <= i < |admitted| ==> Sized(admitted[i].task)
    ensures TotalCommitted(MemoryUsages(sent)) <= MemoryPlanned(admitted)
    ensures CommittedOn(VramUsages(sent), g) <= VramPlanned(admitted, g)
    decreases |admitted|
  {
    if admitted != [] {
      var pre, a := admitted[..|admitted| - 1], admitted[|admitted| - 1];
      if SentFrom(sent, pre) {
        SentWithinPlan(sent, pre, g);
      } else {
        var front, w := sent[..|sent| - 1], sent[|sent| - 1];
        SentWithinPlan(front, pre, g);
        assert sent == front + [w];
        CommittedSnoc(front, w, g);
      }
    }
  }

  // ----- one cycle -----

  /** Memory in use, committed and kept free stays strictly below the machine's total. */
  ghost predicate MemoryHeadroom(cfg: Config, snapshot: Snapshot, ws: seq<Work>) {
    snapshot.memoryUsed + TotalCommitted(MemoryUsages(ws)) + cfg.memoryHeadroom < snapshot.memoryTotal
  }

  /** The same on one GPU, which the monitor must know. */
  ghost predicate VramHeadroom(cfg: Config, snapshot: Snapshot, ws: seq<Work>, g: int) {
    && g in snapshot.gpus
    && snapshot.gpus[g].used + CommittedOn(VramUsages(ws), g) + cfg.vramHeadroom < snapshot.gpus[g].total
  }

  lemma PlannedIsSized(cfg: Config, s: State, env: Env)
    requires Inv(cfg, s)
    ensures var admitted := PlanOf(cfg, s, env).admitted;
      forall i :: 0 <= i < |admitted| ==> Sized(admitted[i].task)
  {
    hide Inv, PlanOf;
    InputsAreSane(cfg, s, env);
    PlanIsAboutQueue(cfg, s, env);
    var admitted := PlanOf(cfg, s, env).admitted;
    forall i | 0 <= i < |admitted| ensures Sized(admitted[i].task) {
      assert InQueue(s.pending, admitted[i].task);
    }
  }

  /** The plan's pools, in terms of the machine. */
  lemma PlanLeavesRoom(cfg: Config, s: State, env: Env)
    requires env.snapshot.Some?
    ensures var fin := PlanOf(cfg, s, env);
      && (fin.admitted != [] ==>
            MemoryFree(cfg, env.snapshot, s.inFlight).Minus(MemoryPlanned(fin.admitted)).Exceeds(0.0))
      && (forall j :: 0 <= j < |fin.admitted| && fin.admitted[j].gpu.Some? ==>
            var g := fin.admitted[j].gpu.value;
            g in env.snapshot.value.gpus
            && VramFree(cfg, env.snapshot.value.gpus[g], s.inFlight, g) - VramPlanned(fin.admitted, g) > 0.0)
  {
    var queue, running := Entries(s.pending), RunningEntries(s.inFlight, env.now);
    var cap := CapacityFor(cfg, s, env.snapshot);
    EveryDecisionJustified(queue, running, cap);
    PoolsStayPositive(queue, running, cap);
    PoolsAreSums(Start(queue, running, cap).pools, PlanOf(cfg, s, env).admitted);
  }

  lemma SentLeavesRoom(cfg: Config, s: State, env: Env, sent: seq<Work>)
    requires Inv(cfg, s) && env.snapshot.Some? && sent != [] && SentFrom(sent, PlanOf(cfg, s, env).admitted)
    ensures MemoryHeadroom(cfg, env.snapshot.value, s.inFlight + sent)
    ensures forall w :: w in sent && w.gpu.Some? ==>
      VramHeadroom(cfg, env.snapshot.value, s.inFlight + sent, w.gpu.value)
  {
    hide Inv, PlanOf, SentFrom;
    var admitted := PlanOf(cfg, s, env).admitted;
    PlannedIsSized(cfg, s, env);
    PlanLeavesRoom(cfg, s, env);
    SentFromMembers(sent, admitted);
    SentWithinPlan(sent, admitted, 0);
    CommittedAppend(s.inFlight, sent, 0);
    forall w | w in sent && w.gpu.Some? ensures VramHeadroom(cfg, env.snapshot.value, s.inFlight + sent, w.gpu.value) {
      var i :| 0 <= i < |admitted| && SentFor(w, admitted[i]);
      SentWithinPlan(sent, admitted, w.gpu.value);
      CommittedAppend(s.inFlight, sent, w.gpu.value);
    }
  }

  lemma ObservingKeepsLength(readings: map<string, (real, real)>, ws: seq<Work>, sent: seq<Work>)
    ensures |ObserveAll(readings, ws) + sent| == |ws| + |sent|
    ensures (ObserveAll(readings, ws) + sent)[|ws|..] == sent
  {
  }

  /** Headroom is preserved: after a dispatch cycle that ships anything under a snapshot, use,
      commitment and headroom together stay strictly below total memory, and likewise on every
      GPU a task was just shipped to. */
  lemma DispatchKeepsHeadroom(cfg: Config, s: State, env: Env)
    requires Inv(cfg, s) && env.snapshot.Some?
    ensures var ws := Dispatch(cfg, s, env).inFlight;
      |ws| > |s.inFlight| ==>
        && MemoryHeadroom(cfg, env.snapshot.value, ws)
        && (forall i :: |s.inFlight| <= i < |ws| && ws[i].gpu.Some? ==>
              VramHeadroom(cfg, env.snapshot.value, ws, ws[i].gpu.value))
  {
    hide Inv, PlanOf, SentFrom, Dispatch, MemoryHeadroom, VramHeadroom, Seen;
    var sent := DispatchShips(cfg, s, env);
    var ws := Dispatch(cfg, s, env).inFlight;
    if |ws| > |s.inFlight| {
      var seen := Seen(cfg, s, env);
      SeenKeepsInv(cfg, s, env);
      SeenIsStamped(cfg, s, env);
      ObservingKeepsLength(env.readings, s.inFlight, sent);
      SentLeavesRoom(cfg, seen, env, sent);
      forall i | |s.inFlight| <= i < |ws| && ws[i].gpu.Some?
        ensures VramHeadroom(cfg, env.snapshot.value, ws, ws[i].gpu.value)
      {
        assert ws[|s.inFlight|..][i - |s.inFlight|] == ws[i];
        assert ws[i] in sent;
      }
    }
  }

  // ----- whole runs -----

  ghost predicate Unobserved(ws: seq<Work>) {
    forall w :: w in ws ==> w.observedMemory == 0.0 && w.observedVram == 0.0
  }

  /** The machine's totals and use as read stay put, and no growth is ever observed. */
  ghost predicate StaticStep(snapshot: Snapshot, a: Action) {
    a.ADispatch? ==>
      && a.env.snapshot == Some(snapshot)
      && (forall id :: id in a.env.readings ==> a.env.readings[id].0 <= 0.0 && a.env.readings[id].1 <= 0.0)
  }

  ghost predicate RoomKept(cfg: Config, snapshot: Snapshot, ws: seq<Work>) {
    && Unobserved(ws)
    && (ws != [] ==> MemoryHeadroom(cfg, snapshot, ws))
    && (forall w :: w in ws && w.gpu.Some? ==> VramHeadroom(cfg, snapshot, ws, w.gpu.value))
  }

  lemma {:induction false} FewerCommitLess(ws: seq<Work>, ids: set<string>, g: int)
    ensures TotalCommitted(MemoryUsages(Without(ws, ids))) <= TotalCommitted(MemoryUsages(ws))
    ensures CommittedOn(VramUsages(Without(ws, ids)), g) <= CommittedOn(VramUsages(ws), g)
  {
    if ws != [] {
      var pre, w := ws[..|ws| - 1], ws[|ws| - 1];
      FewerCommitLess(pre, ids, g);
      assert ws == pre + [w];
      WithoutSnoc(pre, w, ids);
      hide Without, MemoryUsages, VramUsages;
      CommittedSnoc(pre, w, g);
      CommittedSnoc(Without(pre, ids), w, g);
    }
  }

  lemma LandingKeepsRoom(cfg: Config, snapshot: Snapshot, before: seq<Work>, after: seq<Work>)
    requires RoomKept(cfg, snapshot, before) && OnlyLands(before, after)
    ensures RoomKept(cfg, snapshot, after)
  {
    var ids: set<string> :| after == Without(before, ids);
    FewerCommitLess(before, ids, 0);
    if after != [] { assert after[0] in before; }
    forall w | w in after && w.gpu.Some? ensures VramHeadroom(cfg, snapshot, after, w.gpu.value) {
      assert VramHeadroom(cfg, snapshot, before, w.gpu.value);
      FewerCommitLess(before, ids, w.gpu.value);
    }
  }

  lemma {:induction false} NothingOn(ws: seq<Work>, g: int)
    requires forall w :: w in ws ==> w.gpu != Some(g)
    ensures CommittedOn(VramUsages(ws), g) == 0.0
  {
    if ws != [] {
      var pre, w := ws[..|ws| - 1], ws[|ws| - 1];
      assert ws == pre + [w];
      NothingOn(pre, g);
      CommittedSnoc(pre, w, g);
    }
  }

  lemma UnobservedStays(readings: map<string, (real, real)>, ws: seq<Work>)
    requires Unobserved(ws) && forall id :: id in readings ==> readings[id].0 <= 0.0 && readings[id].1 <= 0.0
    ensures ObserveAll(readings, ws) == ws
  {
    forall i | 0 <= i < |ws| ensures Observe(readings, ws[i]) == ws[i] {
      assert ws[i] in ws;
    }
  }

  /** What was there keeps its GPU's room when nothing is sent to that GPU. */
  lemma OthersKeepRoom(cfg: Config, snapshot: Snapshot, before: seq<Work>, sent: seq<Work>)
    requires RoomKept(cfg, snapshot, before)
    requires forall w :: w in sent && w.gpu.Some? ==> VramHeadroom(cfg, snapshot, before + sent, w.gpu.value)
    ensures forall w :: w in before + sent && w.gpu.Some? ==> VramHeadroom(cfg, snapshot, before + sent, w.gpu.value)
  {
    forall w | w in before + sent && w.gpu.Some? ensures VramHeadroom(cfg, snapshot, before + sent, w.gpu.value) {
      if forall v :: v in sent ==> v.gpu != w.gpu {
        NothingOn(sent, w.gpu.value);
        CommittedAppend(before, sent, w.gpu.value);
        assert VramHeadroom(cfg, snapshot, before, w.gpu.value);
      }
    }
  }

  lemma DispatchKeepsRoom(cfg: Config, s: State, env: Env, snapshot: Snapshot)
    requires Inv(cfg, s) && RoomKept(cfg, snapshot, s.inFlight) && StaticStep(snapshot, ADispatch(env))
    ensures RoomKept(cfg, snapshot, Dispatch(cfg, s, env).inFlight)
  {
    hide Inv, PlanOf, SentFrom, Dispatch, MemoryHeadroom, VramHeadroom, Seen;
    var sent := DispatchShips(cfg, s, env);
    UnobservedStays(env.readings, s.inFlight);
    if sent == [] {
      assert s.inFlight + sent == s.inFlight;
    } else {
      SeenKeepsInv(cfg, s, env);
      SeenIsStamped(cfg, s, env);
      SentLeavesRoom(cfg, Seen(cfg, s, env), env, sent);
      OthersKeepRoom(cfg, snapshot, s.inFlight, sent);
      SentFromMembers(sent, PlanOf(cfg, Seen(cfg, s, env), env).admitted);
    }
  }

  lemma {:induction false} RunKeepsRoom(cfg: Config, acts: seq<Action>, snapshot: Snapshot)
    requires cfg.maxWorkers >= 1 && forall i :: 0 <= i < |acts| ==> StaticStep(snapshot, acts[i])
    ensures RoomKept(cfg, snapshot, StateAfter(cfg, acts).inFlight)
  {
    hide Inv, Apply, RoomKept, StaticStep, OnlyLands;
    if acts == [] {
      assert RoomKept(cfg, snapshot, []) by { NothingNeedsRoom(cfg, snapshot); }
    } else {
      var pre, a := acts[..|acts| - 1], acts[|acts| - 1];
      var s := StateAfter(cfg, pre);
      RunKeepsRoom(cfg, pre, snapshot);
      EveryStateIsSound(cfg, pre);
      StepKeepsRoom(cfg, s, a, snapshot);
    }
  }

  lemma NothingNeedsRoom(cfg: Config, snapshot: Snapshot)
    ensures RoomKept(cfg, snapshot, [])
  {
  }

  lemma StepKeepsRoom(cfg: Config, s: State, a: Action, snapshot: Snapshot)
    requires Inv(cfg, s) && RoomKept(cfg, snapshot, s.inFlight) && StaticStep(snapshot, a)
    ensures RoomKept(cfg, snapshot, Apply(cfg, s, a).inFlight)
  {
    hide Inv, RoomKept, StaticStep, OnlyLands, Dispatch;
    if a.ADispatch? {
      DispatchKeepsRoom(cfg, s, a.env, snapshot);
    } else {
      OnlyDispatchLaunches(cfg, s, a);
      hide Apply;
      LandingKeepsRoom(cfg, snapshot, s.inFlight, Apply(cfg, s, a).inFlight);
    }
  }

  /** Under a static snapshot and with no observed credit, headroom holds in every reachable
      state with something in flight: in memory, and on every GPU a task in flight is pinned to. */
  lemma HeadroomIsInvariant(cfg: Config, acts: seq<Action>, snapshot: Snapshot)
    requires cfg.maxWorkers >= 1 && forall i :: 0 <= i < |acts| ==> StaticStep(snapshot, acts[i])
    ensures var ws := StateAfter(cfg, acts).inFlight;
      && (ws != [] ==>
            snapshot.memoryUsed + TotalCommitted(MemoryUsages(ws)) + cfg.memoryHeadroom < snapshot.memoryTotal)
      && (forall w :: w in ws && w.gpu.Some? ==>
            && w.gpu.value in snapshot.gpus
            && snapshot.gpus[w.gpu.value].used + CommittedOn(VramUsages(ws), w.gpu.value) + cfg.vramHeadroom
               < snapshot.gpus[w.gpu.value].total)
  {
    RunKeepsRoom(cfg, acts, snapshot);
    hide StateAfter;
    assert forall w :: w in StateAfter(cfg, acts).inFlight && w.gpu.Some? ==>
      VramHeadroom(cfg, snapshot, StateAfter(cfg, acts).inFlight, w.gpu.value);
  }
}
