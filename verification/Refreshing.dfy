/** What a cycle knows about each task: the estimate it was queued with or that it has been given
    since, whether it is cold, and how much it has been seen to use. */
module Refreshing {
  import opened Quantities
  import opened Profiles
  import opened Estimates
  import opened Stores
  import opened Accounting
  import opened Planning
  import opened ExecutorState
  import opened ExecutorInvariants
  import opened ExecutorDispatch
  import opened ExecutorRuns

  // ----- estimates -----

  /** The key a task is estimated from: its bucket once that has been observed, and else the aggregate. */
  function KeyOf(store: Store, o: Origin): string {
    if BucketSeen(store, o) then KeyedKey(o) else BaseKey(o)
  }

  function ProfileOf(store: Store, o: Origin): Profile {
    Lookup(store, KeyOf(store, o))
  }

  lemma SelectsProfileOf(store: Store, o: Origin)
    ensures Stores.Select(store, o).0 == ProfileOf(store, o)
    ensures EstimationIdentity(store, o) == (KeyOf(store, o), |ProfileOf(store, o).observations|)
  {
    BucketDecides(store, o);
  }

  /** A waiting task not yet retried whose estimate has not been looked at for the interval. */
  predicate RefreshDue(cfg: Config, now: real, w: Work) {
    w.retries == 0 && (w.refreshedAt == None || now - w.refreshedAt.value >= cfg.reestimateInterval)
  }

  /** Its profile has other samples or another floor than when it was last looked at. */
  predicate HasNews(store: Store, w: Work) {
    |ProfileOf(store, w.origin).observations| != w.sampleCount || ProfileOf(store, w.origin).floor != w.floorSeen
  }

  /** `w'` is `w`, refreshed if due: with the estimate its profile gives now under its own hints if there
      are news, and otherwise with the estimate it has. */
  ghost predicate Refreshed(cfg: Config, store: Store, now: real, w: Work, w': Work) {
    var p := ProfileOf(store, w.origin);
    if !RefreshDue(cfg, now, w) then w' == w
    else
      && w' == w.(refreshedAt := Some(now), estimate := w'.estimate, sampleCount := |p.observations|,
                  floorSeen := p.floor)
      && (if HasNews(store, w)
          then IsEstimate(p, w.memoryHint, w.vramHint, w'.estimate)
               && (p.floor.Some? ==> w'.estimate.memory >= p.floor.value)
          else w'.estimate == w.estimate)
  }

  lemma ReestimateCases(cfg: Config, store: Store, now: real, w: Work)
    ensures var w', p := Reestimate(cfg, store, now, w), ProfileOf(store, w.origin);
      && (!RefreshDue(cfg, now, w) ==> w' == w)
      && (RefreshDue(cfg, now, w) ==> w' == w.(
            refreshedAt := Some(now), sampleCount := |p.observations|, floorSeen := p.floor,
            estimate := if HasNews(store, w) then EstimateFrom(p, w.memoryHint, w.vramHint) else w.estimate))
  {
    hide EstimateFrom, Stores.Select, ProfileOf;
    SelectsProfileOf(store, w.origin);
  }

  lemma ReestimateRefreshes(cfg: Config, store: Store, now: real, w: Work)
    ensures Refreshed(cfg, store, now, w, Reestimate(cfg, store, now, w))
  {
    hide EstimateFrom, IsEstimate, Reestimate, RefreshDue, HasNews, ProfileOf;
    ReestimateCases(cfg, store, now, w);
    var p := ProfileOf(store, w.origin);
    EstimateFromIsEstimate(p, w.memoryHint, w.vramHint);
    EstimateRespectsFloor(p, w.memoryHint, w.vramHint);
  }

  /** The task is refreshed to some `w'`, which is left in the queue exactly if it is not infeasible. */
  ghost predicate RefreshedThenSwept(cfg: Config, s: State, env: Env, w: Work) {
    exists w' :: Refreshed(cfg, s.store, env.now, w, w') && LeftIfFeasible(cfg, s, env, w')
  }

  ghost predicate LeftIfFeasible(cfg: Config, s: State, env: Env, w: Work) {
    w in Prepared(cfg, s, env).pending <==> !Infeasible(cfg, w.estimate, env.sweep)
  }

  /** When a cycle has prepared its queue, each task has been refreshed if due, and those are left whose
      estimate, so refreshed, is not infeasible. */
  lemma QueueIsRefreshed(cfg: Config, s: State, env: Env)
    requires Inv(cfg, s)
    ensures forall w' :: w' in Prepared(cfg, s, env).pending ==>
      exists w :: w in s.pending && Refreshed(cfg, s.store, env.now, w, w')
    ensures forall w :: w in s.pending ==> RefreshedThenSwept(cfg, s, env, w)
  {
    var ws := ReestimateAll(cfg, s.store, env.now, s.pending);
    InvPlacesDistinct(cfg, s);
    hide Inv, Infeasible, Refreshed;
    RefreshedDistinct(cfg, s, env);
    forall w | w in s.pending ensures RefreshedThenSwept(cfg, s, env, w) {
      var i :| 0 <= i < |s.pending| && s.pending[i] == w;
      ReestimateRefreshes(cfg, s.store, env.now, w);
      LeftExactly(cfg, env.sweep, ws, ws[i]);
      assert LeftIfFeasible(cfg, s, env, ws[i]);
    }
    forall w' | w' in Prepared(cfg, s, env).pending
      ensures exists w :: w in s.pending && Refreshed(cfg, s.store, env.now, w, w')
    {
      var i :| 0 <= i < |ws| && ws[i] == w';
      ReestimateRefreshes(cfg, s.store, env.now, s.pending[i]);
    }
  }

  lemma InvPlacesDistinct(cfg: Config, s: State)
    requires Inv(cfg, s)
    ensures NoDup(s.pending)
  {
  }

  lemma RefreshedDistinct(cfg: Config, s: State, env: Env)
    requires NoDup(s.pending)
    ensures NoDup(ReestimateAll(cfg, s.store, env.now, s.pending))
  {
  }

  /** Who is left by the sweep. */
  lemma LeftExactly(cfg: Config, sweep: Option<Snapshot>, ws: seq<Work>, w: Work)
    requires NoDup(ws) && w in ws
    ensures w in Without(ws, InfeasibleIds(cfg, sweep, ws) * Ids(ws)) <==> !Infeasible(cfg, w.estimate, sweep)
  {
    hide Infeasible;
    if w.id in InfeasibleIds(cfg, sweep, ws) {
      var v :| v in ws && Infeasible(cfg, v.estimate, sweep) && v.id == w.id;
      SameIdSameWork(ws, v, w);
    }
  }

  /** A new task is queued last, estimated from its own profile under its own hints, and nothing else
      about the queue changes. */
  lemma SubmittedLast(s: State, id: string, o: Origin, memoryHint: Option<real>, vramHint: Option<real>, now: real)
    ensures var s' := Submit(s, id, o, memoryHint, vramHint, now);
      var p := ProfileOf(s.store, o);
      && |s'.pending| == |s.pending| + 1 && s'.pending[..|s.pending|] == s.pending
      && var w := s'.pending[|s.pending|];
         && w.id == id && w.origin == o && w.memoryHint == memoryHint && w.vramHint == vramHint
         && IsEstimate(p, memoryHint, vramHint, w.estimate)
         && w.sampleCount == |p.observations| && w.floorSeen == p.floor && w.refreshedAt == Some(now)
         && w.retries == 0 && !w.exclusive && !w.runningNotified
  {
    SelectsProfileOf(s.store, o);
    EstimateFromIsEstimate(ProfileOf(s.store, o), memoryHint, vramHint);
    hide EstimateFrom, IsEstimate, Stores.Select, ProfileOf;
  }

  // ----- cold or warm, and how much is used -----

  /** A queued task is cold exactly if nothing has been observed for what it is estimated from and the
      caller gave no hint; and that is the identity it goes by. */
  lemma StampedExactly(store: Store, ws: seq<Work>, i: int)
    requires 0 <= i < |ws|
    ensures var w, w' := ws[i], StampAll(store, ws)[i];
      && w'.identity == Some(KeyOf(store, w.origin))
      && (w'.cold <==> ProfileOf(store, w.origin).observations == [] && w.memoryHint == None && w.vramHint == None)
      && w' == w.(identity := w'.identity, cold := w'.cold)
  {
    SelectsProfileOf(store, ws[i].origin);
    hide ProfileOf, KeyOf;
  }

  /** What a task has grown by, if it was measured: never less than nothing. */
  ghost predicate Grown(readings: map<string, (real, real)>, w: Work, memory: real, vram: real) {
    if w.id !in readings then memory == w.observedMemory && vram == w.observedVram
    else memory == Largest(0.0, readings[w.id].0, None) && vram == Largest(0.0, readings[w.id].1, None)
  }

  /** A task in flight commits what it is estimated to need beyond what it has been seen to use, in memory
      and, on its own GPU only, in VRAM. */
  lemma CommitsTheRest(s: State, env: Env, i: int)
    requires 0 <= i < |s.inFlight|
    ensures var w, w' := s.inFlight[i], Surveyed(s, env).inFlight[i];
      && Grown(env.readings, w, w'.observedMemory, w'.observedVram)
      && w' == w.(observedMemory := w'.observedMemory, observedVram := w'.observedVram)
      && var memory, vram := Rest(w.estimate.memory, w'.observedMemory), Rest(w.estimate.vram, w'.observedVram);
         && TotalCommitted(MemoryUsages([w'])) == memory
         && (forall g :: CommittedOn(VramUsages([w']), g) == if w.gpu == Some(g) then vram else 0.0)
         && RunningOf(w', env.now).memory == memory && RunningOf(w', env.now).vram == vram
  {
    var w' := Surveyed(s, env).inFlight[i];
    var memory, vram := MemoryUsages([w']), VramUsages([w']);
    assert memory[..0] == [] && vram[..0] == [];
  }

  function Rest(estimate: real, observed: real): real {
    Largest(0.0, estimate - observed, None)
  }
}
