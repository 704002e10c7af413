/** The reservation is the exact moment the head first fits, and backfill leaves that
    moment where it was. */
module Reservations {
  import opened Quantities
  import opened Admission
  import opened Planning

  /** Looking for a first GPU and there being some GPU are the same test, wherever the
      round robin stands. */
  lemma FitsIsComputed(cap: Capacity, task: PendingEntry, p: Pools, rr: int)
    ensures FitsPools(cap, task, p, rr) <==> Fits(cap, task, p)
  {
    OptionsExist(cap.gpuOrder, p.gpu, task.vram, rr);
    OptionsSound(cap.gpuOrder, p.gpu, task.vram, rr, |cap.gpuOrder|);
  }

  // ----- release times -----

  ghost predicate Ascending(times: seq<real>) {
    forall i, j :: 0 <= i < j < |times| ==> times[i] < times[j]
  }

  lemma {:induction false} InsertTimeKeepsOrder(times: seq<real>, x: real)
    requires Ascending(times)
    ensures Ascending(InsertTime(times, x))
    ensures forall y :: y in InsertTime(times, x) <==> y in times || y == x
  {
    if times != [] && x > times[0] {
      InsertTimeKeepsOrder(times[1..], x);
      assert times == [times[0]] + times[1..];
      var rest := InsertTime(times[1..], x);
      forall i | 0 <= i < |rest| ensures times[0] < rest[i] {
        assert rest[i] in rest;
      }
    }
  }

  /** The release times are exactly the known remaining times, once each, in order. */
  lemma {:induction false} ReleaseTimesAreReleases(occupants: seq<RunningEntry>)
    ensures Ascending(ReleaseTimes(occupants))
    ensures forall x :: x in ReleaseTimes(occupants) <==>
      exists i :: 0 <= i < |occupants| && occupants[i].remaining == Some(x)
  {
    if occupants != [] {
      var pre, o := occupants[..|occupants| - 1], occupants[|occupants| - 1];
      ReleaseTimesAreReleases(pre);
      if o.remaining.Some? {
        InsertTimeKeepsOrder(ReleaseTimes(pre), o.remaining.value);
      }
      forall x ensures (exists i :: 0 <= i < |occupants| && occupants[i].remaining == Some(x)) <==>
        (exists i :: 0 <= i < |pre| && pre[i].remaining == Some(x)) || o.remaining == Some(x)
      {
        if i :| 0 <= i < |occupants| && occupants[i].remaining == Some(x) {
          if i < |pre| { assert pre[i] == occupants[i]; }
        }
        if i :| 0 <= i < |pre| && pre[i].remaining == Some(x) { assert pre[i] == occupants[i]; }
      }
    }
  }

  /** Between releases nothing changes: any moment by which something has been released
      looks like the latest release before it. */
  lemma {:induction false} LatestRelease(occupants: seq<RunningEntry>, t: Moment) returns (r: real)
    requires exists i :: 0 <= i < |occupants| && Released(occupants[i], t)
    ensures At(r).NoLaterThan(t)
    ensures exists i :: 0 <= i < |occupants| && occupants[i].remaining == Some(r)
    ensures forall i :: 0 <= i < |occupants| ==> (Released(occupants[i], t) <==> Released(occupants[i], At(r)))
  {
    var n := |occupants| - 1;
    var pre, o := occupants[..n], occupants[n];
    if k :| 0 <= k < n && Released(occupants[k], t) {
      assert pre[k] == occupants[k];
      r := LatestRelease(pre, t);
      var j :| 0 <= j < n && pre[j].remaining == Some(r);
      assert occupants[j].remaining == Some(r);
      if Released(o, t) && r < o.remaining.value {
        r := o.remaining.value;
        assert occupants[n].remaining == Some(r);
      }
    } else {
      r := o.remaining.value;
      assert occupants[n].remaining == Some(r);
    }
    forall i | 0 <= i < |occupants| ensures Released(occupants[i], t) <==> Released(occupants[i], At(r)) {
      if i < n { assert pre[i] == occupants[i]; }
    }
  }

  lemma {:induction false} FirstFitIsFirst(cap: Capacity, head: PendingEntry, st: PlanState, times: seq<real>)
    requires Ascending(times)
    ensures var r := FirstFit(cap, head, st, times);
      && (r.At? ==> r.seconds in times && Fits(cap, head, StateAt(st.pools, st.occupants, r)))
      && (forall x :: x in times && !r.NoLaterThan(At(x)) ==> !Fits(cap, head, StateAt(st.pools, st.occupants, At(x))))
  {
    if times != [] {
      FitsIsComputed(cap, head, StateAt(st.pools, st.occupants, At(times[0])), st.rr);
      FirstFitIsFirst(cap, head, st, times[1..]);
    }
  }

  // ----- the reservation -----

  /** The reservation `r` is due at `t`. */
  predicate Due(r: Moment, t: Moment) {
    r.At? && r.NoLaterThan(t)
  }

  /** For a head that does not fit now, the reservation is the earliest fit over ALL
      moments, not only over release times: the head fits the projection to `t` exactly
      when the reservation is due by `t`.  An infinite reservation means it never fits. */
  lemma ReservationIsEarliestFit(cap: Capacity, head: PendingEntry, st: PlanState, t: Moment)
    requires NonNegative(st.occupants) && !Fits(cap, head, st.pools)
    ensures Fits(cap, head, StateAt(st.pools, st.occupants, t)) <==> Due(Reservation(cap, head, st), t)
  {
    var r := Reservation(cap, head, st);
    var times := ReleaseTimes(st.occupants);
    ReleaseTimesAreReleases(st.occupants);
    FirstFitIsFirst(cap, head, st, times);
    if Due(r, t) {
      StateAtGrows(st.pools, st.occupants, r, t);
      FitsMonotone(cap, head, StateAt(st.pools, st.occupants, r), StateAt(st.pools, st.occupants, t));
    } else if exists i :: 0 <= i < |st.occupants| && Released(st.occupants[i], t) {
      var x := LatestRelease(st.occupants, t);
      assert x in times;
      StateAtDependsOnReleases(st.pools, st.occupants, t, At(x));
    } else {
      StateAtUnreleased(st.pools, st.occupants, t);
    }
  }

  // ----- what one admission does to every projection -----

  ghost predicate Sized(task: PendingEntry) {
    task.memory >= 0.0 && task.vram >= 0.0
  }

  ghost predicate AllSized(tasks: seq<PendingEntry>) {
    forall i :: 0 <= i < |tasks| ==> Sized(tasks[i])
  }

  /** Taking an occupant's resources and booking the occupant leaves every projection past
      its release as it was, and takes its resources from every earlier one. */
  lemma OccupantProjected(p: Pools, occupants: seq<RunningEntry>, o: RunningEntry, t: Moment)
    ensures StateAt(Take(p, o.memory, o.vram, o.gpu), occupants + [o], t) ==
      if Released(o, t) then StateAt(p, occupants, t)
      else Take(StateAt(p, occupants, t), o.memory, o.vram, o.gpu)
  {
    StateAtSnoc(Take(p, o.memory, o.vram, o.gpu), occupants, o, t);
    StateAtTake(p, occupants, t, o.memory, o.vram, o.gpu);
    GiveUndoesTake(StateAt(p, occupants, t), o.memory, o.vram, o.gpu);
  }

  /** So no admission makes any projection roomier. */
  lemma AdmissionShrinks(p: Pools, occupants: seq<RunningEntry>, a: Placement, t: Moment)
    requires Sized(a.task)
    ensures Roomier(StateAt(Take(p, a.task.memory, a.task.vram, a.gpu), occupants + [OccupantOf(a)], t),
                    StateAt(p, occupants, t))
  {
    OccupantProjected(p, occupants, OccupantOf(a), t);
    TakeShrinks(StateAt(p, occupants, t), a.task.memory, a.task.vram, a.gpu);
  }

  // ----- backfill -----

  /** The occupants together with everything backfilled since there were `n` decisions. */
  function Booked(occupants: seq<RunningEntry>, st: PlanState, n: nat): seq<RunningEntry>
    requires n <= |st.admitted|
  {
    occupants + OccupantsOf(st.admitted[n..])
  }

  /** Rule (b): the candidate is expected to be done by the reservation. */
  ghost predicate EndsBy(candidate: PendingEntry, reservation: Moment) {
    candidate.duration.Some? && reservation.At? && candidate.duration.value <= reservation.seconds
  }

  /** The candidate may go to `gpu` although the head is waiting. */
  ghost predicate MayGo(cap: Capacity, st: PlanState, head: PendingEntry, reservation: Moment, candidate: PendingEntry,
                        gpu: Option<int>) {
    || EndsBy(candidate, reservation)
    || Fits(cap, head, Take(StateAt(st.pools, st.occupants, reservation), candidate.memory, candidate.vram, gpu))
  }

  /** Somewhere with room for the candidate, it may go although the head is waiting. */
  ghost predicate MayGoSomewhere(cap: Capacity, st: PlanState, head: PendingEntry, reservation: Moment,
                                 candidate: PendingEntry) {
    if candidate.vram <= 0.0 then MayGo(cap, st, head, reservation, candidate, None)
    else exists i :: 0 <= i < |cap.gpuOrder| && HasRoom(st.pools.gpu, cap.gpuOrder[i], candidate.vram)
           && MayGo(cap, st, head, reservation, candidate, Some(cap.gpuOrder[i]))
  }

  /** What lets a candidate pass a blocked head: the canary does not hold it, it fits now, and it
      may go somewhere. */
  ghost predicate Passes(cap: Capacity, st: PlanState, head: PendingEntry, reservation: Moment,
                         candidate: PendingEntry) {
    && !CanaryBlocked(st.held, candidate) && Fits(cap, candidate, st.pools)
    && MayGoSomewhere(cap, st, head, reservation, candidate)
  }

  /** The first option on which the candidate may go is taken, and by rule (b) if that applies. */
  lemma {:induction false} TryOptionsIsFirst(cap: Capacity, st: PlanState, head: PendingEntry, candidate: PendingEntry,
                                             reservation: Moment, options: seq<Choice>) returns (k: int)
    ensures var r := TryOptions(cap, st, head, candidate, reservation, options);
      && 0 <= k <= |options|
      && (forall j :: 0 <= j < k ==> !MayGo(cap, st, head, reservation, candidate, options[j].gpu))
      && (if k == |options| then r == None
          else MayGo(cap, st, head, reservation, candidate, options[k].gpu)
               && r == Some((options[k], if EndsBy(candidate, reservation) then ShortEnough else Disjoint)))
  {
    k := 0;
    if options != [] {
      FitsIsComputed(cap, head,
        Take(StateAt(st.pools, st.occupants, reservation), candidate.memory, candidate.vram, options[0].gpu), st.rr);
      if !MayGo(cap, st, head, reservation, candidate, options[0].gpu) {
        var later := TryOptionsIsFirst(cap, st, head, candidate, reservation, options[1..]);
        k := later + 1;
      }
    }
  }

  /** Some option will do exactly when the candidate may go somewhere. */
  lemma SomeOptionWillDo(cap: Capacity, st: PlanState, head: PendingEntry, reservation: Moment, candidate: PendingEntry)
    ensures FitsNonGpu(cap, candidate, st.pools) ==>
      ((exists k :: 0 <= k < |PlacementOptions(cap, st, candidate)| &&
          MayGo(cap, st, head, reservation, candidate, PlacementOptions(cap, st, candidate)[k].gpu))
       <==> Fits(cap, candidate, st.pools) && MayGoSomewhere(cap, st, head, reservation, candidate))
  {
    var order, gpu, vram := cap.gpuOrder, st.pools.gpu, candidate.vram;
    var options := PlacementOptions(cap, st, candidate);
    hide MayGo;
    if vram <= 0.0 {
      assert options[0] == Choice(None, st.rr);
    } else {
      OptionsSound(order, gpu, vram, st.rr, |order|);
      if k :| 0 <= k < |options| && MayGo(cap, st, head, reservation, candidate, options[k].gpu) {
        var i :| 0 <= i < |order| && order[i] == options[k].gpu.value;
        assert HasRoom(gpu, order[i], vram);
      }
      if i :| 0 <= i < |order| && HasRoom(gpu, order[i], vram)
              && MayGo(cap, st, head, reservation, candidate, Some(order[i])) {
        var k := OptionFor(order, gpu, vram, st.rr, i);
      }
    }
  }

  lemma {:induction false} TryOptionsChecked(cap: Capacity, st: PlanState, head: PendingEntry, candidate: PendingEntry,
                                             reservation: Moment, options: seq<Choice>)
    ensures var r := TryOptions(cap, st, head, candidate, reservation, options);
      r.Some? ==>
        && r.value.0 in options
        && !r.value.1.Front?
        && (r.value.1.ShortEnough? <==> EndsBy(candidate, reservation))
        && (r.value.1.Disjoint? ==> HeadStillFitsWithHold(cap, st, head, candidate, r.value.0.gpu, reservation))
  {
    if options != [] {
      TryOptionsChecked(cap, st, head, candidate, reservation, options[1..]);
    }
  }

  /** One candidate: it is admitted exactly if it passes, by rule (b) exactly if it finishes before
      the reservation, and where the head, under rule (a), still fits beside it. */
  lemma BackfillOneSteps(cap: Capacity, st: PlanState, head: PendingEntry, reservation: Moment, candidate: PendingEntry)
    returns (a: Placement)
    ensures var st' := BackfillOne(cap, st, head, reservation, candidate);
      && (st' != st <==> Passes(cap, st, head, reservation, candidate))
      && (|| st' == st
          || (&& st'.admitted == st.admitted + [a] && a.task == candidate && !a.rule.Front?
              && st'.queue == st.queue && st'.occupants == st.occupants
              && st'.pools == Take(st.pools, candidate.memory, candidate.vram, a.gpu)
              && (a.rule.ShortEnough? <==> EndsBy(candidate, reservation))
              && (a.rule.Disjoint? ==> Fits(cap, head,
                   Take(StateAt(st.pools, st.occupants, reservation), candidate.memory, candidate.vram, a.gpu)))))
  {
    var options := PlacementOptions(cap, st, candidate);
    var k := TryOptionsIsFirst(cap, st, head, candidate, reservation, options);
    SomeOptionWillDo(cap, st, head, reservation, candidate);
    a := Placement(candidate, None, Front);
    if k < |options| {
      var rule := if EndsBy(candidate, reservation) then ShortEnough else Disjoint;
      a := Placement(candidate, options[k].gpu, rule);
    }
    hide StateAt, FitsPools, TryOptions, PlacementOptions, MayGoSomewhere;
  }

  lemma BookedSnoc(occupants: seq<RunningEntry>, st: PlanState, st': PlanState, n: nat, a: Placement)
    requires n <= |st.admitted| && st'.admitted == st.admitted + [a]
    ensures Booked(occupants, st', n) == Booked(occupants, st, n) + [OccupantOf(a)]
  {
    assert st'.admitted[n..] == st.admitted[n..] + [a];
  }

  /** What backfill leaves alone, and what it appends. */
  lemma {:induction false} BackfillFrame(cap: Capacity, st: PlanState, head: PendingEntry, reservation: Moment,
                                         candidates: seq<PendingEntry>)
    ensures var fin := Backfill(cap, st, head, reservation, candidates);
      && fin.queue == st.queue && fin.occupants == st.occupants && st.admitted <= fin.admitted
      && (forall i :: |st.admitted| <= i < |fin.admitted| ==>
            !fin.admitted[i].rule.Front? && fin.admitted[i].task in candidates)
  {
    if candidates != [] {
      var pre, c := candidates[..|candidates| - 1], candidates[|candidates| - 1];
      BackfillFrame(cap, st, head, reservation, pre);
      var _ := BackfillOneSteps(cap, Backfill(cap, st, head, reservation, pre), head, reservation, c);
    }
  }

  lemma BookedSized(st: PlanState, fin: PlanState, candidates: seq<PendingEntry>)
    requires NonNegative(st.occupants) && AllSized(candidates) && st.admitted <= fin.admitted
    requires forall i :: |st.admitted| <= i < |fin.admitted| ==> fin.admitted[i].task in candidates
    ensures NonNegative(OccupantsOf(fin.admitted[|st.admitted|..]))
    ensures NonNegative(Booked(st.occupants, fin, |st.admitted|))
  {
  }

  /** Rule by rule, the head keeps fitting at its reservation. */
  lemma BackfillOneKeepsHead(cap: Capacity, st: PlanState, head: PendingEntry, reservation: Moment,
                             candidate: PendingEntry, n: nat)
    requires n <= |st.admitted| && reservation.At?
    requires NonNegative(OccupantsOf(st.admitted[n..])) && Sized(candidate)
    requires Fits(cap, head, StateAt(st.pools, Booked(st.occupants, st, n), reservation))
    ensures var st' := BackfillOne(cap, st, head, reservation, candidate);
      n <= |st'.admitted| && Fits(cap, head, StateAt(st'.pools, Booked(st.occupants, st', n), reservation))
  {
    var a := BackfillOneSteps(cap, st, head, reservation, candidate);
    var st' := BackfillOne(cap, st, head, reservation, candidate);
    if st' != st {
      var booked := Booked(st.occupants, st, n);
      BookedSnoc(st.occupants, st, st', n, a);
      OccupantProjected(st.pools, booked, OccupantOf(a), reservation);
      if a.rule.Disjoint? {
        var seen := StateAt(st.pools, st.occupants, reservation);
        var actual := StateAt(st.pools, booked, reservation);
        StateAtMoreOccupants(st.pools, st.occupants, OccupantsOf(st.admitted[n..]), reservation);
        TakeMonotone(seen, actual, candidate.memory, candidate.vram, a.gpu);
        FitsMonotone(cap, head, Take(seen, candidate.memory, candidate.vram, a.gpu),
                     Take(actual, candidate.memory, candidate.vram, a.gpu));
      }
    }
  }

  lemma {:induction false} BackfillKeepsHead(cap: Capacity, st: PlanState, head: PendingEntry, reservation: Moment,
                                             candidates: seq<PendingEntry>)
    requires reservation.At? && NonNegative(st.occupants) && AllSized(candidates)
    requires Fits(cap, head, StateAt(st.pools, st.occupants, reservation))
    ensures var fin := Backfill(cap, st, head, reservation, candidates);
      |st.admitted| <= |fin.admitted| &&
      Fits(cap, head, StateAt(fin.pools, Booked(st.occupants, fin, |st.admitted|), reservation))
  {
    var n := |st.admitted|;
    if candidates == [] {
      assert Booked(st.occupants, st, n) == st.occupants;
    } else {
      var pre, c := candidates[..|candidates| - 1], candidates[|candidates| - 1];
      BackfillKeepsHead(cap, st, head, reservation, pre);
      BackfillFrame(cap, st, head, reservation, pre);
      var mid := Backfill(cap, st, head, reservation, pre);
      BookedSized(st, mid, pre);
      BackfillOneKeepsHead(cap, mid, head, reservation, c, n);
    }
  }

  /** No backfill makes any projection roomier than it was without it. */
  lemma {:induction false} BackfillShrinks(cap: Capacity, st: PlanState, head: PendingEntry, reservation: Moment,
                                           candidates: seq<PendingEntry>, t: Moment)
    requires AllSized(candidates)
    ensures var fin := Backfill(cap, st, head, reservation, candidates);
      |st.admitted| <= |fin.admitted| &&
      Roomier(StateAt(fin.pools, Booked(st.occupants, fin, |st.admitted|), t),
              StateAt(st.pools, st.occupants, t))
  {
    var n := |st.admitted|;
    if candidates == [] {
      assert Booked(st.occupants, st, n) == st.occupants;
    } else {
      var pre, c := candidates[..|candidates| - 1], candidates[|candidates| - 1];
      BackfillShrinks(cap, st, head, reservation, pre, t);
      BackfillFrame(cap, st, head, reservation, pre);
      var mid := Backfill(cap, st, head, reservation, pre);
      var a := BackfillOneSteps(cap, mid, head, reservation, c);
      var fin := BackfillOne(cap, mid, head, reservation, c);
      if fin != mid {
        BookedSnoc(st.occupants, mid, fin, n, a);
        AdmissionShrinks(mid.pools, Booked(st.occupants, mid, n), a, t);
        RoomierTransitive(StateAt(fin.pools, Booked(st.occupants, fin, n), t),
                          StateAt(mid.pools, Booked(st.occupants, mid, n), t),
                          StateAt(st.pools, st.occupants, t));
      }
    }
  }

  /** Backfill never delays the head.  With a finite reservation, after all backfill the
      head fits the projection to `t` exactly when the reservation is due by `t`, as
      before any backfill: rule-(b) tasks releasing at their durations, rule-(a) tasks
      never releasing. */
  lemma BackfillNeverDelaysHead(cap: Capacity, st: PlanState, head: PendingEntry, candidates: seq<PendingEntry>,
                                t: Moment)
    requires NonNegative(st.occupants) && AllSized(candidates)
    requires !Fits(cap, head, st.pools) && Reservation(cap, head, st).At?
    ensures var r := Reservation(cap, head, st);
      var fin := Backfill(cap, st, head, r, candidates);
      |st.admitted| <= |fin.admitted| &&
      (Fits(cap, head, StateAt(fin.pools, Booked(st.occupants, fin, |st.admitted|), t)) <==> Due(r, t))
  {
    var r := Reservation(cap, head, st);
    var fin := Backfill(cap, st, head, r, candidates);
    ReservationIsEarliestFit(cap, head, st, t);
    ReservationIsEarliestFit(cap, head, st, r);
    BackfillKeepsHead(cap, st, head, r, candidates);
    BackfillShrinks(cap, st, head, r, candidates, t);
    BackfillFrame(cap, st, head, r, candidates);
    BookedSized(st, fin, candidates);
    var booked := Booked(st.occupants, fin, |st.admitted|);
    if Due(r, t) {
      StateAtGrows(fin.pools, booked, r, t);
      FitsMonotone(cap, head, StateAt(fin.pools, booked, r), StateAt(fin.pools, booked, t));
    } else if Fits(cap, head, StateAt(fin.pools, booked, t)) {
      FitsMonotone(cap, head, StateAt(fin.pools, booked, t), StateAt(st.pools, st.occupants, t));
    }
  }

  /** If the head would not fit even after every known release, an infinite reservation
      stalls everything behind it: nothing is backfilled at all. */
  lemma {:induction false} UnreachableReservationStalls(cap: Capacity, st: PlanState, head: PendingEntry,
                                                        candidates: seq<PendingEntry>)
    requires AllSized(candidates) && !Fits(cap, head, StateAt(st.pools, st.occupants, Infinity))
    ensures Backfill(cap, st, head, Infinity, candidates) == st
  {
    if candidates != [] {
      var pre, c := candidates[..|candidates| - 1], candidates[|candidates| - 1];
      UnreachableReservationStalls(cap, st, head, pre);
      var a := BackfillOneSteps(cap, st, head, Infinity, c);
      var last := StateAt(st.pools, st.occupants, Infinity);
      if BackfillOne(cap, st, head, Infinity, c) != st {
        TakeShrinks(last, c.memory, c.vram, a.gpu);
        FitsMonotone(cap, head, Take(last, c.memory, c.vram, a.gpu), last);
      }
    }
  }

  /** With an infinite reservation nothing passes the head by rule (b), and if anything
      passes it at all, the head is left room once every known release has happened. */
  lemma {:induction false} InfiniteReservationKeepsRoom(cap: Capacity, st: PlanState, head: PendingEntry,
                                                        candidates: seq<PendingEntry>)
    ensures var fin := Backfill(cap, st, head, Infinity, candidates);
      && st.admitted <= fin.admitted
      && (forall i :: |st.admitted| <= i < |fin.admitted| ==> fin.admitted[i].rule.Disjoint?)
      && (fin != st ==> Fits(cap, head, StateAt(fin.pools, fin.occupants, Infinity)))
  {
    if candidates != [] {
      var pre, c := candidates[..|candidates| - 1], candidates[|candidates| - 1];
      InfiniteReservationKeepsRoom(cap, st, head, pre);
      var mid := Backfill(cap, st, head, Infinity, pre);
      var a := BackfillOneSteps(cap, mid, head, Infinity, c);
      if BackfillOne(cap, mid, head, Infinity, c) != mid {
        StateAtTake(mid.pools, mid.occupants, Infinity, c.memory, c.vram, a.gpu);
      }
    }
  }
}
