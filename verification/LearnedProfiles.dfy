/** The learned profile as the mutable object the program keeps. */
module LearnedProfiles {
  import opened Quantities
  import opened Profiles

  class LearnedProfile {
    var observations: seq<Observation>
    const maxObservations: nat
    var memoryFloor: Option<real>

    function View(): Profile
      reads this
    {
      Profile(observations, maxObservations, memoryFloor)
    }

    constructor (window: nat := DEFAULT_WINDOW)
      ensures View() == Profile([], window, None)
    {
      observations := [];
      maxObservations := window;
      memoryFloor := None;
    }

    method Add(o: Observation)
      modifies this
      ensures View() == Profiles.Add(old(View()), o)
    {
      observations := observations + [o];
      if |observations| > maxObservations {
        observations := KeepLast(observations, maxObservations);
      }
      MaybeRecoverFloor();
    }

    method SetMemoryFloor(gb: real)
      modifies this
      ensures View() == Profiles.SetMemoryFloor(old(View()), gb)
      ensures memoryFloor.Some? && memoryFloor.value >= gb
      ensures memoryFloor == Some(gb) || memoryFloor == old(memoryFloor)
      ensures old(memoryFloor).Some? ==> memoryFloor.value >= old(memoryFloor).value
      ensures observations == old(observations)
    {
      memoryFloor := Some(if memoryFloor == None then gb else Max(memoryFloor.value, gb));
    }

    method MaybeRecoverFloor()
      modifies this
      ensures View() == Recovered(old(View()))
      ensures observations == old(observations) && (memoryFloor == None || memoryFloor == old(memoryFloor))
      ensures old(memoryFloor).Some? ==>
        (memoryFloor == None <==>
           |observations| >= 5 && forall i :: |observations| - 5 <= i < |observations| ==>
             observations[i].memory < old(memoryFloor).value * 0.5)
    {
      if memoryFloor == None {
        return;
      }
      var recent := KeepLast(observations, FLOOR_RECOVERY_OBSERVATIONS);
      if |recent| < FLOOR_RECOVERY_OBSERVATIONS {
        return;
      }
      if AllBelow(recent, memoryFloor.value * FLOOR_RECOVERY_FRACTION) {
        memoryFloor := None;
      }
    }
  }
}
