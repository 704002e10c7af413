/** The profile store: one profile per function, one more per caller-chosen bucket, and the
    form in which both survive a restart. */
module Stores {
  import opened Quantities
  import opened Profiles

  /** Where a task's observations belong. */
  datatype Origin = Origin(fnModule: string, fnName: string, profileKey: Option<string>)

  type Store = map<string, Profile>

  const SEPARATOR := "#"

  function BaseKey(o: Origin): string {
    o.fnModule + ":" + o.fnName
  }

  function KeyedKey(o: Origin): string
    requires o.profileKey.Some?
  {
    BaseKey(o) + SEPARATOR + o.profileKey.value
  }

  /** A missing entry reads as an empty profile. */
  function Lookup(store: Store, key: string): Profile {
    if key in store then store[key] else EMPTY
  }

  predicate BucketHonored(store: Store, o: Origin) {
    o.profileKey.Some? && KeyedKey(o) in store && store[KeyedKey(o)].observations != []
  }

  /** The profile to estimate from; an unused bucket falls back to the aggregate, which is
      then materialized. */
  function Select(store: Store, o: Origin): (Profile, Store) {
    if BucketHonored(store, o) then (store[KeyedKey(o)], store)
    else (Lookup(store, BaseKey(o)), store[BaseKey(o) := Lookup(store, BaseKey(o))])
  }

  /** The key estimation draws from, and how many observations are behind it. */
  function EstimationIdentity(store: Store, o: Origin): (string, nat) {
    if BucketHonored(store, o) then (KeyedKey(o), |store[KeyedKey(o)].observations|)
    else (BaseKey(o), if BaseKey(o) in store then |store[BaseKey(o)].observations| else 0)
  }

  function Update(store: Store, key: string, e: Event): Store {
    store[key := Step(Lookup(store, key), e)]
  }

  /** Every event goes to the aggregate, and also to the bucket if there is one. */
  function Record(store: Store, o: Origin, e: Event): Store {
    var base := Update(store, BaseKey(o), e);
    if o.profileKey.Some? then Update(base, KeyedKey(o), e) else base
  }

  // ----- identity -----

  lemma KeysDiffer(o: Origin)
    requires o.profileKey.Some?
    ensures KeyedKey(o) != BaseKey(o)
  {
    assert |KeyedKey(o)| > |BaseKey(o)|;
  }

  /** Buckets of one function have different keys, and so have functions that differ in name only or in
      module only. */
  lemma KeysTellApart(a: Origin, b: Origin)
    ensures a.fnModule == b.fnModule && a.fnName != b.fnName ==> BaseKey(a) != BaseKey(b)
    ensures a.fnName == b.fnName && a.fnModule != b.fnModule ==> BaseKey(a) != BaseKey(b)
    ensures BaseKey(a) == BaseKey(b) && a.profileKey.Some? && b.profileKey.Some? && a.profileKey != b.profileKey ==>
      KeyedKey(a) != KeyedKey(b)
  {
    SamePrefix(a.fnModule + ":", a.fnName, b.fnName);
    SameSuffix(a.fnModule, b.fnModule, ":" + a.fnName);
    assert BaseKey(a) == a.fnModule + (":" + a.fnName) && BaseKey(b) == b.fnModule + (":" + b.fnName);
    if a.profileKey.Some? && b.profileKey.Some? {
      SamePrefix(BaseKey(a) + SEPARATOR, a.profileKey.value, b.profileKey.value);
    }
  }

  lemma SamePrefix(p: string, a: string, b: string)
    ensures p + a == p + b ==> a == b
  {
    assert (p + a)[|p|..] == a && (p + b)[|p|..] == b;
  }

  lemma SameSuffix(a: string, b: string, s: string)
    ensures a + s == b + s ==> a == b
  {
    assert (a + s)[..|a|] == a && (b + s)[..|b|] == b;
    assert |a + s| == |b + s| ==> |a| == |b|;
  }

  /** The bucket of the origin has been observed. */
  predicate BucketSeen(store: Store, o: Origin) {
    o.profileKey.Some? && Lookup(store, KeyedKey(o)).observations != []
  }

  /** A bucket that has been observed is what is estimated from, whatever the aggregate holds; and
      otherwise the aggregate is. */
  lemma BucketDecides(store: Store, o: Origin)
    ensures var (profile, store') := Select(store, o);
      var (key, count) := EstimationIdentity(store, o);
      if BucketSeen(store, o)
      then key == KeyedKey(o) && profile == Lookup(store, KeyedKey(o)) && store' == store
           && count == |Lookup(store, KeyedKey(o)).observations|
      else key == BaseKey(o) && profile == Lookup(store, BaseKey(o)) && BaseKey(o) in store'
           && count == |Lookup(store, BaseKey(o)).observations|
  {
  }

  /** An observation opens its bucket: from then on the origin is estimated from the bucket, whose last
      observation it is. */
  lemma ObservationOpensBucket(store: Store, o: Origin, observation: Observation)
    requires o.profileKey.Some?
    ensures var store' := Record(store, o, Observed(observation));
      var seen := Lookup(store', KeyedKey(o)).observations;
      && seen != [] && seen[|seen| - 1] == observation
      && Select(store', o).0 == Lookup(store', KeyedKey(o)) && EstimationIdentity(store', o).0 == KeyedKey(o)
  {
    var store' := Record(store, o, Observed(observation));
    RecordWritesBoth(store, o, Observed(observation), KeyedKey(o));
    AddedIsLast(Lookup(store, KeyedKey(o)), observation);
    BucketDecides(store', o);
  }

  lemma AddedIsLast(p: Profile, o: Observation)
    ensures var seen := Add(p, o).observations; seen != [] && seen[|seen| - 1] == o
  {
  }

  /** The identity the canary goes by names the very profile estimation copies, with its
      sample count; and reading it changes no profile. */
  lemma IdentityNamesEstimate(store: Store, o: Origin)
    ensures var (key, count) := EstimationIdentity(store, o);
      var (profile, store') := Select(store, o);
      && profile == Lookup(store, key) == Lookup(store', key) && count == |profile.observations|
      && (forall k :: Lookup(store', k) == Lookup(store, k))
      && EstimationIdentity(store', o) == (key, count)
  {
    if o.profileKey.Some? { KeysDiffer(o); }
  }

  /** Both writes of an event land, each on its own profile, and nowhere else. */
  lemma RecordWritesBoth(store: Store, o: Origin, e: Event, key: string)
    ensures Lookup(Record(store, o, e), key) ==
      if key == BaseKey(o) || (o.profileKey.Some? && key == KeyedKey(o))
      then Step(Lookup(store, key), e) else Lookup(store, key)
  {
    if o.profileKey.Some? { KeysDiffer(o); }
  }

  /** An origin whose estimates rest on no observation. */
  predicate Cold(store: Store, o: Origin) {
    EstimationIdentity(store, o).1 == 0
  }

  lemma StepKeepsWarm(p: Profile, e: Event)
    requires p.observations != []
    ensures Step(p, e).observations != []
  {
  }

  /** Warm stays warm: no event recorded anywhere makes a warm profile empty, or a warm
      origin cold. */
  lemma WarmStaysWarm(store: Store, at: Origin, e: Event, o: Origin)
    requires !Cold(store, o)
    ensures !Cold(Record(store, at, e), o)
    ensures forall key :: Lookup(store, key).observations != [] ==>
      Lookup(Record(store, at, e), key).observations != []
  {
    forall key | Lookup(store, key).observations != []
      ensures Lookup(Record(store, at, e), key).observations != []
    {
      RecordWritesBoth(store, at, e, key);
      StepKeepsWarm(Lookup(store, key), e);
    }
    assert Lookup(store, EstimationIdentity(store, o).0).observations != [];
  }

  // ----- persistence -----

  /** What is written for one profile: a plain list, or a list with a floor.  `Malformed` is
      an entry that cannot be read back. */
  datatype Saved =
    | ListShape(listed: seq<Observation>)
    | DictShape(observations: Option<seq<Observation>>, floor: Option<real>)
    | Malformed

  function SaveProfile(p: Profile): Saved {
    if p.floor == None then ListShape(p.observations) else DictShape(Some(p.observations), p.floor)
  }

  function SaveAll(store: Store): map<string, Saved> {
    map key | key in store :: SaveProfile(store[key])
  }

  function AddAll(p: Profile, observations: seq<Observation>): Profile {
    if observations == [] then p
    else Add(AddAll(p, observations[..|observations| - 1]), observations[|observations| - 1])
  }

  /** Observations are added one by one with no floor in force; the floor comes last. */
  function LoadProfile(s: Saved): Profile
    requires !s.Malformed?
  {
    match s
    case ListShape(listed) => AddAll(EMPTY, listed).(floor := None)
    case DictShape(observations, floor) =>
      AddAll(EMPTY, if observations == None then [] else observations.value).(floor := floor)
  }

  /** An unreadable entry empties the whole store. */
  function Load(data: map<string, Saved>): Store {
    if exists key :: key in data && data[key].Malformed? then map[]
    else map key | key in data :: LoadProfile(data[key])
  }

  lemma AddNothing(p: Profile)
    ensures forall observations :: |observations| == 0 ==> AddAll(p, observations) == p
  {
  }

  lemma AddOneMore(p: Profile, observations: seq<Observation>, i: int)
    requires 0 <= i < |observations|
    ensures AddAll(p, observations[..i + 1]) == Add(AddAll(p, observations[..i]), observations[i])
  {
    assert observations[..i + 1][..i] == observations[..i];
  }

  lemma {:induction false} AddAllKeepsLast(window: nat, observations: seq<Observation>)
    ensures AddAll(Profile([], window, None), observations) == Profile(KeepLast(observations, window), window, None)
  {
    if observations == [] {
      assert KeepLast(observations, window) == [];
    } else {
      hide KeepLast, Add;
      var pre, o := observations[..|observations| - 1], observations[|observations| - 1];
      assert observations == pre + [o];
      AddAllKeepsLast(window, pre);
      AddWithoutFloor(window, pre, o);
    }
  }

  lemma AddWithoutFloor(window: nat, all: seq<Observation>, o: Observation)
    ensures Add(Profile(KeepLast(all, window), window, None), o) == Profile(KeepLast(all + [o], window), window, None)
  {
    KeepLastOfKept(all, o, window);
  }

  /** Loading brings back observations and floor, without the floor being cleared on the way. */
  lemma ProfileRoundTrip(p: Profile)
    ensures !SaveProfile(p).Malformed?
    ensures LoadProfile(SaveProfile(p)) == Profile(KeepLast(p.observations, DEFAULT_WINDOW), DEFAULT_WINDOW, p.floor)
  {
    AddAllKeepsLast(DEFAULT_WINDOW, p.observations);
  }

  /** What was saved for one profile. */
  function SavedObservations(s: Saved): seq<Observation> {
    match s
    case ListShape(listed) => listed
    case DictShape(observations, _) => if observations == None then [] else observations.value
    case Malformed => []
  }

  /** One entry that cannot be read empties the store; otherwise every entry comes back, with the last
      hundred of its observations in their order, and its floor if it has one. */
  lemma LoadedExactly(data: map<string, Saved>)
    ensures (exists key :: key in data && data[key].Malformed?) ==> Load(data) == map[]
    ensures (forall key :: key in data ==> !data[key].Malformed?) ==>
      && Load(data).Keys == data.Keys
      && (forall key :: key in data ==>
            var saved, p := SavedObservations(data[key]), Load(data)[key];
            && p.observations == (if |saved| <= 100 then saved else saved[|saved| - 100..]) && p.window == 100
            && p.floor == if data[key].DictShape? then data[key].floor else None)
  {
    forall key | key in data && !data[key].Malformed? {
      AddAllKeepsLast(DEFAULT_WINDOW, SavedObservations(data[key]));
    }
  }

  predicate DefaultWindow(p: Profile) {
    p.window == DEFAULT_WINDOW && |p.observations| <= DEFAULT_WINDOW
  }

  /** A store survives a restart exactly when all its profiles have the default window. */
  lemma StoreRoundTrip(store: Store)
    ensures Load(SaveAll(store)) == store <==> forall key :: key in store ==> DefaultWindow(store[key])
  {
    var data := SaveAll(store);
    forall key | key in store
      ensures !data[key].Malformed? && (LoadProfile(data[key]) == store[key] <==> DefaultWindow(store[key]))
    {
      ProfileRoundTrip(store[key]);
    }
    assert Load(data).Keys == store.Keys;
    if Load(data) == store {
      forall key | key in store ensures DefaultWindow(store[key]) {
        assert Load(data)[key] == store[key];
      }
    }
  }

  /** Every store built by recording into an empty one has default windows. */
  lemma RecordKeepsDefaultWindow(store: Store, o: Origin, e: Event)
    requires forall key :: key in store ==> DefaultWindow(store[key])
    ensures forall key :: key in Record(store, o, e) ==> DefaultWindow(Record(store, o, e)[key])
  {
    forall key | key in Record(store, o, e) ensures DefaultWindow(Record(store, o, e)[key]) {
      RecordWritesBoth(store, o, e, key);
    }
  }
}

/** The store as the mutable object the program keeps, with its debounced saving. */
module ProfileStores {
  import opened Quantities
  import opened Profiles
  import opened Stores

  class ProfileStore {
    var profiles: Store
    const persists: bool
    const saveEveryN: int
    const saveInterval: real
    var pendingSinceSave: int
    var lastSaveTime: real

    /** Less than a full batch is ever waiting to be saved. */
    ghost predicate Valid()
      reads this
    {
      0 <= pendingSinceSave && (persists && 0 < saveEveryN ==> pendingSinceSave < saveEveryN)
    }

    constructor (persists: bool, saveEveryN: int, saveInterval: real, now: real)
      ensures Valid() && profiles == map[]
      ensures this.persists == persists && this.saveEveryN == saveEveryN && this.saveInterval == saveInterval
    {
      this.persists := persists;
      this.saveEveryN := saveEveryN;
      this.saveInterval := saveInterval;
      profiles := map[];
      pendingSinceSave := 0;
      lastSaveTime := now;
    }

    /** The profile to estimate from.  Reading may enter an empty aggregate, but changes no profile. */
    method Get(o: Origin) returns (p: Profile)
      requires Valid()
      modifies this`profiles
      ensures Valid() && (p, profiles) == Select(old(profiles), o)
      ensures p == Lookup(old(profiles), if BucketSeen(old(profiles), o) then KeyedKey(o) else BaseKey(o))
      ensures forall key :: Lookup(profiles, key) == Lookup(old(profiles), key)
    {
      if BucketHonored(profiles, o) {
        return profiles[KeyedKey(o)];
      }
      var base := BaseKey(o);
      if base !in profiles {
        profiles := profiles[base := EMPTY];
      }
      assert profiles == old(profiles)[base := Lookup(old(profiles), base)];
      return profiles[base];
    }

    /** Write an event to the aggregate and the bucket, and say what to save, if anything. */
    method Write(o: Origin, e: Event, now: real) returns (snapshot: Option<map<string, Saved>>)
      requires Valid()
      modifies this
      ensures Valid() && profiles == Record(old(profiles), o, e)
      ensures snapshot.Some? <==>
        (persists && (old(pendingSinceSave) + 1 >= saveEveryN || now - old(lastSaveTime) >= saveInterval))
      ensures snapshot.Some? ==> snapshot.value == SaveAll(profiles) && pendingSinceSave == 0 && lastSaveTime == now
      ensures snapshot.None? ==> pendingSinceSave == old(pendingSinceSave) + 1 && lastSaveTime == old(lastSaveTime)
    {
      var base := BaseKey(o);
      profiles := profiles[base := Step(Lookup(profiles, base), e)];
      if o.profileKey.Some? {
        var keyed := KeyedKey(o);
        profiles := profiles[keyed := Step(Lookup(profiles, keyed), e)];
      }
      pendingSinceSave := pendingSinceSave + 1;
      snapshot := None;
      if persists && (pendingSinceSave >= saveEveryN || now - lastSaveTime >= saveInterval) {
        snapshot := Some(SaveAll(profiles));
        pendingSinceSave := 0;
        lastSaveTime := now;
      }
    }

    /** One saved entry: the floor is restored only after all observations. */
    method ReadProfile(saved: Saved) returns (p: Profile)
      requires !saved.Malformed?
      ensures p == LoadProfile(saved)
    {
      var observations, floor;
      match saved {
        case ListShape(listed) => observations, floor := listed, None;
        case DictShape(some, f) => observations, floor := if some == None then [] else some.value, f;
      }
      hide Add, AddAll;
      p := EMPTY;
      AddNothing(p);
      var i := 0;
      while i < |observations|
        invariant 0 <= i <= |observations| && p == AddAll(EMPTY, observations[..i])
      {
        AddOneMore(EMPTY, observations, i);
        p := Add(p, observations[i]);
        i := i + 1;
      }
      assert observations[..i] == observations;
      p := p.(floor := floor);
    }

    /** Read a saved file back, entry by entry. */
    method Restore(data: map<string, Saved>)
      requires Valid()
      modifies this`profiles
      ensures Valid() && profiles == Load(data)
    {
      profiles := map[];
      var todo := data.Keys;
      while todo != {}
        invariant todo <= data.Keys
        invariant forall key :: key in data.Keys - todo ==> !data[key].Malformed?
        invariant profiles == map key | key in data.Keys - todo :: LoadProfile(data[key])
        decreases todo
      {
        var key :| key in todo;
        if data[key].Malformed? {
          profiles := map[];
          return;
        }
        var p := ReadProfile(data[key]);
        profiles := profiles[key := p];
        todo := todo - {key};
      }
    }
  }
}
