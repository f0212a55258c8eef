/** The background worker's view of extension storage (`src/js/worker-data-manager.js`):
    which profiles are active, how storage changes are merged into the local copy,
    and when a snapshot of the profiles is pruned from or written to sync storage. */
module WorkerData {
  import opened Common
  import opened Text

  /** How many snapshots sync storage keeps. */
  const MaxProfilesInCloud: nat := 20

  /** What `reloadActiveProfiles` hands to the data-change callback. */
  datatype Reload = Reload(activeProfiles: seq<Profile>, selectedActiveProfile: Option<Profile>)

  /** The TypeErrors `reloadActiveProfiles` can raise on malformed storage. */
  datatype ReloadError =
    | ManagedProfilesMissing   // `managedProfiles` is undefined or null: reading `.length` throws
    | ManagedProfileNotObject  // a non-empty string: each character is a primitive whose fields cannot be set
    | ProfilesNotIterable      // `profiles` is truthy but has no `entries()`

  /** The managed profiles the first loop walks, or the error reading them raises.
      A boolean or a number has no `length`, so the guard `length > 0` skips it. */
  function ManagedProfiles(local: map<string, Json>): Result<seq<Profile>, ReloadError> {
    match Get(local, "managedProfiles")
    case Undefined => Failure(ManagedProfilesMissing)
    case Null => Failure(ManagedProfilesMissing)
    case Str(s) => if s == "" then Success([]) else Failure(ManagedProfileNotObject)
    case ProfileList(ps) => Success(ps)
    case Bool(_) => Success([])
    case Number(_) => Success([])
  }

  /** The stored profiles the second loop walks: none when `profiles` is falsy. */
  function StoredProfiles(local: map<string, Json>): Result<seq<Profile>, ReloadError> {
    var v := Get(local, "profiles");
    if !Truthy(v) then Success([])
    else if v.ProfileList? then Success(v.profiles)
    else Failure(ProfilesNotIterable)
  }

  /** Stored profile `i` is active: it is the selected one (strict equality with a number)
      or it is always on. */
  predicate IsPicked(profiles: seq<Profile>, selected: Json, i: int) {
    0 <= i < |profiles| && (selected == Number(i) || profiles[i].alwaysOn)
  }

  /** The indices below `n` of the active stored profiles, in ascending order. */
  function Picked(profiles: seq<Profile>, selected: Json, n: nat): (r: seq<nat>)
    requires n <= |profiles|
    ensures forall k :: 0 <= k < |r| ==> r[k] < n
  {
    if n == 0 then []
    else Picked(profiles, selected, n - 1) + (if IsPicked(profiles, selected, n - 1) then [n - 1] else [])
  }

  function OptimizeAll(profiles: seq<Profile>, optimize: Profile -> Profile): (r: seq<Profile>)
    ensures |r| == |profiles|
    ensures forall k :: 0 <= k < |r| ==> r[k] == optimize(profiles[k])
  {
    seq(|profiles|, k requires 0 <= k < |profiles| => optimize(profiles[k]))
  }

  function OptimizeAt(profiles: seq<Profile>, indices: seq<nat>, optimize: Profile -> Profile): (r: seq<Profile>)
    requires forall k :: 0 <= k < |indices| ==> indices[k] < |profiles|
    ensures |r| == |indices|
    ensures forall k :: 0 <= k < |r| ==> r[k] == optimize(profiles[indices[k]])
  {
    seq(|indices|, k requires 0 <= k < |indices| => optimize(profiles[indices[k]]))
  }

  /** The optimised copy of the stored profile `selected` indexes, if it indexes one. */
  function SelectedAmong(profiles: seq<Profile>, selected: Json, n: nat, optimize: Profile -> Profile): Option<Profile>
    requires n <= |profiles|
  {
    if selected.Number? && 0 <= selected.n < n then Some(optimize(profiles[selected.n])) else None
  }

  /** What `reloadActiveProfiles` computes: the optimised managed profiles, then the optimised
      active stored profiles in storage order, and the optimised selected profile. */
  function ReloadSpec(local: map<string, Json>, optimize: Profile -> Profile): Result<Reload, ReloadError> {
    match ManagedProfiles(local)
    case Failure(e) => Failure(e)
    case Success(managed) =>
      match StoredProfiles(local)
      case Failure(e) => Failure(e)
      case Success(stored) =>
        var selected := Get(local, "selectedProfile");
        Success(Reload(
          OptimizeAll(managed, optimize) + OptimizeAt(stored, Picked(stored, selected, |stored|), optimize),
          SelectedAmong(stored, selected, |stored|, optimize)))
  }

  lemma ReloadSpecSuccess(local: map<string, Json>, optimize: Profile -> Profile, managed: seq<Profile>, stored: seq<Profile>)
    requires ManagedProfiles(local) == Success(managed)
    requires StoredProfiles(local) == Success(stored)
    ensures var selected := Get(local, "selectedProfile");
      ReloadSpec(local, optimize) == Success(Reload(
        OptimizeAll(managed, optimize) + OptimizeAt(stored, Picked(stored, selected, |stored|), optimize),
        SelectedAmong(stored, selected, |stored|, optimize)))
  {
  }

  /** `reloadActiveProfiles`, with `optimizeProfile` as the parameter `optimize`. */
  method ReloadActiveProfiles(local: map<string, Json>, optimize: Profile -> Profile)
    returns (r: Result<Reload, ReloadError>)
    ensures r == ReloadSpec(local, optimize)
  {
    var activeProfiles: seq<Profile> := [];
    var selectedActiveProfile: Option<Profile> := None;
    var managedValue := Get(local, "managedProfiles");
    if managedValue.Undefined? || managedValue.Null? {
      return Failure(ManagedProfilesMissing);
    }
    if managedValue.Str? && managedValue.s != "" {
      return Failure(ManagedProfileNotObject);
    }
    if managedValue.ProfileList? && |managedValue.profiles| > 0 {
      var managed := managedValue.profiles;
      var k := 0;
      while k < |managed|
        invariant 0 <= k <= |managed|
        invariant activeProfiles == OptimizeAll(managed[..k], optimize)
      {
        assert managed[..k + 1] == managed[..k] + [managed[k]];
        activeProfiles := activeProfiles + [optimize(managed[k])];
        k := k + 1;
      }
      assert managed[..k] == managed;
    }
    ghost var managedPart := activeProfiles;
    assert ManagedProfiles(local) == Success(ManagedProfiles(local).value);
    assert managedPart == OptimizeAll(ManagedProfiles(local).value, optimize);
    var profilesValue := Get(local, "profiles");
    ghost var stored: seq<Profile> := [];
    if Truthy(profilesValue) {
      if !profilesValue.ProfileList? {
        return Failure(ProfilesNotIterable);
      }
      stored := profilesValue.profiles;
      var picked;
      picked, selectedActiveProfile := PickStored(profilesValue.profiles, Get(local, "selectedProfile"), optimize);
      activeProfiles := activeProfiles + picked;
    } else {
      assert Picked(stored, Get(local, "selectedProfile"), 0) == [];
      assert OptimizeAt(stored, [], optimize) == [];
      assert SelectedAmong(stored, Get(local, "selectedProfile"), 0, optimize) == None;
      assert activeProfiles == activeProfiles + [];
    }
    assert StoredProfiles(local) == Success(stored);
    ReloadSpecSuccess(local, optimize, ManagedProfiles(local).value, stored);
    return Success(Reload(activeProfiles, selectedActiveProfile));
  }

  /** The second loop of `reloadActiveProfiles`: the optimised selected or always-on stored
      profiles, in order, and the optimised selected one. */
  method PickStored(profiles: seq<Profile>, selected: Json, optimize: Profile -> Profile)
    returns (picked: seq<Profile>, selectedActiveProfile: Option<Profile>)
    ensures picked == OptimizeAt(profiles, Picked(profiles, selected, |profiles|), optimize)
    ensures selectedActiveProfile == SelectedAmong(profiles, selected, |profiles|, optimize)
  {
    picked := [];
    selectedActiveProfile := None;
    var i := 0;
    while i < |profiles|
      invariant 0 <= i <= |profiles|
      invariant picked == OptimizeAt(profiles, Picked(profiles, selected, i), optimize)
      invariant selectedActiveProfile == SelectedAmong(profiles, selected, i, optimize)
    {
      ghost var before := Picked(profiles, selected, i);
      if selected == Number(i) || profiles[i].alwaysOn {
        var profile := optimize(profiles[i]);
        if selected == Number(i) {
          selectedActiveProfile := Some(profile);
        }
        picked := picked + [profile];
        OptimizeAtSnoc(profiles, before, i, optimize);
      }
      i := i + 1;
    }
  }

  lemma OptimizeAtSnoc(profiles: seq<Profile>, indices: seq<nat>, i: nat, optimize: Profile -> Profile)
    requires forall k :: 0 <= k < |indices| ==> indices[k] < |profiles|
    requires i < |profiles|
    ensures OptimizeAt(profiles, indices + [i], optimize) == OptimizeAt(profiles, indices, optimize) + [optimize(profiles[i])]
  {
  }

  /** Stored profile `i` is among the active ones exactly when it is selected or always on. */
  lemma {:induction false} PickedMembership(profiles: seq<Profile>, selected: Json, n: nat, i: int)
    requires n <= |profiles|
    ensures i in Picked(profiles, selected, n) <==> i < n && IsPicked(profiles, selected, i)
  {
    if n > 0 {
      PickedMembership(profiles, selected, n - 1, i);
    }
  }

  predicate Increasing(s: seq<nat>) {
    forall a, b :: 0 <= a < b < |s| ==> s[a] < s[b]
  }

  /** Active stored profiles keep their storage order. */
  lemma {:induction false} PickedIncreasing(profiles: seq<Profile>, selected: Json, n: nat)
    requires n <= |profiles|
    ensures Increasing(Picked(profiles, selected, n))
  {
    if n > 0 {
      PickedIncreasing(profiles, selected, n - 1);
      var prev := Picked(profiles, selected, n - 1);
      var r := Picked(profiles, selected, n);
      assert r == prev + (if IsPicked(profiles, selected, n - 1) then [n - 1] else []);
      forall a, b | 0 <= a < b < |r|
        ensures r[a] < r[b]
      {
        if b < |prev| {
          assert r[a] == prev[a] && r[b] == prev[b];
          assert prev[a] < prev[b];
        } else {
          assert r[a] == prev[a] && r[b] == n - 1;
          assert prev[a] < n - 1;
        }
      }
    }
  }

  /** The active list is every managed profile, in order, then exactly the selected or
      always-on stored profiles, in storage order; the selection is defined exactly when
      `selectedProfile` indexes a stored profile, and is that profile's optimised copy. */
  lemma ReloadSelection(local: map<string, Json>, optimize: Profile -> Profile)
    requires ReloadSpec(local, optimize).Success?
    ensures var managed := ManagedProfiles(local).value;
      var stored := StoredProfiles(local).value;
      var selected := Get(local, "selectedProfile");
      var result := ReloadSpec(local, optimize).value;
      var picked := Picked(stored, selected, |stored|);
      && result.activeProfiles[..|managed|] == OptimizeAll(managed, optimize)
      && result.activeProfiles[|managed|..] == OptimizeAt(stored, picked, optimize)
      && (forall i :: i in picked <==> IsPicked(stored, selected, i))
      && Increasing(picked)
      && (result.selectedActiveProfile.Some? <==> selected.Number? && 0 <= selected.n < |stored|)
      && (result.selectedActiveProfile.Some? ==>
            result.selectedActiveProfile.value == optimize(stored[selected.n]))
  {
    var stored := StoredProfiles(local).value;
    var selected := Get(local, "selectedProfile");
    forall i {
      PickedMembership(stored, selected, |stored|, i);
    }
    PickedIncreasing(stored, selected, |stored|);
  }

  /** With no stored and no managed profiles nothing is active and nothing is selected. */
  lemma EmptyStorage(local: map<string, Json>, optimize: Profile -> Profile)
    requires Get(local, "profiles") == ProfileList([])
    requires Get(local, "managedProfiles") == ProfileList([])
    ensures ReloadSpec(local, optimize) == Success(Reload([], None))
  {
    assert ManagedProfiles(local) == Success([]);
    assert StoredProfiles(local) == Success([]);
    assert OptimizeAll([], optimize) == [];
    assert OptimizeAt([], [], optimize) == [];
    assert Picked([], Get(local, "selectedProfile"), 0) == [];
    assert SelectedAmong([], Get(local, "selectedProfile"), 0, optimize) == None;
    var r := ReloadSpec(local, optimize);
    assert r.Success?;
    assert r.value.selectedActiveProfile == None;
    assert r.value.activeProfiles == [];
  }

  /** Of three stored profiles with the second selected and the third always on, the
      second and the third are active and the second is the selection. */
  lemma {:induction false} SelectedAndAlwaysOn(local: map<string, Json>, optimize: Profile -> Profile, p1: Profile, p2: Profile, p3: Profile)
    requires Get(local, "profiles") == ProfileList([p1, p2, p3])
    requires Get(local, "managedProfiles") == ProfileList([])
    requires Get(local, "selectedProfile") == Number(1)
    requires !p1.alwaysOn && p3.alwaysOn
    ensures ReloadSpec(local, optimize) == Success(Reload([optimize(p2), optimize(p3)], Some(optimize(p2))))
  {
    var stored := [p1, p2, p3];
    assert Picked(stored, Number(1), 0) == [];
    assert Picked(stored, Number(1), 1) == [];
    assert Picked(stored, Number(1), 2) == [1];
    assert Picked(stored, Number(1), 3) == [1, 2];
    assert ManagedProfiles(local) == Success([]);
    assert StoredProfiles(local) == Success(stored);
    assert OptimizeAll([], optimize) == [];
    assert OptimizeAt(stored, [1, 2], optimize) == [optimize(p2), optimize(p3)];
    assert SelectedAmong(stored, Number(1), 3, optimize) == Some(optimize(p2));
    ReloadSpecSuccess(local, optimize, [], stored);
    assert |stored| == 3;
    assert OptimizeAt(stored, Picked(stored, Number(1), |stored|), optimize) == [optimize(p2), optimize(p3)];
    assert OptimizeAll([], optimize) + [optimize(p2), optimize(p3)] == [optimize(p2), optimize(p3)];
  }

  /** The snapshot keys of sync storage, or none when it returned nothing. */
  function SyncItems(items: Option<map<string, Json>>): map<string, Json> {
    if items.Some? then items.value else map[]
  }

  /** What `saveStorageToCloud` asks of sync storage: the keys to remove, and the entry to write. */
  datatype CloudPlan = CloudPlan(remove: Option<seq<string>>, write: Option<(string, Json)>)

  /** The decision of `saveStorageToCloud` given the sorted snapshot keys: prune all but the
      newest `MaxProfilesInCloud` once there are at least that many, and write the profiles
      under the current time unless the newest snapshot already holds them. */
  predicate CloudDecision(items: Option<map<string, Json>>, profiles: Json, now: nat, keys: seq<string>, plan: CloudPlan) {
    && Sorted(keys)
    && multiset(keys) == multiset(SyncItems(items).Keys)
    && (plan.remove.Some? <==> |keys| >= MaxProfilesInCloud)
    && (plan.remove.Some? ==> plan.remove.value == keys[..|keys| - MaxProfilesInCloud])
    && (plan.write.Some? <==> |keys| == 0 || Get(SyncItems(items), keys[|keys| - 1]) != profiles)
    && (plan.write.Some? ==> plan.write.value == (Decimal(now), profiles))
  }

  /** `Object.keys`: the keys of an object, each once, in some order. */
  method ObjectKeys(obj: map<string, Json>) returns (keys: seq<string>)
    ensures multiset(keys) == multiset(obj.Keys)
  {
    keys := [];
    var pending := obj.Keys;
    while pending != {}
      invariant pending <= obj.Keys
      invariant multiset(keys) + multiset(pending) == multiset(obj.Keys)
      decreases |pending|
    {
      var key :| key in pending;
      assert pending == (pending - {key}) + {key};
      keys := keys + [key];
      pending := pending - {key};
    }
  }

  /** `saveStorageToCloud`: `items` is what sync storage returned, `now` the clock. */
  method SaveStorageToCloud(items: Option<map<string, Json>>, profiles: Json, now: nat)
    returns (keys: seq<string>, plan: CloudPlan)
    ensures CloudDecision(items, profiles, now, keys, plan)
  {
    var all := SyncItems(items);
    keys := ObjectKeys(all);
    keys := Sort(keys);
    var remove: Option<seq<string>> := None;
    if |keys| >= MaxProfilesInCloud {
      remove := Some(keys[..|keys| - MaxProfilesInCloud]);
    }
    var write: Option<(string, Json)> := None;
    if |keys| == 0 || Get(all, keys[|keys| - 1]) != profiles {
      write := Some((Decimal(now), profiles));
    }
    plan := CloudPlan(remove, write);
  }

  /** Pruning leaves exactly the `MaxProfilesInCloud` last keys in sort order: no kept key
      sorts before a removed one. */
  lemma PruneKeepsNewest(items: Option<map<string, Json>>, profiles: Json, now: nat, keys: seq<string>, plan: CloudPlan)
    requires CloudDecision(items, profiles, now, keys, plan)
    requires plan.remove.Some?
    ensures var removed := plan.remove.value;
      && |keys| - |removed| == MaxProfilesInCloud
      && removed + keys[|removed|..] == keys
      && forall a, b :: 0 <= a < |removed| <= b < |keys| ==> LexLessEq(keys[a], keys[b])
  {
  }

  /** The snapshot the write decision compares against is the greatest key. */
  lemma {:induction false} LatestIsGreatest(keys: seq<string>)
    requires Sorted(keys) && |keys| > 0
    ensures forall k :: k in keys ==> LexLessEq(k, keys[|keys| - 1])
  {
    forall k | k in keys
      ensures LexLessEq(k, keys[|keys| - 1])
    {
      var i :| 0 <= i < |keys| && keys[i] == k;
      if i < |keys| - 1 {
        assert LexLessEq(keys[i], keys[|keys| - 1]);
      }
    }
  }

  /** Removed and kept keys are all snapshot keys. */
  lemma SortedKeysAreSnapshots(items: Option<map<string, Json>>, profiles: Json, now: nat, keys: seq<string>, plan: CloudPlan)
    requires CloudDecision(items, profiles, now, keys, plan)
    ensures forall k :: k in keys <==> k in SyncItems(items)
  {
    forall k
      ensures k in keys <==> k in SyncItems(items)
    {
      assert k in keys <==> k in multiset(keys);
    }
  }

  /** One change delivered to the storage listener: the key's new value. */
  type Changes = map<string, Json>

  /** The profile list the listener hands to `fixProfiles`: an absent new value reads as []. */
  function NewProfiles(changes: Changes): Json
    requires "profiles" in changes
  {
    if changes["profiles"] == Undefined then ProfileList([]) else changes["profiles"]
  }

  /** A change to the profiles or to the selection recomputes the active profiles. */
  predicate ReloadTriggered(changes: Changes) {
    "profiles" in changes || "selectedProfile" in changes
  }

  /** The calls the worker makes into storage and into the data-change callback. */
  datatype Effect =
    | DataChanged(response: Reload)
    | SetProfiles(profiles: Json)
    | RemoveSync(keys: seq<string>)
    | SetSync(key: string, value: Json)

  function PlanEffects(plan: CloudPlan): seq<Effect> {
    (if plan.remove.Some? then [RemoveSync(plan.remove.value)] else [])
    + (if plan.write.Some? then [SetSync(plan.write.value.0, plan.write.value.1)] else [])
  }

  /** How one run of the storage listener ended. */
  datatype ListenerOutcome =
    | ProfilesFixed          // `fixProfiles` rewrote the profiles; they were saved back and the run stopped
    | Delivered              // the callback ran
    | ReloadFailed(error: ReloadError)

  /** The worker after `loadProfilesFromStorage` has registered its listener. */
  class Worker {
    const optimize: Profile -> Profile
    var local: map<string, Json>
    var response: Reload
    var effects: seq<Effect>

    /** The initial load: storage is read, the active profiles computed and delivered. */
    constructor (initial: map<string, Json>, optimize: Profile -> Profile)
      requires ReloadSpec(initial, optimize).Success?
      ensures this.optimize == optimize
      ensures local == initial
      ensures response == ReloadSpec(initial, optimize).value
      ensures effects == [DataChanged(response)]
    {
      this.optimize := optimize;
      local := initial;
      var r := ReloadActiveProfiles(initial, optimize);
      response := r.value;
      effects := [DataChanged(r.value)];
    }

    /** The merge step of the listener: every changed key takes its new value. */
    method MergeChanges(changes: Changes)
      modifies this
      ensures local == old(local) + changes
      ensures response == old(response) && effects == old(effects)
    {
      var pending := changes.Keys;
      while pending != {}
        invariant pending <= changes.Keys
        invariant local == old(local) + map k | k in changes.Keys - pending :: changes[k]
        invariant response == old(response) && effects == old(effects)
        decreases |pending|
      {
        var key :| key in pending;
        local := local[key := changes[key]];
        pending := pending - {key};
      }
      assert changes.Keys - pending == changes.Keys;
    }

    /** The storage change listener. `fixProfiles` returns the upgraded list when it had to
        fix one; `cloudItems` and `now` are what sync storage and the clock return. */
    method OnStorageChanged(changes: Changes, fixProfiles: Json -> Option<Json>,
                            cloudItems: Option<map<string, Json>>, now: nat)
      returns (outcome: ListenerOutcome)
      modifies this
      ensures outcome.ProfilesFixed? <==> "profiles" in changes && fixProfiles(NewProfiles(changes)).Some?
      ensures outcome.ProfilesFixed? ==>
        && local == old(local) && response == old(response)
        && effects == old(effects) + [SetProfiles(fixProfiles(NewProfiles(changes)).value)]
      ensures !outcome.ProfilesFixed? ==> local == old(local) + changes
      ensures outcome.ReloadFailed? <==>
        !outcome.ProfilesFixed? && ReloadTriggered(changes) && ReloadSpec(local, optimize).Failure?
      ensures outcome.ReloadFailed? ==> response == old(response) && effects == old(effects)
      ensures outcome.Delivered? ==>
        response == (if ReloadTriggered(changes) then ReloadSpec(local, optimize).value else old(response))
      ensures outcome.Delivered? && "profiles" !in changes ==> effects == old(effects) + [DataChanged(response)]
      ensures outcome.Delivered? && "profiles" in changes ==>
        exists keys, plan :: CloudDecision(cloudItems, Get(local, "profiles"), now, keys, plan)
          && effects == old(effects) + [DataChanged(response)] + PlanEffects(plan)
    {
      var profilesUpdated := "profiles" in changes;
      if profilesUpdated {
        var fixed := fixProfiles(NewProfiles(changes));
        if fixed.Some? {
          effects := effects + [SetProfiles(fixed.value)];
          return ProfilesFixed;
        }
      }
      MergeChanges(changes);
      if profilesUpdated || "selectedProfile" in changes {
        var r := ReloadActiveProfiles(local, optimize);
        if r.Failure? {
          return ReloadFailed(r.error);
        }
        response := r.value;
      }
      effects := effects + [DataChanged(response)];
      if profilesUpdated {
        var keys, plan := SaveStorageToCloud(cloudItems, Get(local, "profiles"), now);
        effects := effects + PlanEffects(plan);
      }
      return Delivered;
    }
  }

  /** The merge overwrites exactly the changed keys: a changed key reads its new value
      and every other key reads what it read before. */
  lemma MergeOverwritesChangedKeys(before: map<string, Json>, changes: Changes)
    ensures forall k :: k in changes ==> Get(before + changes, k) == changes[k]
    ensures forall k :: k !in changes ==> Get(before + changes, k) == Get(before, k)
  {
  }
}
