/**
 * The golfer profiles and their bags: a list of profile names, for each
 * profile a map of named presets (a bag maps a club's name to its loft in
 * degrees), the active preset of each profile, and the active profile.
 * The JSON file the store is loaded from and saved to is not modelled: the
 * loaded contents arrive as a parameter, and each save writes the state
 * the model holds.
 */
module ProfileManager {
  import opened Wrappers

  /** A club's name mapped to its loft in degrees. */
  type Bag = map<string, real>

  const GUEST: string := "Guest"
  const DEFAULT_SET: string := "Default Set"

  /** The default bag every new profile receives. */
  const DEFAULT_BAG: Bag := map[
    "Driver" := 10.5, "3 Wood" := 15.0, "5 Wood" := 18.0, "3 Hybrid" := 19.0,
    "4 Iron" := 21.0, "5 Iron" := 24.0, "6 Iron" := 28.0, "7 Iron" := 34.0,
    "8 Iron" := 38.0, "9 Iron" := 42.0, "PW" := 46.0, "GW" := 50.0,
    "SW" := 56.0, "LW" := 60.0]

  /** The stored document: active profile, profile names, bags per profile, active preset per profile. */
  datatype ProfileData = ProfileData(
    activeProfile: string,
    profiles: seq<string>,
    bags: map<string, map<string, Bag>>,
    activePresets: map<string, string>)

  /** The contents used when there is no file or it cannot be read. */
  const DEFAULT_DATA: ProfileData := ProfileData(
    GUEST, [GUEST], map[GUEST := map[DEFAULT_SET := DEFAULT_BAG]], map[GUEST := DEFAULT_SET])

  predicate NoDuplicates(names: seq<string>) {
    forall i, j :: 0 <= i < j < |names| ==> names[i] != names[j]
  }

  /**
   * The store's invariant: profile names are distinct, and each profile has
   * a bag map and an active preset.
   */
  predicate Consistent(d: ProfileData) {
    && NoDuplicates(d.profiles)
    && (forall p :: p in d.profiles ==> p in d.bags && p in d.activePresets)
  }

  /** The default contents: Guest is active and the only profile, with the default bag as its active preset. */
  lemma DefaultDataFacts()
    ensures DEFAULT_DATA.activeProfile == GUEST && DEFAULT_DATA.profiles == [GUEST]
    ensures Consistent(DEFAULT_DATA)
    ensures DEFAULT_DATA.bags[GUEST][DEFAULT_DATA.activePresets[GUEST]] == DEFAULT_BAG
  {
  }

  /** The data the store starts from: the file's contents, or the defaults when there are none. */
  function Loaded(file: Option<ProfileData>): (d: ProfileData)
    ensures file.None? ==> d.activeProfile == GUEST && d.profiles == [GUEST]
    ensures file.Some? ==> d == file.value
  {
    match file
    case Some(contents) => contents
    case None => DEFAULT_DATA
  }

  /** Python's list.remove: drops the first occurrence of x, if any. */
  function RemoveFirst(names: seq<string>, x: string): (r: seq<string>)
    ensures x in names ==> |r| == |names| - 1
    ensures x !in names ==> r == names
    ensures forall y :: y != x ==> (y in r <==> y in names)
    ensures NoDuplicates(names) ==> NoDuplicates(r) && x !in r
  {
    if names == [] then []
    else if names[0] == x then names[1..]
    else
      var rest := RemoveFirst(names[1..], x);
      assert names == [names[0]] + names[1..];
      assert NoDuplicates(names) ==> names[0] !in names[1..];
      [names[0]] + rest
  }

  /** createProfile: a new, non-empty name gets a copy of the default bag as its active preset. */
  function Created(d: ProfileData, name: string): (r: ProfileData)
    ensures name == "" || name in d.profiles ==> r == d
    ensures name != "" && name !in d.profiles ==>
      && r.profiles == d.profiles + [name]
      && r.bags == d.bags[name := map[DEFAULT_SET := DEFAULT_BAG]]
      && r.activePresets == d.activePresets[name := DEFAULT_SET]
      && r.activeProfile == d.activeProfile
  {
    if name != "" && name !in d.profiles then
      d.(profiles := d.profiles + [name],
         bags := d.bags[name := map[DEFAULT_SET := DEFAULT_BAG]],
         activePresets := d.activePresets[name := DEFAULT_SET])
    else d
  }

  /** A profile can be deleted when it exists and is not Guest. */
  predicate Deletable(d: ProfileData, name: string) {
    name in d.profiles && name != GUEST
  }

  /**
   * deleteProfile: the profile, its bags and its active preset go; when the
   * active profile (as the manager holds it) was deleted, Guest becomes active.
   */
  function Deleted(d: ProfileData, active: string, name: string): (r: ProfileData)
    ensures !Deletable(d, name) ==> r == d
    ensures Deletable(d, name) ==>
      && name !in r.bags && name !in r.activePresets
      && r.bags == d.bags - {name} && r.activePresets == d.activePresets - {name}
      && r.activeProfile == (if active == name then GUEST else d.activeProfile)
      && |r.profiles| == |d.profiles| - 1
    ensures GUEST in d.profiles ==> GUEST in r.profiles
    ensures forall p :: p != name ==> (p in r.profiles <==> p in d.profiles)
  {
    if Deletable(d, name) then
      ProfileData(
        if active == name then GUEST else d.activeProfile,
        RemoveFirst(d.profiles, name),
        d.bags - {name},
        d.activePresets - {name})
    else d
  }

  /** saveBagPreset: a preset that parsed is stored under the profile, whose bag map is created when missing. */
  function WithPreset(d: ProfileData, profile: string, preset: string, clubs: Option<Bag>): (r: ProfileData)
    ensures clubs.None? ==> r == d
    ensures clubs.Some? ==> profile in r.bags && preset in r.bags[profile] && r.bags[profile][preset] == clubs.value
    ensures r.profiles == d.profiles && r.activePresets == d.activePresets && r.activeProfile == d.activeProfile
    ensures forall p :: p in d.bags ==> p in r.bags
  {
    match clubs
    case None => d
    case Some(bag) =>
      var presets := if profile in d.bags then d.bags[profile] else map[];
      d.(bags := d.bags[profile := presets[preset := bag]])
  }

  /** getBagPreset: the stored preset, or the default bag when the profile or the preset is unknown. */
  function BagPreset(d: ProfileData, profile: string, preset: string): (bag: Bag)
    ensures profile !in d.bags || preset !in d.bags[profile] ==> bag == DEFAULT_BAG
  {
    if profile in d.bags && preset in d.bags[profile] then d.bags[profile][preset] else DEFAULT_BAG
  }

  /** A preset that was saved is the one read back, and the other presets read as before. */
  lemma SavedPresetReadBack(d: ProfileData, profile: string, preset: string, bag: Bag, p: string, q: string)
    ensures BagPreset(WithPreset(d, profile, preset, Some(bag)), profile, preset) == bag
    ensures (p, q) != (profile, preset) ==>
      BagPreset(WithPreset(d, profile, preset, Some(bag)), p, q) == BagPreset(d, p, q)
  {
    var r := WithPreset(d, profile, preset, Some(bag));
    if (p, q) != (profile, preset) && p == profile {
      assert q != preset;
      assert (q in r.bags[p]) == (p in d.bags && q in d.bags[p]);
    }
  }

  /** A newly created profile reads the default bag for its active preset. */
  lemma CreatedReadsDefault(d: ProfileData, name: string)
    requires name != "" && name !in d.profiles
    ensures var r := Created(d, name); BagPreset(r, name, r.activePresets[name]) == DEFAULT_BAG
  {
  }

  /** Every operation keeps the store consistent. */
  lemma {:induction false} OperationsKeepConsistent(d: ProfileData, active: string, name: string, preset: string, clubs: Option<Bag>)
    requires Consistent(d)
    ensures Consistent(Created(d, name))
    ensures Consistent(Deleted(d, active, name))
    ensures Consistent(WithPreset(d, name, preset, clubs))
    ensures Consistent(d.(activePresets := d.activePresets[name := preset]))
    ensures Consistent(d.(activeProfile := name))
  {
    var c := Created(d, name);
    if name != "" && name !in d.profiles {
      forall i, j | 0 <= i < j < |c.profiles|
        ensures c.profiles[i] != c.profiles[j]
      {
        if j == |d.profiles| {
          assert c.profiles[i] == d.profiles[i];
        } else {
          assert c.profiles[i] == d.profiles[i] && c.profiles[j] == d.profiles[j];
        }
      }
    }
  }

  /** The manager object over the stored document. */
  class Manager {
    var data: ProfileData
    var activeProfile: string

    /** The active profile held by the manager is the stored one. */
    predicate Valid()
      reads this
    {
      activeProfile == data.activeProfile
    }

    /** Loads the file's contents (None when there is no readable file). */
    constructor(file: Option<ProfileData>)
      ensures data == Loaded(file) && Valid()
    {
      data := Loaded(file);
      activeProfile := Loaded(file).activeProfile;
    }

    method SetActiveProfile(name: string)
      modifies this
      ensures activeProfile == name && data == old(data).(activeProfile := name)
      ensures Valid()
    {
      activeProfile := name;
      data := data.(activeProfile := name);
    }

    method GetActiveProfile() returns (name: string)
      ensures name == activeProfile
    {
      name := activeProfile;
    }

    method CreateProfile(name: string)
      modifies this
      ensures data == Created(old(data), name) && activeProfile == old(activeProfile)
    {
      if name != "" && name !in data.profiles {
        data := data.(profiles := data.profiles + [name]);
        data := data.(bags := data.bags[name := map[DEFAULT_SET := DEFAULT_BAG]]);
        data := data.(activePresets := data.activePresets[name := DEFAULT_SET]);
      }
    }

    method DeleteProfile(name: string)
      modifies this
      ensures data == Deleted(old(data), old(activeProfile), name)
      ensures activeProfile == (if Deletable(old(data), name) && old(activeProfile) == name then GUEST else old(activeProfile))
      ensures old(Valid()) ==> Valid()
    {
      if name in data.profiles && name != GUEST {
        data := data.(profiles := RemoveFirst(data.profiles, name));
        if name in data.bags {
          data := data.(bags := data.bags - {name});
        }
        if name in data.activePresets {
          data := data.(activePresets := data.activePresets - {name});
        }
        if activeProfile == name {
          activeProfile := GUEST;
          data := data.(activeProfile := GUEST);
        }
      }
    }

    /** clubs is None when the JSON text of the bag does not parse; nothing changes then. */
    method SaveBagPreset(profile: string, preset: string, clubs: Option<Bag>)
      modifies this
      ensures data == WithPreset(old(data), profile, preset, clubs) && activeProfile == old(activeProfile)
    {
      if clubs.Some? {
        if profile !in data.bags {
          data := data.(bags := data.bags[profile := map[]]);
        }
        data := data.(bags := data.bags[profile := data.bags[profile][preset := clubs.value]]);
      }
    }

    method GetBagPreset(profile: string, preset: string) returns (bag: Bag)
      ensures bag == BagPreset(data, profile, preset)
    {
      if profile in data.bags && preset in data.bags[profile] {
        bag := data.bags[profile][preset];
      } else {
        bag := DEFAULT_BAG;
      }
    }

    method SetActivePreset(profile: string, preset: string)
      modifies this
      ensures data == old(data).(activePresets := old(data).activePresets[profile := preset])
      ensures activeProfile == old(activeProfile)
    {
      data := data.(activePresets := data.activePresets[profile := preset]);
    }
  }
}
