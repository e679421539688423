/**
 * The in-memory profile library edited from the "Profiles" tab: a table of
 * named geometry profiles and a table of named gap profiles, each with a
 * default name. Every button of the tab is one method of `ProfileStore`;
 * the values a profile stores are the command's input fields, rounded to
 * three decimals.
 *
 * A failing lookup (no selected item, an unknown name, an empty table)
 * raises inside the handler and is swallowed by its catch-all, so the
 * table is left as it was at that point.
 */
module ProfileLibrary {
  import opened Optional
  import opened PyDict
  import opened PyRound

  /** One profile: parameter id to value, in insertion order. */
  type Profile = Dict<real>

  /**
   * The profile read back from the input fields with the template's keys,
   * in the template's order.
   */
  function Refill(template: Profile, fields: map<string, real>): (r: Profile)
    requires forall k :: k in Keys(template) ==> k in fields
    ensures |r| == |template|
    ensures forall i :: 0 <= i < |r| ==> r[i].0 == template[i].0
    ensures forall i :: 0 <= i < |r| ==> -0.0005 <= r[i].1 - fields[r[i].0] <= 0.0005
    ensures Keys(r) == Keys(template)
    ensures DistinctKeys(template) ==> DistinctKeys(r)
  {
    var r := seq(|template|, i requires 0 <= i < |template| => (template[i].0, Round3(fields[template[i].0])));
    assert forall i :: 0 <= i < |r| ==> r[i].0 == template[i].0;
    assert Keys(r) == Keys(template) by {
      forall k | k in Keys(template) ensures k in Keys(r) {
        var i :| 0 <= i < |template| && template[i].0 == k;
        assert r[i].0 == k;
      }
    }
    r
  }

  /**
   * The gap profile read back from the input fields: the template's keys
   * that have a field, in the template's order; a key without a field is
   * skipped.
   */
  function FillPresent(template: Profile, fields: map<string, real>): (r: Profile)
    ensures Keys(r) == set k | k in Keys(template) && k in fields
    ensures forall i :: 0 <= i < |r| ==> r[i].0 in fields && -0.0005 <= r[i].1 - fields[r[i].0] <= 0.0005
    ensures DistinctKeys(template) ==> DistinctKeys(r)
    ensures (forall k :: k in Keys(template) ==> k in fields) ==> |r| == |template|
  {
    if template == [] then []
    else
      var init := template[..|template| - 1];
      var key := template[|template| - 1].0;
      var head := FillPresent(init, fields);
      assert template == init + [template[|template| - 1]];
      KeysAppend(init, template[|template| - 1]);
      if key in fields then
        KeysAppend(head, (key, Round3(fields[key])));
        head + [(key, Round3(fields[key]))]
      else
        head
  }

  /** One more template key: appended with its rounded value when it has a field, skipped otherwise. */
  lemma FillPresentStep(template: Profile, fields: map<string, real>, i: nat)
    requires DistinctKeys(template) && i < |template|
    ensures template[i].0 !in Keys(FillPresent(template[..i], fields))
    ensures FillPresent(template[..i + 1], fields) ==
      if template[i].0 in fields then FillPresent(template[..i], fields) + [(template[i].0, Round3(fields[template[i].0]))]
      else FillPresent(template[..i], fields)
  {
    assert template[..i + 1][..i] == template[..i];
    KeysAppend(template[..i], template[i]);
    assert template[..i + 1] == template[..i] + [template[i]];
  }

  /**
   * Overwriting in place, one key at a time: with the first j values
   * refilled, the j-th entry still holds its stored key, no key repeats, and
   * assigning that key its rounded field value refills one entry more.
   */
  lemma RefillStep(stored: Profile, fields: map<string, real>, j: nat)
    requires DistinctKeys(stored) && j < |stored|
    requires forall k :: k in Keys(stored) ==> k in fields
    ensures forall k :: k in Keys(stored[..j]) ==> k in fields
    ensures forall k :: k in Keys(stored[..j + 1]) ==> k in fields
    ensures var u := Refill(stored[..j], fields) + stored[j..];
      DistinctKeys(u) && j < |u| && u[j] == stored[j] &&
      u[j := (stored[j].0, Round3(fields[stored[j].0]))] == Refill(stored[..j + 1], fields) + stored[j + 1..]
  {
    assert forall m :: 0 <= m <= j ==> stored[..j + 1][m] == stored[m];
    var u := Refill(stored[..j], fields) + stored[j..];
    assert forall m :: 0 <= m < |u| ==> u[m].0 == stored[m].0;
    var v := u[j := (stored[j].0, Round3(fields[stored[j].0]))];
    var w := Refill(stored[..j + 1], fields) + stored[j + 1..];
    assert |v| == |w|;
    forall m | 0 <= m < |v| ensures v[m] == w[m] {
      if m < j {
        assert stored[..j + 1][m] == stored[..j][m];
      }
    }
  }

  /** Every value of the profile is already at the stored precision. */
  predicate Rounded(p: Profile)
  {
    forall i :: 0 <= i < |p| ==> Round3(p[i].1) == p[i].1
  }

  /** Whatever the fields hold, a profile read back from them is at the stored precision. */
  lemma {:induction false} RefillIsRounded(template: Profile, fields: map<string, real>)
    requires forall k :: k in Keys(template) ==> k in fields
    ensures Rounded(Refill(template, fields))
  {
    var r := Refill(template, fields);
    forall i | 0 <= i < |r| ensures Round3(r[i].1) == r[i].1 {
      Round3Idempotent(fields[template[i].0]);
    }
  }

  /**
   * Selecting a profile fills each field with its stored value; saving it
   * again from those fields leaves it exactly as it was.
   */
  lemma {:induction false} SaveAfterSelectIsStable(p: Profile, fields: map<string, real>)
    requires Rounded(p)
    requires forall i :: 0 <= i < |p| ==> p[i].0 in fields && fields[p[i].0] == p[i].1
    ensures forall k :: k in Keys(p) ==> k in fields
    ensures Refill(p, fields) == p
  {
    var r := Refill(p, fields);
    forall i | 0 <= i < |p| ensures r[i] == p[i] {
      assert Round3(fields[p[i].0]) == p[i].1;
    }
  }

  /** Every profile of a table holds each key once. */
  ghost predicate ProfilesDistinct(table: Dict<Profile>)
  {
    forall e :: e in table ==> DistinctKeys(e.1)
  }

  /** A stored profile has no repeated key. */
  lemma StoredDistinct(table: Dict<Profile>, name: string)
    requires ProfilesDistinct(table) && name in Keys(table)
    ensures DistinctKeys(Lookup(table, name).value)
  {
    LookupIsEntry(table, name);
    var i :| 0 <= i < |table| && table[i] == (name, Lookup(table, name).value);
    assert table[i] in table;
  }

  class ProfileStore {
    var defaultProfile: Option<string>
    var defaultGapProfile: Option<string>
    var profiles: Dict<Profile>
    var gapProfiles: Dict<Profile>

    /** The tables are dictionaries: no name twice, no key twice within a profile. */
    ghost predicate Valid()
      reads this
    {
      DistinctKeys(profiles) && DistinctKeys(gapProfiles)
      && ProfilesDistinct(profiles) && ProfilesDistinct(gapProfiles)
    }

    /** The default profile names a stored profile. */
    predicate HasDefaultProfile()
      reads this
    {
      defaultProfile.Some? && defaultProfile.value in Keys(profiles)
    }

    /** The default gap profile is unset or names a stored gap profile. */
    predicate GapDefaultResolves()
      reads this
    {
      defaultGapProfile.None? || defaultGapProfile.value in Keys(gapProfiles)
    }

    constructor(defaultProfile: Option<string>, defaultGapProfile: Option<string>,
                profiles: Dict<Profile>, gapProfiles: Dict<Profile>)
      requires DistinctKeys(profiles) && DistinctKeys(gapProfiles)
      requires ProfilesDistinct(profiles) && ProfilesDistinct(gapProfiles)
      ensures Valid()
      ensures this.defaultProfile == defaultProfile && this.defaultGapProfile == defaultGapProfile
      ensures this.profiles == profiles && this.gapProfiles == gapProfiles
    {
      this.defaultProfile := defaultProfile;
      this.defaultGapProfile := defaultGapProfile;
      this.profiles := profiles;
      this.gapProfiles := gapProfiles;
    }

    /**
     * "Create new profile": a taken name is refused; otherwise the first
     * stored profile's keys are read from the fields and the new profile
     * is stored under the new name, at the end of the table. The entry is
     * written on the first key, so a template without keys stores nothing,
     * and an empty table stops the handler before anything is stored.
     */
    method CreateProfile(newName: string, fields: map<string, real>) returns (nameTaken: bool)
      requires Valid()
      requires profiles != [] ==> forall k :: k in Keys(profiles[0].1) ==> k in fields
      modifies this
      ensures Valid()
      ensures nameTaken <==> newName in Keys(old(profiles))
      ensures profiles ==
        if nameTaken || old(profiles) == [] || old(profiles)[0].1 == [] then old(profiles)
        else old(profiles) + [(newName, Refill(old(profiles)[0].1, fields))]
      ensures gapProfiles == old(gapProfiles)
      ensures defaultProfile == old(defaultProfile) && defaultGapProfile == old(defaultGapProfile)
      ensures old(HasDefaultProfile()) ==> HasDefaultProfile()
    {
      nameTaken := newName in Keys(profiles);
      if nameTaken || profiles == [] {
        return;
      }
      var template := profiles[0].1;
      assert profiles[0] in profiles;
      var newProfile := ReadFields(template, fields);
      if newProfile != [] {
        SetAbsentAppends(profiles, newName, newProfile);
        KeysAppend(profiles, (newName, newProfile));
        profiles := Set(profiles, newName, newProfile);
      }
    }

    /**
     * The loop of "Create new profile": each template key, in order, is
     * assigned the rounded value of its field in a fresh profile.
     */
    static method ReadFields(template: Profile, fields: map<string, real>) returns (newProfile: Profile)
      requires DistinctKeys(template)
      requires forall k :: k in Keys(template) ==> k in fields
      ensures newProfile == Refill(template, fields)
      ensures DistinctKeys(newProfile)
    {
      newProfile := [];
      var i := 0;
      while i < |template|
        invariant 0 <= i <= |template|
        invariant newProfile == Refill(template[..i], fields)
      {
        var key := template[i].0;
        assert template[..i + 1] == template[..i] + [template[i]];
        KeysAppend(template[..i], template[i]);
        assert DistinctKeys(template[..i + 1]);
        SetAbsentAppends(newProfile, key, Round3(fields[key]));
        newProfile := Set(newProfile, key, Round3(fields[key]));
        assert newProfile == Refill(template[..i + 1], fields);
        i := i + 1;
      }
      assert template[..|template|] == template;
    }

    /**
     * "Overwrite profile": every key of the selected profile takes the
     * rounded value of its field; the keys and their order stay.
     */
    method OverwriteProfile(selected: Option<string>, fields: map<string, real>)
      requires Valid()
      requires selected.Some? && selected.value in Keys(profiles) ==>
        forall k :: k in Keys(Lookup(profiles, selected.value).value) ==> k in fields
      modifies this
      ensures Valid()
      ensures profiles ==
        if selected.None? || selected.value !in Keys(old(profiles)) then old(profiles)
        else Set(old(profiles), selected.value, Refill(Lookup(old(profiles), selected.value).value, fields))
      ensures Keys(profiles) == Keys(old(profiles))
      ensures gapProfiles == old(gapProfiles)
      ensures defaultProfile == old(defaultProfile) && defaultGapProfile == old(defaultGapProfile)
      ensures old(HasDefaultProfile()) ==> HasDefaultProfile()
    {
      if selected.None? || selected.value !in Keys(profiles) {
        return;
      }
      var name := selected.value;
      StoredDistinct(profiles, name);
      var updated := Overwritten(Lookup(profiles, name).value, fields);
      SetDistinct(profiles, name, updated);
      profiles := Set(profiles, name, updated);
    }

    /**
     * The loop of both overwrite buttons: each key of the stored profile,
     * in order, is assigned its rounded field value.
     */
    static method Overwritten(stored: Profile, fields: map<string, real>) returns (updated: Profile)
      requires DistinctKeys(stored)
      requires forall k :: k in Keys(stored) ==> k in fields
      ensures updated == Refill(stored, fields)
      ensures DistinctKeys(updated)
    {
      updated := stored;
      var j := 0;
      assert stored[..0] == [] && stored[0..] == stored;
      while j < |stored|
        invariant 0 <= j <= |stored|
        invariant forall k :: k in Keys(stored[..j]) ==> k in fields
        invariant updated == Refill(stored[..j], fields) + stored[j..]
      {
        RefillStep(stored, fields, j);
        SetExistingAt(updated, j, Round3(fields[stored[j].0]));
        updated := Set(updated, stored[j].0, Round3(fields[stored[j].0]));
        j := j + 1;
      }
      assert stored[..j] == stored && stored[j..] == [];
    }

    /** "Make profile default": the selected name becomes the default, unchecked. */
    method MakeProfileDefault(selected: Option<string>)
      modifies this
      ensures defaultProfile == if selected.None? then old(defaultProfile) else selected
      ensures profiles == old(profiles) && gapProfiles == old(gapProfiles)
      ensures defaultGapProfile == old(defaultGapProfile)
      ensures selected.Some? && selected.value in Keys(profiles) ==> HasDefaultProfile()
    {
      if selected.Some? {
        defaultProfile := selected;
      }
    }

    /**
     * "Delete profile": the default profile is never removed; any other
     * name is removed with every other entry kept in order (an unknown
     * name changes nothing).
     */
    method DeleteProfile(selected: Option<string>)
      requires Valid()
      modifies this
      ensures Valid()
      ensures profiles ==
        if selected.None? || old(defaultProfile) == selected then old(profiles)
        else Remove(old(profiles), selected.value)
      ensures selected.Some? && old(defaultProfile) != selected ==>
        Keys(profiles) == Keys(old(profiles)) - {selected.value}
      ensures gapProfiles == old(gapProfiles)
      ensures defaultProfile == old(defaultProfile) && defaultGapProfile == old(defaultGapProfile)
      ensures old(HasDefaultProfile()) ==> HasDefaultProfile()
    {
      if selected.None? {
        return;
      }
      var name := selected.value;
      if defaultProfile == Some(name) {
        return;
      }
      if name !in Keys(profiles) {
        return;
      }
      profiles := Remove(profiles, name);
    }

    /**
     * "Create new gap profile": a taken name is refused; otherwise the
     * first gap profile's keys that have a field are read, and the new gap
     * profile is stored at the end of the table, even when it is empty. An
     * empty table stops the handler before anything is stored.
     */
    method CreateGapProfile(newName: string, fields: map<string, real>) returns (nameTaken: bool)
      requires Valid()
      modifies this
      ensures Valid()
      ensures nameTaken <==> newName in Keys(old(gapProfiles))
      ensures gapProfiles ==
        if nameTaken || old(gapProfiles) == [] then old(gapProfiles)
        else old(gapProfiles) + [(newName, FillPresent(old(gapProfiles)[0].1, fields))]
      ensures profiles == old(profiles)
      ensures defaultProfile == old(defaultProfile) && defaultGapProfile == old(defaultGapProfile)
      ensures old(GapDefaultResolves()) ==> GapDefaultResolves()
    {
      nameTaken := newName in Keys(gapProfiles);
      if nameTaken || gapProfiles == [] {
        return;
      }
      var template := gapProfiles[0].1;
      assert gapProfiles[0] in gapProfiles;
      var newProfile := ReadPresentFields(template, fields);
      SetAbsentAppends(gapProfiles, newName, newProfile);
      KeysAppend(gapProfiles, (newName, newProfile));
      gapProfiles := Set(gapProfiles, newName, newProfile);
    }

    /**
     * The loop of "Create new gap profile": each template key that has a
     * field, in order, is assigned its rounded value; the others are skipped.
     */
    static method ReadPresentFields(template: Profile, fields: map<string, real>) returns (newProfile: Profile)
      requires DistinctKeys(template)
      ensures newProfile == FillPresent(template, fields)
      ensures DistinctKeys(newProfile)
    {
      newProfile := [];
      var i := 0;
      while i < |template|
        invariant 0 <= i <= |template|
        invariant newProfile == FillPresent(template[..i], fields)
      {
        var key := template[i].0;
        FillPresentStep(template, fields, i);
        if key in fields {
          SetAbsentAppends(newProfile, key, Round3(fields[key]));
          newProfile := Set(newProfile, key, Round3(fields[key]));
        }
        i := i + 1;
      }
      assert template[..|template|] == template;
    }

    /** "Overwrite gap profile": as for geometry profiles, on the gap table. */
    method OverwriteGapProfile(selected: Option<string>, fields: map<string, real>)
      requires Valid()
      requires selected.Some? && selected.value in Keys(gapProfiles) ==>
        forall k :: k in Keys(Lookup(gapProfiles, selected.value).value) ==> k in fields
      modifies this
      ensures Valid()
      ensures gapProfiles ==
        if selected.None? || selected.value !in Keys(old(gapProfiles)) then old(gapProfiles)
        else Set(old(gapProfiles), selected.value, Refill(Lookup(old(gapProfiles), selected.value).value, fields))
      ensures Keys(gapProfiles) == Keys(old(gapProfiles))
      ensures profiles == old(profiles)
      ensures defaultProfile == old(defaultProfile) && defaultGapProfile == old(defaultGapProfile)
      ensures old(GapDefaultResolves()) ==> GapDefaultResolves()
    {
      if selected.None? || selected.value !in Keys(gapProfiles) {
        return;
      }
      var name := selected.value;
      StoredDistinct(gapProfiles, name);
      var updated := Overwritten(Lookup(gapProfiles, name).value, fields);
      SetDistinct(gapProfiles, name, updated);
      gapProfiles := Set(gapProfiles, name, updated);
    }

    /** "Make gap profile default": the selected name becomes the default, unchecked. */
    method MakeGapProfileDefault(selected: Option<string>)
      modifies this
      ensures defaultGapProfile == if selected.None? then old(defaultGapProfile) else selected
      ensures profiles == old(profiles) && gapProfiles == old(gapProfiles)
      ensures defaultProfile == old(defaultProfile)
      ensures selected.Some? && selected.value in Keys(gapProfiles) ==> GapDefaultResolves()
    {
      if selected.Some? {
        defaultGapProfile := selected;
      }
    }

    /**
     * "Delete gap profile": unlike geometry profiles the default may go;
     * the default is unset first and then the entry is removed.
     */
    method DeleteGapProfile(selected: Option<string>)
      requires Valid()
      modifies this
      ensures Valid()
      ensures gapProfiles == if selected.None? then old(gapProfiles) else Remove(old(gapProfiles), selected.value)
      ensures defaultGapProfile ==
        if selected.Some? && old(defaultGapProfile) == selected then None else old(defaultGapProfile)
      ensures profiles == old(profiles) && defaultProfile == old(defaultProfile)
      ensures old(GapDefaultResolves()) ==> GapDefaultResolves()
    {
      if selected.None? {
        return;
      }
      var name := selected.value;
      if defaultGapProfile == Some(name) {
        defaultGapProfile := None;
      }
      if name !in Keys(gapProfiles) {
        return;
      }
      gapProfiles := Remove(gapProfiles, name);
    }
  }
}
