/**
 * The profile library file as the JSON parser delivers it, and the check
 * `validate_json` runs on it before the command dialog opens.  The check
 * exists in two versions: one looks names up with `dict.get` and treats a
 * missing or null entry as an error; the older one subscripts and turns only
 * a `KeyError` into an error.  Both report the first problem found as a
 * ProfileException; any other Python exception escapes as a crash.
 */
module ProfileJson {
  import opened Optional
  import opened PyDict

  /** A parsed JSON value: an object keeps its keys in file order. */
  datatype Json =
    | Null
    | Bool(b: bool)
    | Int(i: int)
    | Float(f: real)
    | Str(s: string)
    | Arr(items: seq<Json>)
    | Obj(fields: seq<(string, Json)>)

  /** `list(d.keys())`. */
  function KeysOf(fields: seq<(string, Json)>): seq<string>
  {
    seq(|fields|, i requires 0 <= i < |fields| => fields[i].0)
  }

  /** Names of the top-level entries, in the only order the check accepts. */
  const TopKeys: seq<string> := ["default_profile", "default_gap_profile", "profiles", "gap_profiles"]

  /** A top-level entry of the file (null when absent). */
  function Field(doc: Json, key: string): Json
  {
    if doc.Obj? then (match Lookup(doc.fields, key) case Some(v) => v case None => Null) else Null
  }

  /** `container.get(key)`: a value or None, or an exception (no `get` method, unhashable key). */
  datatype GetResult = Got(value: Option<Json>) | GetRaises

  function DictGet(container: Json, key: Json): GetResult
  {
    if !container.Obj? then GetRaises
    else match key
      case Arr(_) => GetRaises
      case Obj(_) => GetRaises
      case Str(s) => Got(Lookup(container.fields, s))
      case _ => Got(None)
  }

  /** `container[key]`: a value, a KeyError, or any other exception. */
  datatype SubscriptResult = Found(value: Json) | KeyMissing | SubscriptRaises

  /** A list or string index: bools count as 0 and 1, negative indices count from the end. */
  function Index(key: Json): Option<int>
  {
    match key
    case Int(i) => Some(i)
    case Bool(b) => Some(if b then 1 else 0)
    case _ => None
  }

  function Subscript(container: Json, key: Json): SubscriptResult
  {
    match container
    case Obj(fields) =>
      (match key
       case Arr(_) => SubscriptRaises
       case Obj(_) => SubscriptRaises
       case Str(s) => (match Lookup(fields, s) case Some(v) => Found(v) case None => KeyMissing)
       case _ => KeyMissing)
    case Arr(items) =>
      (match Index(key)
       case Some(i) =>
         if 0 <= i < |items| then Found(items[i])
         else if -|items| <= i < 0 then Found(items[|items| + i])
         else SubscriptRaises
       case None => SubscriptRaises)
    case Str(s) =>
      (match Index(key)
       case Some(i) =>
         if 0 <= i < |s| then Found(Str([s[i]]))
         else if -|s| <= i < 0 then Found(Str([s[|s| + i]]))
         else SubscriptRaises
       case None => SubscriptRaises)
    case _ => SubscriptRaises
  }

  /** `len(v)`, or None where Python raises a TypeError. */
  function PyLen(v: Json): Option<nat>
  {
    match v
    case Str(s) => Some(|s|)
    case Arr(items) => Some(|items|)
    case Obj(fields) => Some(|fields|)
    case _ => None
  }

  datatype Group = Geometry | Gap

  /** The ProfileException the check raises, by cause. */
  datatype Failure =
    | TopLevel
    | NoDefaultProfile
    | NoProfiles
    | DefaultProfileMissing
    | NoDefaultGapProfile
    | NoGapProfiles
    | DefaultGapProfileMissing
    | WrongCount(group: Group, name: string)
    | WrongType(group: Group, name: string, key: string)

  datatype Verdict = Valid | Rejected(failure: Failure) | Crashed

  /** A profile parameter must be a JSON number: Python `int` or `float`, not `bool`. */
  predicate IsNumber(v: Json)
  {
    v.Int? || v.Float?
  }

  /** The first parameter of a profile whose value is not a number. */
  function FirstNonNumber(fields: seq<(string, Json)>): (r: Option<string>)
  {
    if fields == [] then None
    else if !IsNumber(fields[0].1) then Some(fields[0].0)
    else FirstNonNumber(fields[1..])
  }

  /** Where the loop over one group of profiles stops: with a verdict, or not at all. */
  datatype Scan = Clean | Stop(verdict: Verdict)

  /** The loop over one group: size first, then the type of each parameter, profile by profile. */
  function ScanGroup(group: Group, entries: seq<(string, Json)>, size: nat): Scan
  {
    if entries == [] then Clean
    else
      var (name, profile) := entries[0];
      match PyLen(profile)
      case None => Stop(Crashed)
      case Some(len) =>
        if len != size then Stop(Rejected(WrongCount(group, name)))
        else if !profile.Obj? then Stop(Crashed)
        else match FirstNonNumber(profile.fields)
          case Some(key) => Stop(Rejected(WrongType(group, name, key)))
          case None => ScanGroup(group, entries[1..], size)
  }

  /** Both loops, over the geometry profiles and then the gap profiles. */
  function ScanProfiles(profiles: Json, gapProfiles: Json, geometrySize: nat, gapSize: nat): Verdict
  {
    if !profiles.Obj? then Crashed
    else match ScanGroup(Geometry, profiles.fields, geometrySize)
      case Stop(v) => v
      case Clean =>
        if !gapProfiles.Obj? then Crashed
        else match ScanGroup(Gap, gapProfiles.fields, gapSize)
          case Stop(v) => v
          case Clean => Valid
  }

  /** `validate_json`, the version that looks the default names up with `get`. */
  function ValidateJson(doc: Json, geometrySize: nat, gapSize: nat): Verdict
  {
    if !doc.Obj? then Crashed
    else if KeysOf(doc.fields) != TopKeys then Rejected(TopLevel)
    else
      var defaultName := Field(doc, "default_profile");
      var profiles := Field(doc, "profiles");
      var defaultGapName := Field(doc, "default_gap_profile");
      var gapProfiles := Field(doc, "gap_profiles");
      if defaultName == Null then Rejected(NoDefaultProfile)
      else if profiles == Null then Rejected(NoProfiles)
      else match DictGet(profiles, defaultName)
        case GetRaises => Crashed
        case Got(found) =>
          if found == None || found == Some(Null) then Rejected(DefaultProfileMissing)
          else if defaultGapName == Null then Rejected(NoDefaultGapProfile)
          else if gapProfiles == Null then Rejected(NoGapProfiles)
          else match DictGet(gapProfiles, defaultGapName)
            case GetRaises => Crashed
            case Got(gapFound) =>
              if gapFound == None || gapFound == Some(Null) then Rejected(DefaultGapProfileMissing)
              else ScanProfiles(profiles, gapProfiles, geometrySize, gapSize)
  }

  /** `validate_json`, the older version that subscripts and catches only KeyError. */
  function ValidateJsonLegacy(doc: Json, geometrySize: nat, gapSize: nat): Verdict
  {
    if !doc.Obj? then Crashed
    else if KeysOf(doc.fields) != TopKeys then Rejected(TopLevel)
    else
      var profiles := Field(doc, "profiles");
      var gapProfiles := Field(doc, "gap_profiles");
      match Subscript(profiles, Field(doc, "default_profile"))
      case SubscriptRaises => Crashed
      case KeyMissing => Rejected(NoDefaultProfile)
      case Found(_) =>
        match Subscript(gapProfiles, Field(doc, "default_gap_profile"))
        case SubscriptRaises => Crashed
        case KeyMissing => Rejected(NoDefaultGapProfile)
        case Found(_) => ScanProfiles(profiles, gapProfiles, geometrySize, gapSize)
  }

  // ---------------------------------------------------------------------
  // What a valid file is

  /** A profile: an object with exactly `size` parameters, all numbers. */
  predicate NumericProfile(v: Json, size: nat)
  {
    v.Obj? && |v.fields| == size && forall i :: 0 <= i < |v.fields| ==> IsNumber(v.fields[i].1)
  }

  /** A group of profiles: an object whose every entry is a numeric profile of the given size. */
  predicate ProfileGroup(group: Json, size: nat)
  {
    group.Obj? && forall i :: 0 <= i < |group.fields| ==> NumericProfile(group.fields[i].1, size)
  }

  /** The default name is a string naming an entry of the group. */
  predicate Names(group: Json, name: Json)
  {
    group.Obj? && name.Str? && Lookup(group.fields, name.s).Some?
  }

  /**
   * A valid library file: exactly the four top-level entries in order, both
   * groups made of numeric profiles of the right size, and both default names
   * naming a profile of their group.
   */
  predicate WellFormed(doc: Json, geometrySize: nat, gapSize: nat)
  {
    doc.Obj? && KeysOf(doc.fields) == TopKeys &&
    ProfileGroup(Field(doc, "profiles"), geometrySize) &&
    ProfileGroup(Field(doc, "gap_profiles"), gapSize) &&
    Names(Field(doc, "profiles"), Field(doc, "default_profile")) &&
    Names(Field(doc, "gap_profiles"), Field(doc, "default_gap_profile"))
  }

  lemma {:induction false} FirstNonNumberNone(fields: seq<(string, Json)>)
    ensures FirstNonNumber(fields) == None <==> forall i :: 0 <= i < |fields| ==> IsNumber(fields[i].1)
  {
    if fields != [] {
      FirstNonNumberNone(fields[1..]);
      assert forall i :: 1 <= i < |fields| ==> fields[i] == fields[1..][i - 1];
    }
  }

  /** The loop over a group runs to the end exactly when every profile in it is valid. */
  lemma {:induction false} ScanGroupClean(group: Group, entries: seq<(string, Json)>, size: nat)
    ensures ScanGroup(group, entries, size) == Clean <==>
            forall i :: 0 <= i < |entries| ==> NumericProfile(entries[i].1, size)
    ensures ScanGroup(group, entries, size) != Stop(Valid)
  {
    if entries != [] {
      ScanGroupClean(group, entries[1..], size);
      assert forall i :: 1 <= i < |entries| ==> entries[i] == entries[1..][i - 1];
      var profile := entries[0].1;
      if profile.Obj? {
        FirstNonNumberNone(profile.fields);
      }
    }
  }

  lemma ScanProfilesValid(profiles: Json, gapProfiles: Json, geometrySize: nat, gapSize: nat)
    ensures ScanProfiles(profiles, gapProfiles, geometrySize, gapSize) == Valid <==>
            ProfileGroup(profiles, geometrySize) && ProfileGroup(gapProfiles, gapSize)
  {
    if profiles.Obj? {
      ScanGroupClean(Geometry, profiles.fields, geometrySize);
      if gapProfiles.Obj? {
        ScanGroupClean(Gap, gapProfiles.fields, gapSize);
      }
    }
  }

  /** A name found in a valid group names a profile, which is not null. */
  lemma FoundProfileNotNull(group: Json, key: string, size: nat)
    requires ProfileGroup(group, size) && Lookup(group.fields, key).Some?
    ensures Lookup(group.fields, key).value.Obj?
  {
    LookupIsEntry(group.fields, key);
  }

  /** The `get` version accepts exactly the well-formed files. */
  lemma ValidateJsonAcceptsWellFormed(doc: Json, geometrySize: nat, gapSize: nat)
    ensures ValidateJson(doc, geometrySize, gapSize) == Valid <==> WellFormed(doc, geometrySize, gapSize)
  {
    if doc.Obj? && KeysOf(doc.fields) == TopKeys {
      var profiles := Field(doc, "profiles");
      var gapProfiles := Field(doc, "gap_profiles");
      ScanProfilesValid(profiles, gapProfiles, geometrySize, gapSize);
      var name := Field(doc, "default_profile");
      var gapName := Field(doc, "default_gap_profile");
      if WellFormed(doc, geometrySize, gapSize) {
        FoundProfileNotNull(profiles, name.s, geometrySize);
        FoundProfileNotNull(gapProfiles, gapName.s, gapSize);
      }
    }
  }

  /** The older subscripting version accepts exactly the same files. */
  lemma ValidateJsonLegacyAcceptsWellFormed(doc: Json, geometrySize: nat, gapSize: nat)
    ensures ValidateJsonLegacy(doc, geometrySize, gapSize) == Valid <==> WellFormed(doc, geometrySize, gapSize)
  {
    if doc.Obj? && KeysOf(doc.fields) == TopKeys {
      ScanProfilesValid(Field(doc, "profiles"), Field(doc, "gap_profiles"), geometrySize, gapSize);
    }
  }

  /** So the two versions agree on which files are valid; they differ only in how they fail. */
  lemma VersionsAcceptTheSameFiles(doc: Json, geometrySize: nat, gapSize: nat)
    ensures ValidateJson(doc, geometrySize, gapSize) == Valid <==> ValidateJsonLegacy(doc, geometrySize, gapSize) == Valid
  {
    ValidateJsonAcceptsWellFormed(doc, geometrySize, gapSize);
    ValidateJsonLegacyAcceptsWellFormed(doc, geometrySize, gapSize);
  }

  /** A library whose default profile "a" is stored as null. */
  const NullDefaultDoc: Json :=
    Obj([("default_profile", Str("a")), ("default_gap_profile", Str("g")),
         ("profiles", Obj([("a", Null)])), ("gap_profiles", Obj([("g", Obj([]))]))])

  lemma NullDefaultDocFields()
    ensures KeysOf(NullDefaultDoc.fields) == TopKeys
    ensures Field(NullDefaultDoc, "default_profile") == Str("a")
    ensures Field(NullDefaultDoc, "default_gap_profile") == Str("g")
    ensures Field(NullDefaultDoc, "profiles") == Obj([("a", Null)])
    ensures Field(NullDefaultDoc, "gap_profiles") == Obj([("g", Obj([]))])
  {
    var fields := NullDefaultDoc.fields;
    assert Lookup(fields[3..], "gap_profiles") == Some(Obj([("g", Obj([]))]));
    assert Lookup(fields[2..], "gap_profiles") == Some(Obj([("g", Obj([]))]));
    assert Lookup(fields[1..], "gap_profiles") == Some(Obj([("g", Obj([]))]));
    assert Lookup(fields[2..], "profiles") == Some(Obj([("a", Null)]));
    assert Lookup(fields[1..], "profiles") == Some(Obj([("a", Null)]));
    assert Lookup(fields[1..], "default_gap_profile") == Some(Str("g"));
  }

  /**
   * A default profile stored as null: the `get` version reports it as missing,
   * the older version lets it through and then crashes taking its length.
   */
  lemma NullDefaultProfile()
    ensures ValidateJson(NullDefaultDoc, 0, 0) == Rejected(DefaultProfileMissing)
    ensures ValidateJsonLegacy(NullDefaultDoc, 0, 0) == Crashed
  {
    NullDefaultDocFields();
    assert Lookup([("a", Null)], "a") == Some(Null);
    assert Lookup([("g", Obj([]))], "g") == Some(Obj([]));
  }

  /** A top level that is not an object crashes both versions before any check. */
  lemma TopLevelNotAnObject(doc: Json, geometrySize: nat, gapSize: nat)
    requires !doc.Obj?
    ensures ValidateJson(doc, geometrySize, gapSize) == Crashed
    ensures ValidateJsonLegacy(doc, geometrySize, gapSize) == Crashed
  {
  }

  /**
   * A library of one geometry profile and one gap profile, each stored
   * under the name "default" and each the default: the shape of the
   * library a command falls back to when no file can be read.
   */
  function DefaultLibrary(profile: Json, gapProfile: Json): Json
  {
    Obj([("default_profile", Str("default")), ("default_gap_profile", Str("default")),
         ("profiles", Obj([("default", profile)])), ("gap_profiles", Obj([("default", gapProfile)]))])
  }

  /** Such a library is well formed as soon as its two profiles are. */
  lemma DefaultLibraryWellFormed(profile: Json, gapProfile: Json, geometrySize: nat, gapSize: nat)
    requires NumericProfile(profile, geometrySize) && NumericProfile(gapProfile, gapSize)
    ensures WellFormed(DefaultLibrary(profile, gapProfile), geometrySize, gapSize)
  {
    var doc := DefaultLibrary(profile, gapProfile);
    var fields := doc.fields;
    assert KeysOf(fields) == TopKeys;
    assert Lookup(fields[3..], "gap_profiles").Some?;
    assert Lookup(fields[2..], "gap_profiles").Some?;
    assert Lookup(fields[1..], "gap_profiles").Some?;
    assert Lookup(fields[2..], "profiles").Some?;
    assert Lookup(fields[1..], "profiles").Some?;
    assert Lookup(fields[1..], "default_gap_profile").Some?;
    assert Field(doc, "profiles") == Obj([("default", profile)]);
    assert Field(doc, "gap_profiles") == Obj([("default", gapProfile)]);
    assert Lookup([("default", profile)], "default").Some?;
    assert Lookup([("default", gapProfile)], "default").Some?;
  }

  /** A JSON number as an input field of the dialog receives it. */
  function NumberOf(v: Json): Option<real>
  {
    match v
    case Int(i) => Some(i as real)
    case Float(f) => Some(f)
    case _ => None
  }

  /** A number stored in a profile under key. */
  function NumberIn(profile: Json, key: string): Option<real>
  {
    if !profile.Obj? then None
    else
      var found: Option<Json> := Lookup(profile.fields, key);
      if found.Some? then NumberOf(found.value) else None
  }

  /** The number stored in the n-th entry of a profile, when no earlier entry has its key. */
  lemma NumberInAt(profile: Json, n: nat)
    requires profile.Obj? && n < |profile.fields|
    requires forall i :: 0 <= i < n ==> profile.fields[i].0 != profile.fields[n].0
    ensures NumberIn(profile, profile.fields[n].0) == NumberOf(profile.fields[n].1)
  {
    LookupFirst(profile.fields, n);
  }
}
