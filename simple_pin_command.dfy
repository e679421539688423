/**
 * The simple pin command's parameter assembly: the pin's parameter
 * dictionary is filled from two fixed locations, the size-derived values,
 * three hardcoded values and the four gap fields of the dialog.
 */
module SimplePinCommand {
  import opened Optional
  import opened PyDict
  import opened SnapParameters
  import opened PinCommand
  import ExperimentalPin

  /** The values the command never lets the user change. */
  const DefaultStrain: real := 0.012
  const DefaultNoseAngle: int := 70
  const DefaultPinPrestrain: real := 0.012
  const DefaultXLocation: string := "middle"
  const DefaultYLocation: string := "middle"

  /** The dialog fields read for the gaps, in reading order. */
  const GapFieldIds: seq<string> := ["width_gap", "extrusion_gap", "length_gap", "extra_length"]

  /** The placement entries the dictionary starts with. */
  const Locations: ParameterSet := [("x_location", Str(DefaultXLocation)), ("y_location", Str(DefaultYLocation))]

  /** The hardcoded entries added after the size-derived ones. */
  const Hardcoded: ParameterSet :=
    [("strain", Float(DefaultStrain)), ("nose_angle", Int(DefaultNoseAngle)),
     ("pin_prestrain", Float(DefaultPinPrestrain))]

  /** Strain, nose angle and prestrain assigned, in that order, into a dictionary. */
  function WithHardcoded(d: ParameterSet): ParameterSet
  {
    Set(Set(Set(d, "strain", Float(DefaultStrain)), "nose_angle", Int(DefaultNoseAngle)),
        "pin_prestrain", Float(DefaultPinPrestrain))
  }

  /** The size-derived dictionary with the hardcoded entries assigned into it. */
  function SizeValues(size: real): ParameterSet
  {
    WithHardcoded(AsDict(SizeParameters(size, DefaultRatio)))
  }

  /** A key other than the eight size keys is absent from the size-derived dictionary. */
  lemma NotASizeKey(p: SizeParams, key: string)
    requires key !in SizeKeys
    ensures key !in Keys(AsDict(p))
  {
  }

  /** Into a dictionary lacking all three hardcoded names, each assignment appends. */
  lemma HardcodedAppends(d0: ParameterSet)
    requires "strain" !in Keys(d0) && "nose_angle" !in Keys(d0) && "pin_prestrain" !in Keys(d0)
    ensures WithHardcoded(d0) == d0 + Hardcoded
  {
    SetThreeAbsent(d0, Hardcoded[0], Hardcoded[1], Hardcoded[2]);
  }

  /**
   * None of the three hardcoded names is a size key, so each assignment
   * appends: the hardcoded entries follow the eight size entries.
   */
  lemma SizeValuesAppend(size: real)
    ensures SizeValues(size) == AsDict(SizeParameters(size, DefaultRatio)) + Hardcoded
  {
    var p := SizeParameters(size, DefaultRatio);
    NotASizeKey(p, "strain");
    NotASizeKey(p, "nose_angle");
    NotASizeKey(p, "pin_prestrain");
    HardcodedAppends(AsDict(p));
  }

  /**
   * How many gap fields are read before the first one the dialog lacks:
   * every field before that count exists, the one at the count does not.
   */
  function FieldsRead(ids: seq<string>, dialog: Dict<real>): (k: nat)
    ensures k <= |ids|
    ensures forall j :: 0 <= j < k ==> ids[j] in Keys(dialog)
    ensures k < |ids| ==> ids[k] !in Keys(dialog)
  {
    if ids == [] || Lookup(dialog, ids[0]).None? then 0
    else 1 + FieldsRead(ids[1..], dialog)
  }

  /** The gap entries the assembly writes: one per field read, with the field's value. */
  function GapEntries(dialog: Dict<real>): (r: ParameterSet)
    ensures |r| == FieldsRead(GapFieldIds, dialog)
  {
    var k := FieldsRead(GapFieldIds, dialog);
    seq(k, j requires 0 <= j < k => (GapFieldIds[j], Float(Lookup(dialog, GapFieldIds[j]).value)))
  }

  /** The dictionary the assembly produces from the size-derived values and the dialog. */
  function AssembledFrom(values: ParameterSet, dialog: Dict<real>): ParameterSet
  {
    Locations + values + GapEntries(dialog)
  }

  /** The whole dictionary the assembly produces. */
  function Assembled(size: real, dialog: Dict<real>): ParameterSet
  {
    AssembledFrom(SizeValues(size), dialog)
  }

  /** Every name the assembly can write, in writing order. */
  const AllKeys: seq<string> :=
    ["x_location", "y_location"] + SizeKeys + ["strain", "nose_angle", "pin_prestrain"] + GapFieldIds

  /** The size-derived dictionary holds the eight size names and then the three hardcoded ones. */
  lemma SizeValuesKeys(size: real)
    ensures |SizeValues(size)| == 11
    ensures forall i :: 0 <= i < 11 ==> SizeValues(size)[i].0 == AllKeys[2 + i]
  {
    var d := AsDict(SizeParameters(size, DefaultRatio));
    SizeValuesAppend(size);
    HardcodedAfterSizeKeys(d);
  }

  lemma HardcodedAfterSizeKeys(d: ParameterSet)
    requires |d| == 8 && forall i :: 0 <= i < 8 ==> d[i].0 == SizeKeys[i]
    ensures forall i :: 0 <= i < 11 ==> (d + Hardcoded)[i].0 == AllKeys[2 + i]
  {
    forall i | 0 <= i < 11 ensures (d + Hardcoded)[i].0 == AllKeys[2 + i] {
      if i < 8 {
        assert (d + Hardcoded)[i] == d[i];
      } else {
        assert (d + Hardcoded)[i] == Hardcoded[i - 8];
      }
    }
  }

  /** Whatever the values, the names follow the writing order as far as they go. */
  lemma KeyOrderFrom(values: ParameterSet, dialog: Dict<real>)
    requires |values| == 11 && forall i :: 0 <= i < 11 ==> values[i].0 == AllKeys[2 + i]
    ensures |AssembledFrom(values, dialog)| <= |AllKeys| == 17
    ensures forall i :: 0 <= i < |AssembledFrom(values, dialog)| ==> AssembledFrom(values, dialog)[i].0 == AllKeys[i]
  {
    var a := AssembledFrom(values, dialog);
    var g := GapEntries(dialog);
    forall i | 0 <= i < |a| ensures a[i].0 == AllKeys[i] {
      if i < 2 {
      } else if i < 13 {
        assert a[i] == values[i - 2];
      } else {
        assert a[i] == g[i - 13];
      }
    }
  }

  lemma AssembledKeyOrder(size: real, dialog: Dict<real>)
    ensures |Assembled(size, dialog)| <= |AllKeys| == 17
    ensures forall i :: 0 <= i < |Assembled(size, dialog)| ==> Assembled(size, dialog)[i].0 == AllKeys[i]
  {
    SizeValuesKeys(size);
    KeyOrderFrom(SizeValues(size), dialog);
  }

  lemma AllKeysDistinct()
    ensures forall i, j :: 0 <= i < j < |AllKeys| ==> AllKeys[i] != AllKeys[j]
  {
  }

  /** No name is written twice: the dictionary's keys are distinct. */
  lemma AssembledDistinct(size: real, dialog: Dict<real>)
    ensures DistinctKeys(Assembled(size, dialog))
  {
    AssembledKeyOrder(size, dialog);
    AllKeysDistinct();
  }

  /**
   * The parameter assembly of `build`: the locations first, then each
   * size-derived and hardcoded value in order, then each gap field until
   * the first one the dialog lacks (reading it fails and the rest are
   * skipped).
   */
  method AssembleParameters(size: real, dialog: Dict<real>) returns (parameters: ParameterSet)
    ensures parameters == Assembled(size, dialog)
  {
    AssembledDistinct(size, dialog);
    var values := SizeValues(size);
    parameters := AssembleFrom(values, dialog);
  }

  /**
   * The assignments themselves, one entry at a time; no name is written twice,
   * so each one appends.
   */
  method AssembleFrom(values: ParameterSet, dialog: Dict<real>) returns (parameters: ParameterSet)
    requires DistinctKeys(AssembledFrom(values, dialog))
    ensures parameters == AssembledFrom(values, dialog)
  {
    ghost var target := AssembledFrom(values, dialog);
    parameters := [];
    SetExtendsPrefix(target, 0);
    parameters := Set(parameters, "x_location", Str(DefaultXLocation));
    SetExtendsPrefix(target, 1);
    parameters := Set(parameters, "y_location", Str(DefaultYLocation));
    var i := 0;
    while i < |values|
      invariant 0 <= i <= |values|
      invariant parameters == target[..2 + i]
    {
      SetExtendsPrefix(target, 2 + i);
      assert target[2 + i] == values[i];
      parameters := Set(parameters, values[i].0, values[i].1);
      i := i + 1;
    }
    var n := 0;
    while n < |GapFieldIds|
      invariant 0 <= n <= FieldsRead(GapFieldIds, dialog)
      invariant parameters == target[..2 + |values| + n]
    {
      var field := Lookup(dialog, GapFieldIds[n]);
      if field.None? {
        break;
      }
      assert n < FieldsRead(GapFieldIds, dialog);
      SetExtendsPrefix(target, 2 + |values| + n);
      assert target[2 + |values| + n] == GapEntries(dialog)[n] == (GapFieldIds[n], Float(field.value));
      parameters := Set(parameters, GapFieldIds[n], Float(field.value));
      n := n + 1;
    }
    assert parameters == target;
  }

  /** The fixed locations and the three hardcoded values are what the dictionary holds for them. */
  lemma AssembledFixedValues(size: real, dialog: Dict<real>)
    ensures Lookup(Assembled(size, dialog), "x_location") == Some(Str("middle"))
    ensures Lookup(Assembled(size, dialog), "y_location") == Some(Str("middle"))
    ensures Lookup(Assembled(size, dialog), "strain") == Some(Float(0.012))
    ensures Lookup(Assembled(size, dialog), "nose_angle") == Some(Int(70))
    ensures Lookup(Assembled(size, dialog), "pin_prestrain") == Some(Float(0.012))
  {
    var a := Assembled(size, dialog);
    AssembledDistinct(size, dialog);
    AssembledKeyOrder(size, dialog);
    SizeValuesAppend(size);
    LookupAt(a, 0);
    LookupAt(a, 1);
    LookupAt(a, 10);
    LookupAt(a, 11);
    LookupAt(a, 12);
  }

  /** Each of the eight size-derived values reaches the dictionary unchanged. */
  lemma AssembledSizeValues(size: real, dialog: Dict<real>)
    ensures forall i :: 0 <= i < 8 ==>
      Lookup(Assembled(size, dialog), SizeKeys[i]) == Some(AsDict(SizeParameters(size, DefaultRatio))[i].1)
  {
    var a := Assembled(size, dialog);
    AssembledDistinct(size, dialog);
    AssembledKeyOrder(size, dialog);
    SizeValuesAppend(size);
    forall i | 0 <= i < 8
      ensures Lookup(a, SizeKeys[i]) == Some(AsDict(SizeParameters(size, DefaultRatio))[i].1)
    {
      LookupAt(a, 2 + i);
    }
  }

  /** Whatever the eleven values, the gap entries come last and carry the dialog's values. */
  lemma GapValuesFrom(values: ParameterSet, dialog: Dict<real>)
    requires |values| == 11 && forall i :: 0 <= i < 11 ==> values[i].0 == AllKeys[2 + i]
    requires DistinctKeys(AssembledFrom(values, dialog))
    ensures |AssembledFrom(values, dialog)| == 13 + FieldsRead(GapFieldIds, dialog)
    ensures forall j :: 0 <= j < FieldsRead(GapFieldIds, dialog) ==>
      Lookup(AssembledFrom(values, dialog), GapFieldIds[j]) == Some(Float(Lookup(dialog, GapFieldIds[j]).value))
    ensures forall j :: FieldsRead(GapFieldIds, dialog) <= j < 4 ==>
      GapFieldIds[j] !in Keys(AssembledFrom(values, dialog))
  {
    var a := AssembledFrom(values, dialog);
    var g := GapEntries(dialog);
    var k := FieldsRead(GapFieldIds, dialog);
    KeyOrderFrom(values, dialog);
    AllKeysDistinct();
    forall j | 0 <= j < k
      ensures Lookup(a, GapFieldIds[j]) == Some(Float(Lookup(dialog, GapFieldIds[j]).value))
    {
      assert a[13 + j] == g[j];
      LookupAt(a, 13 + j);
    }
    forall j | k <= j < 4 ensures GapFieldIds[j] !in Keys(a) {
      assert forall i :: 0 <= i < |a| ==> a[i].0 != AllKeys[13 + j];
    }
  }

  /**
   * The gap fields read carry the dialog's values; the fields after the
   * first missing one are not in the dictionary at all.
   */
  lemma AssembledGapValues(size: real, dialog: Dict<real>)
    ensures |Assembled(size, dialog)| == 13 + FieldsRead(GapFieldIds, dialog)
    ensures forall j :: 0 <= j < FieldsRead(GapFieldIds, dialog) ==>
      Lookup(Assembled(size, dialog), GapFieldIds[j]) == Some(Float(Lookup(dialog, GapFieldIds[j]).value))
    ensures forall j :: FieldsRead(GapFieldIds, dialog) <= j < 4 ==>
      GapFieldIds[j] !in Keys(Assembled(size, dialog))
  {
    AssembledDistinct(size, dialog);
    SizeValuesKeys(size);
    GapValuesFrom(SizeValues(size), dialog);
  }

  /** With all four gap fields present every one of the seventeen names is written. */
  lemma AllFieldsPresent(size: real, dialog: Dict<real>)
    requires forall j :: 0 <= j < |GapFieldIds| ==> GapFieldIds[j] in Keys(dialog)
    ensures |Assembled(size, dialog)| == 17
    ensures forall i :: 0 <= i < 17 ==> AllKeys[i] in Keys(Assembled(size, dialog))
    ensures forall key :: key in Keys(Assembled(size, dialog)) ==> key in AllKeys
  {
    var a := Assembled(size, dialog);
    assert FieldsRead(GapFieldIds, dialog) == 4;
    AssembledKeyOrder(size, dialog);
    SizeValuesAppend(size);
    forall i | 0 <= i < 17 ensures AllKeys[i] in Keys(a) {
      assert a[i].0 == AllKeys[i];
    }
  }

  /**
   * The pin's schema names its first twelve parameters among the names the
   * command writes, but its thirteenth, "gap_extrusion", is not one of them.
   */
  lemma SchemaAgainstAllKeys()
    ensures forall j :: 0 <= j < 12 ==> ExperimentalPin.ParameterSchema()[j].0 in AllKeys
    ensures ExperimentalPin.ParameterSchema()[12].0 == "gap_extrusion"
    ensures "gap_extrusion" !in AllKeys
  {
    var schema := ExperimentalPin.ParameterSchema();
    var positions := [10, 12, 4, 5, 9, 3, 2, 7, 6, 11, 15, 13];
    assert forall j :: 0 <= j < 12 ==> schema[j].0 == AllKeys[positions[j]];
  }

  /**
   * The pin's own parameter check refuses what the command assembles: with
   * all four gap fields present the dictionary has the right size, but the
   * command writes "extrusion_gap" where the pin's schema names
   * "gap_extrusion", so the check stops at that name.
   */
  method CheckAssembled(size: real, dialog: Dict<real>) returns (outcome: Outcome)
    requires forall j :: 0 <= j < |GapFieldIds| ==> GapFieldIds[j] in Keys(dialog)
    ensures outcome == MissingKey("gap_extrusion")
  {
    var parameters := AssembleParameters(size, dialog);
    var schema := ExperimentalPin.ParameterSchema();
    AssembledDistinct(size, dialog);
    AllFieldsPresent(size, dialog);
    SchemaAgainstAllKeys();
    assert forall j :: 0 <= j < 12 ==> schema[j].0 in Keys(parameters);
    outcome := TestParameters(schema, parameters);
  }
}
