/**
 * The cantilever command's dialog: the rules that decide whether the
 * entered values may be built, the parameter lists its profile library is
 * checked against, and the library it falls back to when none is stored.
 */
module CantileverCommand {
  import opened Optional
  import opened PyDict
  import opened ProfileJson

  /** The values of the dialog's input fields, in centimetres (the host's internal unit) and degrees. */
  datatype Inputs = Inputs(
    length: real, topRadius: real, bottomRadius: real, strain: real,
    thickness: real, extrusionDistance: real, noseAngle: real,
    gapExtrusion: real, gapLength: real, gapThickness: real, extraLength: real)

  /** The reasons an input set is refused, one per check. */
  datatype Rule =
    | LengthTooSmall
    | TopRadiusNegative
    | BottomRadiusNegative
    | StrainNegative
    | ThicknessTooSmall
    | ExtrusionTooSmall
    | NoseAngleTooSmall
    | ExtraLengthNegative

  /** The order in which the checks run. */
  function Rank(rule: Rule): nat
  {
    match rule
    case LengthTooSmall => 0
    case TopRadiusNegative => 1
    case BottomRadiusNegative => 2
    case StrainNegative => 3
    case ThicknessTooSmall => 4
    case ExtrusionTooSmall => 5
    case NoseAngleTooSmall => 6
    case ExtraLengthNegative => 7
  }

  /** The condition under which each check refuses the inputs. */
  predicate Fails(v: Inputs, rule: Rule)
  {
    match rule
    case LengthTooSmall => v.length < 0.48
    case TopRadiusNegative => v.topRadius < 0.0
    case BottomRadiusNegative => v.bottomRadius < 0.0
    case StrainNegative => v.strain < 0.0
    case ThicknessTooSmall => v.thickness <= 0.0
    case ExtrusionTooSmall => v.extrusionDistance <= 0.0
    case NoseAngleTooSmall => v.noseAngle < 20.0
    case ExtraLengthNegative => v.extraLength < 0.0
  }

  /**
   * The input validation: the first check that refuses the inputs, or None
   * when the inputs are valid and may be built.
   */
  function Verdict(v: Inputs): (r: Option<Rule>)
    ensures r.None? ==> forall rule :: !Fails(v, rule)
    ensures r.Some? ==> Fails(v, r.value)
    ensures r.Some? ==> forall rule :: Rank(rule) < Rank(r.value) ==> !Fails(v, rule)
  {
    if v.length < 0.48 then Some(LengthTooSmall)
    else if v.topRadius < 0.0 then Some(TopRadiusNegative)
    else if v.bottomRadius < 0.0 then Some(BottomRadiusNegative)
    else if v.strain < 0.0 then Some(StrainNegative)
    else if v.thickness <= 0.0 then Some(ThicknessTooSmall)
    else if v.extrusionDistance <= 0.0 then Some(ExtrusionTooSmall)
    else if v.noseAngle < 20.0 then Some(NoseAngleTooSmall)
    else if v.extraLength < 0.0 then Some(ExtraLengthNegative)
    else None
  }

  /** The gap extrusion, gap length and gap thickness are read but never checked. */
  lemma GapSizesUnchecked(v: Inputs, gapExtrusion: real, gapLength: real, gapThickness: real)
    ensures Verdict(v.(gapExtrusion := gapExtrusion, gapLength := gapLength, gapThickness := gapThickness))
         == Verdict(v)
  {
  }

  /** The nose angle only has a lower bound: a valid input stays valid at any steeper angle. */
  lemma NoUpperNoseAngle(v: Inputs, angle: real)
    requires Verdict(v).None? && angle >= v.noseAngle
    ensures Verdict(v.(noseAngle := angle)).None?
  {
  }

  /** The parameters a geometry profile stores, in the dialog's order. */
  const GeometryParameters: seq<string> :=
    ["top_radius", "nose_angle", "bottom_radius", "thickness", "length", "extrusion_distance", "strain"]

  /** The parameters a gap profile stores. */
  const GapParameters: seq<string> := ["gap_thickness", "gap_extrusion", "gap_length", "extra_length"]

  /** The default profiles of the library used when no library file can be read. */
  const FallbackProfile: Json := Obj([
    ("top_radius", Float(0.15)), ("bottom_radius", Float(0.1)), ("thickness", Float(0.3)),
    ("length", Float(1.2)), ("extrusion_distance", Float(0.6)), ("strain", Float(0.02)),
    ("nose_angle", Int(70))])

  const FallbackGapProfile: Json := Obj([
    ("gap_thickness", Float(0.015)), ("gap_length", Float(0.015)),
    ("gap_extrusion", Float(0.015)), ("extra_length", Float(0.06))])

  /**
   * The inputs filled from a default profile and a default gap profile, or
   * None when one of the eleven values is missing or not a number.
   */
  function InputsFrom(profile: Json, gapProfile: Json): Option<Inputs>
  {
    match (NumberIn(profile, "length"), NumberIn(profile, "top_radius"),
           NumberIn(profile, "bottom_radius"), NumberIn(profile, "strain"),
           NumberIn(profile, "thickness"), NumberIn(profile, "extrusion_distance"),
           NumberIn(profile, "nose_angle"), NumberIn(gapProfile, "gap_extrusion"),
           NumberIn(gapProfile, "gap_length"), NumberIn(gapProfile, "gap_thickness"),
           NumberIn(gapProfile, "extra_length"))
    case (Some(length), Some(topRadius), Some(bottomRadius), Some(strain), Some(thickness),
          Some(extrusionDistance), Some(noseAngle), Some(gapExtrusion), Some(gapLength),
          Some(gapThickness), Some(extraLength)) =>
      Some(Inputs(length, topRadius, bottomRadius, strain, thickness, extrusionDistance,
                  noseAngle, gapExtrusion, gapLength, gapThickness, extraLength))
    case _ => None
  }

  /** The fallback library passes the library check, with seven geometry and four gap parameters. */
  lemma FallbackJsonIsValid()
    ensures ValidateJsonLegacy(DefaultLibrary(FallbackProfile, FallbackGapProfile),
                               |GeometryParameters|, |GapParameters|) == Valid
  {
    assert NumericProfile(FallbackProfile, 7);
    assert NumericProfile(FallbackGapProfile, 4);
    DefaultLibraryWellFormed(FallbackProfile, FallbackGapProfile, 7, 4);
    ValidateJsonLegacyAcceptsWellFormed(DefaultLibrary(FallbackProfile, FallbackGapProfile), 7, 4);
  }

  lemma FallbackTopRadius()
    ensures NumberIn(FallbackProfile, "top_radius") == Some(0.15)
  {
    NumberInAt(FallbackProfile, 0);
  }

  lemma FallbackBottomRadius()
    ensures NumberIn(FallbackProfile, "bottom_radius") == Some(0.1)
  {
    NumberInAt(FallbackProfile, 1);
  }

  lemma FallbackThickness()
    ensures NumberIn(FallbackProfile, "thickness") == Some(0.3)
  {
    NumberInAt(FallbackProfile, 2);
  }

  lemma FallbackLength()
    ensures NumberIn(FallbackProfile, "length") == Some(1.2)
  {
    NumberInAt(FallbackProfile, 3);
  }

  lemma FallbackExtrusionDistance()
    ensures NumberIn(FallbackProfile, "extrusion_distance") == Some(0.6)
  {
    NumberInAt(FallbackProfile, 4);
  }

  lemma FallbackStrain()
    ensures NumberIn(FallbackProfile, "strain") == Some(0.02)
  {
    NumberInAt(FallbackProfile, 5);
  }

  lemma FallbackNoseAngle()
    ensures NumberIn(FallbackProfile, "nose_angle") == Some(70.0)
  {
    NumberInAt(FallbackProfile, 6);
  }

  lemma FallbackGapNumbers()
    ensures NumberIn(FallbackGapProfile, "gap_thickness") == Some(0.015)
    ensures NumberIn(FallbackGapProfile, "gap_length") == Some(0.015)
    ensures NumberIn(FallbackGapProfile, "gap_extrusion") == Some(0.015)
    ensures NumberIn(FallbackGapProfile, "extra_length") == Some(0.06)
  {
    var g := FallbackGapProfile.fields;
    LookupFirst(g, 0);
    LookupFirst(g, 1);
    LookupFirst(g, 2);
    LookupFirst(g, 3);
  }

  /** When every value is present, the inputs are exactly those values. */
  lemma InputsFromNumbers(profile: Json, gapProfile: Json, v: Inputs)
    requires NumberIn(profile, "length") == Some(v.length)
    requires NumberIn(profile, "top_radius") == Some(v.topRadius)
    requires NumberIn(profile, "bottom_radius") == Some(v.bottomRadius)
    requires NumberIn(profile, "strain") == Some(v.strain)
    requires NumberIn(profile, "thickness") == Some(v.thickness)
    requires NumberIn(profile, "extrusion_distance") == Some(v.extrusionDistance)
    requires NumberIn(profile, "nose_angle") == Some(v.noseAngle)
    requires NumberIn(gapProfile, "gap_extrusion") == Some(v.gapExtrusion)
    requires NumberIn(gapProfile, "gap_length") == Some(v.gapLength)
    requires NumberIn(gapProfile, "gap_thickness") == Some(v.gapThickness)
    requires NumberIn(gapProfile, "extra_length") == Some(v.extraLength)
    ensures InputsFrom(profile, gapProfile) == Some(v)
  {
  }

  lemma FallbackValues()
    ensures InputsFrom(FallbackProfile, FallbackGapProfile)
         == Some(Inputs(1.2, 0.15, 0.1, 0.02, 0.3, 0.6, 70.0, 0.015, 0.015, 0.015, 0.06))
  {
    FallbackTopRadius();
    FallbackBottomRadius();
    FallbackThickness();
    FallbackLength();
    FallbackExtrusionDistance();
    FallbackStrain();
    FallbackNoseAngle();
    FallbackGapNumbers();
    InputsFromNumbers(FallbackProfile, FallbackGapProfile,
                      Inputs(1.2, 0.15, 0.1, 0.02, 0.3, 0.6, 70.0, 0.015, 0.015, 0.015, 0.06));
  }

  /** The fallback default profiles, entered into the dialog, are accepted for building. */
  lemma FallbackInputsAreValid()
    ensures InputsFrom(FallbackProfile, FallbackGapProfile).Some?
    ensures Verdict(InputsFrom(FallbackProfile, FallbackGapProfile).value) == None
  {
    FallbackValues();
  }
}
