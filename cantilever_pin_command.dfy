/**
 * The cantilever pin command's dialog: the parameters derived from the
 * single "size" input, the rules that decide whether the entered values may
 * be built, and the library it falls back to when none is stored.
 */
module CantileverPinCommand {
  import opened Optional
  import opened PyRound
  import opened PyDict
  import opened ProfileJson

  // ---------------------------------------------------------------------
  // Parameters derived from the size

  /** The smallest size the derivation works with: anything at or below it is raised to it. */
  const SizeFloor: real := 0.3

  /** The length-to-width ratio the size handler passes. */
  const SizeRatio: real := 1.6

  /** The size after the floor is applied. */
  function Floored(size: real): (s: real)
    ensures s >= SizeFloor && s >= size
    ensures size > SizeFloor ==> s == size
  {
    if size <= SizeFloor then SizeFloor else size
  }

  /** The inner radius of the pin's slot, before rounding. */
  function InnerRadius(s: real): real
  {
    if 0.0 < s <= 0.5 then 0.05
    else if 0.5 < s <= 1.0 then 0.05 + (s - 0.5) / 5.0
    else if 1.0 <= s then 0.15
    else 0.0
  }

  /** The clearance taken off the arm thickness, before rounding. */
  function GapBuffer(s: real): real
  {
    if 0.0 < s <= 0.5 then 0.030
    else if 0.5 < s <= 1.0 then 0.030 + (s - 0.5) / 25.0
    else if 1.0 <= s then 0.050
    else 0.0
  }

  /** The values the size handler writes into the dialog's fields. */
  datatype Advanced = Advanced(
    width: real, length: real, extrusionDistance: real, noseAngle: real,
    innerRadius: real, thickness: real, middlePadding: real, ledge: real)

  /**
   * `get_advanced_params`: width and extrusion distance are the floored
   * size, the length is the width times the ratio, the nose angle is 70;
   * the inner radius, thickness and ledge are rounded to four places, the
   * middle padding keeps the unrounded thickness.
   */
  function AdvancedParams(size: real, ratio: real): (a: Advanced)
    ensures a.width == Floored(size) && a.extrusionDistance == a.width
    ensures a.length == a.width * ratio && a.noseAngle == 70.0
    ensures a.middlePadding == a.width / 2.0 - InnerRadius(a.width) - GapBuffer(a.width)
    ensures -0.00005 <= a.innerRadius - InnerRadius(a.width) <= 0.00005
    ensures -0.00005 <= a.thickness - a.middlePadding <= 0.00005
    ensures -0.00005 <= a.ledge - (0.05 + a.width / 20.0) <= 0.00005
  {
    var s := Floored(size);
    var innerRadius := InnerRadius(s);
    var thickness := s / 2.0 - innerRadius - GapBuffer(s);
    var ledge := 0.05 + s / 20.0;
    Advanced(s, s * ratio, s, 70.0, Round4(innerRadius), Round4(thickness), thickness, Round4(ledge))
  }

  /** Above the floor the inner radius runs from 0.05 to 0.15 and never decreases. */
  lemma InnerRadiusBounds(s: real, t: real)
    requires SizeFloor <= s <= t
    ensures 0.05 <= InnerRadius(s) <= 0.15
    ensures InnerRadius(s) <= InnerRadius(t)
  {
  }

  /** Above the floor the gap buffer runs from 0.03 to 0.05 and never decreases. */
  lemma GapBufferBounds(s: real, t: real)
    requires SizeFloor <= s <= t
    ensures 0.03 <= GapBuffer(s) <= 0.05
    ensures GapBuffer(s) <= GapBuffer(t)
  {
  }

  /**
   * Neither value jumps: a size change of d moves the inner radius by at
   * most d/5 and the gap buffer by at most d/25.
   */
  lemma AdvancedParamsContinuous(s: real, t: real)
    requires SizeFloor <= s <= t
    ensures InnerRadius(t) - InnerRadius(s) <= (t - s) / 5.0
    ensures GapBuffer(t) - GapBuffer(s) <= (t - s) / 25.0
  {
  }

  /** The arm is never thinner than 0.07, the value at the floor. */
  lemma ThicknessAtLeastFloorValue(size: real, ratio: real)
    ensures AdvancedParams(size, ratio).middlePadding >= 0.07
  {
    var s := Floored(size);
    if s <= 0.5 {
    } else if s <= 1.0 {
      assert s / 2.0 - InnerRadius(s) - GapBuffer(s) == 0.26 * s + 0.04;
    }
  }

  // ---------------------------------------------------------------------
  // Input validation

  /**
   * The values of the dialog's input fields. The size field is read by the
   * validation too, but no rule looks at it, so it is not part of this record.
   */
  datatype Inputs = Inputs(
    length: real, width: real, innerRadius: real, middlePadding: real, ledge: real,
    strain: real, thickness: real, extrusionDistance: real, noseAngle: real,
    gapExtrusion: real, gapLength: real, gapThickness: real, extraLength: real)

  /** The size handler: the derived values overwrite their fields, the others stay. */
  function AfterSizeChange(v: Inputs, size: real): (w: Inputs)
    ensures w.strain == v.strain && w.gapThickness == v.gapThickness && w.extraLength == v.extraLength
    ensures w.gapExtrusion == v.gapExtrusion && w.gapLength == v.gapLength
  {
    var a := AdvancedParams(size, SizeRatio);
    v.(width := a.width, length := a.length, extrusionDistance := a.extrusionDistance,
       noseAngle := a.noseAngle, innerRadius := a.innerRadius, thickness := a.thickness,
       middlePadding := a.middlePadding, ledge := a.ledge)
  }

  /** The straight part of the slot between the arms, as the validation computes it. */
  function MiddleFlat(v: Inputs): real
  {
    v.width / 2.0 - v.thickness - v.innerRadius - v.gapThickness
  }

  datatype Rule =
    | LengthTooSmall
    | WidthTooSmall
    | InnerRadiusNegative
    | MiddleFlatTooSmall
    | MiddlePaddingTooSmall
    | LedgeNegative
    | StrainNegative
    | ExtrusionTooSmall
    | NoseAngleOutOfRange
    | ExtraLengthNegative

  /** The order in which the checks run. */
  function Rank(rule: Rule): nat
  {
    match rule
    case LengthTooSmall => 0
    case WidthTooSmall => 1
    case InnerRadiusNegative => 2
    case MiddleFlatTooSmall => 3
    case MiddlePaddingTooSmall => 4
    case LedgeNegative => 5
    case StrainNegative => 6
    case ExtrusionTooSmall => 7
    case NoseAngleOutOfRange => 8
    case ExtraLengthNegative => 9
  }

  /** The condition under which each check refuses the inputs. */
  predicate Fails(v: Inputs, rule: Rule)
  {
    match rule
    case LengthTooSmall => v.length < 0.48
    case WidthTooSmall => v.width <= 0.3
    case InnerRadiusNegative => v.innerRadius < 0.0
    case MiddleFlatTooSmall => MiddleFlat(v) < 0.0
    case MiddlePaddingTooSmall => v.middlePadding <= 0.0
    case LedgeNegative => v.ledge < 0.0
    case StrainNegative => v.strain < 0.0
    case ExtrusionTooSmall => v.extrusionDistance <= 0.0
    case NoseAngleOutOfRange => v.noseAngle < 20.0 || v.noseAngle > 140.0
    case ExtraLengthNegative => v.extraLength < 0.0
  }

  /** The input validation: the first check that refuses the inputs, or None when they are valid. */
  function Verdict(v: Inputs): (r: Option<Rule>)
    ensures r.None? ==> forall rule :: !Fails(v, rule)
    ensures r.Some? ==> Fails(v, r.value)
    ensures r.Some? ==> forall rule :: Rank(rule) < Rank(r.value) ==> !Fails(v, rule)
  {
    if v.length < 0.48 then Some(LengthTooSmall)
    else if v.width <= 0.3 then Some(WidthTooSmall)
    else if v.innerRadius < 0.0 then Some(InnerRadiusNegative)
    else if MiddleFlat(v) < 0.0 then Some(MiddleFlatTooSmall)
    else if v.middlePadding <= 0.0 then Some(MiddlePaddingTooSmall)
    else if v.ledge < 0.0 then Some(LedgeNegative)
    else if v.strain < 0.0 then Some(StrainNegative)
    else if v.extrusionDistance <= 0.0 then Some(ExtrusionTooSmall)
    else if v.noseAngle < 20.0 || v.noseAngle > 140.0 then Some(NoseAngleOutOfRange)
    else if v.extraLength < 0.0 then Some(ExtraLengthNegative)
    else None
  }

  /**
   * At or below the floor the derived width is exactly 0.3, which the
   * width check refuses: every size the floor raises is rejected, whatever
   * the other fields hold.
   */
  lemma FloorSizeRejected(v: Inputs, size: real)
    requires size <= SizeFloor
    ensures Verdict(AfterSizeChange(v, size)) == Some(WidthTooSmall)
  {
  }

  /**
   * Any size above the floor gives buildable inputs, as long as the strain
   * and extra length are not negative and the gap thickness stays below the
   * smallest gap buffer less the rounding of thickness and inner radius.
   */
  lemma SizeAboveFloorAccepted(v: Inputs, size: real)
    requires size > SizeFloor
    requires v.strain >= 0.0 && v.extraLength >= 0.0 && v.gapThickness <= 0.0299
    ensures Verdict(AfterSizeChange(v, size)) == None
  {
    var w := AfterSizeChange(v, size);
    var s := Floored(size);
    InnerRadiusBounds(s, s);
    GapBufferBounds(s, s);
    ThicknessAtLeastFloorValue(size, SizeRatio);
    assert MiddleFlat(w) >= GapBuffer(s) - 0.0001 - v.gapThickness;
  }

  // ---------------------------------------------------------------------
  // The fallback library

  /** The parameters a geometry profile stores. */
  const GeometryParameters: seq<string> :=
    ["nose_angle", "thickness", "width", "length", "extrusion_distance", "strain", "ledge",
     "middle_padding", "inner_radius"]

  /** The parameters a gap profile stores. */
  const GapParameters: seq<string> := ["gap_thickness", "gap_extrusion", "gap_length", "extra_length"]

  /** The default profiles of the library used when no library file can be read. */
  const FallbackProfile: Json := Obj([
    ("thickness", Float(0.3)), ("length", Float(1.2)), ("width", Float(0.9)),
    ("extrusion_distance", Float(0.9)), ("strain", Float(0.02)), ("inner_radius", Float(0.1)),
    ("ledge", Float(0.1)), ("middle_padding", Float(0.3)), ("nose_angle", Int(70))])

  const FallbackGapProfile: Json := Obj([
    ("gap_thickness", Float(0.015)), ("gap_length", Float(0.015)),
    ("gap_extrusion", Float(0.015)), ("extra_length", Float(0.06))])

  /** The fallback library has the shape its own parameter lists ask for. */
  lemma FallbackJsonIsWellFormed()
    ensures WellFormed(DefaultLibrary(FallbackProfile, FallbackGapProfile),
                       |GeometryParameters|, |GapParameters|)
  {
    assert NumericProfile(FallbackProfile, 9);
    assert NumericProfile(FallbackGapProfile, 4);
    DefaultLibraryWellFormed(FallbackProfile, FallbackGapProfile, 9, 4);
  }

  /** The inputs filled from a default profile and gap profile, or None when a value is missing. */
  function InputsFrom(profile: Json, gapProfile: Json): Option<Inputs>
  {
    match (NumberIn(profile, "length"), NumberIn(profile, "width"),
           NumberIn(profile, "inner_radius"), NumberIn(profile, "middle_padding"),
           NumberIn(profile, "ledge"), NumberIn(profile, "strain"),
           NumberIn(profile, "thickness"), NumberIn(profile, "extrusion_distance"),
           NumberIn(profile, "nose_angle"), NumberIn(gapProfile, "gap_extrusion"),
           NumberIn(gapProfile, "gap_length"), NumberIn(gapProfile, "gap_thickness"),
           NumberIn(gapProfile, "extra_length"))
    case (Some(length), Some(width), Some(innerRadius), Some(middlePadding), Some(ledge),
          Some(strain), Some(thickness), Some(extrusionDistance), Some(noseAngle),
          Some(gapExtrusion), Some(gapLength), Some(gapThickness), Some(extraLength)) =>
      Some(Inputs(length, width, innerRadius, middlePadding, ledge, strain, thickness,
                  extrusionDistance, noseAngle, gapExtrusion, gapLength, gapThickness, extraLength))
    case _ => None
  }

  lemma FallbackThickness()
    ensures NumberIn(FallbackProfile, "thickness") == Some(0.3)
  {
    NumberInAt(FallbackProfile, 0);
  }

  lemma FallbackLength()
    ensures NumberIn(FallbackProfile, "length") == Some(1.2)
  {
    NumberInAt(FallbackProfile, 1);
  }

  lemma FallbackWidth()
    ensures NumberIn(FallbackProfile, "width") == Some(0.9)
  {
    NumberInAt(FallbackProfile, 2);
  }

  lemma FallbackExtrusionDistance()
    ensures NumberIn(FallbackProfile, "extrusion_distance") == Some(0.9)
  {
    NumberInAt(FallbackProfile, 3);
  }

  lemma FallbackStrain()
    ensures NumberIn(FallbackProfile, "strain") == Some(0.02)
  {
    NumberInAt(FallbackProfile, 4);
  }

  lemma FallbackInnerRadius()
    ensures NumberIn(FallbackProfile, "inner_radius") == Some(0.1)
  {
    NumberInAt(FallbackProfile, 5);
  }

  lemma FallbackLedge()
    ensures NumberIn(FallbackProfile, "ledge") == Some(0.1)
  {
    NumberInAt(FallbackProfile, 6);
  }

  lemma FallbackMiddlePadding()
    ensures NumberIn(FallbackProfile, "middle_padding") == Some(0.3)
  {
    NumberInAt(FallbackProfile, 7);
  }

  lemma FallbackNoseAngle()
    ensures NumberIn(FallbackProfile, "nose_angle") == Some(70.0)
  {
    NumberInAt(FallbackProfile, 8);
  }

  lemma FallbackGapNumbers()
    ensures NumberIn(FallbackGapProfile, "gap_thickness") == Some(0.015)
    ensures NumberIn(FallbackGapProfile, "gap_length") == Some(0.015)
    ensures NumberIn(FallbackGapProfile, "gap_extrusion") == Some(0.015)
    ensures NumberIn(FallbackGapProfile, "extra_length") == Some(0.06)
  {
    NumberInAt(FallbackGapProfile, 0);
    NumberInAt(FallbackGapProfile, 1);
    NumberInAt(FallbackGapProfile, 2);
    NumberInAt(FallbackGapProfile, 3);
  }

  /** When every value is present, the inputs are exactly those values. */
  lemma InputsFromNumbers(profile: Json, gapProfile: Json, v: Inputs)
    requires NumberIn(profile, "length") == Some(v.length)
    requires NumberIn(profile, "width") == Some(v.width)
    requires NumberIn(profile, "inner_radius") == Some(v.innerRadius)
    requires NumberIn(profile, "middle_padding") == Some(v.middlePadding)
    requires NumberIn(profile, "ledge") == Some(v.ledge)
    requires NumberIn(profile, "strain") == Some(v.strain)
    requires NumberIn(profile, "thickness") == Some(v.thickness)
    requires NumberIn(profile, "extrusion_distance") == Some(v.extrusionDistance)
    requires NumberIn(profile, "nose_angle") == Some(v.noseAngle)
    requires NumberIn(gapProfile, "gap_extrusion") == Some(v.gapExtrusion)
    requires NumberIn(gapProfile, "gap_length") == Some(v.gapLength)
    requires NumberIn(gapProfile, "gap_thickness") == Some(v.gapThickness)
    requires NumberIn(gapProfile, "extra_length") == Some(v.extraLength)
    ensures InputsFrom(profile, gapProfile) == Some(v)
  {
  }

  /** The values the fallback profiles put into the dialog. */
  lemma FallbackValues()
    ensures InputsFrom(FallbackProfile, FallbackGapProfile)
         == Some(Inputs(1.2, 0.9, 0.1, 0.3, 0.1, 0.02, 0.3, 0.9, 70.0, 0.015, 0.015, 0.015, 0.06))
  {
    FallbackThickness();
    FallbackLength();
    FallbackWidth();
    FallbackExtrusionDistance();
    FallbackStrain();
    FallbackInnerRadius();
    FallbackLedge();
    FallbackMiddlePadding();
    FallbackNoseAngle();
    FallbackGapNumbers();
    InputsFromNumbers(FallbackProfile, FallbackGapProfile,
                      Inputs(1.2, 0.9, 0.1, 0.3, 0.1, 0.02, 0.3, 0.9, 70.0, 0.015, 0.015, 0.015, 0.06));
  }

  /** The fallback default profiles, entered into the dialog, leave a 0.035 middle flat and are accepted. */
  lemma FallbackInputsAreValid()
    ensures InputsFrom(FallbackProfile, FallbackGapProfile).Some?
    ensures MiddleFlat(InputsFrom(FallbackProfile, FallbackGapProfile).value) == 0.035
    ensures Verdict(InputsFrom(FallbackProfile, FallbackGapProfile).value) == None
  {
    FallbackValues();
    var v := Inputs(1.2, 0.9, 0.1, 0.3, 0.1, 0.02, 0.3, 0.9, 70.0, 0.015, 0.015, 0.015, 0.06);
    assert MiddleFlat(v) == 0.035;
  }
}
