/**
 * The pin with prestrain: a pin whose nose is made higher than its hole by a
 * prestrain, the hole it snaps into, and an addition body that gives the hole
 * a wall.  Its outlines have straight lines only.
 */
module ExperimentalPin {
  import opened SnapSketch
  import opened SnapParameters
  import opened PyDict
  import opened SnapBody

  datatype Params = Params(
    strain: real, pinPrestrain: real, extrusionDistance: real, thickness: real,
    wallThickness: real, length: real, width: real, ledge: real, middlePadding: real,
    noseAngle: real, lengthGap: real, widthGap: real, gapExtrusion: real,
    extraLength: real, xLocation: string, yLocation: string, gapBuffer: real)

  const GapInCutBody: bool := false

  /** The parameter names and allowed types the pin is built from. */
  function ParameterSchema(): (schema: Schema)
    ensures |schema| == 17 && DistinctKeys(schema)
    ensures forall i :: 0 <= i < 17 && i != 14 && i != 15 ==> schema[i].1 == Numeric
    ensures schema[14] == ("x_location", Text) && schema[15] == ("y_location", Text)
  {
    [("strain", Numeric), ("pin_prestrain", Numeric), ("extrusion_distance", Numeric),
     ("thickness", Numeric), ("wall_thickness", Numeric), ("length", Numeric),
     ("width", Numeric), ("ledge", Numeric), ("middle_padding", Numeric),
     ("nose_angle", Numeric), ("length_gap", Numeric), ("width_gap", Numeric),
     ("gap_extrusion", Numeric), ("extra_length", Numeric), ("x_location", Text),
     ("y_location", Text), ("gap_buffer", Numeric)]
  }

  /** Nose height of the pin: strain plus prestrain. */
  function PinNose(p: Params): real
    requires p.thickness != 0.0
  {
    NoseHeight(p.strain + p.pinPrestrain, p.length, p.thickness)
  }

  /** Depth of the nose recess in the hole: strain only. */
  function HoleNose(p: Params): real
    requires p.thickness != 0.0
  {
    NoseHeight(p.strain, p.length, p.thickness)
  }

  /** The pin nose stands above the hole's recess by exactly the nose height of the prestrain. */
  lemma PrestrainIsNoseExcess(p: Params)
    requires p.thickness != 0.0
    ensures PinNose(p) - HoleNose(p) == NoseHeight(p.pinPrestrain, p.length, p.thickness)
  {
    NoseHeightAdditive(p.strain, p.pinPrestrain, p.length, p.thickness);
  }

  /** Inner slope of the leg, from its root at the middle padding to the head. */
  function LegSlope(p: Params): real
    requires p.length + p.lengthGap != 0.0
  {
    var p2y := p.width / 2.0 - p.widthGap - p.thickness;
    var p3y := p.width / 2.0 - p.widthGap - p.thickness / 2.0;
    (p3y - p2y) / ((p.middlePadding + p.length + p.lengthGap) - p.middlePadding)
  }

  /** One quarter of the pin outline: eleven points. */
  function JoinQuadrant(p: Params, tanNose: real): (q: seq<Point>)
    requires p.thickness != 0.0 && tanNose != 0.0 && p.length + p.lengthGap != 0.0
    ensures |q| == 11
  {
    var t := p.thickness;
    var fl := p.length;
    var mp := p.middlePadding;
    var w := p.width;
    var wg := p.widthGap;
    var p3x := mp + fl + p.lengthGap;
    var p3y := w / 2.0 - wg - t / 2.0;
    var sl := LegSlope(p);
    var hl := 0.2 * fl;
    var tl := 0.05 * fl;
    var nh := PinNose(p);
    var noseOffsetX := (nh - HoleNose(p)) / tanNose;
    var noseX := nh / tanNose;
    [Point(0.0, 0.0),
     Point(mp, 0.0),
     Point(mp, w / 2.0 - wg - t),
     Point(p3x, p3y),
     Point(p3x + noseX + hl, p3y + sl * (noseX + hl)),
     Point(p3x + noseX + hl, p3y + sl * (noseX + hl) + nh / 2.0),
     Point(p3x + noseX + tl, w / 2.0 - wg + nh),
     Point(p3x + noseX - noseOffsetX, w / 2.0 - wg + nh),
     Point(p3x - noseOffsetX, w / 2.0 - wg),
     Point(p.ledge, w / 2.0 - wg),
     Point(0.0, w / 2.0 - wg + p.ledge)]
  }

  /** The lines of one quadrant: one path from point 1 on the x axis to point 10 on the y axis. */
  const JoinLines: seq<Line> := [(1, 2), (2, 4), (4, 5), (5, 6), (6, 7), (7, 8), (8, 9), (9, 10)]

  /** The pin outline: 44 points, 32 lines and no arcs. */
  method JoinSketch(p: Params, tanNose: real) returns (s: Sketch)
    requires p.thickness != 0.0 && tanNose != 0.0 && p.length + p.lengthGap != 0.0
    ensures s.points == Quadrants(JoinQuadrant(p, tanNose))
    ensures s.lines == Replicated(JoinLines, 11, 3)
    ensures |s.points| == 44 && |s.lines| == 32 && s.arcs == [] && Indexed(s)
  {
    var first := JoinQuadrant(p, tanNose);
    s := MirroredOutline(first, JoinLines, []);
  }

  /** The quadrant path runs from the x axis to the y axis, so the four copies close into one loop. */
  lemma JoinCloses(p: Params, tanNose: real)
    requires p.thickness != 0.0 && tanNose != 0.0 && p.length + p.lengthGap != 0.0
    ensures Chained(JoinLines, 0, 8) && JoinLines[0].0 == 1 && JoinLines[7].1 == 10
    ensures var pts := Quadrants(JoinQuadrant(p, tanNose));
      |pts| == 44 &&
      pts[1] == pts[1 + 11] && pts[1 + 22] == pts[1 + 33] &&
      pts[10] == pts[10 + 22] && pts[10 + 11] == pts[10 + 33]
  {
    var q := JoinQuadrant(p, tanNose);
    QuadrantLayout(q, 1);
    QuadrantLayout(q, 10);
  }

  /** The head's inner edge (points 3 to 4) continues the leg's inner slope (points 2 to 3). */
  lemma JoinLegSlope(p: Params, tanNose: real)
    requires p.thickness != 0.0 && tanNose != 0.0 && p.length + p.lengthGap != 0.0
    ensures var q := JoinQuadrant(p, tanNose);
      (q[3].y - q[2].y) * (q[4].x - q[3].x) == (q[4].y - q[3].y) * (q[3].x - q[2].x)
  {
    var q := JoinQuadrant(p, tanNose);
    var sl := LegSlope(p);
    var d := p.length + p.lengthGap;
    assert q[3].x - q[2].x == d;
    assert q[3].y - q[2].y == sl * d;
  }

  /** The nose face (points 8 to 7) rises at the nose angle. */
  lemma JoinNoseFace(p: Params, tanNose: real)
    requires p.thickness != 0.0 && tanNose != 0.0 && p.length + p.lengthGap != 0.0
    ensures var q := JoinQuadrant(p, tanNose);
      q[7].y - q[8].y == (q[7].x - q[8].x) * tanNose
  {
    var q := JoinQuadrant(p, tanNose);
    var nh := PinNose(p);
    assert q[7].y - q[8].y == nh;
    assert q[7].x - q[8].x == nh / tanNose;
    assert nh / tanNose * tanNose == nh;
  }

  /** One quarter of the hole outline: seven points. */
  function CutQuadrant(p: Params, tanNose: real): (q: seq<Point>)
    requires p.thickness != 0.0 && tanNose != 0.0
    ensures |q| == 7
  {
    var fl := p.length;
    var mp := p.middlePadding;
    var half := p.width / 2.0;
    var holeNh := HoleNose(p);
    var far := mp + fl + PinNose(p) / tanNose + 0.2 * fl + p.extraLength;
    [Point(0.0, 0.0),
     Point(far, 0.0),
     Point(far, half + holeNh),
     Point(mp + fl + holeNh / tanNose, half + holeNh),
     Point(mp + fl, half),
     Point(p.ledge, half),
     Point(0.0, half + p.ledge)]
  }

  const CutLines: seq<Line> := [(1, 2), (2, 3), (3, 4), (4, 5), (5, 6)]

  /** The hole outline: 28 points, 20 lines and no arcs. */
  method CutSketch(p: Params, tanNose: real) returns (s: Sketch)
    requires p.thickness != 0.0 && tanNose != 0.0
    ensures s.points == Quadrants(CutQuadrant(p, tanNose))
    ensures s.lines == Replicated(CutLines, 7, 3)
    ensures |s.points| == 28 && |s.lines| == 20 && s.arcs == [] && Indexed(s)
  {
    var first := CutQuadrant(p, tanNose);
    s := MirroredOutline(first, CutLines, []);
  }

  /**
   * The hole's quadrant path closes across the axes; its recess face rises at
   * the nose angle; and the pin nose overlaps the recess by the prestrain's
   * nose height less the width gap.
   */
  lemma CutShape(p: Params, tanNose: real)
    requires p.thickness != 0.0 && tanNose != 0.0 && p.length + p.lengthGap != 0.0
    ensures Chained(CutLines, 0, 5) && CutLines[0].0 == 1 && CutLines[4].1 == 6
    ensures var pts := Quadrants(CutQuadrant(p, tanNose));
      |pts| == 28 &&
      pts[1] == pts[1 + 7] && pts[1 + 14] == pts[1 + 21] &&
      pts[6] == pts[6 + 14] && pts[6 + 7] == pts[6 + 21]
    ensures var c := CutQuadrant(p, tanNose);
      c[3].y - c[4].y == (c[3].x - c[4].x) * tanNose
    ensures JoinQuadrant(p, tanNose)[6].y - CutQuadrant(p, tanNose)[2].y
         == NoseHeight(p.pinPrestrain, p.length, p.thickness) - p.widthGap
  {
    var c := CutQuadrant(p, tanNose);
    QuadrantLayout(c, 1);
    QuadrantLayout(c, 6);
    var hn := HoleNose(p);
    assert hn / tanNose * tanNose == hn;
    PrestrainIsNoseExcess(p);
  }

  /** One half of the addition body outline: six points. */
  function AdditionHalf(p: Params, tanNose: real): (q: seq<Point>)
    requires p.thickness != 0.0 && tanNose != 0.0
    ensures |q| == 6
  {
    var fl := p.length;
    var mp := p.middlePadding;
    var wt := p.wallThickness;
    var holeNh := HoleNose(p);
    var nh := PinNose(p);
    var noseX := nh / tanNose;
    var tl := 0.05 * fl;
    [Point(0.0, 0.0),
     Point(mp + fl + p.extraLength + noseX + tl, 0.0),
     Point(mp + fl + noseX + tl + p.extraLength, p.width / 2.0 + holeNh + wt),
     Point(mp + fl, p.width / 2.0 + holeNh + wt),
     Point(mp + fl - nh, p.width / 2.0 + wt),
     Point(0.0, p.width / 2.0 + wt)]
  }

  const AdditionLines: seq<Line> := [(1, 2), (2, 3), (3, 4), (4, 5), (5, 0)]

  /** The addition outline: the half and its mirror in y (12 points), lines copied once (10 lines). */
  method AdditionSketch(p: Params, tanNose: real) returns (s: Sketch)
    requires p.thickness != 0.0 && tanNose != 0.0
    ensures s.points == AdditionHalf(p, tanNose) + Mirror(AdditionHalf(p, tanNose), "y")
    ensures s.lines == Replicated(AdditionLines, 6, 1)
    ensures |s.points| == 12 && |s.lines| == 10 && s.arcs == [] && Indexed(s)
  {
    var first := AdditionHalf(p, tanNose);
    var yMirrored := MirrorPoints(first, "y");
    var all := first + yMirrored;
    var n := |first|;
    var lines := ReplicateLines(AdditionLines, n, 1);
    s := Sketch(all, lines, []);
    ReplicatedLength(AdditionLines, 6, 1);
    CopiesInRange(AdditionLines, 6, 1);
  }

  /**
   * The addition outline closes with its mirror image on the x axis, its outer
   * edges stand one wall thickness beyond the hole's, and the hole runs 0.15
   * length past the addition's far end.
   */
  lemma AdditionShape(p: Params, tanNose: real)
    requires p.thickness != 0.0 && tanNose != 0.0
    ensures Chained(AdditionLines, 0, 5) && AdditionLines[0].0 == 1 && AdditionLines[4].1 == 0
    ensures var a := AdditionHalf(p, tanNose); var pts := a + Mirror(a, "y");
      pts[0] == pts[0 + 6] && pts[1] == pts[1 + 6]
    ensures AdditionHalf(p, tanNose)[2].y - CutQuadrant(p, tanNose)[2].y == p.wallThickness
    ensures AdditionHalf(p, tanNose)[5].y - CutQuadrant(p, tanNose)[5].y == p.wallThickness
    ensures CutQuadrant(p, tanNose)[1].x - AdditionHalf(p, tanNose)[1].x == 0.15 * p.length
  {
  }

  function Offsets(p: Params): SnapBody.Offsets
  {
    PinOffsets(p.xLocation, p.yLocation, p.extrusionDistance, p.width, p.gapExtrusion)
  }

  function JoinBody(p: Params): Extrusion
  {
    JoinExtrusion(p.extrusionDistance, p.gapExtrusion, GapInCutBody)
  }

  function CutBody(p: Params): Extrusion
  {
    CutExtrusion(p.extrusionDistance, p.gapExtrusion, GapInCutBody)
  }

  function AdditionBody(p: Params): Extrusion
  {
    AdditionExtrusion(p.extrusionDistance, p.wallThickness)
  }

  /** The hole lies inside the addition body's span whenever the gap is no larger than the wall. */
  lemma BodiesOfPin(p: Params)
    requires 0.0 <= p.gapExtrusion <= p.wallThickness
    ensures AdditionBody(p).start <= CutBody(p).start
    ensures End(CutBody(p)) <= End(AdditionBody(p))
    ensures JoinBody(p) == Extrusion(0.0, p.extrusionDistance - 2.0 * p.gapExtrusion)
  {
  }
}
