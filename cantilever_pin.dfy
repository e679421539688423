/**
 * The cantilever pin: two opposed cantilever arms joined by a middle padding,
 * drawn as one quadrant that is mirrored into four, and the matching hole.
 * The pin takes the gap from its own body, not from the cut body.
 */
module CantileverPin {
  import opened SnapSketch
  import opened SnapParameters
  import opened PyDict
  import opened SnapBody

  datatype Params = Params(
    innerRadius: real, strain: real, extrusionDistance: real, thickness: real,
    length: real, width: real, ledge: real, middlePadding: real, noseAngle: real,
    gapLength: real, gapThickness: real, gapExtrusion: real, extraLength: real,
    xLocation: string, yLocation: string)

  const GapInCutBody: bool := false

  /** The parameter names and allowed types the pin is built from. */
  function ParameterSchema(): (schema: Schema)
    ensures |schema| == 15 && DistinctKeys(schema)
    ensures forall i :: 0 <= i < 13 ==> schema[i].1 == Numeric
    ensures schema[13] == ("x_location", Text) && schema[14] == ("y_location", Text)
  {
    [("inner_radius", Numeric), ("strain", Numeric), ("extrusion_distance", Numeric),
     ("thickness", Numeric), ("length", Numeric), ("width", Numeric), ("ledge", Numeric),
     ("middle_padding", Numeric), ("nose_angle", Numeric), ("gap_length", Numeric),
     ("gap_thickness", Numeric), ("gap_extrusion", Numeric), ("extra_length", Numeric),
     ("x_location", Text), ("y_location", Text)]
  }

  function RadiusX(p: Params, t: Trig): real
  {
    (1.0 - t.cosTheta) * p.innerRadius
  }

  function RadiusY(p: Params, t: Trig): real
  {
    t.sinTheta * p.innerRadius
  }

  /** Nose height of one arm: its free length ends at the radius and half the middle padding. */
  function Nose(p: Params, t: Trig): real
    requires p.thickness != 0.0
  {
    NoseHeight(p.strain, p.length - RadiusX(p, t) - p.middlePadding / 2.0, p.thickness)
  }

  function NoseX(p: Params, t: Trig): real
    requires p.thickness != 0.0 && t.tanNose != 0.0
  {
    Nose(p, t) / t.tanNose
  }

  /** Half the distance between the two inner radii. */
  function InnerFlat(p: Params, t: Trig): real
  {
    p.width / 2.0 - p.thickness - RadiusY(p, t) - p.gapThickness
  }

  /** One quarter of the pin outline: thirteen points. */
  function JoinQuadrant(p: Params, t: Trig): (q: seq<Point>)
    requires p.thickness != 0.0 && t.tanNose != 0.0
    ensures |q| == 13
  {
    var mp := p.middlePadding;
    var th := p.thickness;
    var l := p.length;
    var gl := p.gapLength;
    var inFlat := InnerFlat(p, t);
    var yRad := RadiusY(p, t);
    var nh := Nose(p, t);
    var noseX := NoseX(p, t);
    var shoulder := p.width / 2.0 - p.gapThickness;
    [Point(mp / 2.0, inFlat),
     Point(mp / 2.0 + p.innerRadius, inFlat),
     Point(mp / 2.0 + RadiusX(p, t), inFlat + yRad),
     Point(l * 1.20 + noseX + gl, inFlat + yRad + 1.0 / 2.0 * th * 1.25),
     Point(l * 1.20 + noseX + gl, inFlat + yRad + 3.0 / 4.0 * th),
     Point(l * 1.07 + noseX + gl, inFlat + yRad + th + nh),
     Point(l + noseX + gl, inFlat + yRad + th + nh),
     Point(l + gl, shoulder),
     Point(p.ledge, shoulder),
     Point(p.ledge, shoulder),
     Point(p.ledge, shoulder),
     Point(0.0, p.width / 2.0 + p.ledge - p.gapThickness),
     Point(mp / 2.0, 0.0)]
  }

  /** The lines of one quadrant, before replication. */
  const JoinLines: seq<Line> := [(2, 3), (3, 4), (4, 5), (5, 6), (6, 7), (7, 8), (9, 10), (10, 11), (12, 0)]

  /**
   * The pin outline: the quadrant, its mirror in y, and both mirrored in x
   * (52 points); the quadrant's lines replicated onto the three copies
   * (36 lines); one inner-radius arc per quadrant, sweeping towards the arm.
   */
  method JoinSketch(p: Params, t: Trig) returns (s: Sketch)
    requires p.thickness != 0.0 && t.tanNose != 0.0
    ensures s.points == Quadrants(JoinQuadrant(p, t))
    ensures s.lines == Replicated(JoinLines, 13, 3)
    ensures |s.points| == 52 && |s.lines| == 36 && Indexed(s)
    ensures s.arcs == [Arc(1, 0, -t.theta), Arc(14, 13, t.theta), Arc(27, 26, t.theta), Arc(40, 39, -t.theta)]
  {
    var first := JoinQuadrant(p, t);
    var n := |first|;
    var arcs := [Arc(1, 0, -t.theta), Arc(1 + n, 0 + n, t.theta),
                 Arc(1 + 2 * n, 2 * n, t.theta), Arc(1 + 3 * n, 3 * n, -t.theta)];
    s := MirroredOutline(first, JoinLines, arcs);
  }

  /**
   * Each quadrant's arc, swept from its start point around its centre by the
   * signed theta, ends exactly on the start of that quadrant's arm.
   */
  lemma JoinArcsMeetArms(p: Params, t: Trig)
    requires p.thickness != 0.0 && t.tanNose != 0.0
    ensures var pts := Quadrants(JoinQuadrant(p, t));
      |pts| == 52 &&
      ArcEnd(pts[1], pts[0], t.cosTheta, -t.sinTheta) == pts[2] &&
      ArcEnd(pts[14], pts[13], t.cosTheta, t.sinTheta) == pts[15] &&
      ArcEnd(pts[27], pts[26], t.cosTheta, t.sinTheta) == pts[28] &&
      ArcEnd(pts[40], pts[39], t.cosTheta, -t.sinTheta) == pts[41]
  {
    var q := JoinQuadrant(p, t);
    QuadrantLayout(q, 0);
    QuadrantLayout(q, 1);
    QuadrantLayout(q, 2);
  }

  /**
   * The quadrant outlines join into one loop: within a quadrant the lines run
   * 2..8 and 9..11 and the points 8, 9 and 10 coincide; point 12 lies on the
   * x axis and point 11 on the y axis, so each meets its mirror image.
   */
  lemma JoinClosesAcrossAxes(p: Params, t: Trig)
    requires p.thickness != 0.0 && t.tanNose != 0.0
    ensures Chained(JoinLines, 0, 6) && Chained(JoinLines, 6, 8) && JoinLines[8] == (12, 0)
    ensures var pts := Quadrants(JoinQuadrant(p, t));
      |pts| == 52 &&
      pts[8] == pts[9] == pts[10] &&
      pts[12] == pts[12 + 13] && pts[12 + 26] == pts[12 + 39] &&
      pts[11] == pts[11 + 26] && pts[11 + 13] == pts[11 + 39]
  {
    var q := JoinQuadrant(p, t);
    QuadrantLayout(q, 11);
    QuadrantLayout(q, 12);
  }

  function CutLength(p: Params, t: Trig): real
    requires p.thickness != 0.0 && t.tanNose != 0.0
  {
    p.length * 1.20 + NoseX(p, t) + p.extraLength
  }

  /** One quarter of the hole outline: six points. */
  function CutQuadrant(p: Params, t: Trig): (q: seq<Point>)
    requires p.thickness != 0.0 && t.tanNose != 0.0
    ensures |q| == 6
  {
    var half := p.width / 2.0;
    var nh := Nose(p, t);
    var total := CutLength(p, t);
    [Point(total, 0.0),
     Point(total, half + nh),
     Point(p.length + NoseX(p, t), half + nh),
     Point(p.length, half),
     Point(p.ledge, half),
     Point(0.0, half + p.ledge)]
  }

  const CutLines: seq<Line> := [(0, 1), (1, 2), (2, 3), (3, 4), (4, 5)]

  /** The hole outline: the quadrant mirrored into four (24 points), its five lines replicated (20 lines). */
  method CutSketch(p: Params, t: Trig) returns (s: Sketch)
    requires p.thickness != 0.0 && t.tanNose != 0.0
    ensures s.points == Quadrants(CutQuadrant(p, t))
    ensures s.lines == Replicated(CutLines, 6, 3)
    ensures |s.points| == 24 && |s.lines| == 20 && s.arcs == [] && Indexed(s)
  {
    var first := CutQuadrant(p, t);
    s := MirroredOutline(first, CutLines, []);
  }

  /** The hole's quadrant lines form one path from the x axis to the y axis, so the four copies close. */
  lemma CutClosesAcrossAxes(p: Params, t: Trig)
    requires p.thickness != 0.0 && t.tanNose != 0.0
    ensures Chained(CutLines, 0, 5) && CutLines[0].0 == 0 && CutLines[4].1 == 5
    ensures var pts := Quadrants(CutQuadrant(p, t));
      |pts| == 24 &&
      pts[0] == pts[0 + 6] && pts[0 + 12] == pts[0 + 18] &&
      pts[5] == pts[5 + 12] && pts[5 + 6] == pts[5 + 18]
  {
    var q := CutQuadrant(p, t);
    QuadrantLayout(q, 0);
    QuadrantLayout(q, 5);
  }

  /**
   * The pin's head sits in the hole shifted by the gap: its nose tip and
   * shoulder are one gap length further out and one gap thickness lower than
   * the hole's, and its ledge one gap thickness lower.
   */
  lemma HeadClearsHole(p: Params, t: Trig)
    requires p.thickness != 0.0 && t.tanNose != 0.0
    ensures JoinQuadrant(p, t)[6] == Point(CutQuadrant(p, t)[2].x + p.gapLength, CutQuadrant(p, t)[2].y - p.gapThickness)
    ensures JoinQuadrant(p, t)[7] == Point(CutQuadrant(p, t)[3].x + p.gapLength, CutQuadrant(p, t)[3].y - p.gapThickness)
    ensures JoinQuadrant(p, t)[8] == Point(CutQuadrant(p, t)[4].x, CutQuadrant(p, t)[4].y - p.gapThickness)
    ensures JoinQuadrant(p, t)[11] == Point(CutQuadrant(p, t)[5].x, CutQuadrant(p, t)[5].y - p.gapThickness)
    ensures JoinQuadrant(p, t)[6].y - JoinQuadrant(p, t)[7].y == Nose(p, t)
  {
  }

  function Offsets(p: Params): SnapBody.Offsets
  {
    PinOffsets(p.xLocation, p.yLocation, p.extrusionDistance, p.width, p.gapExtrusion)
  }

  function JoinBody(p: Params): Extrusion
  {
    JoinExtrusion(p.extrusionDistance, p.gapExtrusion, GapInCutBody)
  }

  function CutBody(p: Params): Extrusion
  {
    CutExtrusion(p.extrusionDistance, p.gapExtrusion, GapInCutBody)
  }

  /** The pin body is two gaps shorter than the extrusion distance; the hole spans the bare distance, starting one gap low. */
  lemma BodiesOfPin(p: Params)
    ensures JoinBody(p) == Extrusion(0.0, p.extrusionDistance - 2.0 * p.gapExtrusion)
    ensures CutBody(p) == Extrusion(-p.gapExtrusion, p.extrusionDistance)
  {
  }
}
