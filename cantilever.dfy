/**
 * The plain cantilever snap: a bendable arm with a bottom and a top radius and
 * a nose, and the cut profile that clears it in the mating part.  Both
 * profiles are fixed point lists; the gap is kept in the cut body.
 */
module Cantilever {
  import opened SnapSketch
  import opened SnapParameters
  import opened PyDict
  import opened SnapBody

  datatype Params = Params(
    topRadius: real, bottomRadius: real, strain: real, extrusionDistance: real,
    thickness: real, wallThickness: real, length: real, noseAngle: real,
    gapLength: real, gapThickness: real, gapExtrusion: real, extraLength: real,
    xLocation: string, yLocation: string)

  const GapInCutBody: bool := true

  /** The parameter names and allowed types the cantilever is built from. */
  function ParameterSchema(): (schema: Schema)
    ensures |schema| == 14 && DistinctKeys(schema)
    ensures forall i :: 0 <= i < 12 ==> schema[i].1 == Numeric
    ensures schema[12] == ("x_location", Text) && schema[13] == ("y_location", Text)
  {
    [("top_radius", Numeric), ("bottom_radius", Numeric), ("strain", Numeric),
     ("extrusion_distance", Numeric), ("thickness", Numeric), ("wall_thickness", Numeric),
     ("length", Numeric), ("nose_angle", Numeric), ("gap_length", Numeric),
     ("gap_thickness", Numeric), ("gap_extrusion", Numeric), ("extra_length", Numeric),
     ("x_location", Text), ("y_location", Text)]
  }

  /** Horizontal reach of the bottom radius arc. */
  function RadiusX(p: Params, t: Trig): real
  {
    (1.0 - t.cosTheta) * p.bottomRadius
  }

  /** Vertical reach of the bottom radius arc. */
  function RadiusY(p: Params, t: Trig): real
  {
    t.sinTheta * p.bottomRadius
  }

  /** Nose height for the straight part of the arm. */
  function Nose(p: Params, t: Trig): real
    requires p.thickness != 0.0
  {
    NoseHeight(p.strain, p.length - RadiusX(p, t), p.thickness)
  }

  /** How far the sloped nose reaches along the arm. */
  function NoseX(p: Params, t: Trig): real
    requires p.thickness != 0.0 && t.tanNose != 0.0
  {
    Nose(p, t) / t.tanNose
  }

  /**
   * The arm profile: twelve points, eight lines and two arcs.  The outline is
   * closed: the bottom arc from point 0 ends on point 2, lines run 2 to 9, the
   * top arc from point 11 ends on point 9 and a line returns from 11 to 0.
   */
  function JoinSketch(p: Params, t: Trig): (s: Sketch)
    requires p.thickness != 0.0 && t.tanNose != 0.0
    ensures |s.points| == 12 && |s.lines| == 8 && |s.arcs| == 2 && Indexed(s)
    ensures Chained(s.lines, 0, 7) && s.lines[0].0 == 2 && s.lines[6].1 == 9 && s.lines[7] == (11, 0)
    ensures s.arcs[0].start == 0 && s.arcs[0].sweep == -t.theta
    ensures ArcEnd(s.points[s.arcs[0].center], s.points[s.arcs[0].start], t.cosTheta, -t.sinTheta) == s.points[2]
    ensures s.arcs[1].start == 11 && s.arcs[1].sweep == HalfPi
    ensures ArcEnd(s.points[s.arcs[1].center], s.points[s.arcs[1].start], 0.0, 1.0) == s.points[9]
    ensures s.points[0] == Point(0.0, 0.0)
    ensures s.points[5].y - s.points[8].y == Nose(p, t)
    ensures s.points[6] == s.points[7]
  {
    var rBot := p.bottomRadius;
    var rTop := p.topRadius;
    var th := p.thickness;
    var l := p.length;
    var xRad := RadiusX(p, t);
    var yRad := RadiusY(p, t);
    var nh := Nose(p, t);
    var noseX := NoseX(p, t);
    var points := [
      Point(0.0, 0.0), Point(rBot, 0.0),
      Point(xRad, yRad),
      Point(l * 1.20 + noseX, yRad + 1.0 / 2.0 * th * 1.25),
      Point(l * 1.20 + noseX, yRad + 3.0 / 4.0 * th),
      Point(l * 1.07 + noseX, yRad + th + nh),
      Point(l + noseX, yRad + th + nh),
      Point(l + noseX, yRad + th + nh),
      Point(l, yRad + th),
      Point(rTop, yRad + th),
      Point(rTop, t.sinTheta * rBot + rTop + th),
      Point(0.0, t.sinTheta * rBot + rTop + th)];
    Sketch(points,
           [(2, 3), (3, 4), (4, 5), (5, 6), (6, 7), (7, 8), (8, 9), (11, 0)],
           [Arc(1, 0, -t.theta), Arc(10, 11, HalfPi)])
  }

  /** Far end of the cut profile: past the arm tip by the extra length. */
  function CutLength(p: Params, t: Trig): real
    requires p.thickness != 0.0 && t.tanNose != 0.0
  {
    1.20 * p.length + NoseX(p, t) + p.extraLength
  }

  /** The cut profile: eight points joined by lines into a single cycle, no arcs. */
  function CutSketch(p: Params, t: Trig): (s: Sketch)
    requires p.thickness != 0.0 && t.tanNose != 0.0
    ensures |s.points| == 8 && s.arcs == [] && Indexed(s)
    ensures s.lines == seq(8, i requires 0 <= i < 8 => (i, (i + 1) % 8))
  {
    var th := p.thickness;
    var gl := p.gapLength;
    var gh := p.gapThickness;
    var yRad := RadiusY(p, t);
    var nh := Nose(p, t);
    var noseX := NoseX(p, t);
    var total := CutLength(p, t);
    Sketch([Point(0.0, -gh),
            Point(RadiusX(p, t), yRad - gh),
            Point(total, yRad - gh),
            Point(total, yRad + th + nh + gh),
            Point(p.length + noseX - gl, yRad + th + nh + gh),
            Point(p.length - gl, yRad + th + gh),
            Point(p.topRadius, yRad + th + gh),
            Point(0.0, yRad + p.topRadius + th + gh)],
           [(0, 1), (1, 2), (2, 3), (3, 4), (4, 5), (5, 6), (6, 7), (7, 0)],
           [])
  }

  /**
   * The cut profile clears the arm by the gap: one gap thickness below the
   * bottom radius and above the arm, the nose and the top radius, the nose
   * step one gap length closer to the root, and the far end an extra length
   * past the arm tip.
   */
  lemma CutClearsJoin(p: Params, t: Trig)
    requires p.thickness != 0.0 && t.tanNose != 0.0
    ensures JoinSketch(p, t).points[2].y - CutSketch(p, t).points[1].y == p.gapThickness
    ensures CutSketch(p, t).points[5].y - JoinSketch(p, t).points[8].y == p.gapThickness
    ensures CutSketch(p, t).points[4].y - JoinSketch(p, t).points[6].y == p.gapThickness
    ensures CutSketch(p, t).points[6].y - JoinSketch(p, t).points[9].y == p.gapThickness
    ensures JoinSketch(p, t).points[6].x - CutSketch(p, t).points[4].x == p.gapLength
    ensures CutSketch(p, t).points[2].x - JoinSketch(p, t).points[3].x == p.extraLength
  {
  }

  /**
   * Joint origin offsets: along the extrusion at its top, middle or bottom;
   * across it at the top of the arm (bottom radius rise plus thickness), half
   * of that, or 0.  An unknown location name leaves that offset at 0.
   */
  function Offsets(p: Params, t: Trig): (o: SnapBody.Offsets)
    ensures o.z == 0.0
  {
    var x :=
      if p.xLocation == "top" then p.extrusionDistance
      else if p.xLocation == "middle" then p.extrusionDistance / 2.0
      else 0.0;
    var y :=
      if p.yLocation == "top" then -(p.bottomRadius * t.sinTheta + p.thickness)
      else if p.yLocation == "middle" then -(p.bottomRadius * t.sinTheta + p.thickness) / 2.0
      else 0.0;
    SnapBody.Offsets(x, y, 0.0)
  }

  /** The "middle" placement is midway between "top" and "bottom" on both axes. */
  lemma OffsetsMiddleIsMidway(p: Params, t: Trig)
    ensures Offsets(p.(xLocation := "middle", yLocation := "middle"), t).x
         == (Offsets(p.(xLocation := "top", yLocation := "top"), t).x
             + Offsets(p.(xLocation := "bottom", yLocation := "bottom"), t).x) / 2.0
    ensures Offsets(p.(xLocation := "middle", yLocation := "middle"), t).y
         == (Offsets(p.(xLocation := "top", yLocation := "top"), t).y
             + Offsets(p.(xLocation := "bottom", yLocation := "bottom"), t).y) / 2.0
  {
  }

  /**
   * Where each location name places the joint origin: along the extrusion at
   * the full distance, half of it, or 0; "bottom" on both axes is the origin;
   * and the middle placement across is half the top one.
   */
  lemma OffsetsPlacement(p: Params, t: Trig)
    ensures Offsets(p.(xLocation := "top"), t).x == p.extrusionDistance
    ensures Offsets(p.(xLocation := "middle"), t).x == p.extrusionDistance / 2.0
    ensures Offsets(p.(xLocation := "bottom", yLocation := "bottom"), t) == SnapBody.Offsets(0.0, 0.0, 0.0)
    ensures Offsets(p.(yLocation := "top"), t).y == -(p.bottomRadius * t.sinTheta + p.thickness)
    ensures Offsets(p.(yLocation := "middle"), t).y == Offsets(p.(yLocation := "top"), t).y / 2.0
  {
  }

  /** A location name other than top, middle and bottom leaves that offset at 0. */
  lemma OffsetsUnknownLocation(p: Params, t: Trig)
    requires p.xLocation != "top" && p.xLocation != "middle" && p.xLocation != "bottom"
    requires p.yLocation != "top" && p.yLocation != "middle" && p.yLocation != "bottom"
    ensures Offsets(p, t) == SnapBody.Offsets(0.0, 0.0, 0.0)
  {
  }

  /** The "top" placement across the extrusion lowers the part by the height of the arm's top face. */
  lemma TopOffsetIsArmTop(p: Params, t: Trig)
    requires p.thickness != 0.0 && t.tanNose != 0.0
    ensures Offsets(p.(yLocation := "top"), t).y == -JoinSketch(p, t).points[9].y
  {
  }

  /** The cantilever keeps the gap in its cut body. */
  function CutBody(p: Params): Extrusion
  {
    CutExtrusion(p.extrusionDistance, p.gapExtrusion, GapInCutBody)
  }

  function JoinBody(p: Params): Extrusion
  {
    JoinExtrusion(p.extrusionDistance, p.gapExtrusion, GapInCutBody)
  }

  /** The arm is extruded the full distance; the cut reaches one gap beyond it on each face. */
  lemma BodiesOfCantilever(p: Params)
    ensures JoinBody(p) == Extrusion(0.0, p.extrusionDistance)
    ensures CutBody(p) == Extrusion(-p.gapExtrusion, p.extrusionDistance + 2.0 * p.gapExtrusion)
  {
  }
}
