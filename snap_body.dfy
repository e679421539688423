/**
 * How a snap variant turns its sketches into bodies and where it places its
 * joint origin: the extrusion distances and start offsets of the join, cut
 * and addition bodies, and the location offsets shared by the pin variants.
 */
module SnapBody {

  /** A one-sided extrusion that starts `start` along the normal and runs `distance` from there. */
  datatype Extrusion = Extrusion(start: real, distance: real)

  function End(e: Extrusion): real
  {
    e.start + e.distance
  }

  /**
   * The cut body: the full extrusion distance plus a gap on each side when the
   * variant keeps the gap in the cut body, the bare distance otherwise; it
   * always starts one gap below the sketch plane.
   */
  function CutExtrusion(extrusionDistance: real, gap: real, gapInCutBody: bool): Extrusion
  {
    var distance := if gapInCutBody then extrusionDistance + 2.0 * gap else extrusionDistance;
    Extrusion(-1.0 * gap, distance)
  }

  /** The join body: the bare distance, or two gaps shorter when the gap is taken from the join body. */
  function JoinExtrusion(extrusionDistance: real, gap: real, gapInCutBody: bool): Extrusion
  {
    var distance := if gapInCutBody then extrusionDistance else extrusionDistance - 2.0 * gap;
    Extrusion(0.0, distance)
  }

  /** The addition body around a pin hole: a wall thickness beyond the extrusion at each side. */
  function AdditionExtrusion(extrusionDistance: real, wallThickness: real): Extrusion
  {
    Extrusion(-wallThickness, extrusionDistance + 2.0 * wallThickness)
  }

  /**
   * Whichever body carries the gap, the cut body reaches exactly one gap beyond
   * the join body on both faces, and is two gaps longer.
   */
  lemma CutSurroundsJoin(extrusionDistance: real, gap: real, gapInCutBody: bool)
    ensures CutExtrusion(extrusionDistance, gap, gapInCutBody).start + gap
         == JoinExtrusion(extrusionDistance, gap, gapInCutBody).start
    ensures End(JoinExtrusion(extrusionDistance, gap, gapInCutBody)) + gap
         == End(CutExtrusion(extrusionDistance, gap, gapInCutBody))
    ensures CutExtrusion(extrusionDistance, gap, gapInCutBody).distance
         == JoinExtrusion(extrusionDistance, gap, gapInCutBody).distance + 2.0 * gap
  {
  }

  /** The addition body covers the whole extrusion span [0, extrusionDistance] with a wall to spare. */
  lemma AdditionSurroundsExtrusion(extrusionDistance: real, wallThickness: real)
    ensures AdditionExtrusion(extrusionDistance, wallThickness).start + wallThickness == 0.0
    ensures End(AdditionExtrusion(extrusionDistance, wallThickness)) == extrusionDistance + wallThickness
  {
  }

  /** The joint origin offsets, one per axis. */
  datatype Offsets = Offsets(x: real, y: real, z: real)

  /**
   * Joint origin offsets of the pin variants: along the extrusion the pin is
   * placed at its top, middle or bottom face, less the extrusion gap; across it
   * at the top, middle or bottom edge of the width.  An unknown location name
   * leaves that offset at 0.
   */
  function PinOffsets(xLocation: string, yLocation: string, extrusionDistance: real,
                      width: real, gapExtrusion: real): Offsets
  {
    var x :=
      if xLocation == "top" then extrusionDistance - gapExtrusion
      else if xLocation == "middle" then extrusionDistance / 2.0 - gapExtrusion
      else if xLocation == "bottom" then 0.0 - gapExtrusion
      else 0.0;
    var y :=
      if yLocation == "top" then -width / 2.0
      else if yLocation == "middle" then 0.0
      else if yLocation == "bottom" then width / 2.0
      else 0.0;
    Offsets(x, y, 0.0)
  }

  /**
   * The "middle" placement is midway between "top" and "bottom" on both axes,
   * "top" and "bottom" are one extrusion distance and one width apart, and the
   * z offset is always 0.
   */
  lemma PinOffsetsMiddleIsMidway(extrusionDistance: real, width: real, gapExtrusion: real, xl: string, yl: string)
    ensures PinOffsets("middle", "middle", extrusionDistance, width, gapExtrusion).x
         == (PinOffsets("top", "top", extrusionDistance, width, gapExtrusion).x
             + PinOffsets("bottom", "bottom", extrusionDistance, width, gapExtrusion).x) / 2.0
    ensures PinOffsets("middle", "middle", extrusionDistance, width, gapExtrusion).y
         == (PinOffsets("top", "top", extrusionDistance, width, gapExtrusion).y
             + PinOffsets("bottom", "bottom", extrusionDistance, width, gapExtrusion).y) / 2.0
    ensures PinOffsets("top", "top", extrusionDistance, width, gapExtrusion).x
          - PinOffsets("bottom", "bottom", extrusionDistance, width, gapExtrusion).x == extrusionDistance
    ensures PinOffsets("bottom", "bottom", extrusionDistance, width, gapExtrusion).y
          - PinOffsets("top", "top", extrusionDistance, width, gapExtrusion).y == width
    ensures PinOffsets(xl, yl, extrusionDistance, width, gapExtrusion).z == 0.0
  {
  }

  /**
   * The absolute placements: along the extrusion the pin sits at its top,
   * middle or bottom face less the extrusion gap (the bottom one is where the
   * cut body starts), and across it at minus half the width, 0 or half the width.
   */
  lemma PinOffsetsPlacement(extrusionDistance: real, width: real, gapExtrusion: real)
    ensures PinOffsets("bottom", "bottom", extrusionDistance, width, gapExtrusion)
         == Offsets(-gapExtrusion, width / 2.0, 0.0)
    ensures PinOffsets("bottom", "bottom", extrusionDistance, width, gapExtrusion).x
         == CutExtrusion(extrusionDistance, gapExtrusion, false).start
    ensures PinOffsets("top", "top", extrusionDistance, width, gapExtrusion)
         == Offsets(extrusionDistance - gapExtrusion, -width / 2.0, 0.0)
    ensures PinOffsets("middle", "middle", extrusionDistance, width, gapExtrusion)
         == Offsets(extrusionDistance / 2.0 - gapExtrusion, 0.0, 0.0)
  {
  }

  /** A location name other than top, middle and bottom leaves that offset at 0. */
  lemma PinOffsetsUnknownLocation(xl: string, yl: string, extrusionDistance: real, width: real, gapExtrusion: real)
    requires xl != "top" && xl != "middle" && xl != "bottom"
    requires yl != "top" && yl != "middle" && yl != "bottom"
    ensures PinOffsets(xl, yl, extrusionDistance, width, gapExtrusion) == Offsets(0.0, 0.0, 0.0)
  {
  }
}
