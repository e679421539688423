/**
 * The pin commands' size scaling: every dimension of a pin derived from one
 * "size" value, so that the ledge, the arm thickness and the clearance scale
 * sensibly from small pins to large ones.
 */
module PinCommand {
  import opened PyRound
  import opened PyDict
  import opened SnapParameters

  /** The largest clearance taken off the arm thickness. */
  const MaxGapBuffer: real := 0.08

  /** The length-to-width ratio used when none is passed. */
  const DefaultRatio: real := 1.6

  /**
   * The clearance between the arms, before rounding: a tenth of the size up
   * to 0.3, then rising by 1/25 per unit up to size 1, restarting at 0.05 and
   * rising to the maximum at 1.5, constant after that, and 0 for a size that
   * is not positive.
   */
  function GapBuffer(s: real): real
  {
    if 0.0 < s <= 0.3 then s / 10.0
    else if 0.3 < s <= 1.0 then 0.030 + (s - 0.3) / 25.0
    else if 1.0 < s <= 1.5 then 0.050 + (MaxGapBuffer - 0.05) * (s - 1.0) / (1.5 - 1.0)
    else if 1.5 <= s then MaxGapBuffer
    else 0.0
  }

  /** The clearance never leaves [0, 0.08], and is 0 when the size is not positive. */
  lemma GapBufferBounds(s: real)
    ensures 0.0 <= GapBuffer(s) <= MaxGapBuffer
    ensures s <= 0.0 ==> GapBuffer(s) == 0.0
  {
  }

  /**
   * Away from size 1 the clearance has no jump: on either side of 1 (and
   * across the break points 0, 0.3 and 1.5) it never decreases, and a size
   * change of d moves it by at most d/10.
   */
  lemma GapBufferContinuous(s: real, t: real)
    requires s <= t && (t <= 1.0 || 1.0 < s)
    ensures 0.0 <= GapBuffer(t) - GapBuffer(s) <= (t - s) / 10.0
  {
  }

  /**
   * Just above size 1 the clearance falls back: it is 0.058 at 1, restarts
   * from 0.05, and stays below its value at 1 for sizes up to 1.1, so it is
   * not monotone.
   */
  lemma GapBufferDropsAfterOne(s: real)
    requires 1.0 < s <= 1.1
    ensures GapBuffer(1.0) == 0.058
    ensures GapBuffer(s) - 0.05 == 0.06 * (s - 1.0)
    ensures GapBuffer(s) < GapBuffer(1.0)
  {
  }

  /** The eight values `size_parameters` returns. */
  datatype SizeParams = SizeParams(
    width: real, length: real, extrusionDistance: real, thickness: real,
    middlePadding: real, ledge: real, gapBuffer: real, wallThickness: real)

  /**
   * `size_parameters`: width and extrusion distance are the size itself (no
   * floor), the length is the size times the ratio; the arm thickness is half
   * the width less the unrounded clearance, rounded to four places, while the
   * middle padding keeps it unrounded; the ledge (a twelfth of the width), the
   * clearance and the wall thickness (a quarter of the size) are rounded to
   * four places.
   */
  function SizeParameters(size: real, ratio: real): (p: SizeParams)
    ensures p.width == size && p.extrusionDistance == size && p.length == size * ratio
    ensures p.middlePadding == p.width / 2.0 - GapBuffer(size)
    ensures -0.00005 <= p.thickness - p.middlePadding <= 0.00005
    ensures -0.00005 <= p.gapBuffer - GapBuffer(size) <= 0.00005
    ensures -0.00005 <= p.ledge - p.width / 12.0 <= 0.00005
    ensures -0.00005 <= p.wallThickness - size / 4.0 <= 0.00005
  {
    var gapBuffer := GapBuffer(size);
    var thickness := size / 2.0 - gapBuffer;
    SizeParams(size, size * ratio, size, Round4(thickness), thickness,
               Round4(size / 12.0), Round4(gapBuffer), Round4(size / 4.0))
  }

  /** For every positive size the arm keeps a positive (unrounded) thickness. */
  lemma ThicknessPositive(size: real, ratio: real)
    requires size > 0.0
    ensures SizeParameters(size, ratio).middlePadding > 0.0
  {
    var gb := GapBuffer(size);
    if size <= 0.3 {
      assert size / 2.0 - gb == 0.4 * size;
    } else if size <= 1.0 {
      assert size / 2.0 - gb == 0.46 * size - 0.018;
    } else if size <= 1.5 {
      assert size / 2.0 - gb == 0.44 * size + 0.01;
    }
  }

  /** The names of the returned dictionary, in its order. */
  const SizeKeys: seq<string> :=
    ["width", "length", "extrusion_distance", "thickness", "middle_padding", "ledge",
     "gap_buffer", "wall_thickness"]

  /** The dictionary `size_parameters` returns, every value a float. */
  function AsDict(p: SizeParams): (d: ParameterSet)
    ensures |d| == 8 && DistinctKeys(d)
    ensures forall i :: 0 <= i < 8 ==> d[i].0 == SizeKeys[i] && d[i].1.Float?
  {
    [("width", Float(p.width)), ("length", Float(p.length)),
     ("extrusion_distance", Float(p.extrusionDistance)), ("thickness", Float(p.thickness)),
     ("middle_padding", Float(p.middlePadding)), ("ledge", Float(p.ledge)),
     ("gap_buffer", Float(p.gapBuffer)), ("wall_thickness", Float(p.wallThickness))]
  }
}
