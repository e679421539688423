/**
 * The sketch data every snap variant hands to the drawing step: a list of
 * point coordinates, pairs of point indices joined by straight lines, and
 * arcs given by a centre index, a start index and a sweep angle.  Also the
 * two list helpers the pin variants build their outlines with: mirroring a
 * point list across an axis, and replicating the line list onto the
 * mirrored copies of a quadrant.
 */
module SnapSketch {

  datatype Point = Point(x: real, y: real)

  /** An arc drawn around points[center], starting at points[start], sweeping `sweep` radians. */
  datatype Arc = Arc(center: nat, start: nat, sweep: real)

  type Line = (nat, nat)

  datatype Sketch = Sketch(points: seq<Point>, lines: seq<Line>, arcs: seq<Arc>)

  /**
   * Values the host's math library supplies: theta is the sweep of the bottom
   * radius, atan(length / (thickness / 2)); sinTheta and cosTheta its sine and
   * cosine; tanNose the tangent of the nose angle in radians.
   */
  datatype Trig = Trig(theta: real, sinTheta: real, cosTheta: real, tanNose: real)

  /** pi / 2 as the host's floating point value. */
  const HalfPi: real := 1.5707963267948966

  /** Every line end and every arc centre and start names an existing point. */
  predicate Indexed(s: Sketch)
  {
    (forall i :: 0 <= i < |s.lines| ==> s.lines[i].0 < |s.points| && s.lines[i].1 < |s.points|) &&
    (forall i :: 0 <= i < |s.arcs| ==> s.arcs[i].center < |s.points| && s.arcs[i].start < |s.points|)
  }

  /** Consecutive lines lo..hi-1 share their end points: they draw one connected path. */
  predicate Chained(lines: seq<Line>, lo: nat, hi: nat)
    requires lo <= hi <= |lines|
  {
    forall i :: lo <= i && i + 1 < hi ==> lines[i].1 == lines[i + 1].0
  }

  // ---------------------------------------------------------------------
  // Mirroring

  /** One point mirrored across the named axis; any other axis name leaves it unchanged. */
  function MirrorPoint(p: Point, axis: string): Point
  {
    if axis == "x" then Point(-p.x, p.y)
    else if axis == "y" then Point(p.x, -p.y)
    else p
  }

  /** Every point of the list mirrored, in order. */
  function Mirror(points: seq<Point>, axis: string): seq<Point>
  {
    seq(|points|, i requires 0 <= i < |points| => MirrorPoint(points[i], axis))
  }

  /** The mirroring loop: one mirrored point appended per input point. */
  method MirrorPoints(points: seq<Point>, axis: string) returns (mirrored: seq<Point>)
    ensures mirrored == Mirror(points, axis)
  {
    mirrored := [];
    var i := 0;
    while i < |points|
      invariant 0 <= i <= |points|
      invariant mirrored == Mirror(points[..i], axis)
    {
      mirrored := mirrored + [MirrorPoint(points[i], axis)];
      i := i + 1;
    }
    assert points[..i] == points;
  }

  /** Mirroring twice across the same axis gives the list back. */
  lemma MirrorInvolution(points: seq<Point>, axis: string)
    ensures Mirror(Mirror(points, axis), axis) == points
  {
    var m := Mirror(Mirror(points, axis), axis);
    assert forall i :: 0 <= i < |points| ==> m[i] == points[i];
  }

  /** A point on the mirror axis is its own image; any other point is not. */
  lemma MirrorFixesAxis(p: Point)
    ensures MirrorPoint(p, "x") == p <==> p.x == 0.0
    ensures MirrorPoint(p, "y") == p <==> p.y == 0.0
  {
  }

  /** Mirroring keeps the length; an axis other than "x" and "y" copies the list unchanged. */
  lemma MirrorOtherAxis(points: seq<Point>, axis: string)
    ensures |Mirror(points, axis)| == |points|
    ensures axis != "x" && axis != "y" ==> Mirror(points, axis) == points
  {
  }

  /** The four quadrant copies of q: q, q mirrored in y, and both mirrored again in x. */
  function Quadrants(q: seq<Point>): seq<Point>
  {
    var half := q + Mirror(q, "y");
    half + Mirror(half, "x")
  }

  /** Layout of the quadrant copies: copy k of point i sits at i + k * |q|, with the signs flipped. */
  lemma QuadrantLayout(q: seq<Point>, i: nat)
    requires i < |q|
    ensures |Quadrants(q)| == 4 * |q|
    ensures Quadrants(q)[i] == q[i]
    ensures Quadrants(q)[i + |q|] == Point(q[i].x, -q[i].y)
    ensures Quadrants(q)[i + 2 * |q|] == Point(-q[i].x, q[i].y)
    ensures Quadrants(q)[i + 3 * |q|] == Point(-q[i].x, -q[i].y)
  {
  }

  // ---------------------------------------------------------------------
  // Replicating lines onto the mirrored copies

  function Shift(line: Line, offset: nat): Line
  {
    (line.0 + offset, line.1 + offset)
  }

  /** The copies of one line the inner loop appends: shifted by stride, 2 * stride, ... */
  function ShiftCopies(line: Line, stride: nat, copies: nat): seq<Line>
  {
    seq(copies, i requires 0 <= i < copies => Shift(line, (i + 1) * stride))
  }

  /** The copies appended for a list of lines, line by line. */
  function Copies(lines: seq<Line>, stride: nat, copies: nat): seq<Line>
  {
    if lines == [] then []
    else ShiftCopies(lines[0], stride, copies) + Copies(lines[1..], stride, copies)
  }

  /** The base lines followed by every line's copies. */
  function Replicated(base: seq<Line>, stride: nat, copies: nat): seq<Line>
  {
    base + Copies(base, stride, copies)
  }

  lemma {:induction false} CopiesLength(lines: seq<Line>, stride: nat, copies: nat)
    ensures |Copies(lines, stride, copies)| == |lines| * copies
  {
    if lines != [] {
      CopiesLength(lines[1..], stride, copies);
      assert |lines| * copies == copies + |lines[1..]| * copies;
    }
  }

  lemma {:induction false} CopiesAppend(lines: seq<Line>, line: Line, stride: nat, copies: nat)
    ensures Copies(lines + [line], stride, copies)
         == Copies(lines, stride, copies) + ShiftCopies(line, stride, copies)
  {
    if lines == [] {
      assert [line][1..] == [];
    } else {
      assert (lines + [line])[1..] == lines[1..] + [line];
      CopiesAppend(lines[1..], line, stride, copies);
    }
  }

  /**
   * Copy i (counting from 1) of base line j sits at |base| + j * copies + (i - 1)
   * and is that line shifted by i * stride.
   */
  lemma {:induction false} CopiesAt(lines: seq<Line>, stride: nat, copies: nat, j: nat, i: nat)
    requires j < |lines| && 1 <= i <= copies
    ensures j * copies + (i - 1) < |Copies(lines, stride, copies)|
    ensures Copies(lines, stride, copies)[j * copies + (i - 1)] == Shift(lines[j], i * stride)
  {
    var sc := ShiftCopies(lines[0], stride, copies);
    var rest := Copies(lines[1..], stride, copies);
    assert Copies(lines, stride, copies) == sc + rest;
    assert |sc| == copies;
    if j == 0 {
      assert sc[i - 1] == Shift(lines[0], i * stride);
    } else {
      CopiesAt(lines[1..], stride, copies, j - 1, i);
      var k := (j - 1) * copies + (i - 1);
      assert j * copies + (i - 1) == copies + k by {
        assert j * copies == (j - 1) * copies + copies;
      }
      assert rest[k] == Shift(lines[j], i * stride);
    }
  }

  /** If the base lines index a quadrant of `stride` points, every copy indexes the copies. */
  lemma {:induction false} CopiesInRange(lines: seq<Line>, stride: nat, copies: nat)
    requires forall k :: 0 <= k < |lines| ==> lines[k].0 < stride && lines[k].1 < stride
    ensures forall k :: 0 <= k < |Copies(lines, stride, copies)| ==>
              Copies(lines, stride, copies)[k].0 < (copies + 1) * stride &&
              Copies(lines, stride, copies)[k].1 < (copies + 1) * stride
  {
    if lines != [] {
      CopiesInRange(lines[1..], stride, copies);
      var sc := ShiftCopies(lines[0], stride, copies);
      forall i | 0 <= i < copies
        ensures sc[i].0 < (copies + 1) * stride && sc[i].1 < (copies + 1) * stride
      {
        assert (i + 1) * stride + stride == (i + 2) * stride;
        assert (i + 2) * stride <= (copies + 1) * stride;
      }
    }
  }

  /** The replicated list holds copies + 1 lines per base line, the base lines first. */
  lemma ReplicatedLength(base: seq<Line>, stride: nat, copies: nat)
    ensures |Replicated(base, stride, copies)| == |base| * (copies + 1)
    ensures Replicated(base, stride, copies)[..|base|] == base
  {
    CopiesLength(base, stride, copies);
    assert |base| * (copies + 1) == |base| + |base| * copies;
  }

  /** Copy i (counting from 1) of base line j sits at |base| + j * copies + (i - 1), shifted by i * stride. */
  lemma ReplicatedAt(base: seq<Line>, stride: nat, copies: nat, j: nat, i: nat)
    requires j < |base| && 1 <= i <= copies
    ensures |base| + j * copies + (i - 1) < |Replicated(base, stride, copies)|
    ensures Replicated(base, stride, copies)[|base| + j * copies + (i - 1)] == Shift(base[j], i * stride)
  {
    var c := Copies(base, stride, copies);
    var k := j * copies + (i - 1);
    CopiesAt(base, stride, copies, j, i);
    assert k < |c|;
    assert (base + c)[|base| + k] == c[k];
  }

  lemma ShiftCopiesPrefix(line: Line, stride: nat, copies: nat, i: nat)
    requires 1 <= i <= copies
    ensures ShiftCopies(line, stride, copies)[..i]
         == ShiftCopies(line, stride, copies)[..i - 1] + [Shift(line, i * stride)]
  {
  }

  /** The replication loop: each base line, then its copies, appended to a growing list. */
  method ReplicateLines(base: seq<Line>, stride: nat, copies: nat) returns (lines: seq<Line>)
    ensures lines == Replicated(base, stride, copies)
  {
    lines := base;
    var j := 0;
    while j < |base|
      invariant 0 <= j <= |base|
      invariant lines == base + Copies(base[..j], stride, copies)
    {
      ghost var before := lines;
      var i := 1;
      while i <= copies
        invariant 1 <= i <= copies + 1
        invariant lines == before + ShiftCopies(base[j], stride, copies)[..i - 1]
      {
        ShiftCopiesPrefix(base[j], stride, copies, i);
        lines := lines + [Shift(base[j], i * stride)];
        i := i + 1;
      }
      assert ShiftCopies(base[j], stride, copies)[..copies] == ShiftCopies(base[j], stride, copies);
      assert base[..j + 1] == base[..j] + [base[j]];
      CopiesAppend(base[..j], base[j], stride, copies);
      j := j + 1;
    }
    assert base[..j] == base;
  }

  /**
   * The steps every pin outline shares: the quadrant followed by its mirror in
   * the y axis, that half followed by its mirror in the x axis, and the
   * quadrant's lines replicated onto the three copies; `arcs` are drawn as given.
   */
  method MirroredOutline(first: seq<Point>, base: seq<Line>, arcs: seq<Arc>) returns (s: Sketch)
    requires forall k :: 0 <= k < |base| ==> base[k].0 < |first| && base[k].1 < |first|
    requires forall k :: 0 <= k < |arcs| ==> arcs[k].center < 4 * |first| && arcs[k].start < 4 * |first|
    ensures s.points == Quadrants(first) && s.lines == Replicated(base, |first|, 3) && s.arcs == arcs
    ensures |s.points| == 4 * |first| && |s.lines| == 4 * |base| && Indexed(s)
  {
    var yMirrored := MirrorPoints(first, "y");
    var all := first + yMirrored;
    var xMirrored := MirrorPoints(all, "x");
    all := all + xMirrored;
    var lines := ReplicateLines(base, |first|, 3);
    s := Sketch(all, lines, arcs);
    ReplicatedLength(base, |first|, 3);
    CopiesInRange(base, |first|, 3);
  }

  // ---------------------------------------------------------------------
  // Arcs

  /** v rotated by the angle whose cosine is c and sine is s. */
  function Rotate(v: Point, c: real, s: real): Point
  {
    Point(v.x * c - v.y * s, v.x * s + v.y * c)
  }

  /** Where an arc around `center` from `start` ends after a sweep with cosine c and sine s. */
  function ArcEnd(center: Point, start: Point, c: real, s: real): Point
  {
    var r := Rotate(Point(start.x - center.x, start.y - center.y), c, s);
    Point(center.x + r.x, center.y + r.y)
  }

  // ---------------------------------------------------------------------
  // The nose of a cantilever

  function Square(a: real): real
  {
    a * a
  }

  /**
   * Height of the snap nose: 1.09 * strain * arm^2 / thickness, the deflection
   * that gives the requested strain at the root of the arm.
   */
  function NoseHeight(strain: real, arm: real, thickness: real): real
    requires thickness != 0.0
  {
    1.09 * strain * Square(arm) / thickness
  }

  /** The nose height is linear in the strain. */
  lemma NoseHeightAdditive(s1: real, s2: real, arm: real, thickness: real)
    requires thickness != 0.0
    ensures NoseHeight(s1 + s2, arm, thickness)
         == NoseHeight(s1, arm, thickness) + NoseHeight(s2, arm, thickness)
  {
    var q := Square(arm) / thickness;
    assert NoseHeight(s1 + s2, arm, thickness) == 1.09 * (s1 + s2) * q;
    assert NoseHeight(s1, arm, thickness) == 1.09 * s1 * q;
    assert NoseHeight(s2, arm, thickness) == 1.09 * s2 * q;
  }

  /**
   * For a positive thickness and a non-negative strain the nose grows with
   * the strain and with the arm length.
   */
  lemma NoseHeightMonotone(s1: real, s2: real, a1: real, a2: real, thickness: real)
    requires thickness > 0.0 && 0.0 <= s1 <= s2 && 0.0 <= a1 <= a2
    ensures NoseHeight(s1, a1, thickness) <= NoseHeight(s2, a1, thickness)
    ensures NoseHeight(s1, a1, thickness) <= NoseHeight(s1, a2, thickness)
  {
    assert Square(a1) <= Square(a2) by {
      assert a1 * a1 <= a1 * a2 <= a2 * a2;
    }
    var q1 := Square(a1) / thickness;
    var q2 := Square(a2) / thickness;
    assert 0.0 <= q1 <= q2;
    assert NoseHeight(s1, a1, thickness) == 1.09 * s1 * q1;
    assert NoseHeight(s2, a1, thickness) == 1.09 * s2 * q1;
    assert NoseHeight(s1, a2, thickness) == 1.09 * s1 * q2;
    assert s1 * q1 <= s2 * q1;
    assert s1 * q1 <= s1 * q2;
  }

  /** Thickness 4, arm 12 and strain 0.04 give a nose 1.5696 high. */
  lemma NoseHeightExample()
    ensures NoseHeight(0.04, 12.0, 4.0) == 1.5696
  {
  }
}
