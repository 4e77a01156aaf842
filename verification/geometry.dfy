/**
 Exact plane geometry for the linear parts of the checkbox's paths. A path
 is the list of drawing commands a Bezier path is built from: move, straight
 line, circular arc (angles in units of pi, so a quarter turn is 0.5) and
 close. Affine maps are the uniform scale-then-translate transforms the
 code applies to whole paths.
 */
module Geometry {

  datatype Point = Point(x: real, y: real)

  datatype Segment =
    | Move(to: Point)
    | Line(to: Point)
    | Arc(centre: Point, radius: real, startAngle: real, endAngle: real)
    | Close

  type Path = seq<Segment>

  /** p maps to (scale * p.x + dx, scale * p.y + dy). */
  datatype Affine = Affine(scale: real, dx: real, dy: real)

  function Apply(m: Affine, p: Point): Point
  {
    Point(m.scale * p.x + m.dx, m.scale * p.y + m.dy)
  }

  /** A uniform scale about the origin. */
  function Scale(k: real): Affine
  {
    Affine(k, 0.0, 0.0)
  }

  function Translate(dx: real, dy: real): Affine
  {
    Affine(1.0, dx, dy)
  }

  /** Applying `first` and then `second`. */
  function Then(first: Affine, second: Affine): (r: Affine)
    ensures forall p :: Apply(r, p) == Apply(second, Apply(first, p))
  {
    Affine(second.scale * first.scale,
           second.scale * first.dx + second.dx,
           second.scale * first.dy + second.dy)
  }

  function MapSegment(m: Affine, s: Segment): Segment
  {
    match s
    case Move(p) => Move(Apply(m, p))
    case Line(p) => Line(Apply(m, p))
    case Arc(c, r, a, b) => Arc(Apply(m, c), m.scale * r, a, b)
    case Close => Close
  }

  /** A transform applied to a whole path, command by command. */
  function MapPath(m: Affine, path: Path): (r: Path)
    ensures |r| == |path|
  {
    if path == [] then [] else [MapSegment(m, path[0])] + MapPath(m, path[1..])
  }

  /** The mapped path's i-th command is the i-th command mapped. */
  lemma {:induction false} MapPathAt(m: Affine, path: Path)
    ensures forall i :: 0 <= i < |path| ==> MapPath(m, path)[i] == MapSegment(m, path[i])
    decreases |path|
  {
    if path != [] {
      MapPathAt(m, path[1..]);
    }
  }

  lemma MapSegmentThen(first: Affine, second: Affine, s: Segment)
    ensures MapSegment(second, MapSegment(first, s)) == MapSegment(Then(first, second), s)
  {
    match s
    case Arc(c, r, a, b) =>
      assert second.scale * (first.scale * r) == (second.scale * first.scale) * r;
    case _ =>
  }

  /** Two transforms applied one after the other equal their composition applied once. */
  lemma {:induction false} MapPathThen(first: Affine, second: Affine, path: Path)
    ensures MapPath(second, MapPath(first, path)) == MapPath(Then(first, second), path)
  {
    if path != [] {
      MapSegmentThen(first, second, path[0]);
      MapPathThen(first, second, path[1..]);
    }
  }

  /** Scaling by k about the origin and then shifting by (1 - k) * c on both axes keeps (c, c) in place. */
  function AboutCentre(k: real, c: real): (m: Affine)
    ensures Apply(m, Point(c, c)) == Point(c, c)
    ensures m.scale == k
  {
    Then(Scale(k), Translate((1.0 - k) * c, (1.0 - k) * c))
  }

  /** Scaling a path by k and then shifting it by (1 - k) * c on both axes is scaling it by k about (c, c). */
  lemma ScaleThenShiftIsAboutCentre(k: real, t: real, c: real, path: Path)
    requires t == (1.0 - k) * c
    ensures MapPath(Translate(t, t), MapPath(Scale(k), path)) == MapPath(AboutCentre(k, c), path)
  {
    MapPathThen(Scale(k), Translate(t, t), path);
    assert Then(Scale(k), Translate(t, t)) == AboutCentre(k, c);
  }

  /** Whether a point lies in the square [lo, hi] x [lo, hi]. */
  predicate InSquare(p: Point, lo: real, hi: real)
  {
    lo <= p.x <= hi && lo <= p.y <= hi
  }

  /** The straight polyline through the given vertices. */
  function Polyline(vs: seq<Point>): (r: Path)
    requires |vs| > 0
    ensures |r| == |vs| && r[0] == Move(vs[0])
    ensures forall i :: 0 < i < |vs| ==> r[i] == Line(vs[i])
  {
    if |vs| == 1 then [Move(vs[0])] else Polyline(vs[..|vs| - 1]) + [Line(vs[|vs| - 1])]
  }

  /** Whether every vertex of a path built from moves and lines lies on the horizontal line y. */
  predicate OnHorizontal(path: Path, y: real)
  {
    forall i :: 0 <= i < |path| ==> (path[i].Move? || path[i].Line?) && path[i].to.y == y
  }
}
