/**
 The newest generation's path generators. A generator knows the size, the
 two line widths, the corner radius and the box shape, draws the box, the
 dot, and six mark hooks, and answers the two state lookups `pathForMark`
 and `pathForLongMark`. The base generator has no mark at all; the check,
 radio and add/remove generators override the hooks. The disclosure
 generator is not part of this model: it is given by the paths its hooks
 return.

 Points the code computes with trigonometry or square roots (the checkmark's
 long arm and where it meets the box, the diagonal start of the check
 generator's rounded rectangle) are inputs, collected in `Opaque`.
 */
module PathGenerator {
  import opened Wrappers
  import opened Kinds
  import opened Geometry
  import opened Layers
  import Defaults

  datatype GeneratorKind =
    | BaseGenerator
    | CheckGenerator
    | RadioGenerator
    | AddRemoveGenerator
    | DisclosureGenerator(hooks: map<Hook, Path>)

  datatype Generator = Generator(
    kind: GeneratorKind,
    size: real,
    checkmarkLineWidth: real,
    boxLineWidth: real,
    cornerRadius: real,
    boxType: BoxType)

  /**
   The trigonometric points, left abstract. The first three are the check
   generator's; `circleDiagonal` is the point radius * (cos 45 degrees,
   sin 45 degrees) the middle generation's long checkmark ends at on a
   circular box. The newest path presets compute their own long-arm end
   and box intersection with formulas that leave out the box line-width
   corrections the generator applies, so those two are separate points.
   */
  datatype Opaque = Opaque(longArmEnd: Point, longArmBoxIntersection: Point, diagonalStart: Point,
                           circleDiagonal: Point,
                           presetsLongArmEnd: Point, presetsLongArmBoxIntersection: Point)

  /** A freshly created generator of the given kind, with the stored property defaults. */
  function NewGenerator(kind: GeneratorKind): Generator
  {
    Generator(kind, 0.0, 1.0, 1.0, 3.0, Defaults.DefaultBoxType)
  }

  function Centre(g: Generator): Point
  {
    Point(g.size / 2.0, g.size / 2.0)
  }

  // ---------------------------------------------------------------- box

  /** Start and end angle (in units of pi) of the circular box. */
  function CircleAngles(kind: GeneratorKind): (real, real)
  {
    match kind
    case CheckGenerator => (-0.25, 1.75)
    case AddRemoveGenerator => (-1.0, 1.0)
    case _ => (-0.5, 1.5)
  }

  function CircleBox(g: Generator): (r: Path)
    ensures |r| == 1 && r[0].Arc?
    ensures r[0].centre == Centre(g) && r[0].radius == (g.size - g.boxLineWidth) / 2.0
    ensures r[0].endAngle - r[0].startAngle == 2.0
  {
    var (a, b) := CircleAngles(g.kind);
    [Arc(Centre(g), (g.size - g.boxLineWidth) / 2.0, a, b)]
  }

  /** The centres of the four corner arcs: top right, bottom right, bottom left, top left. */
  function TopRight(g: Generator): Point
  {
    Point(g.size - g.boxLineWidth / 2.0 - g.cornerRadius, g.boxLineWidth / 2.0 + g.cornerRadius)
  }

  function BottomRight(g: Generator): Point
  {
    Point(g.size - g.boxLineWidth / 2.0 - g.cornerRadius, g.size - g.boxLineWidth / 2.0 - g.cornerRadius)
  }

  function BottomLeft(g: Generator): Point
  {
    Point(g.boxLineWidth / 2.0 + g.cornerRadius, g.size - g.boxLineWidth / 2.0 - g.cornerRadius)
  }

  function TopLeft(g: Generator): Point
  {
    Point(g.boxLineWidth / 2.0 + g.cornerRadius, g.boxLineWidth / 2.0 + g.cornerRadius)
  }

  /** A corner arc, drawn only when the corner radius is not zero. */
  function CornerArc(g: Generator, c: Point, a: real, b: real): Path
  {
    if g.cornerRadius != 0.0 then [Arc(c, g.cornerRadius, a, b)] else []
  }

  function RightSide(g: Generator): Path
  {
    [Line(Point(BottomRight(g).x + g.cornerRadius, BottomRight(g).y))]
  }

  function BottomSide(g: Generator): Path
  {
    [Line(Point(BottomLeft(g).x, BottomLeft(g).y + g.cornerRadius))]
  }

  function LeftSide(g: Generator): Path
  {
    [Line(Point(TopLeft(g).x - g.cornerRadius, TopLeft(g).y))]
  }

  function TopSide(g: Generator): Path
  {
    [Line(Point(TopRight(g).x, TopRight(g).y - g.cornerRadius))]
  }

  /** Where each generator starts its rounded rectangle. */
  function RectStart(g: Generator, o: Opaque): Point
  {
    match g.kind
    case CheckGenerator => o.diagonalStart
    case AddRemoveGenerator => Point((TopLeft(g).x + BottomLeft(g).x) / 2.0 - g.cornerRadius, (TopLeft(g).y + BottomLeft(g).y) / 2.0)
    case _ => Point((TopLeft(g).x + TopRight(g).x) / 2.0, (TopLeft(g).y + TopRight(g).y) / 2.0 - g.cornerRadius)
  }

  /** The sides and corner arcs each generator draws from its starting point, in its own order. */
  function RectSides(g: Generator): Path
  {
    match g.kind
    case CheckGenerator =>
      CornerArc(g, TopRight(g), -0.25, 0.0)
      + RightSide(g) + CornerArc(g, BottomRight(g), 0.0, 0.5)
      + BottomSide(g) + CornerArc(g, BottomLeft(g), 0.5, 1.0)
      + LeftSide(g) + CornerArc(g, TopLeft(g), 1.0, 1.5)
      + TopSide(g) + CornerArc(g, TopRight(g), 1.5, 1.75)
    case AddRemoveGenerator =>
      LeftSide(g) + CornerArc(g, TopLeft(g), 1.0, 1.5)
      + TopSide(g) + CornerArc(g, TopRight(g), -0.5, 0.0)
      + RightSide(g) + CornerArc(g, BottomRight(g), 0.0, 0.5)
      + BottomSide(g) + CornerArc(g, BottomLeft(g), 0.5, 1.0)
    case _ =>
      TopSide(g) + CornerArc(g, TopRight(g), -0.5, 0.0)
      + RightSide(g) + CornerArc(g, BottomRight(g), 0.0, 0.5)
      + BottomSide(g) + CornerArc(g, BottomLeft(g), 0.5, 1.0)
      + LeftSide(g) + CornerArc(g, TopLeft(g), 1.0, 1.5)
  }

  /** The rounded rectangle, each generator starting it at its own point. */
  function RoundedRectBox(g: Generator, o: Opaque): (r: Path)
    ensures |r| > 0 && r[0].Move? && r[|r| - 1] == Close
  {
    [Move(RectStart(g, o))] + RectSides(g) + [Close]
  }

  /** The centres of the arcs of a path. */
  function ArcCentres(r: Path): set<Point>
  {
    set i | 0 <= i < |r| && r[i].Arc? :: r[i].centre
  }

  /** A side of the rounded rectangle ends on the square the middle of the line runs along. */
  predicate OnLineSquare(g: Generator, p: Point)
  {
    p.x == g.boxLineWidth / 2.0 || p.x == g.size - g.boxLineWidth / 2.0
    || p.y == g.boxLineWidth / 2.0 || p.y == g.size - g.boxLineWidth / 2.0
  }

  /** A command that may follow the rectangle's start: a side ending on the line's square, an arc of the corner radius, or the close. */
  predicate Traced(g: Generator, s: Segment)
  {
    match s
    case Move(_) => false
    case Line(p) => OnLineSquare(g, p)
    case Arc(_, radius, _, _) => radius == g.cornerRadius
    case Close => true
  }

  predicate AllTraced(g: Generator, r: Path)
  {
    forall i :: 0 <= i < |r| ==> Traced(g, r[i])
  }

  lemma TracedAppend(g: Generator, a: Path, b: Path)
    requires AllTraced(g, a) && AllTraced(g, b)
    ensures AllTraced(g, a + b)
  {
    forall i | 0 <= i < |a + b|
      ensures Traced(g, (a + b)[i])
    {
      if i >= |a| {
        assert (a + b)[i] == b[i - |a|];
      }
    }
  }

  lemma ArcCentresAppend(a: Path, b: Path)
    ensures ArcCentres(a + b) == ArcCentres(a) + ArcCentres(b)
  {
    forall c | c in ArcCentres(a)
      ensures c in ArcCentres(a + b)
    {
      var i :| 0 <= i < |a| && a[i].Arc? && a[i].centre == c;
      assert (a + b)[i] == a[i];
    }
    forall c | c in ArcCentres(b)
      ensures c in ArcCentres(a + b)
    {
      var i :| 0 <= i < |b| && b[i].Arc? && b[i].centre == c;
      assert (a + b)[|a| + i] == b[i];
    }
    forall c | c in ArcCentres(a + b)
      ensures c in ArcCentres(a) + ArcCentres(b)
    {
      var i :| 0 <= i < |a + b| && (a + b)[i].Arc? && (a + b)[i].centre == c;
      if i >= |a| {
        assert b[i - |a|] == (a + b)[i];
      } else {
        assert a[i] == (a + b)[i];
      }
    }
  }

  /** Appending a traced piece keeps the path traced and adds the piece's arc centres. */
  lemma TracedThen(g: Generator, a: Path, b: Path)
    requires AllTraced(g, a) && AllTraced(g, b)
    ensures AllTraced(g, a + b) && ArcCentres(a + b) == ArcCentres(a) + ArcCentres(b)
  {
    TracedAppend(g, a, b);
    ArcCentresAppend(a, b);
  }

  lemma CornerArcTraced(g: Generator, c: Point, a: real, b: real)
    ensures AllTraced(g, CornerArc(g, c, a, b))
    ensures ArcCentres(CornerArc(g, c, a, b)) == if g.cornerRadius == 0.0 then {} else {c}
  {
    if g.cornerRadius != 0.0 {
      assert CornerArc(g, c, a, b)[0].centre == c;
    }
  }

  lemma SidesTraced(g: Generator)
    ensures AllTraced(g, TopSide(g)) && ArcCentres(TopSide(g)) == {}
    ensures AllTraced(g, RightSide(g)) && ArcCentres(RightSide(g)) == {}
    ensures AllTraced(g, BottomSide(g)) && ArcCentres(BottomSide(g)) == {}
    ensures AllTraced(g, LeftSide(g)) && ArcCentres(LeftSide(g)) == {}
  {
  }

  /** The corner centres, when the corners are rounded. */
  function Corners(g: Generator): set<Point>
  {
    if g.cornerRadius == 0.0 then {} else {TopRight(g), BottomRight(g), BottomLeft(g), TopLeft(g)}
  }

  /** The check generator's sides, from the diagonal start round to the top right corner again. */
  lemma CheckSidesTraced(g: Generator)
    requires g.kind.CheckGenerator?
    ensures AllTraced(g, RectSides(g)) && ArcCentres(RectSides(g)) == Corners(g)
  {
    SidesTraced(g);
    var first := CornerArc(g, TopRight(g), -0.25, 0.0);
    var br := CornerArc(g, BottomRight(g), 0.0, 0.5);
    var bl := CornerArc(g, BottomLeft(g), 0.5, 1.0);
    var tl := CornerArc(g, TopLeft(g), 1.0, 1.5);
    var last := CornerArc(g, TopRight(g), 1.5, 1.75);
    CornerArcTraced(g, TopRight(g), -0.25, 0.0);
    CornerArcTraced(g, BottomRight(g), 0.0, 0.5);
    CornerArcTraced(g, BottomLeft(g), 0.5, 1.0);
    CornerArcTraced(g, TopLeft(g), 1.0, 1.5);
    CornerArcTraced(g, TopRight(g), 1.5, 1.75);
    var p := first;
    TracedThen(g, p, RightSide(g));  p := p + RightSide(g);
    TracedThen(g, p, br);            p := p + br;
    TracedThen(g, p, BottomSide(g)); p := p + BottomSide(g);
    TracedThen(g, p, bl);            p := p + bl;
    TracedThen(g, p, LeftSide(g));   p := p + LeftSide(g);
    TracedThen(g, p, tl);            p := p + tl;
    TracedThen(g, p, TopSide(g));    p := p + TopSide(g);
    TracedThen(g, p, last);          p := p + last;
    assert p == RectSides(g);
  }

  /** The add/remove generator's sides, from the middle of the left side. */
  lemma AddRemoveSidesTraced(g: Generator)
    requires g.kind.AddRemoveGenerator?
    ensures AllTraced(g, RectSides(g)) && ArcCentres(RectSides(g)) == Corners(g)
  {
    SidesTraced(g);
    var tr := CornerArc(g, TopRight(g), -0.5, 0.0);
    var br := CornerArc(g, BottomRight(g), 0.0, 0.5);
    var bl := CornerArc(g, BottomLeft(g), 0.5, 1.0);
    var tl := CornerArc(g, TopLeft(g), 1.0, 1.5);
    CornerArcTraced(g, TopRight(g), -0.5, 0.0);
    CornerArcTraced(g, BottomRight(g), 0.0, 0.5);
    CornerArcTraced(g, BottomLeft(g), 0.5, 1.0);
    CornerArcTraced(g, TopLeft(g), 1.0, 1.5);
    var p := LeftSide(g);
    TracedThen(g, p, tl);            p := p + tl;
    TracedThen(g, p, TopSide(g));    p := p + TopSide(g);
    TracedThen(g, p, tr);            p := p + tr;
    TracedThen(g, p, RightSide(g));  p := p + RightSide(g);
    TracedThen(g, p, br);            p := p + br;
    TracedThen(g, p, BottomSide(g)); p := p + BottomSide(g);
    TracedThen(g, p, bl);            p := p + bl;
    assert p == RectSides(g);
  }

  /** The other generators' sides, from the top centre. */
  lemma TopSidesTraced(g: Generator)
    requires !g.kind.CheckGenerator? && !g.kind.AddRemoveGenerator?
    ensures AllTraced(g, RectSides(g)) && ArcCentres(RectSides(g)) == Corners(g)
  {
    SidesTraced(g);
    var tr := CornerArc(g, TopRight(g), -0.5, 0.0);
    var br := CornerArc(g, BottomRight(g), 0.0, 0.5);
    var bl := CornerArc(g, BottomLeft(g), 0.5, 1.0);
    var tl := CornerArc(g, TopLeft(g), 1.0, 1.5);
    CornerArcTraced(g, TopRight(g), -0.5, 0.0);
    CornerArcTraced(g, BottomRight(g), 0.0, 0.5);
    CornerArcTraced(g, BottomLeft(g), 0.5, 1.0);
    CornerArcTraced(g, TopLeft(g), 1.0, 1.5);
    var p := TopSide(g);
    TracedThen(g, p, tr);            p := p + tr;
    TracedThen(g, p, RightSide(g));  p := p + RightSide(g);
    TracedThen(g, p, br);            p := p + br;
    TracedThen(g, p, BottomSide(g)); p := p + BottomSide(g);
    TracedThen(g, p, bl);            p := p + bl;
    TracedThen(g, p, LeftSide(g));   p := p + LeftSide(g);
    TracedThen(g, p, tl);            p := p + tl;
    assert p == RectSides(g);
  }

  /**
   Whatever its starting point, the rounded rectangle moves once, then draws
   sides that end on the square the middle of the line runs along and arcs
   of the corner radius. With a non-zero corner radius there is an arc about
   each of the four corner centres; with a zero one there is no arc at all.
   */
  lemma RoundedRectCorners(g: Generator, o: Opaque)
    ensures var r := RoundedRectBox(g, o);
            forall i :: 0 < i < |r| ==> !r[i].Move?
    ensures var r := RoundedRectBox(g, o);
            forall i :: 0 <= i < |r| && r[i].Arc? ==> r[i].radius == g.cornerRadius
    ensures var r := RoundedRectBox(g, o);
            forall i :: 0 <= i < |r| && r[i].Line? ==> OnLineSquare(g, r[i].to)
    ensures ArcCentres(RoundedRectBox(g, o)) == Corners(g)
  {
    var r := RoundedRectBox(g, o);
    var tail := RectSides(g) + [Close];
    if g.kind.CheckGenerator? {
      CheckSidesTraced(g);
    } else if g.kind.AddRemoveGenerator? {
      AddRemoveSidesTraced(g);
    } else {
      TopSidesTraced(g);
    }
    TracedThen(g, RectSides(g), [Close]);
    assert ArcCentres([Close]) == {};
    assert r == [Move(RectStart(g, o))] + tail;
    ArcCentresAppend([Move(RectStart(g, o))], tail);
    assert ArcCentres([Move(RectStart(g, o))]) == {};
    forall i | 0 < i < |r|
      ensures Traced(g, r[i])
    {
      assert r[i] == tail[i - 1];
    }
  }

  /** `pathForBox`: the circle for a circular box, the rounded rectangle for a square one. */
  function Box(g: Generator, o: Opaque): Path
  {
    match g.boxType
    case Circle => CircleBox(g)
    case Square => RoundedRectBox(g, o)
  }

  /** The base generator's rounded rectangle starts at the top centre of the box, on the line's centre. */
  lemma RoundedRectStartsTopCentre(g: Generator, o: Opaque)
    requires !g.kind.CheckGenerator? && !g.kind.AddRemoveGenerator?
    ensures RoundedRectBox(g, o)[0] == Move(Point(g.size / 2.0, g.boxLineWidth / 2.0))
  {
  }

  /** The add/remove generator's rounded rectangle starts at the middle of the left side. */
  lemma AddRemoveRectStartsMiddleLeft(g: Generator, o: Opaque)
    requires g.kind.AddRemoveGenerator?
    ensures RoundedRectBox(g, o)[0] == Move(Point(g.boxLineWidth / 2.0, g.size / 2.0))
  {
  }

  /** `pathForDot`: the box scaled by 1/20 and shifted by (size - size/20)/2 on both axes. */
  function Dot(g: Generator, o: Opaque): Path
  {
    MapPath(Translate((g.size - g.size * 0.05) / 2.0, (g.size - g.size * 0.05) / 2.0),
            MapPath(Scale(0.05), Box(g, o)))
  }


  /** The dot is the box under a single map that scales by 1/20 about the centre of the box. */
  lemma DotIsBoxShrunkAboutCentre(g: Generator, o: Opaque)
    ensures Dot(g, o) == MapPath(AboutCentre(0.05, g.size / 2.0), Box(g, o))
    ensures Apply(AboutCentre(0.05, g.size / 2.0), Centre(g)) == Centre(g)
  {
    var box := Box(g, o);
    var t := (g.size - g.size * 0.05) / 2.0;
    assert t == (1.0 - 0.05) * (g.size / 2.0);
    assert Dot(g, o) == MapPath(Translate(t, t), MapPath(Scale(0.05), box));
    ScaleThenShiftIsAboutCentre(0.05, t, g.size / 2.0, box);
  }

  /** For a circular box the dot is a circle about the same centre with 1/20 of the radius. */
  lemma CircleDot(g: Generator, o: Opaque)
    requires g.boxType == Circle
    ensures |Dot(g, o)| == 1 && Dot(g, o)[0].Arc?
    ensures Dot(g, o)[0].centre == Centre(g)
    ensures Dot(g, o)[0].radius == (g.size - g.boxLineWidth) / 40.0
  {
    DotIsBoxShrunkAboutCentre(g, o);
  }

  // ---------------------------------------------------------------- checkmark

  /** The checkmark's middle point: offset o and radius r are fractions of the size. */
  function MiddlePoint(g: Generator): Point
  {
    var r := if g.boxType == Circle then 0.133 else 0.1995;
    var o := if g.boxType == Circle then -0.04 else -0.06;
    Point(g.size / 2.0 + g.size * o, g.size / 2.0 + g.size * r)
  }

  /** The end of the checkmark's short arm. */
  function ShortArmEnd(g: Generator): Point
  {
    var r := if g.boxType == Circle then 0.17 else 0.255;
    var o := if g.boxType == Circle then 0.02 else 0.03;
    Point(g.size / 2.0 - g.size * r, g.size / 2.0 + g.size * o)
  }

  /**
   For a positive size the short arm ends left of and above the middle
   point, and the middle point lies left of and below the centre.
   */
  lemma CheckmarkOrientation(g: Generator)
    requires g.size > 0.0
    ensures ShortArmEnd(g).x < MiddlePoint(g).x < g.size / 2.0
    ensures g.size / 2.0 < ShortArmEnd(g).y < MiddlePoint(g).y
  {
  }

  /** The square box's checkmark points are the circle's scaled by 1.5 about the centre. */
  lemma SquareCheckmarkIsScaledCircle(g: Generator)
    requires g.boxType == Square
    ensures MiddlePoint(g) == Apply(AboutCentre(1.5, g.size / 2.0), MiddlePoint(g.(boxType := Circle)))
    ensures ShortArmEnd(g) == Apply(AboutCentre(1.5, g.size / 2.0), ShortArmEnd(g.(boxType := Circle)))
  {
  }

  /** The dash of the mixed state, through the centre of the box. */
  function MixedBar(g: Generator): Path
  {
    Polyline([Point(g.size * 0.25, g.size * 0.5), Point(g.size * 0.5, g.size * 0.5),
              Point(g.size * 0.75, g.size * 0.5)])
  }

  /** The long dash, reaching the right side of the box. */
  function LongMixedBar(g: Generator): Path
  {
    Polyline([Point(g.size * 0.25, g.size * 0.5), Point(g.size * 0.5, g.size * 0.5),
              Point(g.size - g.boxLineWidth, g.size * 0.5)])
  }

  // ---------------------------------------------------------------- radio

  /** The radio mark: the box scaled by 0.665 and shifted by 0.1675 of the size. */
  function RadioDisc(g: Generator, o: Opaque): Path
  {
    MapPath(Translate(g.size * 0.1675, g.size * 0.1675), MapPath(Scale(0.665), Box(g, o)))
  }

  /** The radio mark is the box scaled by 0.665 about the centre of the box, which it keeps in place. */
  lemma RadioDiscIsBoxShrunkAboutCentre(g: Generator, o: Opaque)
    ensures RadioDisc(g, o) == MapPath(AboutCentre(0.665, g.size / 2.0), Box(g, o))
    ensures Apply(AboutCentre(0.665, g.size / 2.0), Centre(g)) == Centre(g)
  {
    var box := Box(g, o);
    var t := g.size * 0.1675;
    assert t == (1.0 - 0.665) * (g.size / 2.0);
    assert RadioDisc(g, o) == MapPath(Translate(t, t), MapPath(Scale(0.665), box));
    ScaleThenShiftIsAboutCentre(0.665, t, g.size / 2.0, box);
  }

  /** A point of the box square [0, size]^2 lands in [0.1675 size, 0.8325 size]^2 under the radio map. */
  lemma RadioMapBounds(g: Generator, p: Point)
    requires InSquare(p, 0.0, g.size)
    ensures InSquare(Apply(AboutCentre(0.665, g.size / 2.0), p), 0.1675 * g.size, 0.8325 * g.size)
  {
  }

  /** A point of the box square [0, size]^2 lands in [0.475 size, 0.525 size]^2 under the dot map. */
  lemma DotMapBounds(g: Generator, p: Point)
    requires InSquare(p, 0.0, g.size)
    ensures InSquare(Apply(AboutCentre(0.05, g.size / 2.0), p), 0.475 * g.size, 0.525 * g.size)
  {
  }

  // ---------------------------------------------------------------- add / remove

  /** The minus sign, followed by a zero-length stroke at the centre. */
  function MinusSign(g: Generator): Path
  {
    [Move(Point(g.size * 0.75, g.size * 0.5)), Line(Point(g.size * 0.25, g.size * 0.5)),
     Move(Point(g.size / 2.0, g.size * 0.5)), Line(Point(g.size / 2.0, g.size * 0.5))]
  }

  /** The plus sign: the same horizontal stroke and a vertical one through the centre. */
  function PlusSign(g: Generator): Path
  {
    [Move(Point(g.size * 0.75, g.size * 0.5)), Line(Point(g.size * 0.25, g.size * 0.5)),
     Move(Point(g.size / 2.0, g.size * 0.25)), Line(Point(g.size / 2.0, g.size * 0.75))]
  }

  /** The long plus sign: the horizontal stroke reaches x = boxLineWidth. */
  function LongPlusSign(g: Generator): Path
  {
    [Move(Point(g.size * 0.75, g.size * 0.5)), Line(Point(g.boxLineWidth, g.size * 0.5)),
     Move(Point(g.size / 2.0, g.size * 0.25)), Line(Point(g.size / 2.0, g.size * 0.75))]
  }

  // ---------------------------------------------------------------- hooks

  /** Which hooks of each generator return a path; the rest return nil. */
  predicate HookPresent(kind: GeneratorKind, h: Hook)
  {
    match kind
    case BaseGenerator => false
    case CheckGenerator => !h.UnselectedHook? && !h.LongUnselectedHook?
    case RadioGenerator => !h.UnselectedHook? && !h.LongUnselectedHook?
    case AddRemoveGenerator => true
    case DisclosureGenerator(hooks) => h in hooks
  }

  /** The path each hook returns. */
  function HookPath(g: Generator, o: Opaque, h: Hook): (r: Option<Path>)
    ensures r.Some? <==> HookPresent(g.kind, h)
  {
    match g.kind
    case BaseGenerator => None
    case CheckGenerator =>
      (match h
       case UnselectedHook => None
       case LongUnselectedHook => None
       case MarkHook => Some(Polyline([ShortArmEnd(g), MiddlePoint(g), o.longArmEnd]))
       case LongMarkHook => Some(Polyline([ShortArmEnd(g), MiddlePoint(g), o.longArmBoxIntersection]))
       case MixedHook => Some(MixedBar(g))
       case LongMixedHook => Some(LongMixedBar(g)))
    case RadioGenerator =>
      (match h
       case UnselectedHook => None
       case LongUnselectedHook => None
       case MarkHook => Some(RadioDisc(g, o))
       case LongMarkHook => Some(Box(g, o))
       case MixedHook => Some(RadioDisc(g, o))
       case LongMixedHook => Some(Box(g, o)))
    case AddRemoveGenerator =>
      (match h
       case MarkHook => Some(MinusSign(g))
       case LongMarkHook => Some(MinusSign(g))
       case UnselectedHook => Some(PlusSign(g))
       case MixedHook => Some(PlusSign(g))
       case LongUnselectedHook => Some(LongPlusSign(g))
       case LongMixedHook => Some(LongPlusSign(g)))
    case DisclosureGenerator(hooks) => if h in hooks then Some(hooks[h]) else None
  }

  /** `pathForMark(state)`: nil for a nil state, otherwise the hook the state selects. */
  function PathForMark(g: Generator, o: Opaque, s: Option<CheckState>): (r: Option<Path>)
    ensures s.None? ==> r.None?
    ensures s.Some? ==> r == HookPath(g, o, HookFor(s.value, false))
  {
    if s.None? then None else HookPath(g, o, HookFor(s.value, false))
  }

  /** `pathForLongMark(state)`: the same dispatch over the long hooks. */
  function PathForLongMark(g: Generator, o: Opaque, s: Option<CheckState>): (r: Option<Path>)
    ensures s.None? ==> r.None?
    ensures s.Some? ==> r == HookPath(g, o, HookFor(s.value, true))
  {
    if s.None? then None else HookPath(g, o, HookFor(s.value, true))
  }

  /** Whether the generator draws a mark for a (possibly nil) state; needs no geometry. */
  predicate HasMark(kind: GeneratorKind, s: Option<CheckState>)
  {
    s.Some? && HookPresent(kind, HookFor(s.value, false))
  }

  /** The symbolic path a layer shows for `pathForMark(state)`. */
  function MarkShapeFor(kind: GeneratorKind, s: Option<CheckState>): (r: Option<Shape>)
    ensures r.Some? <==> HasMark(kind, s)
    ensures r.Some? ==> r.value == MarkShape(HookFor(s.value, false))
  {
    if HasMark(kind, s) then Some(MarkShape(HookFor(s.value, false))) else None
  }

  /** The symbolic path a layer shows for `pathForLongMark(state)`. */
  function LongMarkShapeFor(kind: GeneratorKind, s: Option<CheckState>): (r: Option<Shape>)
    ensures r.Some? <==> s.Some? && HookPresent(kind, HookFor(s.value, true))
    ensures r.Some? ==> r.value == MarkShape(HookFor(s.value, true))
  {
    if s.Some? && HookPresent(kind, HookFor(s.value, true)) then Some(MarkShape(HookFor(s.value, true))) else None
  }

  /** Presence of a mark does not depend on the geometry: it is read off the hook table. */
  lemma HasMarkMatchesPath(g: Generator, o: Opaque, s: Option<CheckState>)
    ensures PathForMark(g, o, s).Some? <==> HasMark(g.kind, s)
  {
  }

  /** The mark-presence table of the shown generators. */
  lemma MarkPresenceTable(g: Generator, o: Opaque, s: CheckState)
    ensures g.kind.BaseGenerator? ==> PathForMark(g, o, Some(s)).None? && PathForLongMark(g, o, Some(s)).None?
    ensures g.kind.CheckGenerator? || g.kind.RadioGenerator? ==>
      (PathForMark(g, o, Some(s)).Some? <==> s != Unchecked)
      && (PathForLongMark(g, o, Some(s)).Some? <==> s != Unchecked)
    ensures g.kind.AddRemoveGenerator? ==> PathForMark(g, o, Some(s)).Some? && PathForLongMark(g, o, Some(s)).Some?
  {
  }

  /** The checkmark and the long checkmark share their first two vertices and differ only in the last. */
  lemma CheckMarkAndLongMarkShareArms(g: Generator, o: Opaque)
    requires g.kind.CheckGenerator?
    ensures var m := HookPath(g, o, MarkHook).value;
            var l := HookPath(g, o, LongMarkHook).value;
            |m| == |l| == 3 && m[..2] == l[..2]
            && m[0] == Move(ShortArmEnd(g)) && m[1] == Line(MiddlePoint(g))
            && m[2] == Line(o.longArmEnd) && l[2] == Line(o.longArmBoxIntersection)
  {
  }

  /** The mixed dash lies on y = size/2 from 0.25 size to 0.75 size; the long dash shares its first two vertices and ends at size - boxLineWidth. */
  lemma CheckMixedBars(g: Generator, o: Opaque)
    requires g.kind.CheckGenerator?
    ensures var m := HookPath(g, o, MixedHook).value;
            var l := HookPath(g, o, LongMixedHook).value;
            OnHorizontal(m, g.size / 2.0) && OnHorizontal(l, g.size / 2.0)
            && |m| == |l| == 3 && m[..2] == l[..2]
            && m[0].to.x == g.size * 0.25 && m[2].to.x == g.size * 0.75
            && l[2].to.x == g.size - g.boxLineWidth
  {
  }

  /** Radio: the mixed mark is the checked mark, and both long marks are the box. */
  lemma RadioHooks(g: Generator, o: Opaque)
    requires g.kind.RadioGenerator?
    ensures HookPath(g, o, MixedHook) == HookPath(g, o, MarkHook)
    ensures HookPath(g, o, LongMarkHook) == HookPath(g, o, LongMixedHook) == Some(Box(g, o))
    ensures HookPath(g, o, MarkHook) == Some(MapPath(AboutCentre(0.665, g.size / 2.0), Box(g, o)))
  {
    RadioDiscIsBoxShrunkAboutCentre(g, o);
  }

  /** Add/remove: mixed is the unselected plus, long mark is the mark, and the minus is the plus without its vertical stroke. */
  lemma AddRemoveHooks(g: Generator, o: Opaque)
    requires g.kind.AddRemoveGenerator?
    ensures HookPath(g, o, MixedHook) == HookPath(g, o, UnselectedHook)
    ensures HookPath(g, o, LongMixedHook) == HookPath(g, o, LongUnselectedHook)
    ensures HookPath(g, o, LongMarkHook) == HookPath(g, o, MarkHook)
    ensures var minus := HookPath(g, o, MarkHook).value;
            var plus := HookPath(g, o, UnselectedHook).value;
            minus[..2] == plus[..2] && minus[2].to == minus[3].to == Centre(g)
            && plus[2].to == Point(g.size / 2.0, g.size * 0.25) && plus[3].to == Point(g.size / 2.0, g.size * 0.75)
    ensures var longPlus := HookPath(g, o, LongUnselectedHook).value;
            var plus := HookPath(g, o, UnselectedHook).value;
            longPlus[1].to == Point(g.boxLineWidth, g.size * 0.5) && longPlus[0] == plus[0] && longPlus[2..] == plus[2..]
  {
  }
}
