/**
 The path presets of the middle generation's managers. They hold the same
 measurements as the newest presets (the record is shared), but draw the
 checkmark from hard-coded fractions of the size, enlarge it for a square
 box by a scale and a shift, and draw the spiral's long marks and the dot
 from their own formulas.

 The box is the newest presets' box, with the circle centred; the circle as
 the code writes it is kept beside it to show how far off centre it sits.
 */
module ClassicPresets {
  import opened Wrappers
  import opened Kinds
  import opened Geometry
  import PG = PathGenerator
  import PP = PresetPaths

  type Presets = PP.Presets

  // ---------------------------------------------------------------- box

  /** `pathForBox` as written: the circle about (radius, radius), or the rounded rectangle. */
  function BoxAsWritten(p: Presets, o: PG.Opaque): Path
  {
    if p.boxType == Circle then PP.CircleAsWritten(p) else PG.RoundedRectBox(PP.AsGenerator(p), o)
  }

  /**
   The box as written differs from the centred box exactly on a circle with
   a positive line width, where its centre is off (size/2, size/2).
   */
  lemma BoxAsWrittenOffCentre(p: Presets, o: PG.Opaque)
    requires p.boxLineWidth > 0.0
    ensures BoxAsWritten(p, o) == PP.Box(p, o) <==> p.boxType == Square
    ensures p.boxType == Circle ==> BoxAsWritten(p, o)[0].centre != Point(p.size / 2.0, p.size / 2.0)
  {
    if p.boxType == Circle {
      PP.CircleAsWrittenOffCentre(p);
      assert BoxAsWritten(p, o)[0] != PP.Box(p, o)[0];
    }
  }

  // ---------------------------------------------------------------- marks

  /** The three checkmark vertices for a circular box, as fractions of the size. */
  function CircleCheckmarkVertices(p: Presets): seq<Point>
  {
    [Point(p.size / 3.1578, p.size / 2.0), Point(p.size / 2.0618, p.size / 1.57894),
     Point(p.size / 1.3953, p.size / 2.7272)]
  }

  /** The enlargement for a square box: scale by 1.5, then shift by -size/4 on both axes. */
  function Enlarge(p: Presets, path: Path): Path
  {
    MapPath(Translate(-p.size / 4.0, -p.size / 4.0), MapPath(Scale(1.5), path))
  }

  /** The enlargement is a scale by 1.5 about the centre of the box. */
  lemma EnlargeIsAboutCentre(p: Presets, path: Path)
    ensures Enlarge(p, path) == MapPath(AboutCentre(1.5, p.size / 2.0), path)
    ensures Apply(AboutCentre(1.5, p.size / 2.0), Point(p.size / 2.0, p.size / 2.0)) == Point(p.size / 2.0, p.size / 2.0)
  {
    ScaleThenShiftIsAboutCentre(1.5, -p.size / 4.0, p.size / 2.0, path);
  }

  /** `pathForCheckmark`: the three vertices, enlarged for a square box. */
  function CheckmarkPath(p: Presets): Path
  {
    var path := Polyline(CircleCheckmarkVertices(p));
    if p.boxType == Square then Enlarge(p, path) else path
  }

  /**
   The circle's checkmark runs left to right, down to its middle vertex and
   up to a right end above the start; the square's is the same mark scaled
   by 1.5 about the centre.
   */
  lemma CheckmarkShape(p: Presets)
    requires p.size > 0.0
    ensures var m := CheckmarkPath(p.(boxType := Circle));
            |m| == 3 && m[0].to.x < m[1].to.x < m[2].to.x
            && m[2].to.y < m[0].to.y < m[1].to.y
    ensures CheckmarkPath(p.(boxType := Square))
            == MapPath(AboutCentre(1.5, p.size / 2.0), CheckmarkPath(p.(boxType := Circle)))
  {
    EnlargeIsAboutCentre(p, Polyline(CircleCheckmarkVertices(p)));
    assert p.(boxType := Square).size == p.size;
  }

  /** `pathForMark`: the checkmark, or the radio disc (the box scaled by 0.665 and shifted by 0.1675 of the size). */
  function Mark(p: Presets, o: PG.Opaque): Path
  {
    if p.markType == Checkmark then CheckmarkPath(p) else PP.RadioPath(p, o)
  }

  function MixedCheckmark(p: Presets): Path
  {
    Polyline([Point(p.size / 3.1578, p.size / 2.0), Point(p.size / 2.0, p.size / 2.0),
              Point(p.size / 1.3953, p.size / 2.0)])
  }

  /** The mixed radio mark; the code computes a reversed copy and discards it, returning the segment as written. */
  function MixedRadio(p: Presets): Path
  {
    Polyline([Point(p.size / 3.1578, p.size / 2.0), Point(p.size / 1.3953, p.size / 2.0)])
  }

  function MixedMark(p: Presets): Path
  {
    if p.markType == Checkmark then MixedCheckmark(p) else MixedRadio(p)
  }

  /**
   Both mixed marks lie on y = size/2 and span the same two ends, which sit
   at the circle checkmark's first and last x; the checkmark's passes the centre.
   */
  lemma MixedMarksAreHorizontal(p: Presets)
    ensures OnHorizontal(MixedCheckmark(p), p.size / 2.0) && OnHorizontal(MixedRadio(p), p.size / 2.0)
    ensures MixedCheckmark(p)[0] == MixedRadio(p)[0] && MixedCheckmark(p)[2] == MixedRadio(p)[1]
    ensures MixedCheckmark(p)[1].to == Point(p.size / 2.0, p.size / 2.0)
    ensures MixedCheckmark(p)[0].to.x == CircleCheckmarkVertices(p)[0].x
    ensures MixedCheckmark(p)[2].to.x == CircleCheckmarkVertices(p)[2].x
  {
  }

  /** `path(state)`: the unselected mark (the mark itself), the mark, or the mixed mark. */
  function PathFor(p: Presets, o: PG.Opaque, s: CheckState): Option<Path>
  {
    match s
    case Unchecked => if p.markType == Checkmark then Some(CheckmarkPath(p)) else Some(PP.RadioPath(p, o))
    case Checked => Some(Mark(p, o))
    case Mixed => Some(MixedMark(p))
  }

  /** `path(state)` is never nil; unchecked and checked draw the same mark, mixed the mixed mark. */
  lemma PathForTable(p: Presets, o: PG.Opaque, s: CheckState)
    ensures PathFor(p, o, s).Some?
    ensures PathFor(p, o, Unchecked) == PathFor(p, o, Checked) == Some(Mark(p, o))
    ensures PathFor(p, o, Mixed) == Some(MixedMark(p))
  {
  }

  // ---------------------------------------------------------------- spiral presets

  /**
   `pathForLongCheckmark`: the first two vertices, then a far end; for a
   square box all three are enlarged, for a circle the far end is the
   trigonometric diagonal point.
   */
  function LongCheckmark(p: Presets, o: PG.Opaque): Path
  {
    var a := Point(p.size / 3.1578, p.size / 2.0);
    var b := Point(p.size / 2.0, p.size / 1.57894);
    if p.boxType == Square then Enlarge(p, Polyline([a, b, Point(p.size / 1.2053, p.size / 4.5272)]))
    else Polyline([a, b, o.circleDiagonal])
  }

  function LongMixedMark(p: Presets): Path
  {
    Polyline([Point(p.size / 3.0, p.size / 2.0), Point(p.size, p.size / 2.0)])
  }

  /** `pathForLongMark(state)`: the long checkmark or the box for unchecked and checked, the long mixed mark for mixed. */
  function LongMark(p: Presets, o: PG.Opaque, s: CheckState): Path
  {
    match s
    case Unchecked => if p.markType == Checkmark then LongCheckmark(p, o) else PP.Box(p, o)
    case Checked => if p.markType == Checkmark then LongCheckmark(p, o) else PP.Box(p, o)
    case Mixed => LongMixedMark(p)
  }

  /**
   The long-mark table: unchecked and checked agree, mixed ignores the mark
   type and runs from size/3 to the right edge on y = size/2, and the
   radio's long mark is the box.
   */
  lemma LongMarkTable(p: Presets, o: PG.Opaque)
    ensures LongMark(p, o, Unchecked) == LongMark(p, o, Checked)
    ensures LongMark(p, o, Mixed) == LongMark(p.(markType := Radio), o, Mixed) == LongMark(p.(markType := Checkmark), o, Mixed)
    ensures OnHorizontal(LongMark(p, o, Mixed), p.size / 2.0)
    ensures LongMark(p, o, Mixed)[0].to.x == p.size / 3.0 && LongMark(p, o, Mixed)[1].to.x == p.size
    ensures p.markType == Radio ==> LongMark(p, o, Checked) == PP.Box(p, o)
  {
  }

  /**
   The long checkmark starts where the checkmark starts; its middle vertex
   is (size/2, size/1.57894) and its far end the diagonal point on a circle,
   both moved by the 1.5 scale about the centre on a square.
   */
  lemma LongCheckmarkStartsLikeMark(p: Presets, o: PG.Opaque)
    ensures |LongCheckmark(p, o)| == 3 && LongCheckmark(p, o)[0] == CheckmarkPath(p)[0]
    ensures p.boxType == Circle ==> LongCheckmark(p, o)[1].to == Point(p.size / 2.0, p.size / 1.57894)
                                    && LongCheckmark(p, o)[2].to == o.circleDiagonal
    ensures p.boxType == Square ==>
              var m := AboutCentre(1.5, p.size / 2.0);
              LongCheckmark(p, o)[1] == Line(Apply(m, Point(p.size / 2.0, p.size / 1.57894)))
              && LongCheckmark(p, o)[2] == Line(Apply(m, Point(p.size / 1.2053, p.size / 4.5272)))
  {
    if p.boxType == Square {
      var a := Point(p.size / 3.1578, p.size / 2.0);
      var b := Point(p.size / 2.0, p.size / 1.57894);
      var path := Polyline([a, b, Point(p.size / 1.2053, p.size / 4.5272)]);
      var mark := Polyline(CircleCheckmarkVertices(p));
      EnlargeIsAboutCentre(p, path);
      EnlargeIsAboutCentre(p, mark);
      MapPathAt(AboutCentre(1.5, p.size / 2.0), path);
      MapPathAt(AboutCentre(1.5, p.size / 2.0), mark);
      assert path[0] == mark[0];
    }
  }

  /**
   On a box of positive size the unchecked long mark is no long mixed mark:
   neither this generation's nor the newest presets'. A checkmark's bends
   below the centre line where the mixed marks run along it; the radio's is
   the closed box, where the mixed marks end in a line.
   */
  lemma UncheckedLongMarkIsNotMixed(p: Presets, o: PG.Opaque)
    requires p.size > 0.0
    ensures LongMark(p, o, Unchecked) != LongMark(p, o, Mixed)
    ensures LongMark(p, o, Unchecked) != PP.LongMark(p, o, Mixed)
  {
    var u := LongMark(p, o, Unchecked);
    if p.markType == Checkmark {
      LongCheckmarkStartsLikeMark(p, o);
      assert |u| == 3 != |LongMark(p, o, Mixed)|;
      assert u[1].to.y != p.size / 2.0 == PP.LongMark(p, o, Mixed)[1].to.y;
    } else {
      PP.BoxTable(p, o);
      assert !u[|u| - 1].Line?;
    }
  }

  // ---------------------------------------------------------------- dot presets

  /** `pathForDot`: the box scaled by 1/20, then shifted by (size - size/20)/2 on both axes. */
  function Dot(p: Presets, o: PG.Opaque): Path
  {
    var k := 0.05;  // 1/20
    MapPath(Translate((p.size - p.size * k) / 2.0, (p.size - p.size * k) / 2.0), MapPath(Scale(k), PP.Box(p, o)))
  }

  /** The dot is the newest presets' dot: the box shrunk to 1/20 about its centre. */
  lemma DotIsBoxShrunkAboutCentre(p: Presets, o: PG.Opaque)
    ensures Dot(p, o) == PP.Dot(p, o) == MapPath(AboutCentre(0.05, p.size / 2.0), PP.Box(p, o))
  {
    var g := PP.AsGenerator(p);
    assert PP.Box(p, o) == PG.Box(g, o);
    assert Dot(p, o) == PG.Dot(g, o);
    PP.DotIsBoxShrunkAboutCentre(p, o);
  }
}
