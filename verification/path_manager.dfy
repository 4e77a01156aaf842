/**
 The oldest generation's path manager. It shares the presets' measurements
 record, draws its own circle and dot as single arcs about the centre of
 the box, and otherwise uses the same hard-coded checkmark fractions as the
 middle generation, with its own middle vertex for the mixed checkmark and
 its own far end for the long checkmark on a circle.
 */
module PathManager {
  import opened Kinds
  import opened Geometry
  import PG = PathGenerator
  import PP = PresetPaths
  import CP = ClassicPresets

  type Presets = PP.Presets

  /** `pathForBox`: a circle of radius size/2 - boxLineWidth/2 about (size/2, size/2), or the rounded rectangle. */
  function Box(p: Presets, o: PG.Opaque): Path
  {
    if p.boxType == Circle then
      var radius := p.size / 2.0;
      [Arc(Point(radius, radius), radius - p.boxLineWidth / 2.0, -0.25, 1.75)]
    else PG.RoundedRectBox(PP.AsGenerator(p), o)
  }

  /**
   The path manager's circle is centred, with its stroke exactly filling
   the square [0, size]; it is the centred box of the presets, not the
   off-centre one they write.
   */
  lemma BoxIsCentred(p: Presets, o: PG.Opaque)
    ensures Box(p, o) == PP.Box(p, o)
    ensures p.boxType == Circle ==> Box(p, o)[0].centre == Point(p.size / 2.0, p.size / 2.0)
    ensures p.boxLineWidth > 0.0 && p.boxType == Circle ==> Box(p, o) != CP.BoxAsWritten(p, o)
  {
    if p.boxLineWidth > 0.0 {
      CP.BoxAsWrittenOffCentre(p, o);
    }
  }

  /** `pathForDot`: a full circle of radius size/20 about the centre. */
  function Dot(p: Presets): Path
  {
    [Arc(Point(p.size / 2.0, p.size / 2.0), p.size / 20.0, 0.0, 2.0)]
  }

  /** The dot is one full turn about the box's centre, with a twentieth of the size as radius; it lies inside [0.45 size, 0.55 size]^2. */
  lemma DotIsCentred(p: Presets)
    requires p.size >= 0.0
    ensures |Dot(p)| == 1 && Dot(p)[0].Arc?
    ensures Dot(p)[0].centre == Point(p.size / 2.0, p.size / 2.0)
    ensures Dot(p)[0].endAngle - Dot(p)[0].startAngle == 2.0
    ensures var a := Dot(p)[0];
            0.45 * p.size <= a.centre.x - a.radius && a.centre.x + a.radius <= 0.55 * p.size
  {
  }

  /** The radio mark: the box scaled by 0.665 and shifted by 0.1675 of the size. */
  function Radio(p: Presets, o: PG.Opaque): Path
  {
    MapPath(Translate(p.size * 0.1675, p.size * 0.1675), MapPath(Scale(0.665), Box(p, o)))
  }

  /** `pathForMark`: the checkmark or the radio mark, by mark type. */
  function Mark(p: Presets, o: PG.Opaque): Path
  {
    if p.markType == Checkmark then CP.CheckmarkPath(p) else Radio(p, o)
  }

  /** The mark is the middle generation's mark: the same checkmark, and the radio disc shrunk about the centre. */
  lemma MarkAgreesWithPresets(p: Presets, o: PG.Opaque)
    ensures Mark(p, o) == CP.Mark(p, o)
    ensures Radio(p, o) == MapPath(AboutCentre(0.665, p.size / 2.0), Box(p, o))
  {
    BoxIsCentred(p, o);
    assert Radio(p, o) == PP.RadioPath(p, o);
    PP.RadioIsBoxShrunkAboutCentre(p, o);
  }

  /** `pathForLongCheckmark`: the checkmark's first two vertices and a far end, enlarged for a square box. */
  function LongCheckmark(p: Presets): Path
  {
    var a := Point(p.size / 3.1578, p.size / 2.0);
    var b := Point(p.size / 2.0618, p.size / 1.57894);
    if p.boxType == Square then CP.Enlarge(p, Polyline([a, b, Point(p.size / 1.2053, p.size / 4.5272)]))
    else Polyline([a, b, Point(p.size / 1.1553, p.size / 5.9272)])
  }

  /**
   The long checkmark shares the checkmark's first two vertices for either
   box; on a circle its far end lies beyond the checkmark's, further right
   and higher.
   */
  lemma LongCheckmarkSharesArms(p: Presets)
    ensures |LongCheckmark(p)| == 3 && LongCheckmark(p)[..2] == CP.CheckmarkPath(p)[..2]
    ensures p.boxType == Circle && p.size > 0.0 ==>
              LongCheckmark(p)[2].to.x > CP.CheckmarkPath(p)[2].to.x
              && LongCheckmark(p)[2].to.y < CP.CheckmarkPath(p)[2].to.y
  {
    var a := Point(p.size / 3.1578, p.size / 2.0);
    var b := Point(p.size / 2.0618, p.size / 1.57894);
    var long := Polyline([a, b, Point(p.size / 1.2053, p.size / 4.5272)]);
    var mark := Polyline(CP.CircleCheckmarkVertices(p));
    assert long[..2] == mark[..2];
    if p.boxType == Square {
      var shift := Translate(-p.size / 4.0, -p.size / 4.0);
      MapPathAt(Scale(1.5), long);
      MapPathAt(Scale(1.5), mark);
      MapPathAt(shift, MapPath(Scale(1.5), long));
      MapPathAt(shift, MapPath(Scale(1.5), mark));
      assert CP.Enlarge(p, long)[0] == CP.Enlarge(p, mark)[0];
      assert CP.Enlarge(p, long)[1] == CP.Enlarge(p, mark)[1];
    }
  }

  /** The mixed checkmark: the circle checkmark's three x positions, on y = size/2. */
  function MixedCheckmark(p: Presets): Path
  {
    Polyline([Point(p.size / 3.1578, p.size / 2.0), Point(p.size / 2.0618, p.size / 2.0),
              Point(p.size / 1.3953, p.size / 2.0)])
  }

  /** The mixed radio mark; the code computes a reversed copy and discards it, returning the segment as written. */
  function MixedRadio(p: Presets): Path
  {
    Polyline([Point(p.size / 3.1578, p.size / 2.0), Point(p.size / 1.3953, p.size / 2.0)])
  }

  /** `pathForMixedMark`: by mark type. */
  function MixedMark(p: Presets): Path
  {
    if p.markType == Checkmark then MixedCheckmark(p) else MixedRadio(p)
  }

  /**
   The mixed checkmark is the circle checkmark flattened onto y = size/2:
   the same x at every vertex. The mixed radio mark spans its two ends, as
   the middle generation's does.
   */
  lemma MixedCheckmarkIsFlattenedMark(p: Presets)
    ensures OnHorizontal(MixedCheckmark(p), p.size / 2.0) && OnHorizontal(MixedRadio(p), p.size / 2.0)
    ensures forall i :: 0 <= i < 3 ==> MixedCheckmark(p)[i].to.x == CP.CircleCheckmarkVertices(p)[i].x
    ensures MixedRadio(p) == CP.MixedRadio(p)
    ensures MixedCheckmark(p)[0] == MixedRadio(p)[0] && MixedCheckmark(p)[2] == MixedRadio(p)[1]
  {
  }

  /** `pathForLongMixedMark`: from size/3 to the right edge on y = size/2, as the middle generation's spiral presets draw it. */
  function LongMixedMark(p: Presets): Path
  {
    CP.LongMixedMark(p)
  }
}
