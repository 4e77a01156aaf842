/**
 The path presets of the newest generation's managers: one object holding
 the size, line widths, corner radius, box shape and a checkmark-or-radio
 mark type, that draws the box and the marks, with a spiral variant adding
 the long marks and a dot variant adding the dot.

 The box, the mixed marks and the first two checkmark vertices are the
 check generator's, so the presets are read as a check generator for those.
 The checkmark's far ends are the presets' own trigonometric points, which
 the presets compute without the generator's box line-width corrections;
 like the generator's, they are inputs.
 */
module PresetPaths {
  import opened Wrappers
  import opened Kinds
  import opened Geometry
  import opened Layers
  import PG = PathGenerator
  import Defaults

  /** Which subclass of the presets a manager installed. */
  datatype Family = PlainPresets | SpiralPresets | DotPresets

  datatype Presets = Presets(
    family: Family,
    size: real,
    checkmarkLineWidth: real,
    boxLineWidth: real,
    cornerRadius: real,
    boxType: BoxType,
    markType: ClassicMarkType)

  /** Fresh presets of a family, with the stored property defaults. */
  function NewPresets(family: Family): Presets
  {
    Presets(family, 0.0, 1.0, 1.0, 3.0, Circle, Checkmark)
  }

  /** The presets' geometry, as the check generator with the same measurements. */
  function AsGenerator(p: Presets): (g: PG.Generator)
    ensures g.kind == PG.CheckGenerator && g.size == p.size && g.boxLineWidth == p.boxLineWidth
    ensures g.boxType == p.boxType && g.cornerRadius == p.cornerRadius
  {
    PG.Generator(PG.CheckGenerator, p.size, p.checkmarkLineWidth, p.boxLineWidth, p.cornerRadius, p.boxType)
  }

  /**
   `pathForCircle` as written: the arc of radius (size - boxLineWidth)/2 is
   centred at (radius, radius).
   */
  function CircleAsWritten(p: Presets): (r: Path)
    ensures |r| == 1 && r[0].Arc?
  {
    var radius := (p.size - p.boxLineWidth) / 2.0;
    [Arc(Point(radius, radius), radius, -0.25, 1.75)]
  }

  /**
   As written, the circle is off centre by half the box line width: its
   stroke sticks out of the left and top edges by boxLineWidth/2 and stops
   short of the right and bottom edges by as much.
   */
  lemma CircleAsWrittenOffCentre(p: Presets)
    requires p.boxLineWidth > 0.0
    ensures var a := CircleAsWritten(p)[0];
            a.centre != Point(p.size / 2.0, p.size / 2.0)
            && a.centre.x - a.radius - p.boxLineWidth / 2.0 == -p.boxLineWidth / 2.0 < 0.0
            && a.centre.x + a.radius + p.boxLineWidth / 2.0 == p.size - p.boxLineWidth / 2.0 < p.size
  {
  }

  /** The circle as the newer generators draw it: about the centre of the box. */
  function CirclePath(p: Presets): (r: Path)
    ensures |r| == 1 && r[0].Arc? && r[0].radius == (p.size - p.boxLineWidth) / 2.0
    ensures r[0].centre == Point(p.size / 2.0, p.size / 2.0)
    ensures r[0].startAngle == -0.25 && r[0].endAngle == 1.75
  {
    PG.CircleBox(AsGenerator(p))
  }

  /** The centred circle's stroke exactly fills the square [0, size]. */
  lemma CircleStrokeFillsFrame(p: Presets)
    ensures var a := CirclePath(p)[0];
            a.centre.x - a.radius - p.boxLineWidth / 2.0 == 0.0
            && a.centre.x + a.radius + p.boxLineWidth / 2.0 == p.size
            && a.centre.y - a.radius - p.boxLineWidth / 2.0 == 0.0
  {
  }

  /** `pathForBox`, with the centred circle. */
  function Box(p: Presets, o: PG.Opaque): Path
  {
    PG.Box(AsGenerator(p), o)
  }

  /** The box is the centred circle for a circular box and the generator's rounded rectangle for a square one. */
  lemma BoxTable(p: Presets, o: PG.Opaque)
    ensures p.boxType == Circle ==> Box(p, o) == CirclePath(p)
    ensures p.boxType == Square ==> Box(p, o) == PG.RoundedRectBox(AsGenerator(p), o)
  {
  }

  function CheckmarkPath(p: Presets, o: PG.Opaque): Path
  {
    Polyline([PG.ShortArmEnd(AsGenerator(p)), PG.MiddlePoint(AsGenerator(p)), o.presetsLongArmEnd])
  }

  /** The radio mark: the box scaled by 0.665, then shifted by 0.1675 of the size, as the radio generator draws it. */
  function RadioPath(p: Presets, o: PG.Opaque): Path
  {
    PG.RadioDisc(AsGenerator(p), o)
  }

  /** The radio mark is the box shrunk about its centre. */
  lemma RadioIsBoxShrunkAboutCentre(p: Presets, o: PG.Opaque)
    ensures RadioPath(p, o) == MapPath(AboutCentre(0.665, p.size / 2.0), Box(p, o))
  {
    var g := AsGenerator(p);
    assert Box(p, o) == PG.Box(g, o);
    PG.RadioDiscIsBoxShrunkAboutCentre(g, o);
  }

  function Mark(p: Presets, o: PG.Opaque): Path
  {
    if p.markType == Checkmark then CheckmarkPath(p, o) else RadioPath(p, o)
  }

  function MixedCheckmark(p: Presets): Path
  {
    Polyline([Point(p.size * 0.25, p.size / 2.0), Point(p.size * 0.5, p.size / 2.0),
              Point(p.size * 0.75, p.size / 2.0)])
  }

  /** The mixed radio mark: the code computes a reversed copy and discards it, so the segment runs left to right as written. */
  function MixedRadio(p: Presets): Path
  {
    Polyline([Point(p.size * 0.25, p.size / 2.0), Point(p.size * 0.75, p.size / 2.0)])
  }

  function MixedMark(p: Presets): Path
  {
    if p.markType == Checkmark then MixedCheckmark(p) else MixedRadio(p)
  }

  /** The unselected mark is the checked mark for both mark types. */
  function UnselectedMark(p: Presets, o: PG.Opaque): Option<Path>
  {
    if p.markType == Checkmark then Some(CheckmarkPath(p, o)) else Some(RadioPath(p, o))
  }

  /** `path(state)`: unselected, mark or mixed mark, by state. */
  function PathFor(p: Presets, o: PG.Opaque, s: CheckState): (r: Option<Path>)
  {
    match s
    case Unchecked => UnselectedMark(p, o)
    case Checked => Some(Mark(p, o))
    case Mixed => Some(MixedMark(p))
  }

  /** `path(state)` never returns nil, and the unchecked and checked paths are the same. */
  lemma PathForTable(p: Presets, o: PG.Opaque, s: CheckState)
    ensures PathFor(p, o, s).Some?
    ensures PathFor(p, o, Unchecked) == PathFor(p, o, Checked)
  {
  }

  /** Both mixed marks run along y = size/2 from 0.25 size to 0.75 size; the checkmark's passes the centre. */
  lemma MixedMarksAreHorizontal(p: Presets)
    ensures OnHorizontal(MixedCheckmark(p), p.size / 2.0) && OnHorizontal(MixedRadio(p), p.size / 2.0)
    ensures MixedCheckmark(p)[0] == MixedRadio(p)[0] && MixedCheckmark(p)[2] == MixedRadio(p)[1]
    ensures MixedCheckmark(p)[1].to == Point(p.size / 2.0, p.size / 2.0)
  {
  }

  /**
   The presets' checkmarks are the check generator's drawn to the presets'
   own far ends: the short-arm end and the middle point are shared, the last
   vertex is the presets' point where the generator has its own, and the
   mixed checkmark is the generator's.
   */
  lemma CheckmarkAsGenerator(p: Presets, o: PG.Opaque)
    ensures CheckmarkPath(p, o)[..2] == PG.HookPath(AsGenerator(p), o, MarkHook).value[..2]
    ensures CheckmarkPath(p, o)[2] == Line(o.presetsLongArmEnd)
    ensures PG.HookPath(AsGenerator(p), o, MarkHook).value[2] == Line(o.longArmEnd)
    ensures CheckmarkPath(p, o) == PG.HookPath(AsGenerator(p), o.(longArmEnd := o.presetsLongArmEnd), MarkHook).value
    ensures LongCheckmark(p, o)
            == PG.HookPath(AsGenerator(p), o.(longArmBoxIntersection := o.presetsLongArmBoxIntersection), LongMarkHook).value
    ensures MixedCheckmark(p) == PG.HookPath(AsGenerator(p), o, MixedHook).value
  {
  }

  // ---------------------------------------------------------------- spiral presets

  function LongCheckmark(p: Presets, o: PG.Opaque): Path
  {
    Polyline([PG.ShortArmEnd(AsGenerator(p)), PG.MiddlePoint(AsGenerator(p)), o.presetsLongArmBoxIntersection])
  }

  /** The long mixed mark: from 0.25 size through the centre to size - boxLineWidth. */
  function LongMixedMark(p: Presets): Path
  {
    Polyline([Point(p.size * 0.25, p.size / 2.0), Point(p.size * 0.5, p.size / 2.0),
              Point(p.size - p.boxLineWidth, p.size * 0.5)])
  }

  /** `pathForLongMark(state)`: the long checkmark or the box for unchecked and checked, the long mixed mark for mixed. */
  function LongMark(p: Presets, o: PG.Opaque, s: CheckState): Path
  {
    match s
    case Unchecked => if p.markType == Checkmark then LongCheckmark(p, o) else Box(p, o)
    case Checked => if p.markType == Checkmark then LongCheckmark(p, o) else Box(p, o)
    case Mixed => LongMixedMark(p)
  }

  /** The long-mark dispatch: unchecked and checked agree, mixed ignores the mark type, the radio's is the box. */
  lemma LongMarkTable(p: Presets, o: PG.Opaque)
    ensures LongMark(p, o, Unchecked) == LongMark(p, o, Checked)
    ensures LongMark(p, o, Mixed) == LongMark(p.(markType := Radio), o, Mixed) == LongMark(p.(markType := Checkmark), o, Mixed)
    ensures p.markType != Checkmark ==> LongMark(p, o, Checked) == Box(p, o)
  {
  }

  /** The long checkmark shares its first two vertices with the checkmark; the long mixed mark shares two with the mixed one. */
  lemma LongMarksExtendMarks(p: Presets, o: PG.Opaque)
    ensures LongCheckmark(p, o)[..2] == CheckmarkPath(p, o)[..2]
    ensures LongMixedMark(p)[..2] == MixedCheckmark(p)[..2]
    ensures LongMixedMark(p)[2].to == Point(p.size - p.boxLineWidth, p.size / 2.0)
  {
  }

  // ---------------------------------------------------------------- dot presets

  /** `pathForDot`: the box scaled by 1/20, then shifted by (size - size/20)/2 on both axes, as the base generator draws it. */
  function Dot(p: Presets, o: PG.Opaque): Path
  {
    PG.Dot(AsGenerator(p), o)
  }

  /** The dot is the box shrunk to 1/20 about the centre, which stays in place. */
  lemma DotIsBoxShrunkAboutCentre(p: Presets, o: PG.Opaque)
    ensures Dot(p, o) == MapPath(AboutCentre(0.05, p.size / 2.0), Box(p, o))
    ensures Apply(AboutCentre(0.05, p.size / 2.0), Point(p.size / 2.0, p.size / 2.0)) == Point(p.size / 2.0, p.size / 2.0)
  {
    var g := AsGenerator(p);
    assert Box(p, o) == PG.Box(g, o);
    PG.DotIsBoxShrunkAboutCentre(g, o);
  }
}
