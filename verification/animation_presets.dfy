/**
 The oldest generation's animation presets: for every animation, the
 properties of the three layers at the unselected and at the selected end
 of the animation. Colours are presets (none, the main tint, the secondary
 tint) rather than colours, and the line width is a flag saying whether the
 layer keeps its configured width.
 */
module AnimationPresets {
  import opened Kinds
  import L = Layers
  import OC = OriginalCheckbox

  datatype ColourPreset = None | Main | Secondary

  datatype LayerPreset = LayerPreset(
    opacity: real,
    strokeEnd: real,
    transform: L.Transform,
    fill: ColourPreset,
    stroke: ColourPreset,
    lineWidth: bool)

  datatype PropertiesPreset = PropertiesPreset(unselectedBox: LayerPreset, selectedBox: LayerPreset, mark: LayerPreset)

  datatype EndPoint = EndPoint(unselected: PropertiesPreset, selected: PropertiesPreset)

  /** `animationPresets[a]`: the dictionary's entry for animation `a`, which has one for every animation. */
  function EndPointOf(a: Animation): EndPoint
  {
    var I := L.Identity;
    var Z := L.ScaleZero;
    match a
    case Stroke => EndPoint(
      PropertiesPreset(LayerPreset(1.0, 1.0, I, None, Main, true),
                       LayerPreset(0.0, 0.0, I, None, Main, true),
                       LayerPreset(0.0, 0.0, I, None, Main, true)),
      PropertiesPreset(LayerPreset(1.0, 1.0, I, None, Main, true),
                       LayerPreset(1.0, 1.0, I, None, Main, true),
                       LayerPreset(1.0, 1.0, I, None, Main, true)))
    case Fill => EndPoint(
      PropertiesPreset(LayerPreset(1.0, 1.0, I, None, Main, true),
                       LayerPreset(1.0, 1.0, Z, Main, Main, true),
                       LayerPreset(0.0, 1.0, I, None, Secondary, true)),
      PropertiesPreset(LayerPreset(1.0, 1.0, I, None, Main, true),
                       LayerPreset(1.0, 1.0, I, Main, Main, true),
                       LayerPreset(1.0, 1.0, I, None, Secondary, true)))
    case Bounce(StrokeStyle) => EndPoint(
      PropertiesPreset(LayerPreset(1.0, 1.0, I, None, Main, true),
                       LayerPreset(0.0, 1.0, I, None, Main, true),
                       LayerPreset(1.0, 1.0, Z, None, Main, true)),
      PropertiesPreset(LayerPreset(1.0, 1.0, I, None, Main, true),
                       LayerPreset(1.0, 1.0, I, None, Main, true),
                       LayerPreset(1.0, 1.0, I, None, Main, true)))
    case Bounce(FillStyle) => EndPoint(
      PropertiesPreset(LayerPreset(1.0, 1.0, I, None, Main, true),
                       LayerPreset(0.0, 1.0, I, Main, Main, true),
                       LayerPreset(1.0, 1.0, Z, None, Secondary, true)),
      PropertiesPreset(LayerPreset(1.0, 1.0, I, None, Main, true),
                       LayerPreset(1.0, 1.0, I, Main, Main, true),
                       LayerPreset(1.0, 1.0, I, None, Secondary, true)))
    case Expand(StrokeStyle) => EndPoint(
      PropertiesPreset(LayerPreset(1.0, 1.0, I, None, Main, true),
                       LayerPreset(1.0, 1.0, Z, None, Main, true),
                       LayerPreset(1.0, 1.0, Z, None, Main, true)),
      PropertiesPreset(LayerPreset(1.0, 1.0, I, None, Main, true),
                       LayerPreset(1.0, 1.0, I, None, Main, true),
                       LayerPreset(1.0, 1.0, I, None, Main, true)))
    case Expand(FillStyle) => EndPoint(
      PropertiesPreset(LayerPreset(1.0, 1.0, I, None, Main, true),
                       LayerPreset(1.0, 1.0, Z, Main, Main, true),
                       LayerPreset(1.0, 1.0, Z, None, Secondary, true)),
      PropertiesPreset(LayerPreset(1.0, 1.0, I, None, Main, true),
                       LayerPreset(1.0, 1.0, I, Main, Main, true),
                       LayerPreset(1.0, 1.0, I, None, Secondary, true)))
    case Flat(StrokeStyle) => EndPoint(
      PropertiesPreset(LayerPreset(1.0, 1.0, I, None, Main, true),
                       LayerPreset(0.0, 1.0, I, None, Main, true),
                       LayerPreset(0.0, 1.0, I, None, Main, true)),
      PropertiesPreset(LayerPreset(1.0, 1.0, I, None, Main, true),
                       LayerPreset(1.0, 1.0, I, None, Main, true),
                       LayerPreset(1.0, 1.0, I, None, Main, true)))
    case Flat(FillStyle) => EndPoint(
      PropertiesPreset(LayerPreset(1.0, 1.0, I, None, Main, true),
                       LayerPreset(0.0, 1.0, I, Main, Main, true),
                       LayerPreset(1.0, 1.0, I, None, Secondary, false)),
      PropertiesPreset(LayerPreset(1.0, 1.0, I, None, Main, true),
                       LayerPreset(1.0, 1.0, I, Main, Main, true),
                       LayerPreset(1.0, 1.0, I, None, Secondary, true)))
    case Spiral => EndPoint(
      PropertiesPreset(LayerPreset(1.0, 1.0, I, None, Main, true),
                       LayerPreset(0.0, 0.0, I, None, Main, true),
                       LayerPreset(0.0, 0.0, I, None, Main, true)),
      PropertiesPreset(LayerPreset(1.0, 1.0, I, None, Main, true),
                       LayerPreset(1.0, 1.0, I, None, Main, true),
                       LayerPreset(1.0, 1.0, I, None, Main, true)))
    case Fade(StrokeStyle) => EndPoint(
      PropertiesPreset(LayerPreset(1.0, 1.0, I, None, Main, true),
                       LayerPreset(0.0, 1.0, I, None, Main, true),
                       LayerPreset(0.0, 1.0, I, None, Main, true)),
      PropertiesPreset(LayerPreset(1.0, 1.0, I, None, Main, true),
                       LayerPreset(1.0, 1.0, I, None, Main, true),
                       LayerPreset(1.0, 1.0, I, None, Main, true)))
    case Fade(FillStyle) => EndPoint(
      PropertiesPreset(LayerPreset(1.0, 1.0, I, None, Main, true),
                       LayerPreset(0.0, 1.0, I, Main, Main, true),
                       LayerPreset(0.0, 1.0, I, None, Secondary, true)),
      PropertiesPreset(LayerPreset(1.0, 1.0, I, None, Main, true),
                       LayerPreset(1.0, 1.0, I, Main, Main, true),
                       LayerPreset(1.0, 1.0, I, None, Secondary, true)))
    case Dot(StrokeStyle) => EndPoint(
      PropertiesPreset(LayerPreset(1.0, 1.0, I, None, Main, true),
                       LayerPreset(1.0, 1.0, Z, None, Main, true),
                       LayerPreset(0.0, 1.0, I, None, Main, true)),
      PropertiesPreset(LayerPreset(0.0, 1.0, I, None, Main, true),
                       LayerPreset(1.0, 1.0, I, None, Main, true),
                       LayerPreset(1.0, 1.0, I, None, Main, true)))
    case Dot(FillStyle) => EndPoint(
      PropertiesPreset(LayerPreset(1.0, 1.0, I, None, Main, true),
                       LayerPreset(1.0, 1.0, Z, Main, Main, true),
                       LayerPreset(0.0, 1.0, I, None, Secondary, true)),
      PropertiesPreset(LayerPreset(1.0, 1.0, I, None, Main, true),
                       LayerPreset(1.0, 1.0, I, Main, Main, true),
                       LayerPreset(1.0, 1.0, I, None, Secondary, true)))
  }

  /** A layer preset that leaves the layer invisible: transparent, not stroked at all, scaled to nothing, or with no line width. */
  predicate Hidden(p: LayerPreset)
  {
    p.opacity == 0.0 || p.strokeEnd == 0.0 || p.transform == L.ScaleZero || !p.lineWidth
  }

  /** A layer preset that shows the whole layer at its configured width. */
  predicate Shown(p: LayerPreset)
  {
    p.opacity == 1.0 && p.strokeEnd == 1.0 && p.transform == L.Identity && p.lineWidth
  }

  /**
   The selected end shows every layer of every entry, the one exception
   being the stroke-style dot, whose unselected box is transparent there and
   otherwise drawn in full.
   */
  lemma SelectedEndShowsAll(a: Animation)
    ensures var e := EndPointOf(a).selected;
            Shown(e.selectedBox) && Shown(e.mark)
            && (Shown(e.unselectedBox) <==> a != Dot(StrokeStyle))
            && e.unselectedBox.strokeEnd == 1.0 && e.unselectedBox.transform == L.Identity
            && (e.unselectedBox.opacity == 0.0 <==> a == Dot(StrokeStyle))
  {
  }

  /** The unselected end hides the selected box and the mark of every entry, and shows the unselected box stroked in the main tint. */
  lemma UnselectedEndHidesSelection(a: Animation)
    ensures var e := EndPointOf(a).unselected;
            Hidden(e.selectedBox) && Hidden(e.mark)
            && e.unselectedBox == LayerPreset(1.0, 1.0, L.Identity, None, Main, true)
  {
  }

  /** Only stroke and spiral start the selected box and the mark at stroke end 0; every other entry starts them fully stroked. */
  lemma StrokeEndStartsAtZero(a: Animation)
    ensures EndPointOf(a).unselected.selectedBox.strokeEnd == 0.0 <==> a == Stroke || a == Spiral
    ensures EndPointOf(a).unselected.mark.strokeEnd == 0.0 <==> a == Stroke || a == Spiral
    ensures EndPointOf(a).unselected.selectedBox.strokeEnd == 0.0 || EndPointOf(a).unselected.selectedBox.strokeEnd == 1.0
    ensures EndPointOf(a).unselected.mark.strokeEnd == EndPointOf(a).unselected.selectedBox.strokeEnd
  {
  }

  /**
   Scale-to-zero appears only at the unselected end: on the selected box for
   fill, expand and dot, on the mark for bounce and expand. The selected box
   is hidden either by transparency or by scale, never both.
   */
  lemma ScaleZeroOnlyUnselected(a: Animation)
    ensures var e := EndPointOf(a);
            e.selected.unselectedBox.transform == e.selected.selectedBox.transform == e.selected.mark.transform == L.Identity
            && e.unselected.unselectedBox.transform == L.Identity
    ensures EndPointOf(a).unselected.selectedBox.transform == L.ScaleZero <==> a == Fill || a.Expand? || a.Dot?
    ensures EndPointOf(a).unselected.mark.transform == L.ScaleZero <==> a.Bounce? || a.Expand?
    ensures EndPointOf(a).unselected.selectedBox.opacity == 0.0 <==> EndPointOf(a).unselected.selectedBox.transform == L.Identity
  {
  }

  /**
   The colours follow the animation's style at both ends: the fill style
   fills the selected box in the main tint and strokes the mark in the
   secondary tint; the stroke style fills nothing and strokes the mark in
   the main tint. The unselected box is always stroked in the main tint, and
   the mark never filled.
   */
  lemma ColoursFollowStyle(a: Animation, selected: bool)
    ensures var p := if selected then EndPointOf(a).selected else EndPointOf(a).unselected;
            p.selectedBox.stroke == Main && p.unselectedBox.stroke == Main
            && p.unselectedBox.fill == None && p.mark.fill == None
            && (p.selectedBox.fill == Main <==> StyleOf(a) == FillStyle)
            && (p.selectedBox.fill == None <==> StyleOf(a) == StrokeStyle)
            && (p.mark.stroke == Secondary <==> StyleOf(a) == FillStyle)
            && (p.mark.stroke == Main <==> StyleOf(a) == StrokeStyle)
  {
  }

  /** Every layer keeps its line width, except the flat fill's mark at the unselected end. */
  lemma LineWidthKeptButFlatFill(a: Animation)
    ensures var e := EndPointOf(a);
            e.selected.unselectedBox.lineWidth && e.selected.selectedBox.lineWidth && e.selected.mark.lineWidth
            && e.unselected.unselectedBox.lineWidth && e.unselected.selectedBox.lineWidth
            && (e.unselected.mark.lineWidth <==> a != Flat(FillStyle))
  {
  }

  /** The mark starts opaque only for bounce, expand and flat fill, and transparent for every other entry. */
  lemma UnselectedMarkOpacity(a: Animation)
    ensures EndPointOf(a).unselected.mark.opacity == 1.0 <==> a.Bounce? || a.Expand? || a == Flat(FillStyle)
    ensures EndPointOf(a).unselected.mark.opacity == 0.0 <==> !(a.Bounce? || a.Expand? || a == Flat(FillStyle))
  {
  }

  /** The layer colour a colour preset stands for on a layer with the given main and secondary colours. */
  function ColourOf(c: ColourPreset, main: L.Colour, secondary: L.Colour): L.Colour
  {
    match c
    case None => L.NoColour
    case Main => main
    case Secondary => secondary
  }

  /**
   For the checkmark the presets' colours are the ones the view sets for the
   same animation: the selected box's stroke and fill, and the mark's stroke
   and fill, with the main preset standing for the tint and the secondary
   for the checkmark tint. The unselected box, whose main colour is the
   secondary tint, agrees except for the dot animations, which the view
   fills instead of stroking.
   */
  lemma PresetColoursMatchView(l: L.Layers, a: Animation, selected: bool)
    ensures var p := if selected then EndPointOf(a).selected else EndPointOf(a).unselected;
            var v := OC.Colours(l, a, Checkmark);
            ColourOf(p.selectedBox.stroke, L.Tint, L.CheckmarkTint) == v.selectedBox.stroke
            && ColourOf(p.selectedBox.fill, L.Tint, L.CheckmarkTint) == v.selectedBox.fill
            && ColourOf(p.mark.stroke, L.Tint, L.CheckmarkTint) == v.mark.stroke
            && ColourOf(p.mark.fill, L.Tint, L.CheckmarkTint) == v.mark.fill
    ensures var p := EndPointOf(a).unselected;
            var v := OC.Colours(l, a, Checkmark);
            (ColourOf(p.unselectedBox.stroke, L.SecondaryTint, L.NoColour) == v.unselectedBox.stroke
             && ColourOf(p.unselectedBox.fill, L.SecondaryTint, L.NoColour) == v.unselectedBox.fill) <==> !a.Dot?
  {
    ColoursFollowStyle(a, selected);
    OC.ColourTable(l, a, Checkmark);
  }
}
