/**
 The oldest generation's checkbox view: one control that owns its three
 layers, a path manager and an animation, with no controllers or managers
 in between. The state setter stores the new state unconditionally and
 then resets the layers or starts an animation; the colours follow a table
 keyed by animation and mark type; the radio mark cannot be combined with
 the spiral animation.

 Animations are transient and are not modelled; what is modelled is the
 value of every layer property the view writes directly, and, as a flag,
 that a later layout pass has been requested.
 */
module OriginalCheckbox {
  import opened Wrappers
  import opened Kinds
  import opened Layers
  import PP = PresetPaths
  import Codes

  /** The path manager's measurements (size, line widths, corner radius, box type, mark type) live in the presets record. */
  datatype View = View(
    state: CheckState,
    animation: Animation,
    paths: PP.Presets,
    animationDuration: real,
    selected: bool,
    hideBox: bool,
    palette: Palette,
    layers: Layers,
    needsLayout: bool)

  /** The view's mark type is its path manager's. */
  function MarkTypeOf(v: View): ClassicMarkType
  {
    v.paths.markType
  }

  // ---------------------------------------------------------------- colours

  /** `updateColorsForStyle`: the selected box is stroked in tint, and filled in tint for the fill style, where the mark takes the checkmark tint. */
  function StyleColours(l: Layers, style: AnimationStyle): Layers
  {
    if style == StrokeStyle then
      l.(selectedBox := l.selectedBox.(stroke := Tint, fill := NoColour), mark := l.mark.(stroke := Tint, fill := NoColour))
    else
      l.(selectedBox := l.selectedBox.(stroke := Tint, fill := Tint), mark := l.mark.(stroke := CheckmarkTint, fill := NoColour))
  }

  /** `updateRadioColorForStyle`: the box is never filled; for the fill style the mark is filled in tint instead of stroked. */
  function RadioColours(l: Layers, style: AnimationStyle): Layers
  {
    if style == StrokeStyle then
      l.(selectedBox := l.selectedBox.(stroke := Tint, fill := NoColour), mark := l.mark.(stroke := Tint, fill := NoColour))
    else
      l.(selectedBox := l.selectedBox.(stroke := Tint, fill := NoColour), mark := l.mark.(stroke := NoColour, fill := Tint))
  }

  /** The style colours for the checkmark, the radio colours for the radio mark. */
  function ByMark(l: Layers, markType: ClassicMarkType, style: AnimationStyle): Layers
  {
    if markType == Checkmark then StyleColours(l, style) else RadioColours(l, style)
  }

  /**
   `updateColorsForAnimation(animation)`: the unselected box by animation,
   then the selected box and the mark by animation and mark type. Stroke and
   spiral colour the checkmark for the stroke style but the radio mark for
   the fill style; fill additionally fills the radio mark in the checkmark tint.
   */
  function Colours(l: Layers, a: Animation, markType: ClassicMarkType): Layers
  {
    var u := if a.Dot? then l.unselectedBox.(stroke := NoColour, fill := SecondaryTint)
             else l.unselectedBox.(stroke := SecondaryTint, fill := NoColour);
    var l1 := l.(unselectedBox := u);
    match a
    case Stroke => if markType == Checkmark then StyleColours(l1, StrokeStyle) else RadioColours(l1, FillStyle)
    case Spiral => if markType == Checkmark then StyleColours(l1, StrokeStyle) else RadioColours(l1, FillStyle)
    case Bounce(s) => ByMark(l1, markType, s)
    case Expand(s) => ByMark(l1, markType, s)
    case Fade(s) => ByMark(l1, markType, s)
    case Flat(s) => StyleColours(l1, s)
    case Dot(s) => StyleColours(l1, s)
    case Fill =>
      if markType == Checkmark then StyleColours(l1, FillStyle)
      else
        var r := RadioColours(l1, FillStyle);
        r.(mark := r.mark.(fill := CheckmarkTint, stroke := NoColour))
  }

  /**
   The colour table: the unselected box is filled (in the secondary tint)
   exactly for the dot animations and stroked otherwise; the selected box is
   always stroked in tint and filled exactly for a fill-style animation drawn
   with the checkmark, or with any mark by flat and dot; the mark is always
   drawn in some colour, and only opacity and paths are left as they were.
   */
  lemma ColourTable(l: Layers, a: Animation, markType: ClassicMarkType)
    ensures var r := Colours(l, a, markType);
            (r.unselectedBox.fill == SecondaryTint && r.unselectedBox.stroke == NoColour) <==> a.Dot?
    ensures var r := Colours(l, a, markType);
            (r.unselectedBox.stroke == SecondaryTint && r.unselectedBox.fill == NoColour) <==> !a.Dot?
    ensures var r := Colours(l, a, markType);
            r.selectedBox.stroke == Tint
            && (r.selectedBox.fill == Tint <==> StyleOf(a) == FillStyle && (markType == Checkmark || a.Flat? || a.Dot?))
            && (r.mark.stroke != NoColour || r.mark.fill != NoColour)
    ensures var r := Colours(l, a, markType);
            r.selectedBox == l.selectedBox.(stroke := r.selectedBox.stroke, fill := r.selectedBox.fill)
            && r.mark == l.mark.(stroke := r.mark.stroke, fill := r.mark.fill)
            && r.unselectedBox == l.unselectedBox.(stroke := r.unselectedBox.stroke, fill := r.unselectedBox.fill)
  {
  }

  /** The radio mark is filled rather than stroked by stroke, spiral and fill, in tint except for fill, which uses the checkmark tint. */
  lemma RadioColourTable(l: Layers, a: Animation)
    ensures a.Stroke? || a.Spiral? ==> Colours(l, a, Radio).mark.fill == Tint && Colours(l, a, Radio).mark.stroke == NoColour
    ensures a.Fill? ==> Colours(l, a, Radio).mark.fill == CheckmarkTint && Colours(l, a, Radio).mark.stroke == NoColour
    ensures a.Stroke? || a.Spiral? ==> Colours(l, a, Checkmark).mark.stroke == Tint && Colours(l, a, Checkmark).mark.fill == NoColour
  {
  }

  // ---------------------------------------------------------------- state

  /** A new view: unchecked, stroke animation, default path manager, colours for the stroke animation, layout pending. */
  function New(): (v: View)
    ensures v.state == Unchecked && v.animation == Stroke && !v.selected && !v.hideBox && v.needsLayout
    ensures v.layers.selectedBox.opacity == 0.0 && v.layers.mark.opacity == 0.0
    ensures v.layers.unselectedBox.stroke == SecondaryTint && v.layers.selectedBox.stroke == Tint
  {
    var p := PP.NewPresets(PP.PlainPresets);
    var base := Layer(1.0, 1.0, Identity, NoColour, NoColour, 1.0, None);
    var l := Layers(base.(lineWidth := p.boxLineWidth, stroke := SecondaryTint),
                    base.(lineWidth := p.boxLineWidth, stroke := Tint, opacity := 0.0),
                    base.(lineWidth := p.checkmarkLineWidth, stroke := Tint, opacity := 0.0));
    View(Unchecked, Stroke, p, 0.3, false, false, DefaultPalette, Colours(l, Stroke, p.markType), true)
  }

  function Value<V>(v: View, uncheckedValue: V, checkedValue: V, mixedValue: V): (r: V)
    ensures v.state == Unchecked ==> r == uncheckedValue
    ensures v.state == Checked ==> r == checkedValue
    ensures v.state == Mixed ==> r == mixedValue
  {
    match v.state
    case Unchecked => uncheckedValue
    case Checked => checkedValue
    case Mixed => mixedValue
  }

  /**
   `resetLayers`: every layer opaque and untransformed, the unselected box
   and the mark fully stroked. The selected box's stroke end is not written
   (the mark's is written twice).
   */
  function ResetLayers(l: Layers): Layers
  {
    Layers(l.unselectedBox.(opacity := 1.0, transform := Identity, strokeEnd := 1.0),
           l.selectedBox.(opacity := 1.0, transform := Identity),
           l.mark.(opacity := 1.0, transform := Identity, strokeEnd := 1.0))
  }

  /** The reset shows all three layers and leaves the selected box's stroke end, colours and paths as they were. */
  lemma ResetLayersTable(l: Layers)
    ensures var r := ResetLayers(l);
            r.unselectedBox.opacity == r.selectedBox.opacity == r.mark.opacity == 1.0
            && r.unselectedBox.transform == r.selectedBox.transform == r.mark.transform == Identity
            && r.unselectedBox.strokeEnd == r.mark.strokeEnd == 1.0
            && r.selectedBox == l.selectedBox.(opacity := 1.0, transform := Identity)
    ensures ResetLayers(ResetLayers(l)) == ResetLayers(l)
  {
  }

  /**
   `addFromUncheckedAnimation`: nothing when the duration is zero; otherwise
   the layers are reset, and flat and spiral put a temporary path on the
   mark (the mixed mark, the long checkmark drawn reversed).
   */
  function FromUnchecked(v: View): View
  {
    if v.animationDuration == 0.0 then v
    else
      var l := ResetLayers(v.layers);
      var markPath := match v.animation
                      case Flat(_) => Some(MarkShape(MixedHook))
                      case Spiral => Some(Reversed(MarkShape(LongMarkHook)))
                      case _ => l.mark.path;
      v.(layers := l.(mark := l.mark.(path := markPath)))
  }

  /**
   `addToUncheckedAnimation`: nothing when the duration is zero; otherwise
   the layers are reset, spiral puts the reversed long checkmark on the mark and the
   stroke-style dot hides the unselected box.
   */
  function ToUnchecked(v: View): View
  {
    if v.animationDuration == 0.0 then v
    else
      var l := ResetLayers(v.layers);
      match v.animation
      case Spiral => v.(layers := l.(mark := l.mark.(path := Some(Reversed(MarkShape(LongMarkHook))))))
      case Dot(s) => if s == StrokeStyle then v.(layers := l.(unselectedBox := l.unselectedBox.(opacity := 0.0))) else v.(layers := l)
      case _ => v.(layers := l)
  }

  /**
   `setCheckState(state, animated)`: the state is stored first, with no
   check against the current one. Unanimated, the layers are reset and
   recoloured, and for unchecked the selected box and mark are hidden.
   Animated, checked and unchecked start their animation; mixed does nothing more.
   */
  function SetCheckState(v: View, s: CheckState, animated: bool): (r: View)
    ensures r.state == s
    ensures r == v.(state := s, layers := r.layers)
  {
    var v1 := v.(state := s);
    var recoloured := Colours(ResetLayers(v.layers), v.animation, MarkTypeOf(v));
    match s
    case Checked => if animated then FromUnchecked(v1) else v1.(layers := recoloured)
    case Unchecked =>
      if animated then ToUnchecked(v1)
      else v1.(layers := recoloured.(mark := recoloured.mark.(opacity := 0.0),
                                     selectedBox := recoloured.selectedBox.(opacity := 0.0)))
    case Mixed => if animated then v1 else v1.(layers := ResetLayers(v.layers))
  }

  /**
   Unanimated, the layers end up visible exactly for checked and mixed: the
   unselected box always, the selected box and mark only when not unchecked.
   Re-setting the current state is not skipped: the layers are still reset.
   */
  lemma SetCheckStateUnanimated(v: View, s: CheckState)
    ensures var l := SetCheckState(v, s, false).layers;
            l.unselectedBox.opacity == 1.0
            && (l.selectedBox.opacity == 1.0 <==> s != Unchecked)
            && (l.mark.opacity == 1.0 <==> s != Unchecked)
            && (l.selectedBox.opacity == 0.0 <==> s == Unchecked)
    ensures s == v.state ==> SetCheckState(v, s, false).layers.unselectedBox.transform == Identity
  {
  }

  /** Animated, mixed only stores the state, and so does any target when the duration is zero. */
  lemma SetCheckStateAnimatedOnlyStores(v: View, s: CheckState)
    requires s == Mixed || v.animationDuration == 0.0
    ensures SetCheckState(v, s, true) == v.(state := s)
  {
  }

  /**
   Animated with a non-zero duration, checked and unchecked reset the layers
   before their animation starts; under the spiral animation both then
   stroke the long checkmark from its far end.
   */
  lemma SetCheckStateAnimatedResets(v: View, s: CheckState)
    requires s != Mixed && v.animationDuration != 0.0
    ensures var l := SetCheckState(v, s, true).layers;
            l.selectedBox.opacity == 1.0 && l.mark.opacity == 1.0 && l.mark.strokeEnd == 1.0
            && l.selectedBox.transform == Identity && l.mark.transform == Identity
    ensures SetCheckState(v, s, true).layers.unselectedBox.opacity == 0.0
            <==> s == Unchecked && v.animation == Dot(StrokeStyle)
    ensures v.animation == Spiral ==>
              SetCheckState(v, s, true).layers.mark.path == Some(Reversed(MarkShape(LongMarkHook)))
  {
  }

  /** `toggleCheckState(animated)`. */
  function Toggle(v: View, animated: bool): View
  {
    SetCheckState(v, ToggleTarget(v.state), animated)
  }

  /** Toggling never lands on mixed, and toggling twice from checked or unchecked returns to the start. */
  lemma ToggleTwice(v: View, animated: bool)
    ensures Toggle(v, animated).state != Mixed
    ensures v.state != Mixed ==> Toggle(Toggle(v, animated), animated).state == v.state
    ensures v.state == Mixed ==> Toggle(v, animated).state == Unchecked
  {
  }

  // ---------------------------------------------------------------- configuration

  /** The combination the view refuses: the radio mark with the spiral animation. */
  predicate Supported(v: View)
  {
    !(MarkTypeOf(v) == Radio && v.animation == Spiral)
  }

  /**
   Setting `stateChangeAnimation`: a layout pass is requested and the colours
   follow the new animation; then the spiral reverts to stroke if the mark is
   the radio mark (without running the observer again).
   */
  function SetAnimation(v: View, a: Animation): (r: View)
    ensures r.needsLayout
    ensures r == v.(animation := r.animation, layers := r.layers, needsLayout := true)
  {
    var l := Colours(v.layers, a, MarkTypeOf(v));
    var kept := if MarkTypeOf(v) == Radio && a == Spiral then Stroke else a;
    v.(animation := kept, layers := l, needsLayout := true)
  }

  /** Setting `markType`: the radio mark under the spiral animation reverts to the checkmark; then the colours follow and a layout is requested. */
  function SetMarkType(v: View, t: ClassicMarkType): (r: View)
    ensures r.needsLayout
    ensures r == v.(paths := r.paths, layers := r.layers, needsLayout := true)
    ensures r.paths == v.paths.(markType := r.paths.markType)
  {
    var kept := if t == Radio && v.animation == Spiral then Checkmark else t;
    v.(paths := v.paths.(markType := kept), layers := Colours(v.layers, v.animation, kept), needsLayout := true)
  }

  /**
   Whatever the view, either setter leaves it supported; each keeps the
   requested value exactly when that gives a supported pair.
   */
  lemma SettersKeepSupported(v: View, a: Animation, t: ClassicMarkType)
    ensures Supported(SetAnimation(v, a)) && Supported(SetMarkType(v, t))
    ensures SetAnimation(v, a).animation == a <==> !(MarkTypeOf(v) == Radio && a == Spiral)
    ensures SetMarkType(v, t).paths.markType == t <==> !(t == Radio && v.animation == Spiral)
  {
  }

  function SetBoxType(v: View, b: BoxType): (r: View)
    ensures r.paths == v.paths.(boxType := b) && r.needsLayout
  {
    v.(paths := v.paths.(boxType := b), needsLayout := true)
  }

  /** Setting `cornerRadius`: a layout pass is requested only for a square box. */
  function SetCornerRadius(v: View, c: real): (r: View)
    ensures r.paths == v.paths.(cornerRadius := c)
    ensures r.needsLayout == (v.needsLayout || v.paths.boxType == Square)
  {
    v.(paths := v.paths.(cornerRadius := c), needsLayout := v.needsLayout || v.paths.boxType == Square)
  }

  /** Setting `checkmarkLineWidth` stores it in the path manager and on the mark layer. */
  function SetCheckmarkLineWidth(v: View, w: real): (r: View)
    ensures r.paths.checkmarkLineWidth == w && r.layers.mark.lineWidth == w
    ensures r == v.(paths := v.paths.(checkmarkLineWidth := w), layers := v.layers.(mark := r.layers.mark))
  {
    v.(paths := v.paths.(checkmarkLineWidth := w), layers := v.layers.(mark := v.layers.mark.(lineWidth := w)))
  }

  /** Setting `boxLineWidth` stores it in the path manager and on both box layers. */
  function SetBoxLineWidth(v: View, w: real): (r: View)
    ensures r.paths.boxLineWidth == w && r.layers.unselectedBox.lineWidth == w && r.layers.selectedBox.lineWidth == w
    ensures r.layers.mark == v.layers.mark
  {
    v.(paths := v.paths.(boxLineWidth := w),
       layers := v.layers.(unselectedBox := v.layers.unselectedBox.(lineWidth := w),
                           selectedBox := v.layers.selectedBox.(lineWidth := w)))
  }

  /** `hideBox`: both box layers are hidden or shown; the model keeps the flag. */
  function SetHideBox(v: View, hidden: bool): View
  {
    v.(hideBox := hidden)
  }

  /** `animationDuration`: stored for the animations to come. */
  function SetAnimationDuration(v: View, d: real): View
  {
    v.(animationDuration := d)
  }

  /**
   Hiding the box and changing the duration touch neither the state nor the
   layers; with a zero duration, an animated change of state does no more
   than an unanimated store of the state.
   */
  lemma PlainSetters(v: View, hidden: bool, d: real, s: CheckState)
    ensures SetHideBox(v, hidden).hideBox == hidden && SetHideBox(v, hidden).layers == v.layers
            && SetHideBox(v, hidden).state == v.state
    ensures SetAnimationDuration(v, d).animationDuration == d && SetAnimationDuration(v, d).layers == v.layers
            && SetAnimationDuration(v, d).state == v.state
    ensures SetCheckState(SetAnimationDuration(v, 0.0), s, true) == SetAnimationDuration(v, 0.0).(state := s)
  {
    SetCheckStateAnimatedOnlyStores(SetAnimationDuration(v, 0.0), s);
  }

  /** A change of the tint, secondary tint or checkmark tint: the palette changes and the colours are recomputed. */
  function SetPalette(v: View, p: Palette): (r: View)
    ensures r.palette == p && r == v.(palette := p, layers := r.layers)
  {
    v.(palette := p, layers := Colours(v.layers, v.animation, MarkTypeOf(v)))
  }

  /**
   `layoutSubviews`: the size becomes the smaller side; the selected box
   shows the box, the mark shows the mark, and the unselected box the dot
   for the dot animations and the box otherwise.
   */
  function Layout(v: View, width: real, height: real): (r: View)
    ensures r.paths.size <= width && r.paths.size <= height && (r.paths.size == width || r.paths.size == height)
    ensures !r.needsLayout
    ensures r.layers.unselectedBox.path == Some(DotShape) <==> v.animation.Dot?
    ensures r.layers.selectedBox.path == Some(BoxShape) && r.layers.mark.path == Some(MarkShape(MarkHook))
  {
    var l := v.layers;
    v.(paths := v.paths.(size := if width <= height then width else height),
       layers := Layers(l.unselectedBox.(path := Some(if v.animation.Dot? then DotShape else BoxShape)),
                        l.selectedBox.(path := Some(BoxShape)), l.mark.(path := Some(MarkShape(MarkHook)))),
       needsLayout := false)
  }

  // ---------------------------------------------------------------- tracking

  /** The view after a tracking event, and whether it sent a value-changed event. */
  datatype Tracked = Tracked(view: View, valueChanged: bool)

  /** `beginTrackingWithTouch`: the view becomes selected and tracking continues. */
  function BeginTracking(v: View): (r: (View, bool))
  {
    (v.(selected := true), true)
  }

  /** `endTrackingWithTouch`: deselect, toggle with animation, report a value change. */
  function EndTracking(v: View): (r: Tracked)
    ensures r.valueChanged && !r.view.selected
    ensures r.view.state == ToggleTarget(v.state)
  {
    Tracked(Toggle(v.(selected := false), true), true)
  }

  /** `cancelTrackingWithEvent`: deselect only. */
  function CancelTracking(v: View): (r: View)
  {
    v.(selected := false)
  }

  /** A completed touch toggles the state, a cancelled one leaves it; neither leaves the view selected. */
  lemma TrackingTable(v: View)
    ensures EndTracking(BeginTracking(v).0).view.state == ToggleTarget(v.state) != CancelTracking(BeginTracking(v).0).state
    ensures BeginTracking(v).0.selected && BeginTracking(v).1
    ensures CancelTracking(BeginTracking(v).0).state == v.state
    ensures !EndTracking(BeginTracking(v).0).view.selected && !CancelTracking(BeginTracking(v).0).selected
  {
  }

  // ---------------------------------------------------------------- Interface Builder proxies

  function AnimationCodeOf(v: View): int
  {
    Codes.AnimationCode(v.animation)
  }

  /** `_IBStateChangeAnimation` as written: an unknown code installs stroke; code 60 installs fade-fill. */
  function SetAnimationCodeAsWritten(v: View, n: int): View
  {
    SetAnimation(v, Codes.DecodeAnimationAsWritten(n).GetOr(Stroke))
  }

  /** `_IBStateChangeAnimation` with the corrected decoder: an unknown code installs stroke. */
  function SetAnimationCode(v: View, n: int): (r: View)
    ensures n !in Codes.AnimationCodes ==> r.animation == Stroke
  {
    SetAnimation(v, Codes.DecodeAnimation(n).GetOr(Stroke))
  }

  /** `_IBMarkType`: an unknown code gives the checkmark. */
  function SetMarkTypeCode(v: View, n: int): (r: View)
    ensures !(0 <= n <= 1) ==> MarkTypeOf(r) == Checkmark
  {
    SetMarkType(v, Codes.DecodeMarkType(n).GetOr(Checkmark))
  }

  /** `_IBBoxType`: an unknown code gives the circle. */
  function SetBoxTypeCode(v: View, n: int): (r: View)
    ensures !(0 <= n <= 1) ==> r.paths.boxType == Circle
  {
    SetBoxType(v, Codes.DecodeBoxType(n).GetOr(Circle))
  }

  /** `_IBCheckState`: an unknown code gives unchecked; the state is set without animation. */
  function SetCheckStateCode(v: View, n: int): (r: View)
    ensures !(0 <= n <= 2) ==> r.state == Unchecked
  {
    SetCheckState(v, Codes.DecodeCheckState(n).GetOr(Unchecked), false)
  }

  /**
   Assigning each proxy its own getter's value keeps the property: the mark
   type, box type and check state always, the animation whenever the view
   is supported (the corrected decoder).
   */
  lemma ProxiesRoundTrip(v: View)
    ensures MarkTypeOf(SetMarkTypeCode(v, Codes.MarkTypeCode(MarkTypeOf(v)))) == MarkTypeOf(v) || v.animation == Spiral
    ensures SetBoxTypeCode(v, Codes.BoxTypeCode(v.paths.boxType)).paths.boxType == v.paths.boxType
    ensures SetCheckStateCode(v, Codes.CheckStateCode(v.state)).state == v.state
    ensures Supported(v) ==> SetMarkTypeCode(v, Codes.MarkTypeCode(MarkTypeOf(v))).paths == v.paths
    ensures Supported(v) ==> SetAnimationCode(v, AnimationCodeOf(v)).animation == v.animation
  {
    Codes.MarkTypeRoundTrip(MarkTypeOf(v));
    Codes.BoxTypeRoundTrip(v.paths.boxType);
    Codes.CheckStateRoundTrip(v.state);
    Codes.AnimationRoundTrip(v.animation);
  }

  /**
   With the decoder as written, assigning the animation proxy its own value
   keeps every supported animation except fade-stroke, which becomes fade-fill.
   */
  lemma AnimationProxyAsWritten(v: View)
    requires Supported(v)
    ensures SetAnimationCodeAsWritten(v, AnimationCodeOf(v)).animation == v.animation <==> v.animation != Fade(StrokeStyle)
    ensures v.animation == Fade(StrokeStyle) ==> SetAnimationCodeAsWritten(v, AnimationCodeOf(v)).animation == Fade(FillStyle)
  {
    Codes.AnimationRoundTrip(v.animation);
    Codes.DecodersDifferOnlyAtSixty(AnimationCodeOf(v));
    if v.animation == Fade(StrokeStyle) {
      Codes.FadeStrokeDoesNotRoundTrip();
    }
  }
}
