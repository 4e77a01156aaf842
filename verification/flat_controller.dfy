/**
 The flat controller of the newest generation: the mark morphs from the
 flat mixed dash while the selected box fades, in stroke or fill style.
 */
module FlatController {
  import opened Wrappers
  import opened Kinds
  import opened Layers
  import opened PathGenerator
  import opened Transitions

  /**
   `resetLayersForState(state)`: the styled colours, then the selected box
   and the mark visible exactly when the generator has a mark for the state.
   Stroke ends, transforms and the unselected box's fill and opacity are
   never written.
   */
  function Reset(prev: Layers, g: Generator, markType: MarkType, style: AnimationStyle,
                 s: Option<CheckState>): (r: Layers)
    ensures var v := if HasMark(g.kind, s) then 1.0 else 0.0;
            r.selectedBox.opacity == v && r.mark.opacity == v
    ensures r.unselectedBox == prev.unselectedBox.(stroke := SecondaryTint, lineWidth := g.boxLineWidth,
                                                   path := Some(BoxShape))
    ensures r.selectedBox.strokeEnd == prev.selectedBox.strokeEnd && r.mark.strokeEnd == prev.mark.strokeEnd
    ensures r.selectedBox.transform == prev.selectedBox.transform && r.mark.transform == prev.mark.transform
    ensures r.selectedBox.path == Some(BoxShape) && r.mark.path == MarkShapeFor(g.kind, s)
    ensures style == StrokeStyle ==> r.selectedBox.fill == NoColour && r.mark.stroke == Tint
                                     && (r.mark.fill == Tint <==> markType == Radio)
    ensures style == FillStyle ==> r.selectedBox.fill == Tint && r.mark.stroke == CheckmarkTint
                                   && r.mark.fill == prev.mark.fill
  {
    var c := StyledColours(prev, g.boxLineWidth, g.checkmarkLineWidth, style, markType);
    var v := if HasMark(g.kind, s) then 1.0 else 0.0;
    Layers(c.unselectedBox.(path := Some(BoxShape)),
           c.selectedBox.(opacity := v, path := Some(BoxShape)),
           c.mark.(opacity := v, path := MarkShapeFor(g.kind, s)))
  }

  /** The generator's mixed dash as a layer path (nil when the generator has none). */
  function MixedShape(kind: GeneratorKind): Option<Shape>
  {
    if HookPresent(kind, MixedHook) then Some(MarkShape(MixedHook)) else None
  }

  /**
   `animate(from, to)` after the base class. The hide branch adds the path
   morph unless it leaves the mixed state; the show branch first puts the
   mixed dash on the mark layer and adds the morph unless it enters the
   mixed state; the morph branch always morphs.
   */
  function Start(prev: Layers, g: Generator, from: Option<CheckState>, to: Option<CheckState>): (r: Started)
    ensures r.branch == ChooseBranch(g.kind, from, to)
    ensures r.completion == CompletionOf(r.branch, to)
    ensures r.branch == HideMark ==> (r.morphsPath <==> from != Some(Mixed)) && r.layers == prev
    ensures r.branch == ShowMark ==> (r.morphsPath <==> to != Some(Mixed))
                                     && r.layers == prev.(mark := prev.mark.(path := MixedShape(g.kind)))
    ensures r.branch == MorphMark ==> r.morphsPath && r.layers == prev
  {
    var b := ChooseBranch(g.kind, from, to);
    match b
    case HideMark => Started(prev, b, from != Some(Mixed), ResetTo(to))
    case ShowMark => Started(prev.(mark := prev.mark.(path := MixedShape(g.kind))), b, to != Some(Mixed), ResetTo(to))
    case MorphMark => Started(prev, b, true, ResetToCurrent)
  }

  /** The mark is visible after a reset exactly when `pathForMark(state)` returns a path. */
  lemma ResetShowsMarkIffPath(prev: Layers, g: Generator, o: Opaque, markType: MarkType,
                              style: AnimationStyle, s: Option<CheckState>)
    ensures Reset(prev, g, markType, style, s).mark.opacity == 1.0 <==> PathForMark(g, o, s).Some?
    ensures Reset(prev, g, markType, style, s).selectedBox.opacity == 1.0 <==> PathForMark(g, o, s).Some?
  {
    HasMarkMatchesPath(g, o, s);
  }

  /** Resetting twice to the same state is resetting once. */
  lemma ResetIdempotent(prev: Layers, g: Generator, markType: MarkType, style: AnimationStyle,
                        s: Option<CheckState>)
    ensures var once := Reset(prev, g, markType, style, s);
            Reset(once, g, markType, style, s) == once
  {
  }
}
