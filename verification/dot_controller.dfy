/**
 The dot controller of the newest generation: the unselected box shows a
 small dot, and the selected box grows out of it.
 */
module DotController {
  import opened Wrappers
  import opened Kinds
  import opened Layers
  import opened PathGenerator
  import opened Transitions

  /**
   `resetLayersForState(state)`: the styled colours; with a mark, the dot
   is hidden, the selected box is at full size and the mark is visible;
   without one, the dot is visible, the selected box is scaled to zero and
   the mark is hidden. The unselected box always shows the dot.
   */
  function Reset(prev: Layers, g: Generator, markType: MarkType, style: AnimationStyle,
                 s: Option<CheckState>): (r: Layers)
    ensures HasMark(g.kind, s) ==> r.unselectedBox.opacity == 0.0 && r.selectedBox.transform == Identity
                                   && r.mark.opacity == 1.0
    ensures !HasMark(g.kind, s) ==> r.unselectedBox.opacity == 1.0 && r.selectedBox.transform == ScaleZero
                                    && r.mark.opacity == 0.0
    ensures r.unselectedBox.path == Some(DotShape) && r.selectedBox.path == Some(BoxShape)
    ensures r.mark.path == MarkShapeFor(g.kind, s)
    ensures r.selectedBox.opacity == prev.selectedBox.opacity && r.mark.transform == prev.mark.transform
    ensures r.unselectedBox.fill == prev.unselectedBox.fill
    ensures style == StrokeStyle ==> r.selectedBox.fill == NoColour && r.mark.stroke == Tint
                                     && (r.mark.fill == Tint <==> markType == Radio)
    ensures style == FillStyle ==> r.selectedBox.fill == Tint && r.mark.stroke == CheckmarkTint
  {
    var c := StyledColours(prev, g.boxLineWidth, g.checkmarkLineWidth, style, markType);
    if HasMark(g.kind, s) then
      Layers(c.unselectedBox.(opacity := 0.0, path := Some(DotShape)),
             c.selectedBox.(transform := Identity, path := Some(BoxShape)),
             c.mark.(opacity := 1.0, path := MarkShapeFor(g.kind, s)))
    else
      Layers(c.unselectedBox.(opacity := 1.0, path := Some(DotShape)),
             c.selectedBox.(transform := ScaleZero, path := Some(BoxShape)),
             c.mark.(opacity := 0.0, path := MarkShapeFor(g.kind, s)))
  }

  /** `layoutLayers`: the unselected box shows the dot, the selected box the box. */
  function Layout(prev: Layers, g: Generator, state: CheckState): (r: Layers)
    ensures r.unselectedBox.path == Some(DotShape) && r.selectedBox.path == Some(BoxShape)
    ensures r.mark.path == MarkShapeFor(g.kind, Some(state))
  {
    Layers(prev.unselectedBox.(path := Some(DotShape)), prev.selectedBox.(path := Some(BoxShape)),
           prev.mark.(path := MarkShapeFor(g.kind, Some(state))))
  }

  /**
   `animate(from, to)` after the base class: hiding in stroke style hides
   the dot at once (a quick fade brings it back); showing first puts the
   target mark on the mark layer; the morph branch writes nothing.
   */
  function Start(prev: Layers, g: Generator, style: AnimationStyle,
                 from: Option<CheckState>, to: Option<CheckState>): (r: Started)
    ensures r.branch == ChooseBranch(g.kind, from, to)
    ensures r.completion == CompletionOf(r.branch, to)
    ensures r.branch == HideMark && style == StrokeStyle ==>
              r.layers == prev.(unselectedBox := prev.unselectedBox.(opacity := 0.0))
    ensures r.branch == HideMark && style == FillStyle ==> r.layers == prev
    ensures r.branch == ShowMark ==> r.layers == prev.(mark := prev.mark.(path := MarkShapeFor(g.kind, to)))
    ensures r.branch == MorphMark ==> r.layers == prev && r.morphsPath
  {
    var b := ChooseBranch(g.kind, from, to);
    match b
    case HideMark =>
      var l := if style == StrokeStyle then prev.(unselectedBox := prev.unselectedBox.(opacity := 0.0)) else prev;
      Started(l, b, false, ResetTo(to))
    case ShowMark => Started(prev.(mark := prev.mark.(path := MarkShapeFor(g.kind, to))), b, false, ResetTo(to))
    case MorphMark => Started(prev, b, true, ResetToCurrent)
  }

  /** After a reset the dot and the mark are never both visible, and exactly one of them is. */
  lemma ResetDotXorMark(prev: Layers, g: Generator, o: Opaque, markType: MarkType,
                        style: AnimationStyle, s: Option<CheckState>)
    ensures var r := Reset(prev, g, markType, style, s);
            (r.unselectedBox.opacity == 1.0 <==> r.mark.opacity == 0.0)
            && (r.mark.opacity == 1.0 <==> PathForMark(g, o, s).Some?)
  {
    HasMarkMatchesPath(g, o, s);
  }

  lemma ResetIdempotent(prev: Layers, g: Generator, markType: MarkType, style: AnimationStyle,
                        s: Option<CheckState>)
    ensures var once := Reset(prev, g, markType, style, s);
            Reset(once, g, markType, style, s) == once
  {
  }
}
