/**
 The spiral controller of the newest generation: the box and the mark are
 drawn as one continuous stroke, so both the selected box and the mark are
 shown or hidden through their opacity and stroke end together.
 */
module SpiralController {
  import opened Wrappers
  import opened Kinds
  import opened Layers
  import opened PathGenerator
  import opened Transitions

  /**
   `resetLayersForState(state)`: the selected box and the mark are fully
   drawn exactly when the generator has a mark for the given state (a nil
   state has none); the colours, widths and paths are rewritten; the
   transforms, the selected box's fill and the unselected box's opacity and
   stroke end keep their previous values.
   */
  function Reset(prev: Layers, g: Generator, s: Option<CheckState>): (r: Layers)
    ensures var v := if HasMark(g.kind, s) then 1.0 else 0.0;
            r.selectedBox.opacity == v && r.selectedBox.strokeEnd == v
            && r.mark.opacity == v && r.mark.strokeEnd == v
    ensures r.unselectedBox == prev.unselectedBox.(stroke := SecondaryTint, fill := NoColour,
                                                   lineWidth := g.boxLineWidth, path := Some(BoxShape))
    ensures r.selectedBox.stroke == Tint && r.selectedBox.lineWidth == g.boxLineWidth
    ensures r.selectedBox.path == Some(BoxShape)
    ensures r.selectedBox.fill == prev.selectedBox.fill && r.selectedBox.transform == prev.selectedBox.transform
    ensures r.mark.stroke == Tint && r.mark.fill == NoColour && r.mark.lineWidth == g.checkmarkLineWidth
    ensures r.mark.path == MarkShapeFor(g.kind, s) && r.mark.transform == prev.mark.transform
  {
    var v := if HasMark(g.kind, s) then 1.0 else 0.0;
    Layers(
      prev.unselectedBox.(stroke := SecondaryTint, lineWidth := g.boxLineWidth, fill := NoColour,
                          path := Some(BoxShape)),
      prev.selectedBox.(stroke := Tint, lineWidth := g.boxLineWidth, opacity := v, strokeEnd := v,
                        path := Some(BoxShape)),
      prev.mark.(stroke := Tint, lineWidth := g.checkmarkLineWidth, fill := NoColour, opacity := v,
                 strokeEnd := v, path := MarkShapeFor(g.kind, s)))
  }

  /**
   The values the animation generator's stroke-end and quick opacity
   animations start from, drawing in (`reverse` false) and drawing out
   (`reverse` true). The animation generator is not part of this model, so
   they are inputs.
   */
  datatype StartValues = StartValues(strokeIn: real, strokeOut: real, opacityIn: real, opacityOut: real)

  /**
   `animate(from, to)` after the base class. The hide branch swaps in the
   origin state's long mark, reversed, and sets the mark's stroke end and opacity, and
   the selected box's stroke end, to where the reversed animations start.
   The show branch swaps in the target state's long mark, reversed, and sets the mark's
   stroke end and opacity to where the forward animations start. The morph
   branch writes nothing. The unselected box is never written.
   */
  function Start(prev: Layers, g: Generator, v: StartValues, from: Option<CheckState>, to: Option<CheckState>)
    : (r: Started)
    ensures r.branch == ChooseBranch(g.kind, from, to)
    ensures r.completion == CompletionOf(r.branch, to)
    ensures r.layers.unselectedBox == prev.unselectedBox
    ensures r.branch == HideMark ==>
              r.layers.mark == prev.mark.(path := ReversedShape(LongMarkShapeFor(g.kind, from)), strokeEnd := v.strokeOut,
                                          opacity := v.opacityOut)
              && r.layers.selectedBox == prev.selectedBox.(strokeEnd := v.strokeOut)
    ensures r.branch == ShowMark ==>
              r.layers.mark == prev.mark.(path := ReversedShape(LongMarkShapeFor(g.kind, to)), strokeEnd := v.strokeIn,
                                          opacity := v.opacityIn)
              && r.layers.selectedBox == prev.selectedBox
    ensures r.branch == MorphMark ==> r.layers == prev && r.morphsPath
  {
    var b := ChooseBranch(g.kind, from, to);
    match b
    case HideMark =>
      var mark := prev.mark.(path := ReversedShape(LongMarkShapeFor(g.kind, from)), strokeEnd := v.strokeOut, opacity := v.opacityOut);
      Started(Layers(prev.unselectedBox, prev.selectedBox.(strokeEnd := v.strokeOut), mark), b, true, ResetTo(to))
    case ShowMark =>
      var mark := prev.mark.(path := ReversedShape(LongMarkShapeFor(g.kind, to)), strokeEnd := v.strokeIn, opacity := v.opacityIn);
      Started(prev.(mark := mark), b, true, ResetTo(to))
    case MorphMark => Started(prev, b, true, ResetToCurrent)
  }

  /**
   The direct writes of `Start` last only until its completion runs: the
   completion's reset lands where a reset from the layers before the
   animation would, whatever the start values are.
   */
  lemma StartWritesAreTransient(prev: Layers, g: Generator, v: StartValues, from: Option<CheckState>,
                                to: Option<CheckState>)
    requires ChooseBranch(g.kind, from, to) != MorphMark
    ensures Reset(Start(prev, g, v, from, to).layers, g, to) == Reset(prev, g, to)
  {
  }

  /** The mark is fully drawn after a reset exactly when `pathForMark(state)` returns a path. */
  lemma ResetShowsMarkIffPath(prev: Layers, g: Generator, o: Opaque, s: Option<CheckState>)
    ensures Reset(prev, g, s).mark.opacity == 1.0 <==> PathForMark(g, o, s).Some?
    ensures Reset(prev, g, s).mark.opacity == 0.0 <==> PathForMark(g, o, s).None?
  {
    HasMarkMatchesPath(g, o, s);
  }

  /** Resetting twice to the same state is resetting once. */
  lemma ResetIdempotent(prev: Layers, g: Generator, s: Option<CheckState>)
    ensures Reset(Reset(prev, g, s), g, s) == Reset(prev, g, s)
  {
  }
}
