/**
 What the newest generation's animation controllers share: the choice of
 animation branch from mark presence, the colour table of the styled
 controllers, and the layer values a controller's setup leaves behind.
 */
module Transitions {
  import opened Wrappers
  import opened Kinds
  import opened Layers
  import opened PathGenerator

  /** Hide the mark, show the mark, or morph between two marks (or two absences). */
  datatype Branch = HideMark | ShowMark | MorphMark

  /** The reset an animation's completion block runs: to the target state, or to the state current at that time. */
  datatype Completion = ResetTo(state: Option<CheckState>) | ResetToCurrent

  /**
   The branch `animate(from, to)` takes: hide when the target has no mark and
   the origin has one, show in the opposite case, and morph otherwise.
   */
  function ChooseBranch(kind: GeneratorKind, from: Option<CheckState>, to: Option<CheckState>): (b: Branch)
    ensures b == HideMark <==> !HasMark(kind, to) && HasMark(kind, from)
    ensures b == ShowMark <==> HasMark(kind, to) && !HasMark(kind, from)
    ensures b == MorphMark <==> HasMark(kind, to) == HasMark(kind, from)
  {
    if !HasMark(kind, to) && HasMark(kind, from) then HideMark
    else if HasMark(kind, to) && !HasMark(kind, from) then ShowMark
    else MorphMark
  }

  /**
   What `animate` leaves behind synchronously: the layers after its direct
   writes, the branch it took, whether it added a path morph, and the reset
   its completion block will run.
   */
  datatype Started = Started(layers: Layers, branch: Branch, morphsPath: bool, completion: Completion)

  /** The hide and show branches reset to the target state when they finish; the morph resets to the current state. */
  function CompletionOf(b: Branch, to: Option<CheckState>): (c: Completion)
    ensures c.ResetToCurrent? <==> b == MorphMark
    ensures c.ResetTo? ==> c.state == to
  {
    if b == MorphMark then ResetToCurrent else ResetTo(to)
  }

  /** A layer right after a controller's setup: opaque, fully stroked, untransformed, unfilled, no path. */
  const SetupLayer: Layer := Layer(1.0, 1.0, Identity, NoColour, NoColour, 1.0, None)

  const SetupLayers: Layers := Layers(SetupLayer, SetupLayer, SetupLayer)

  /**
   The colours and line widths the styled controllers and managers write on
   reset. Stroke style: unfilled selected box, mark stroked in tint and
   filled in tint only for the radio mark. Fill style: selected box filled in
   tint, mark stroked in the checkmark tint, mark fill left as it was.
   */
  function StyledColours(prev: Layers, boxLineWidth: real, checkmarkLineWidth: real,
                         style: AnimationStyle, markType: MarkType): (r: Layers)
    ensures r.unselectedBox == prev.unselectedBox.(stroke := SecondaryTint, lineWidth := boxLineWidth)
    ensures r.selectedBox.stroke == Tint && r.selectedBox.lineWidth == boxLineWidth
    ensures r.selectedBox.fill == (if style == StrokeStyle then NoColour else Tint)
    ensures r.mark.stroke == (if style == StrokeStyle then Tint else CheckmarkTint)
    ensures style == StrokeStyle ==> (r.mark.fill == Tint <==> markType == Radio)
    ensures style == StrokeStyle ==> (r.mark.fill == NoColour <==> markType != Radio)
    ensures style == FillStyle ==> r.mark.fill == prev.mark.fill
    ensures r.mark.lineWidth == checkmarkLineWidth
    ensures r.selectedBox == prev.selectedBox.(stroke := r.selectedBox.stroke, lineWidth := r.selectedBox.lineWidth, fill := r.selectedBox.fill)
    ensures r.mark == prev.mark.(stroke := r.mark.stroke, lineWidth := r.mark.lineWidth, fill := r.mark.fill)
  {
    var u := prev.unselectedBox.(stroke := SecondaryTint, lineWidth := boxLineWidth);
    var s := prev.selectedBox.(stroke := Tint, lineWidth := boxLineWidth);
    if style == StrokeStyle then
      Layers(u, s.(fill := NoColour),
             prev.mark.(stroke := Tint, fill := if markType != Radio then NoColour else Tint,
                        lineWidth := checkmarkLineWidth))
    else
      Layers(u, s.(fill := Tint), prev.mark.(stroke := CheckmarkTint, lineWidth := checkmarkLineWidth))
  }

  /**
   `layoutLayers` of the spiral and flat controllers: both boxes show the
   box, the mark shows the mark of the current state (none when the
   generator draws none), and nothing else about the layers changes.
   */
  function BoxAndMarkLayout(prev: Layers, g: Generator, state: CheckState): (r: Layers)
    ensures r.unselectedBox == prev.unselectedBox.(path := Some(BoxShape))
    ensures r.selectedBox == prev.selectedBox.(path := Some(BoxShape))
    ensures r.mark == prev.mark.(path := r.mark.path)
    ensures r.mark.path.Some? <==> HasMark(g.kind, Some(state))
    ensures r.mark.path.Some? ==> r.mark.path.value == MarkShape(HookFor(state, false))
  {
    Layers(prev.unselectedBox.(path := Some(BoxShape)), prev.selectedBox.(path := Some(BoxShape)),
           prev.mark.(path := MarkShapeFor(g.kind, Some(state))))
  }

  /** Laying out twice is laying out once. */
  lemma BoxAndMarkLayoutIdempotent(prev: Layers, g: Generator, state: CheckState)
    ensures BoxAndMarkLayout(BoxAndMarkLayout(prev, g, state), g, state) == BoxAndMarkLayout(prev, g, state)
  {
  }
}
