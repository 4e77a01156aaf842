/**
 The managers of the newest generation's manager-based design: a base
 manager keeping the check state, and the stroke, flat, bounce and spiral
 managers drawing with three layers and the path presets. The base class's
 `animate` and `resetLayersForState` take a state, never nil.
 */
module Managers {
  import opened Wrappers
  import opened Kinds
  import opened Layers
  import opened Transitions
  import PP = PresetPaths

  datatype ManagerKind = BaseManager | StrokeManager | FlatManager | BounceManager | SpiralManager

  datatype Manager = Manager(
    kind: ManagerKind,
    style: AnimationStyle,
    state: CheckState,
    paths: PP.Presets,
    palette: Palette,
    hideBox: bool,
    layers: Layers)

  /** A new manager: unchecked, default colours, box shown; the spiral manager installs the spiral presets. */
  function NewManager(kind: ManagerKind, style: AnimationStyle): (m: Manager)
    ensures m.state == Unchecked && !m.hideBox && m.palette == DefaultPalette
    ensures m.paths.family == PP.SpiralPresets <==> kind == SpiralManager
    ensures m.kind == kind && m.style == style
  {
    var family := if kind == SpiralManager then PP.SpiralPresets else PP.PlainPresets;
    Manager(kind, style, Unchecked, PP.NewPresets(family), DefaultPalette, false, SetupLayers)
  }

  /** The layer tag for `paths.path(state)`, which is never nil. */
  function PathShape(s: CheckState): Option<Shape>
  {
    Some(MarkShape(HookFor(s, false)))
  }

  /** The layer tag for `paths.pathForLongMark(state).bezierPathByReversingPath()`: the long mark drawn reversed. */
  function ReversedLongShape(s: CheckState): Option<Shape>
  {
    ReversedShape(Some(MarkShape(HookFor(s, true))))
  }

  const MixedShape: Option<Shape> := Some(MarkShape(MixedHook))

  /** `layoutLayers`: the boxes show the box; the mark shows the state's path, or for the flat manager the mixed mark. */
  function Layout(m: Manager): (r: Layers)
    ensures m.kind == BaseManager ==> r == m.layers
    ensures m.kind != BaseManager ==> r.unselectedBox.path == Some(BoxShape) && r.selectedBox.path == Some(BoxShape)
    ensures m.kind == FlatManager ==> r.mark.path == MixedShape
  {
    var l := m.layers;
    match m.kind
    case BaseManager => l
    case FlatManager =>
      Layers(l.unselectedBox.(path := Some(BoxShape)), l.selectedBox.(path := Some(BoxShape)),
             l.mark.(path := if m.state == Unchecked then MixedShape else MixedShape))
    case _ =>
      Layers(l.unselectedBox.(path := Some(BoxShape)), l.selectedBox.(path := Some(BoxShape)),
             l.mark.(path := PathShape(m.state)))
  }

  /** The visibility value of a state: 0 for unchecked, 1 otherwise. */
  function Shown(s: CheckState): real
  {
    if s == Unchecked then 0.0 else 1.0
  }

  /** The final writes of every subclass's reset: both boxes show the box, the mark shows `path(state)`. */
  function FinalPaths(l: Layers, s: CheckState): Layers
  {
    Layers(l.unselectedBox.(path := Some(BoxShape)), l.selectedBox.(path := Some(BoxShape)),
           l.mark.(path := PathShape(s)))
  }

  /** The reset of the stroke and spiral managers: colours, widths, then opacity and stroke end by state. */
  function StrokedReset(l: Layers, p: PP.Presets, s: CheckState): Layers
  {
    var v := Shown(s);
    FinalPaths(Layers(
      l.unselectedBox.(stroke := SecondaryTint, lineWidth := p.boxLineWidth),
      l.selectedBox.(stroke := Tint, lineWidth := p.boxLineWidth, opacity := v, strokeEnd := v),
      l.mark.(stroke := Tint, lineWidth := p.checkmarkLineWidth, opacity := v, strokeEnd := v)), s)
  }

  /** The flat manager's reset: styled colours, opacity by state, and the mark path written twice. */
  function FlatReset(l: Layers, p: PP.Presets, style: AnimationStyle, s: CheckState): Layers
  {
    var c := StyledColours(l, p.boxLineWidth, p.checkmarkLineWidth, style, p.markType);
    var v := Shown(s);
    var markPath := if s == Checked then Some(MarkShape(MarkHook)) else MixedShape;
    FinalPaths(Layers(c.unselectedBox, c.selectedBox.(opacity := v), c.mark.(opacity := v, path := markPath)), s)
  }

  /** The bounce manager's reset: styled colours, the selected box's opacity and the mark's scale by state. */
  function BounceReset(l: Layers, p: PP.Presets, style: AnimationStyle, s: CheckState): Layers
  {
    var c := StyledColours(l, p.boxLineWidth, p.checkmarkLineWidth, style, p.markType);
    var t := if s == Unchecked then ScaleZero else Identity;
    FinalPaths(Layers(c.unselectedBox, c.selectedBox.(opacity := Shown(s)), c.mark.(transform := t)), s)
  }

  /** `resetLayersForState(state)`: the base class stores the state and lays out, then the subclass resets. */
  function Reset(m: Manager, s: CheckState): (r: Manager)
    ensures r == m.(state := s, layers := r.layers)
    ensures m.kind == BaseManager ==> r.layers == m.layers
  {
    var m1 := m.(state := s);
    var l := Layout(m1);
    match m.kind
    case BaseManager => m1.(layers := l)
    case StrokeManager => m1.(layers := StrokedReset(l, m.paths, s))
    case SpiralManager => m1.(layers := StrokedReset(l, m.paths, s))
    case FlatManager => m1.(layers := FlatReset(l, m.paths, m.style, s))
    case BounceManager => m1.(layers := BounceReset(l, m.paths, m.style, s))
  }

  /** The four ways the managers animate. */
  datatype Step = HideStep | ShowStep | MorphStep | CompressStep

  /**
   The step `animate(from, to)` takes: hide into unchecked, show out of
   unchecked, otherwise morph the checkmark or compress the radio mark.
   */
  function StepFor(markType: ClassicMarkType, from: CheckState, to: CheckState): (b: Step)
    ensures b == HideStep <==> to == Unchecked
    ensures b == ShowStep <==> to != Unchecked && from == Unchecked
    ensures b == MorphStep <==> to != Unchecked && from != Unchecked && markType != Radio
    ensures b == CompressStep <==> to != Unchecked && from != Unchecked && markType == Radio
  {
    if to == Unchecked then HideStep
    else if from == Unchecked then ShowStep
    else if markType != Radio then MorphStep
    else CompressStep
  }

  /** The bounce manager's wiggle amplitude: smaller for a square box. */
  function Amplitude(boxType: BoxType): real
  {
    if boxType == Square then 0.20 else 0.35
  }

  /**
   What `animate` leaves behind: the manager after its direct writes, the
   step, whether a path animation was added, the bounce wiggle's amplitude,
   and the reset the completion block runs (none for the base class).
   */
  datatype Launched = Launched(manager: Manager, step: Step, morphsPath: bool, wiggle: Option<real>,
                             completion: Option<Completion>)

  function WithMarkPath(m: Manager, path: Option<Shape>): Manager
  {
    m.(layers := m.layers.(mark := m.layers.mark.(path := path)))
  }

  function Animate(m: Manager, from: CheckState, to: CheckState): (r: Launched)
    ensures r.manager.state == to
    ensures r.step == StepFor(m.paths.markType, from, to)
    ensures r.completion.None? <==> m.kind == BaseManager
    ensures r.manager == m.(state := to, layers := r.manager.layers)
    ensures r.manager.layers == m.layers.(mark := r.manager.layers.mark)
    ensures r.manager.layers.mark == m.layers.mark.(path := r.manager.layers.mark.path)
  {
    var m1 := m.(state := to);
    var b := StepFor(m.paths.markType, from, to);
    var moving := b == HideStep || b == ShowStep;
    match m.kind
    case BaseManager => Launched(m1, b, false, None, None)
    case StrokeManager =>
      Launched(if b == ShowStep then WithMarkPath(m1, PathShape(to)) else m1, b, !moving, None, Some(ResetToCurrent))
    case BounceManager =>
      Launched(if b == ShowStep then WithMarkPath(m1, PathShape(to)) else m1, b, !moving,
              if moving then Some(Amplitude(m.paths.boxType)) else None, Some(ResetToCurrent))
    case FlatManager =>
      (match b
       case HideStep => Launched(m1, b, from != Mixed, None, Some(ResetTo(Some(to))))
       case ShowStep => Launched(WithMarkPath(m1, MixedShape), b, to != Mixed, None, Some(ResetTo(Some(to))))
       case _ => Launched(m1, b, true, None, Some(ResetToCurrent)))
    case SpiralManager =>
      (match b
       case HideStep => Launched(WithMarkPath(m1, ReversedLongShape(from)), b, true, None, Some(ResetTo(Some(to))))
       case ShowStep => Launched(WithMarkPath(m1, ReversedLongShape(to)), b, true, None, Some(ResetTo(Some(to))))
       case _ => Launched(m1, b, true, None, Some(ResetToCurrent)))
  }

  /** Runs a completion block. */
  function Complete(m: Manager, c: Option<Completion>): Manager
  {
    match c
    case None => m
    case Some(ResetToCurrent) => Reset(m, m.state)
    case Some(ResetTo(s)) => if s.Some? then Reset(m, s.value) else m
  }

  // ---------------------------------------------------------------- properties

  /** The base manager's bookkeeping: `animate` and the reset both store their state and change nothing else. */
  lemma BaseManagerStores(m: Manager, from: CheckState, to: CheckState)
    requires m.kind == BaseManager
    ensures Animate(m, from, to).manager == m.(state := to)
    ensures Reset(m, to) == m.(state := to)
  {
  }

  /**
   Every manager's animation ends where an unanimated reset to the target
   would: once the completion runs, the manager equals `Reset(m, to)`.
   */
  lemma AnimationSettlesToReset(m: Manager, from: CheckState, to: CheckState)
    requires m.kind != BaseManager
    ensures var r := Animate(m, from, to);
            Complete(r.manager, r.completion) == Reset(m, to)
  {
  }

  /** Resetting twice to the same state is resetting once. */
  lemma ResetIdempotent(m: Manager, s: CheckState)
    ensures Reset(Reset(m, s), s) == Reset(m, s)
  {
  }

  /** The stroke and spiral managers: the selected box and the mark are fully drawn exactly when not unchecked. */
  lemma StrokedResetTable(m: Manager, s: CheckState)
    requires m.kind == StrokeManager || m.kind == SpiralManager
    ensures var l := Reset(m, s).layers;
            (l.selectedBox.opacity == 1.0 && l.selectedBox.strokeEnd == 1.0
             && l.mark.opacity == 1.0 && l.mark.strokeEnd == 1.0) <==> s != Unchecked
    ensures var l := Reset(m, s).layers;
            (l.selectedBox.opacity == 0.0 && l.selectedBox.strokeEnd == 0.0
             && l.mark.opacity == 0.0 && l.mark.strokeEnd == 0.0) <==> s == Unchecked
    ensures var l := Reset(m, s).layers;
            l.unselectedBox.stroke == SecondaryTint && l.selectedBox.stroke == Tint && l.mark.stroke == Tint
            && l.unselectedBox.lineWidth == l.selectedBox.lineWidth == m.paths.boxLineWidth
            && l.mark.lineWidth == m.paths.checkmarkLineWidth
            && l.mark.path == PathShape(s)
  {
  }

  /** For every drawing manager, checked and mixed differ only in the mark's path. */
  lemma CheckedAndMixedAgree(m: Manager)
    ensures var c := Reset(m, Checked).layers;
            var x := Reset(m, Mixed).layers;
            c.unselectedBox == x.unselectedBox && c.selectedBox == x.selectedBox
            && c.mark.(path := None) == x.mark.(path := None)
  {
  }

  /** The flat manager: opacity by state, the styled colours, and the state's path winning over the per-state write. */
  lemma FlatResetTable(m: Manager, s: CheckState)
    requires m.kind == FlatManager
    ensures var l := Reset(m, s).layers;
            l.selectedBox.opacity == Shown(s) && l.mark.opacity == Shown(s)
            && l.mark.path == PathShape(s)
            && l.selectedBox.fill == (if m.style == StrokeStyle then NoColour else Tint)
            && l.mark.stroke == (if m.style == StrokeStyle then Tint else CheckmarkTint)
            && (m.style == StrokeStyle ==> (l.mark.fill == NoColour <==> m.paths.markType == Checkmark))
  {
  }

  /** The bounce manager: the mark is scaled to nothing exactly when unchecked, and the unselected box's opacity is never written. */
  lemma BounceResetTable(m: Manager, s: CheckState)
    requires m.kind == BounceManager
    ensures var l := Reset(m, s).layers;
            l.selectedBox.opacity == Shown(s)
            && (l.mark.transform == ScaleZero <==> s == Unchecked)
            && (l.mark.transform == Identity <==> s != Unchecked)
            && l.unselectedBox.opacity == m.layers.unselectedBox.opacity
  {
  }

  /** The bounce wiggle is 0.20 for a square box and 0.35 otherwise, and is used exactly by the hide and show steps. */
  lemma BounceWiggle(m: Manager, from: CheckState, to: CheckState)
    requires m.kind == BounceManager
    ensures var r := Animate(m, from, to);
            (r.wiggle.Some? <==> r.step == HideStep || r.step == ShowStep)
            && (r.wiggle.Some? ==> r.wiggle.value == (if m.paths.boxType == Square then 0.20 else 0.35))
  {
  }

  /** The flat manager skips the path morph when leaving mixed for unchecked and when entering mixed from unchecked. */
  lemma FlatMorphSkips(m: Manager, from: CheckState, to: CheckState)
    requires m.kind == FlatManager
    ensures !Animate(m, from, to).morphsPath <==> (to == Unchecked && from == Mixed) || (from == Unchecked && to == Mixed)
  {
  }

  /**
   The spiral manager hides from the long mark of the origin state and shows
   through the long mark of the target, both drawn from their far end.
   */
  lemma SpiralLongMarks(m: Manager, from: CheckState, to: CheckState)
    requires m.kind == SpiralManager
    ensures to == Unchecked ==>
              Animate(m, from, to).manager.layers.mark.path == Some(Reversed(MarkShape(HookFor(from, true))))
    ensures to != Unchecked && from == Unchecked ==>
              Animate(m, from, to).manager.layers.mark.path == Some(Reversed(MarkShape(HookFor(to, true))))
  {
  }
}
