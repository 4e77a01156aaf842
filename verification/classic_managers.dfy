/**
 The managers of the middle generation: a base manager keeping the check
 state, and the spiral, dot and fill managers drawing with three layers and
 the middle generation's path presets. Between two checked-or-mixed states
 they all morph the mark; none treats the radio mark specially.
 */
module ClassicManagers {
  import opened Wrappers
  import opened Kinds
  import opened Layers
  import opened Transitions
  import PP = PresetPaths
  import CP = ClassicPresets
  import PG = PathGenerator
  import M = Managers

  datatype ManagerKind = BaseManager | SpiralManager | DotManager | FillManager

  /** Only the dot manager reads its style; the others ignore it. */
  datatype Manager = Manager(
    kind: ManagerKind,
    style: AnimationStyle,
    state: CheckState,
    paths: PP.Presets,
    palette: Palette,
    hideBox: bool,
    layers: Layers)

  /** A new manager: unchecked, default colours, box shown; the spiral and dot managers install their presets. */
  function NewManager(kind: ManagerKind, style: AnimationStyle): (m: Manager)
    ensures m.state == Unchecked && !m.hideBox && m.palette == DefaultPalette
    ensures m.paths.family == PP.SpiralPresets <==> kind == SpiralManager
    ensures m.paths.family == PP.DotPresets <==> kind == DotManager
    ensures m.kind == kind && m.style == style
  {
    var family := if kind == SpiralManager then PP.SpiralPresets else if kind == DotManager then PP.DotPresets else PP.PlainPresets;
    Manager(kind, style, Unchecked, PP.NewPresets(family), DefaultPalette, false, SetupLayers)
  }

  /** The paths every subclass writes on layout and at the end of a reset: the dot manager's unselected box shows the dot. */
  function WithPaths(kind: ManagerKind, l: Layers, s: CheckState): Layers
  {
    Layers(l.unselectedBox.(path := Some(if kind == DotManager then DotShape else BoxShape)),
           l.selectedBox.(path := Some(BoxShape)),
           l.mark.(path := M.PathShape(s)))
  }

  /** `layoutLayers`: nothing for the base class, the paths for the subclasses. */
  function Layout(m: Manager): (r: Layers)
    ensures m.kind == BaseManager ==> r == m.layers
    ensures m.kind != BaseManager ==> r.selectedBox.path == Some(BoxShape) && r.mark.path == M.PathShape(m.state)
    ensures m.kind != BaseManager ==> (r.unselectedBox.path == Some(DotShape) <==> m.kind == DotManager)
  {
    if m.kind == BaseManager then m.layers else WithPaths(m.kind, m.layers, m.state)
  }

  /** The dot manager's reset: the styled colours; unchecked shows the dot and hides the box and mark, otherwise the reverse. */
  function DotReset(l: Layers, p: PP.Presets, style: AnimationStyle, s: CheckState): Layers
  {
    var c := StyledColours(l, p.boxLineWidth, p.checkmarkLineWidth, style, p.markType);
    var t := if s == Unchecked then ScaleZero else Identity;
    WithPaths(DotManager, Layers(c.unselectedBox.(opacity := 1.0 - M.Shown(s)), c.selectedBox.(transform := t),
                                 c.mark.(opacity := M.Shown(s))), s)
  }

  /** The fill manager's reset: a filled selected box scaled to nothing when unchecked, the mark in the checkmark tint. */
  function FillReset(l: Layers, p: PP.Presets, s: CheckState): Layers
  {
    var t := if s == Unchecked then ScaleZero else Identity;
    WithPaths(FillManager, Layers(
      l.unselectedBox.(stroke := SecondaryTint, lineWidth := p.boxLineWidth),
      l.selectedBox.(stroke := Tint, fill := Tint, lineWidth := p.boxLineWidth, transform := t),
      l.mark.(stroke := CheckmarkTint, lineWidth := p.checkmarkLineWidth, opacity := M.Shown(s))), s)
  }

  /** `resetLayersForState(state)`: the base class stores the state and lays out, then the subclass resets. */
  function Reset(m: Manager, s: CheckState): (r: Manager)
    ensures r == m.(state := s, layers := r.layers)
    ensures m.kind == BaseManager ==> r.layers == m.layers
  {
    var m1 := m.(state := s);
    var l := Layout(m1);
    match m.kind
    case BaseManager => m1.(layers := l)
    case SpiralManager => m1.(layers := M.StrokedReset(l, m.paths, s))
    case DotManager => m1.(layers := DotReset(l, m.paths, m.style, s))
    case FillManager => m1.(layers := FillReset(l, m.paths, s))
  }

  /** The step `animate(from, to)` takes: hide into unchecked, show out of unchecked, otherwise morph. */
  function StepFor(from: CheckState, to: CheckState): (b: M.Step)
    ensures b == M.HideStep <==> to == Unchecked
    ensures b == M.ShowStep <==> to != Unchecked && from == Unchecked
    ensures b == M.MorphStep <==> to != Unchecked && from != Unchecked
  {
    if to == Unchecked then M.HideStep else if from == Unchecked then M.ShowStep else M.MorphStep
  }

  /** What `animate` leaves behind: the manager after its direct writes, the step, and the reset its completion runs. */
  datatype Launched = Launched(manager: Manager, step: M.Step, completion: Option<Completion>)

  function WithMarkPath(m: Manager, path: Option<Shape>): Manager
  {
    m.(layers := m.layers.(mark := m.layers.mark.(path := path)))
  }

  function Animate(m: Manager, from: CheckState, to: CheckState): (r: Launched)
    ensures r.manager.state == to
    ensures r.step == StepFor(from, to)
    ensures r.completion.None? <==> m.kind == BaseManager
    ensures r.manager == m.(state := to, layers := r.manager.layers)
    ensures r.manager.layers.selectedBox == m.layers.selectedBox
  {
    var m1 := m.(state := to);
    var b := StepFor(from, to);
    var done := if b == M.MorphStep then Some(ResetToCurrent) else Some(ResetTo(Some(to)));
    match m.kind
    case BaseManager => Launched(m1, b, None)
    case SpiralManager =>
      Launched(if b == M.MorphStep then m1 else WithMarkPath(m1, M.ReversedLongShape(to)), b, done)
    case DotManager =>
      (match b
       case HideStep =>
         var u := if m.style == StrokeStyle then m1.layers.unselectedBox.(opacity := 0.0) else m1.layers.unselectedBox;
         Launched(m1.(layers := m1.layers.(unselectedBox := u)), b, done)
       case ShowStep => Launched(WithMarkPath(m1, M.PathShape(to)), b, done)
       case _ => Launched(m1, b, done))
    case FillManager =>
      Launched(if b == M.ShowStep then WithMarkPath(m1, M.PathShape(to)) else m1, b, done)
  }

  /** Runs a completion block. */
  function Complete(m: Manager, c: Option<Completion>): Manager
  {
    match c
    case None => m
    case Some(ResetToCurrent) => Reset(m, m.state)
    case Some(ResetTo(s)) => if s.Some? then Reset(m, s.value) else m
  }

  /** Whether a manager's `tintColor` observer writes the selected box's fill: the fill manager's, and the dot manager's in the fill style. */
  predicate TintWritesFill(m: Manager)
  {
    m.kind == FillManager || (m.kind == DotManager && m.style == FillStyle)
  }

  /** Whether a manager's `tintColor` observer writes the mark's stroke: the spiral manager's, and the dot manager's in the stroke style. */
  predicate TintWritesMarkStroke(m: Manager)
  {
    m.kind == SpiralManager || (m.kind == DotManager && m.style == StrokeStyle)
  }

  /**
   Setting `tintColor`: the palette changes, and every subclass points the
   selected box's stroke at the tint; the fill manager and the fill-style
   dot manager point its fill there too, the spiral manager and the
   stroke-style dot manager the mark's stroke. The base manager writes no
   layer, and nothing else about the layers changes.
   */
  function SetTint(m: Manager, tint: string): (r: Manager)
    ensures r.palette == m.palette.(tint := tint)
    ensures r == m.(palette := r.palette, layers := r.layers)
    ensures m.kind == BaseManager ==> r.layers == m.layers
    ensures r.layers.unselectedBox == m.layers.unselectedBox
    ensures r.layers.selectedBox == m.layers.selectedBox.(stroke := r.layers.selectedBox.stroke,
                                                          fill := r.layers.selectedBox.fill)
    ensures r.layers.mark == m.layers.mark.(stroke := r.layers.mark.stroke)
    ensures m.kind != BaseManager ==> r.layers.selectedBox.stroke == Tint
    ensures r.layers.selectedBox.fill == if TintWritesFill(m) then Tint else m.layers.selectedBox.fill
    ensures r.layers.mark.stroke == if TintWritesMarkStroke(m) then Tint else m.layers.mark.stroke
  {
    var l := m.layers;
    var p := m.palette.(tint := tint);
    match m.kind
    case BaseManager => m.(palette := p)
    case SpiralManager =>
      m.(palette := p, layers := l.(selectedBox := l.selectedBox.(stroke := Tint), mark := l.mark.(stroke := Tint)))
    case DotManager =>
      if m.style == StrokeStyle then
        m.(palette := p, layers := l.(selectedBox := l.selectedBox.(stroke := Tint), mark := l.mark.(stroke := Tint)))
      else
        m.(palette := p, layers := l.(selectedBox := l.selectedBox.(stroke := Tint, fill := Tint)))
    case FillManager =>
      m.(palette := p, layers := l.(selectedBox := l.selectedBox.(stroke := Tint, fill := Tint)))
  }
  /**
   Right after a reset a new tint rewrites no layer token: the reset already
   points every layer the observer writes at the tint; only the palette's
   value behind the token changes.
   */
  lemma SetTintAfterResetKeepsLayers(m: Manager, s: CheckState, tint: string)
    ensures SetTint(Reset(m, s), tint).layers == Reset(m, s).layers
    ensures SetTint(Reset(m, s), tint).palette.tint == tint
  {
  }


  // ---------------------------------------------------------------- properties

  /** The base manager's bookkeeping: `animate` and the reset both store their state and change nothing else. */
  lemma BaseManagerStores(m: Manager, from: CheckState, to: CheckState)
    requires m.kind == BaseManager
    ensures Animate(m, from, to).manager == m.(state := to)
    ensures Reset(m, to) == m.(state := to)
    ensures Animate(m, from, to).completion == None
  {
  }

  /** Every drawing manager's animation ends where an unanimated reset to the target would. */
  lemma AnimationSettlesToReset(m: Manager, from: CheckState, to: CheckState)
    requires m.kind != BaseManager
    ensures var r := Animate(m, from, to);
            Complete(r.manager, r.completion) == Reset(m, to)
  {
  }

  /** Resetting twice to the same state is resetting once. */
  lemma ResetIdempotent(m: Manager, s: CheckState)
    ensures Reset(Reset(m, s), s) == Reset(m, s)
  {
  }

  /** For every manager, the layers after a reset to checked and to mixed differ at most in the mark's path. */
  lemma CheckedAndMixedAgree(m: Manager)
    ensures var c := Reset(m, Checked).layers;
            var x := Reset(m, Mixed).layers;
            c.unselectedBox == x.unselectedBox && c.selectedBox == x.selectedBox
            && c.mark.(path := None) == x.mark.(path := None)
  {
  }

  /** The spiral manager: the selected box and the mark are fully drawn exactly when not unchecked. */
  lemma SpiralResetTable(m: Manager, s: CheckState)
    requires m.kind == SpiralManager
    ensures var l := Reset(m, s).layers;
            (l.selectedBox.opacity == 1.0 && l.selectedBox.strokeEnd == 1.0
             && l.mark.opacity == 1.0 && l.mark.strokeEnd == 1.0) <==> s != Unchecked
    ensures var l := Reset(m, s).layers;
            (l.selectedBox.opacity == 0.0 && l.selectedBox.strokeEnd == 0.0
             && l.mark.opacity == 0.0 && l.mark.strokeEnd == 0.0) <==> s == Unchecked
    ensures var l := Reset(m, s).layers;
            l.unselectedBox.stroke == SecondaryTint && l.selectedBox.stroke == Tint && l.mark.stroke == Tint
            && l.mark.path == M.PathShape(s) && l.unselectedBox.path == Some(BoxShape)
  {
  }

  /**
   The dot manager: unchecked shows the unselected dot and hides the selected
   box (scaled to nothing) and the mark; checked and mixed do the reverse.
   */
  lemma DotResetTable(m: Manager, s: CheckState)
    requires m.kind == DotManager
    ensures var l := Reset(m, s).layers;
            (l.unselectedBox.opacity == 1.0 && l.selectedBox.transform == ScaleZero && l.mark.opacity == 0.0)
            <==> s == Unchecked
    ensures var l := Reset(m, s).layers;
            (l.unselectedBox.opacity == 0.0 && l.selectedBox.transform == Identity && l.mark.opacity == 1.0)
            <==> s != Unchecked
    ensures var l := Reset(m, s).layers;
            l.unselectedBox.path == Some(DotShape) && l.selectedBox.path == Some(BoxShape)
            && l.selectedBox.fill == (if m.style == StrokeStyle then NoColour else Tint)
            && (m.style == StrokeStyle ==> (l.mark.fill == Tint <==> m.paths.markType == Radio))
  {
  }

  /** The fill manager: the selected box is scaled to nothing and the mark hidden exactly when unchecked. */
  lemma FillResetTable(m: Manager, s: CheckState)
    requires m.kind == FillManager
    ensures var l := Reset(m, s).layers;
            (l.selectedBox.transform == ScaleZero && l.mark.opacity == 0.0) <==> s == Unchecked
    ensures var l := Reset(m, s).layers;
            (l.selectedBox.transform == Identity && l.mark.opacity == 1.0) <==> s != Unchecked
    ensures var l := Reset(m, s).layers;
            l.selectedBox.fill == Tint && l.selectedBox.stroke == Tint && l.mark.stroke == CheckmarkTint
            && l.unselectedBox.opacity == m.layers.unselectedBox.opacity
  {
  }

  /**
   The spiral manager hides through the long mark of the target state (the
   unchecked one), where the newest spiral manager uses the origin's; both
   show through the target's long mark, and both draw it reversed. From the
   checked state the two choices draw alike, as unchecked and checked share a
   long mark in either generation's presets; from the mixed state the middle
   generation strokes the long checkmark (or the box) where the mixed mark
   was, not a long mixed mark.
   */
  lemma SpiralLongMarks(m: Manager, nm: M.Manager, from: CheckState, to: CheckState, o: PG.Opaque)
    requires m.kind == SpiralManager && nm.kind == M.SpiralManager
    ensures to == Unchecked ==>
              Animate(m, from, to).manager.layers.mark.path == Some(Reversed(MarkShape(HookFor(Unchecked, true))))
    ensures to != Unchecked && from == Unchecked ==>
              Animate(m, from, to).manager.layers.mark.path == Some(Reversed(MarkShape(HookFor(to, true))))
    ensures to == Unchecked && from == Checked ==>
              CP.LongMark(m.paths, o, Unchecked) == CP.LongMark(m.paths, o, Checked)
              && PP.LongMark(nm.paths, o, Unchecked) == PP.LongMark(nm.paths, o, Checked)
    ensures to == Unchecked && from == Mixed ==>
              M.Animate(nm, from, to).manager.layers.mark.path == Some(Reversed(MarkShape(HookFor(Mixed, true))))
              && (m.paths.size > 0.0 ==>
                    CP.LongMark(m.paths, o, Unchecked) != CP.LongMark(m.paths, o, Mixed)
                    && CP.LongMark(m.paths, o, Unchecked) != PP.LongMark(m.paths, o, Mixed))
  {
    CP.LongMarkTable(m.paths, o);
    PP.LongMarkTable(nm.paths, o);
    if m.paths.size > 0.0 {
      CP.UncheckedLongMarkIsNotMixed(m.paths, o);
    }
  }

  /** Between two checked-or-mixed states every manager morphs, whatever the mark type; the newest spiral manager compresses a radio mark instead. */
  lemma MorphWithoutRadioCase(m: Manager, nm: M.Manager, from: CheckState, to: CheckState)
    requires from != Unchecked && to != Unchecked
    requires nm.kind == M.SpiralManager && nm.paths.markType == Radio
    ensures Animate(m, from, to).step == M.MorphStep
    ensures M.Animate(nm, from, to).step == M.CompressStep
  {
  }

  /** Going to unchecked, the stroke-style dot manager hides the unselected box at once; the fill style leaves it. */
  lemma DotHideClearsUnselected(m: Manager, from: CheckState)
    requires m.kind == DotManager
    ensures m.style == StrokeStyle ==> Animate(m, from, Unchecked).manager.layers.unselectedBox.opacity == 0.0
    ensures m.style == FillStyle ==> Animate(m, from, Unchecked).manager.layers.unselectedBox == m.layers.unselectedBox
  {
  }
}
