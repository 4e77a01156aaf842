/**
 The newest generation's checkbox view: its check state lives in the
 controller it owns; setting it, toggling it, the long press, swapping the
 animation (and with it the controller) and the string proxies used by
 Interface Builder.
 */
module SourcesCheckbox {
  import opened Wrappers
  import opened Kinds
  import opened Geometry
  import opened Layers
  import opened PathGenerator
  import Defaults
  import Names
  import C = Controller
  import SpiralController

  datatype Checkbox = Checkbox(
    controller: C.Controller,
    animation: Animation,
    selected: bool,
    disclosure: map<Hook, Path>)   // the hooks of the disclosure generator, which is not modelled

  /** A view together with the completion work its controller has scheduled. */
  datatype Step = Step(box: Checkbox, pending: seq<C.Action>)

  /** The animation duration of a new animation generator. */
  const DefaultDuration: real := 0.3

  function CheckState(b: Checkbox): CheckState
  {
    b.controller.state
  }

  /** The controller subclass and style an animation installs. */
  function KindOf(a: Animation): (r: (C.ControllerKind, AnimationStyle))
    ensures a.Bounce? || a.Expand? || a.Flat? || a.Fade? || a.Dot? ==> r.1 == StyleOf(a)
    ensures a.Spiral? <==> r.0 == C.SpiralKind
    ensures a.Flat? <==> r.0 == C.FlatKind
    ensures a.Dot? <==> r.0 == C.DotKind
  {
    match a
    case Stroke => (C.StrokeKind, StrokeStyle)
    case Fill => (C.FillKind, StrokeStyle)
    case Bounce(s) => (C.BounceKind, s)
    case Expand(s) => (C.ExpandKind, s)
    case Flat(s) => (C.FlatKind, s)
    case Spiral => (C.SpiralKind, StrokeStyle)
    case Fade(s) => (C.FadeKind, s)
    case Dot(s) => (C.DotKind, s)
  }

  /**
   A new checkbox: a stroke controller given the view's tint, reset to the
   default state, no selection. Every animation generator starts its
   animations from the same values, `starts`.
   */
  function Setup(tint: string, disclosure: map<Hook, Path>, starts: SpiralController.StartValues): (b: Checkbox)
    ensures CheckState(b) == Defaults.DefaultCheckState
    ensures b.animation == Defaults.DefaultAnimation && !b.selected
    ensures b.controller.kind == C.StrokeKind && b.controller.palette.tint == tint
  {
    var c := C.New(C.StrokeKind, StrokeStyle, DefaultDuration, starts);
    var c1 := c.(palette := c.palette.(tint := tint));
    Checkbox(C.Reset(c1, Some(Defaults.DefaultCheckState)), Defaults.DefaultAnimation, false, disclosure)
  }

  /** `value`: the object configured for the current state. */
  function Value<V>(b: Checkbox, uncheckedValue: V, checkedValue: V, mixedValue: V): (r: V)
    ensures CheckState(b) == Unchecked ==> r == uncheckedValue
    ensures CheckState(b) == Checked ==> r == checkedValue
    ensures CheckState(b) == Mixed ==> r == mixedValue
  {
    match CheckState(b)
    case Unchecked => uncheckedValue
    case Checked => checkedValue
    case Mixed => mixedValue
  }

  /**
   `setCheckState(new, animated)`. Nothing happens for the current state.
   Unanimated, the layers are reset to the new state. Animated with
   morphing, the controller animates straight to it. Animated without
   morphing, the controller animates the mark away, and the completion
   resets to the new state and animates it in.
   */
  function SetCheckState(b: Checkbox, s: CheckState, animated: bool): (r: Step)
    ensures r.box == b.(controller := r.box.controller)
    ensures r.box.controller == b.controller.(state := r.box.controller.state, layers := r.box.controller.layers)
  {
    var c := b.controller;
    if c.state == s then Step(b, [])
    else if animated && c.enableMorphing then
      var (c1, p) := C.Animate(c, Some(c.state), Some(s), []);
      Step(b.(controller := c1), p)
    else if animated then
      var (c1, p) := C.Animate(c, Some(c.state), None, [C.ResetAction(Some(s)), C.AnimateAction(None, Some(s), [])]);
      Step(b.(controller := c1), p)
    else
      Step(b.(controller := C.Reset(c, Some(s))), [])
  }

  function Toggle(b: Checkbox, animated: bool): Step
  {
    SetCheckState(b, ToggleTarget(CheckState(b)), animated)
  }

  /** Setting the current state does nothing at all. */
  lemma SetSameStateIsNoOp(b: Checkbox, animated: bool)
    ensures SetCheckState(b, CheckState(b), animated) == Step(b, [])
  {
  }

  /** Unanimated, or animated with morphing, the new state holds as soon as the call returns. */
  lemma SetCheckStateImmediate(b: Checkbox, s: CheckState, animated: bool)
    requires !animated || b.controller.enableMorphing
    ensures CheckState(SetCheckState(b, s, animated).box) == s
  {
  }

  /**
   Animated without morphing, the state is untouched when the call returns;
   it becomes the new state once the completion runs and stays there
   whatever completions follow.
   */
  lemma SetCheckStateDeferred(b: Checkbox, s: CheckState, rounds: nat)
    requires !b.controller.enableMorphing && s != CheckState(b)
    ensures var r := SetCheckState(b, s, true);
            CheckState(r.box) == CheckState(b)
            && C.Run(r.box.controller, r.pending).0.state == s
            && C.Settle(r.box.controller, r.pending, rounds + 1).0.state == s
  {
    var c := b.controller;
    var tail := [C.ResetAction(Some(s)), C.AnimateAction(None, Some(s), [])];
    var r := SetCheckState(b, s, true);
    var pre := r.pending[..|r.pending| - 1];
    assert r.pending == pre + [C.AnimateAction(None, Some(s), [])];
    assert forall i :: 0 <= i < |pre| ==> C.Targets(pre[i], s) || pre[i].ResetAction? by {
      if C.Shown(c.kind) {
        assert pre == [r.pending[0], C.ResetAction(Some(s))];
      } else {
        assert pre == [C.ResetAction(Some(s))];
      }
    }
    C.EndsAnimatingTo(r.box.controller, pre, s, rounds);
  }

  /** Toggling never reaches the mixed state, and undoes itself from checked or unchecked. */
  lemma ToggleTwice(b: Checkbox)
    requires CheckState(b) != Mixed
    ensures CheckState(Toggle(b, false).box) != Mixed
    ensures CheckState(Toggle(Toggle(b, false).box, false).box) == CheckState(b)
  {
  }

  /** The phases a long-press gesture reports. */
  datatype GesturePhase = Possible | Began | Changed | Ended | Cancelled | Failed

  /**
   The long-press handler: while the press is in progress the view is
   selected; otherwise it is deselected, and a press that ended toggles the
   state with animation and reports a value change (the boolean).
   */
  function LongPress(b: Checkbox, phase: GesturePhase): (r: (Step, bool))
    ensures r.0.box.selected <==> phase == Began || phase == Changed
    ensures r.1 <==> phase == Ended
    ensures phase != Ended ==> r.0 == Step(b.(selected := r.0.box.selected), [])
    ensures phase == Ended ==> r.0 == Toggle(b.(selected := false), true)
  {
    if phase == Began || phase == Changed then (Step(b.(selected := true), []), false)
    else
      var b1 := b.(selected := false);
      if phase == Ended then (Toggle(b1, true), true) else (Step(b1, []), false)
  }

  /**
   Installing a new animation: a fresh controller of the animation's kind
   is given every setting of the old one, the same generator and state, is
   switched to the old mark type without animation, and is reset to the
   current state.
   */
  function SetAnimation(b: Checkbox, a: Animation): (r: Checkbox)
    ensures r.animation == a
  {
    var prev := b.controller;
    var (kind, style) := KindOf(a);
    var made := C.New(kind, style, DefaultDuration, prev.starts);
    var handed := made.(palette := prev.palette, hideBox := prev.hideBox, generator := prev.generator,
                         animationDuration := prev.animationDuration, state := prev.state,
                         enableMorphing := prev.enableMorphing);
    var switched := C.SetMarkType(handed, prev.markType, false, b.disclosure).0;
    b.(controller := C.Reset(switched, Some(prev.state)), animation := a)
  }

  /**
   The new controller keeps the check state, the mark type, morphing, the
   box setting, the colours, the duration and the generator's geometry, and
   is of the animation's kind.
   */
  lemma SetAnimationHandsOver(b: Checkbox, a: Animation)
    ensures var r := SetAnimation(b, a).controller;
            r.state == CheckState(b) && r.markType == b.controller.markType
            && r.enableMorphing == b.controller.enableMorphing && r.hideBox == b.controller.hideBox
            && r.palette == b.controller.palette && r.animationDuration == b.controller.animationDuration
            && r.generator.(kind := b.controller.generator.kind) == b.controller.generator
            && r.starts == b.controller.starts && (r.kind, r.style) == KindOf(a)
  {
  }

  /** Once the generator matches the mark type, the hand-over keeps the generator itself. */
  lemma SetAnimationKeepsMatchingGenerator(b: Checkbox, a: Animation)
    requires b.controller.generator.kind == C.GeneratorFor(b.controller.markType, b.disclosure)
    ensures SetAnimation(b, a).controller.generator == b.controller.generator
  {
  }

  // Interface Builder string proxies: each getter is the raw string of the
  // property, each setter decodes it and falls back to the default.

  function GetAnimationName(b: Checkbox): string
  {
    Names.AnimationName(b.animation)
  }

  function SetAnimationName(b: Checkbox, t: string): (r: Checkbox)
    ensures t in Names.AnimationNames ==> Names.AnimationName(r.animation) == t
    ensures t !in Names.AnimationNames ==> r.animation == Defaults.DefaultAnimation
  {
    SetAnimation(b, Names.ParseAnimation(t).GetOr(Defaults.DefaultAnimation))
  }

  function GetMarkTypeName(b: Checkbox): string
  {
    Names.MarkTypeName(b.controller.markType)
  }

  /** The mark type setter switches without animation; a layout pass follows later. */
  function SetMarkTypeName(b: Checkbox, t: string): (r: Checkbox)
    ensures t in Names.MarkTypeNames ==> Names.MarkTypeName(r.controller.markType) == t
    ensures t !in Names.MarkTypeNames ==> r.controller.markType == Defaults.DefaultMarkType
    ensures CheckState(r) == CheckState(b)
  {
    var t1 := Names.ParseMarkType(t).GetOr(Defaults.DefaultMarkType);
    b.(controller := C.SetMarkType(b.controller, t1, false, b.disclosure).0)
  }

  function GetBoxTypeName(b: Checkbox): string
  {
    Names.BoxTypeName(b.controller.generator.boxType)
  }

  /** The box type setter only changes the generator; a layout pass follows later. */
  function SetBoxTypeName(b: Checkbox, t: string): (r: Checkbox)
    ensures t in Names.BoxTypeNames ==> Names.BoxTypeName(r.controller.generator.boxType) == t
    ensures t !in Names.BoxTypeNames ==> r.controller.generator.boxType == Defaults.DefaultBoxType
    ensures r == b.(controller := b.controller.(generator := b.controller.generator.(boxType := r.controller.generator.boxType)))
  {
    var t1 := Names.ParseBoxType(t).GetOr(Defaults.DefaultBoxType);
    b.(controller := b.controller.(generator := b.controller.generator.(boxType := t1)))
  }

  function GetCheckStateName(b: Checkbox): string
  {
    Names.CheckStateName(CheckState(b))
  }

  /** The check state setter sets the state without animation. */
  function SetCheckStateName(b: Checkbox, t: string): (r: Checkbox)
    ensures t in Names.CheckStateNames ==> Names.CheckStateName(CheckState(r)) == t
    ensures t !in Names.CheckStateNames ==> CheckState(r) == Defaults.DefaultCheckState
  {
    SetCheckState(b, Names.ParseCheckState(t).GetOr(Defaults.DefaultCheckState), false).box
  }

  /** Writing back what a proxy reads leaves its property as it was; for mark type and state, the whole view. */
  lemma ProxiesRoundTrip(b: Checkbox)
    ensures SetAnimationName(b, GetAnimationName(b)).animation == b.animation
    ensures SetMarkTypeName(b, GetMarkTypeName(b)) == b
    ensures SetBoxTypeName(b, GetBoxTypeName(b)) == b
    ensures SetCheckStateName(b, GetCheckStateName(b)) == b
  {
    Names.AnimationRoundTrip(b.animation);
    Names.MarkTypeRoundTrip(b.controller.markType);
    Names.BoxTypeRoundTrip(b.controller.generator.boxType);
    Names.CheckStateRoundTrip(CheckState(b));
  }

  /**
   The line-width setters change the generator's width and reset the
   layers to the current state, which stays as it was.
   */
  function SetCheckmarkLineWidth(b: Checkbox, w: real): (r: Checkbox)
    ensures r.controller.generator == b.controller.generator.(checkmarkLineWidth := w)
    ensures CheckState(r) == CheckState(b)
  {
    var c := b.controller.(generator := b.controller.generator.(checkmarkLineWidth := w));
    b.(controller := C.Reset(c, Some(CheckState(b))))
  }

  function SetBoxLineWidth(b: Checkbox, w: real): (r: Checkbox)
    ensures r.controller.generator == b.controller.generator.(boxLineWidth := w)
    ensures CheckState(r) == CheckState(b)
  {
    var c := b.controller.(generator := b.controller.generator.(boxLineWidth := w));
    b.(controller := C.Reset(c, Some(CheckState(b))))
  }

  /**
   `setMarkType(markType:animated:)`, and the `markType` property with no
   animation: the controller switches mark type and returns the completion
   work that finishes the switch.
   */
  function SetMarkType(b: Checkbox, t: MarkType, animated: bool): (r: Step)
    ensures r.box.controller.markType == t && CheckState(r.box) == CheckState(b)
    ensures t == b.controller.markType ==> r == Step(b, [])
    ensures r.box == b.(controller := r.box.controller)
  {
    var switched := C.SetMarkType(b.controller, t, animated, b.disclosure);
    Step(b.(controller := switched.0), switched.1)
  }

  // The remaining property setters write straight through to the
  // controller or its generator; the layout they request is the separate
  // `LayoutSubviews`.

  function SetCornerRadius(b: Checkbox, radius: real): Checkbox
  {
    b.(controller := b.controller.(generator := b.controller.generator.(cornerRadius := radius)))
  }

  function SetBoxType(b: Checkbox, t: BoxType): Checkbox
  {
    b.(controller := b.controller.(generator := b.controller.generator.(boxType := t)))
  }

  function SetHideBox(b: Checkbox, hidden: bool): Checkbox
  {
    b.(controller := b.controller.(hideBox := hidden))
  }

  function SetAnimationDuration(b: Checkbox, d: real): Checkbox
  {
    b.(controller := b.controller.(animationDuration := d))
  }

  /** The colour setters and `tintColorDidChange`: the layers keep their colour tokens. */
  function SetPalette(b: Checkbox, p: Palette): Checkbox
  {
    b.(controller := b.controller.(palette := p))
  }

  /** The check state, the layers, the animation and the mark type are as they were. */
  predicate KeepsState(b: Checkbox, r: Checkbox)
  {
    CheckState(r) == CheckState(b) && r.controller.layers == b.controller.layers
    && r.animation == b.animation && r.controller.markType == b.controller.markType
  }

  /**
   The plain property setters never touch the check state, the layers or
   the animation; each is read back by its getter, and a second write of
   the same property overrides the first.
   */
  lemma PropertySetters(b: Checkbox, radius: real, t: BoxType, hidden: bool, d: real, p: Palette)
    ensures KeepsState(b, SetCornerRadius(b, radius)) && KeepsState(b, SetBoxType(b, t))
            && KeepsState(b, SetHideBox(b, hidden)) && KeepsState(b, SetAnimationDuration(b, d))
            && KeepsState(b, SetPalette(b, p))
    ensures SetCornerRadius(b, radius).controller.generator.cornerRadius == radius
    ensures SetBoxType(b, t).controller.generator.boxType == t && GetBoxTypeName(SetBoxType(b, t)) == Names.BoxTypeName(t)
    ensures SetHideBox(b, hidden).controller.hideBox == hidden
    ensures SetAnimationDuration(b, d).controller.animationDuration == d
    ensures SetPalette(b, p).controller.palette == p
    ensures forall earlier: real :: SetCornerRadius(SetCornerRadius(b, earlier), radius) == SetCornerRadius(b, radius)
    ensures forall t0: BoxType :: SetBoxType(SetBoxType(b, t0), t) == SetBoxType(b, t)
  {
  }

  /** A layout pass: the generator takes the smaller side of the frame and the controller lays out. */
  function LayoutSubviews(b: Checkbox, width: real, height: real): (r: Checkbox)
    ensures r.controller.generator.size <= width && r.controller.generator.size <= height
    ensures r.controller.generator.size == width || r.controller.generator.size == height
    ensures CheckState(r) == CheckState(b)
  {
    var c := b.controller.(generator := b.controller.generator.(size := if width <= height then width else height));
    b.(controller := c.(layers := C.Layout(c)))
  }
}
