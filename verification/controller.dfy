/**
 The newest generation's animation controller: the object that owns the
 check state, the mark type, the path generator and the three layers, and
 that resets and animates them. The base class only keeps the state; the
 spiral, flat and dot subclasses are modelled through their own modules.
 The stroke, fill, bounce, expand and fade subclasses are not part of this
 model: they keep the base class's state bookkeeping and their layers are
 left as they are.

 Animation completion blocks are not run at once: `Animate` returns the
 list of actions its completion block will perform, and `Run` performs
 such a list later.
 */
module Controller {
  import opened Wrappers
  import opened Kinds
  import opened Layers
  import opened Geometry
  import opened PathGenerator
  import opened Transitions
  import Defaults
  import SpiralController
  import FlatController
  import DotController

  /** The controller subclass an animation installs. */
  datatype ControllerKind = StrokeKind | FillKind | BounceKind | ExpandKind | FlatKind | SpiralKind | FadeKind | DotKind

  /** The controllers whose layer handling is part of this model. */
  predicate Shown(k: ControllerKind)
  {
    k.FlatKind? || k.SpiralKind? || k.DotKind?
  }

  /** `starts` stands for the animation generator each controller owns: the values its animations start from. */
  datatype Controller = Controller(
    kind: ControllerKind,
    style: AnimationStyle,
    state: CheckState,
    markType: MarkType,
    generator: Generator,
    palette: Palette,
    hideBox: bool,
    enableMorphing: bool,
    animationDuration: real,
    layers: Layers,
    starts: SpiralController.StartValues)

  /** The work a completion block does when it runs. */
  datatype Action =
    | ResetAction(target: Option<CheckState>)                         // resetLayersForState(target)
    | ResetCurrent                                                      // resetLayersForState(self.state)
    | AnimateAction(from: Option<CheckState>, to: Option<CheckState>, after: seq<Action>)
    | InstallGenerator(installed: Generator)                            // pathGenerator = generator
    | AnimateInIfMark(state: CheckState)                                // animate(nil, target) if a mark exists

  /** A newly created controller: unchecked, checkmark, check generator, morphing on, box shown. */
  function New(kind: ControllerKind, style: AnimationStyle, animationDuration: real,
               starts: SpiralController.StartValues): (c: Controller)
    ensures c.state == Defaults.DefaultCheckState && c.markType == Defaults.DefaultMarkType
    ensures c.generator.kind == CheckGenerator && c.enableMorphing && !c.hideBox
    ensures c.palette == DefaultPalette && c.starts == starts
  {
    Controller(kind, style, Defaults.DefaultCheckState, Defaults.DefaultMarkType, NewGenerator(CheckGenerator),
               DefaultPalette, false, true, animationDuration, SetupLayers, starts)
  }

  /**
   The generator kind each mark type uses. The disclosure generator is not
   part of this model; `disclosure` stands for the hooks it draws.
   */
  function GeneratorFor(t: MarkType, disclosure: map<Hook, Path>): (k: GeneratorKind)
    ensures t == Checkmark <==> k == CheckGenerator
    ensures t == Radio <==> k == RadioGenerator
    ensures t == AddRemove <==> k == AddRemoveGenerator
    ensures t == Disclosure <==> k == DisclosureGenerator(disclosure)
  {
    match t
    case Checkmark => CheckGenerator
    case Radio => RadioGenerator
    case AddRemove => AddRemoveGenerator
    case Disclosure => DisclosureGenerator(disclosure)
  }

  /** The layout of the subclass, run by the base class's reset. */
  function Layout(c: Controller): Layers
  {
    match c.kind
    case SpiralKind => BoxAndMarkLayout(c.layers, c.generator, c.state)
    case FlatKind => BoxAndMarkLayout(c.layers, c.generator, c.state)
    case DotKind => DotController.Layout(c.layers, c.generator, c.state)
    case _ => c.layers
  }

  /**
   `resetLayersForState(s)`: the base class adopts a non-nil state and lays
   out; the subclass then resets its layers for `s` itself (a nil `s` means
   no mark). Nothing but the state and the layers changes.
   */
  function Reset(c: Controller, s: Option<CheckState>): (r: Controller)
    ensures r.state == (if s.Some? then s.value else c.state)
    ensures r == c.(state := r.state, layers := r.layers)
    ensures c.kind == SpiralKind ==> r.layers == SpiralController.Reset(Layout(c.(state := r.state)), c.generator, s)
    ensures !Shown(c.kind) ==> r.layers == c.layers
  {
    var c1 := c.(state := if s.Some? then s.value else c.state);
    var laid := c1.(layers := Layout(c1));
    match c.kind
    case SpiralKind => laid.(layers := SpiralController.Reset(laid.layers, c.generator, s))
    case FlatKind => laid.(layers := FlatController.Reset(laid.layers, c.generator, c.markType, c.style, s))
    case DotKind => laid.(layers := DotController.Reset(laid.layers, c.generator, c.markType, c.style, s))
    case _ => c1
  }

  function CompletionAction(k: Completion): Action
  {
    match k
    case ResetTo(s) => ResetAction(s)
    case ResetToCurrent => ResetCurrent
  }

  /**
   `animate(from, to, completion)`: the base class adopts a non-nil target
   state at once; the subclass starts its animation and schedules its own
   reset followed by the caller's completion.
   */
  function Animate(c: Controller, from: Option<CheckState>, to: Option<CheckState>, after: seq<Action>)
    : (r: (Controller, seq<Action>))
    ensures r.0.state == (if to.Some? then to.value else c.state)
    ensures r.0 == c.(state := r.0.state, layers := r.0.layers)
    ensures Shown(c.kind) ==> |r.1| == |after| + 1 && r.1[1..] == after
    ensures Shown(c.kind) ==> r.1[0] == CompletionAction(CompletionOf(ChooseBranch(c.generator.kind, from, to), to))
    ensures !Shown(c.kind) ==> r.1 == after
  {
    var c1 := c.(state := if to.Some? then to.value else c.state);
    match c.kind
    case SpiralKind =>
      var st := SpiralController.Start(c1.layers, c.generator, c.starts, from, to);
      (c1.(layers := st.layers), [CompletionAction(st.completion)] + after)
    case FlatKind =>
      var st := FlatController.Start(c1.layers, c.generator, from, to);
      (c1.(layers := st.layers), [CompletionAction(st.completion)] + after)
    case DotKind =>
      var st := DotController.Start(c1.layers, c.generator, c.style, from, to);
      (c1.(layers := st.layers), [CompletionAction(st.completion)] + after)
    case _ => (c1, after)
  }

  /** The generator `_setMarkType` builds: the new kind, with every geometric property copied. */
  function Successor(g: Generator, t: MarkType, disclosure: map<Hook, Path>): (r: Generator)
    ensures r.kind == GeneratorFor(t, disclosure)
    ensures r.(kind := g.kind) == g
  {
    g.(kind := GeneratorFor(t, disclosure))
  }

  /**
   `setMarkType(type, animated)`. Nothing happens for the current type.
   Otherwise, when animated and the old generator draws a mark for the
   state, the mark is animated out and the new generator is installed by
   the completion, which resets to the state and animates the new mark in
   if there is one. When animated and only the new generator draws a mark,
   it is installed, the layers are reset to no mark and the mark is
   animated in. Otherwise the new generator is installed and the layers are
   reset to the state. The stored mark type changes when the call returns,
   after the resets above.
   */
  function SetMarkType(c: Controller, t: MarkType, animated: bool, disclosure: map<Hook, Path>): (r: (Controller, seq<Action>))
    ensures t == c.markType ==> r == (c, [])
    ensures t != c.markType ==> r.0.markType == t
    ensures r.0.state == c.state
  {
    if t == c.markType then (c, [])
    else
      var next := Successor(c.generator, t, disclosure);
      var prev := c.state;
      if HasMark(c.generator.kind, Some(prev)) && animated then
        var (c1, pending) := Animate(c, Some(prev), None,
                                     [InstallGenerator(next), ResetAction(Some(prev)), AnimateInIfMark(prev)]);
        (c1.(markType := t), pending)
      else if HasMark(next.kind, Some(prev)) && animated then
        var c1 := Reset(c.(generator := next), None);
        var (c2, pending) := Animate(c1, None, Some(prev), []);
        (c2.(markType := t), pending)
      else
        (Reset(c.(generator := next), Some(prev)).(markType := t), [])
  }

  function RunAction(c: Controller, a: Action): (r: (Controller, seq<Action>))
  {
    match a
    case ResetAction(s) => (Reset(c, s), [])
    case ResetCurrent => (Reset(c, Some(c.state)), [])
    case AnimateAction(f, t, after) => Animate(c, f, t, after)
    case InstallGenerator(g) => (c.(generator := g), [])
    case AnimateInIfMark(s) => if HasMark(c.generator.kind, Some(s)) then Animate(c, None, Some(s), []) else (c, [])
  }

  /**
   Runs a batch of completion work in order; the completions the batch
   schedules are collected, in order, for the next batch.
   */
  function Run(c: Controller, acts: seq<Action>): (r: (Controller, seq<Action>))
    decreases |acts|
  {
    if acts == [] then (c, [])
    else
      var (c1, p1) := RunAction(c, acts[0]);
      var (c2, p2) := Run(c1, acts[1..]);
      (c2, p1 + p2)
  }

  /** Runs up to `rounds` batches, each batch being the completions the previous one scheduled. */
  function Settle(c: Controller, pending: seq<Action>, rounds: nat): (r: (Controller, seq<Action>))
    decreases rounds
  {
    if rounds == 0 || pending == [] then (c, pending)
    else
      var (c1, p1) := Run(c, pending);
      Settle(c1, p1, rounds - 1)
  }

  /** Whether an action can only ever move the state to `s` (or leave it alone). */
  predicate Targets(a: Action, s: CheckState)
  {
    match a
    case ResetAction(t) => t.None? || t == Some(s)
    case ResetCurrent => true
    case AnimateAction(f, t, after) => (t.None? || t == Some(s)) && forall x :: x in after ==> Targets(x, s)
    case InstallGenerator(_) => true
    case AnimateInIfMark(t) => t == s
  }

  predicate AllTarget(acts: seq<Action>, s: CheckState)
  {
    forall i :: 0 <= i < |acts| ==> Targets(acts[i], s)
  }

  lemma RunActionKeepsTarget(c: Controller, a: Action)
    requires Targets(a, c.state)
    ensures RunAction(c, a).0.state == c.state
    ensures AllTarget(RunAction(c, a).1, c.state)
  {
    match a
    case AnimateAction(f, t, after) =>
      var r := Animate(c, f, t, after);
      if Shown(c.kind) {
        assert r.1 == [r.1[0]] + after;
      }
    case _ =>
  }

  /** A batch whose actions all target the current state keeps it, and schedules only such actions. */
  lemma {:induction false} RunKeepsTarget(c: Controller, acts: seq<Action>)
    requires AllTarget(acts, c.state)
    ensures Run(c, acts).0.state == c.state
    ensures AllTarget(Run(c, acts).1, c.state)
    decreases |acts|
  {
    if acts != [] {
      RunActionKeepsTarget(c, acts[0]);
      var (c1, p1) := RunAction(c, acts[0]);
      RunKeepsTarget(c1, acts[1..]);
    }
  }

  /** Any number of rounds of such work keeps the state. */
  lemma {:induction false} SettleKeepsTarget(c: Controller, pending: seq<Action>, rounds: nat)
    requires AllTarget(pending, c.state)
    ensures Settle(c, pending, rounds).0.state == c.state
    ensures AllTarget(Settle(c, pending, rounds).1, c.state)
    decreases rounds
  {
    if rounds != 0 && pending != [] {
      RunKeepsTarget(c, pending);
      var (c1, p1) := Run(c, pending);
      SettleKeepsTarget(c1, p1, rounds - 1);
    }
  }

  /**
   Switching the mark type never changes the check state: not when the call
   returns, and not after any number of its completion blocks have run.
   */
  lemma SetMarkTypeKeepsState(c: Controller, t: MarkType, animated: bool, disclosure: map<Hook, Path>, rounds: nat)
    ensures var (c1, pending) := SetMarkType(c, t, animated, disclosure);
            Settle(c1, pending, rounds).0.state == c.state
  {
    var (c1, pending) := SetMarkType(c, t, animated, disclosure);
    assert AllTarget(pending, c.state) by {
      if t != c.markType {
        var next := Successor(c.generator, t, disclosure);
        var tail := [InstallGenerator(next), ResetAction(Some(c.state)), AnimateInIfMark(c.state)];
        assert AllTarget(tail, c.state);
      }
    }
    SettleKeepsTarget(c1, pending, rounds);
  }

  /**
   In the animated branch where the old generator draws a mark, the mark
   type is already the new one when the call returns, while the old
   generator stays installed until the completion swaps it.
   */
  lemma SetMarkTypeSwapsGeneratorLate(c: Controller, t: MarkType, disclosure: map<Hook, Path>)
    requires t != c.markType && HasMark(c.generator.kind, Some(c.state))
    ensures var (c1, pending) := SetMarkType(c, t, true, disclosure);
            c1.markType == t && c1.generator == c.generator
            && InstallGenerator(Successor(c.generator, t, disclosure)) in pending
  {
    var (c1, pending) := SetMarkType(c, t, true, disclosure);
    var tail := [InstallGenerator(Successor(c.generator, t, disclosure)), ResetAction(Some(c.state)), AnimateInIfMark(c.state)];
    assert tail[0] in tail;
    assert pending[|pending| - 3..] == tail;
  }

  /** Outside that branch the new generator, with the old geometry, is installed before the call returns. */
  lemma SetMarkTypeInstallsSuccessor(c: Controller, t: MarkType, animated: bool, disclosure: map<Hook, Path>)
    requires t != c.markType && !(HasMark(c.generator.kind, Some(c.state)) && animated)
    ensures SetMarkType(c, t, animated, disclosure).0.generator == Successor(c.generator, t, disclosure)
  {
  }

  /** One step of `Run`: the first action, then the rest from where it left the controller. */
  lemma RunStep(c: Controller, acts: seq<Action>)
    requires acts != []
    ensures var first := RunAction(c, acts[0]);
            Run(c, acts) == (Run(first.0, acts[1..]).0, first.1 + Run(first.0, acts[1..]).1)
  {
  }

  /** Running two batches one after the other is running their concatenation. */
  lemma {:induction false} RunAppend(c: Controller, a: seq<Action>, b: seq<Action>)
    ensures Run(c, a + b) == (Run(Run(c, a).0, b).0, Run(c, a).1 + Run(Run(c, a).0, b).1)
    decreases |a|
  {
    if a == [] {
      assert a + b == b;
      assert Run(c, a) == (c, []);
      assert [] + Run(c, b).1 == Run(c, b).1;
    } else {
      assert (a + b)[0] == a[0];
      assert (a + b)[1..] == a[1..] + b;
      var first := RunAction(c, a[0]);
      RunStep(c, a);
      RunStep(c, a + b);
      RunAppend(first.0, a[1..], b);
      var (c2, p2) := Run(first.0, a[1..]);
      var p3 := Run(c2, b).1;
      assert first.1 + (p2 + p3) == (first.1 + p2) + p3;
    }
  }


  /** The completions an action targeting `s` schedules also target `s`, whatever the state it runs in. */
  lemma RunActionSpawnsTarget(c: Controller, a: Action, s: CheckState)
    requires Targets(a, s) || a.ResetAction?
    ensures AllTarget(RunAction(c, a).1, s)
  {
    match a
    case AnimateAction(f, t, after) =>
      var r := Animate(c, f, t, after);
      if Shown(c.kind) {
        assert r.1 == [r.1[0]] + after;
      }
    case _ =>
  }

  lemma {:induction false} RunSpawnsTarget(c: Controller, acts: seq<Action>, s: CheckState)
    requires forall i :: 0 <= i < |acts| ==> Targets(acts[i], s) || acts[i].ResetAction?
    ensures AllTarget(Run(c, acts).1, s)
    decreases |acts|
  {
    if acts != [] {
      RunActionSpawnsTarget(c, acts[0], s);
      var (c1, p1) := RunAction(c, acts[0]);
      RunSpawnsTarget(c1, acts[1..], s);
    }
  }

  /**
   A batch that ends by animating to `s` leaves the controller in `s`, and
   when every action in it targets `s` or only resets, nothing scheduled
   afterwards moves it away again.
   */
  lemma EndsAnimatingTo(c: Controller, pre: seq<Action>, s: CheckState, rounds: nat)
    requires forall i :: 0 <= i < |pre| ==> Targets(pre[i], s) || pre[i].ResetAction?
    ensures var acts := pre + [AnimateAction(None, Some(s), [])];
            Run(c, acts).0.state == s
            && Settle(c, acts, rounds + 1).0.state == s
  {
    var last := [AnimateAction(None, Some(s), [])];
    var acts := pre + last;
    RunAppend(c, pre, last);
    var c1 := Run(c, pre).0;
    assert Run(c1, last) == (Animate(c1, None, Some(s), []).0, Animate(c1, None, Some(s), []).1 + []);
    RunSpawnsTarget(c, acts, s);
    var (c2, p2) := Run(c, acts);
    SettleKeepsTarget(c2, p2, rounds);
  }
}
