/**
 The three Core Animation layers every animation draws with, abstracted to
 the properties the reset routines write. Colours are tokens naming which of
 the checkbox's colour properties a layer shows; paths are tags naming which
 path of the installed path source a layer shows.
 */
module Layers {
  import opened Wrappers
  import opened Kinds

  /** No colour (nil), the tint, the secondary tint, or the checkmark tint. */
  datatype Colour = NoColour | Tint | SecondaryTint | CheckmarkTint

  /** The layer transforms the code uses: identity, or a scale to zero. */
  datatype Transform = Identity | ScaleZero

  /** The six mark hooks of a path source. */
  datatype Hook = UnselectedHook | MarkHook | MixedHook | LongUnselectedHook | LongMarkHook | LongMixedHook

  /**
   A path a layer can show: the box, the dot, one of the mark hooks, or a
   path drawn from its other end (the spiral animations stroke the long marks
   reversed, so that they wind in from the box).
   */
  datatype Shape = BoxShape | DotShape | MarkShape(hook: Hook) | Reversed(forward: Shape)

  datatype Layer = Layer(
    opacity: real,
    strokeEnd: real,
    transform: Transform,
    stroke: Colour,
    fill: Colour,
    lineWidth: real,
    path: Option<Shape>)

  /** The colour values behind the tokens, by name; the secondary tints may be nil. */
  datatype Palette = Palette(tint: string, secondaryTint: Option<string>, checkmarkTint: Option<string>)

  const DefaultPalette: Palette := Palette("black", Some("lightGray"), Some("white"))

  datatype Layers = Layers(unselectedBox: Layer, selectedBox: Layer, mark: Layer)

  /**
   `layersToDisplay` of the managers of both generations: the base manager
   displays no layers, every subclass its three.
   */
  function LayersToDisplay(isBase: bool): (r: nat)
    ensures r == 0 <==> isBase
  {
    if isBase then 0 else 3
  }

  /** `path?.reversing()`: the same path drawn from its other end; no path stays none. */
  function ReversedShape(s: Option<Shape>): (r: Option<Shape>)
    ensures r.Some? <==> s.Some?
    ensures r.Some? ==> r.value.Reversed? && r.value.forward == s.value
  {
    match s
    case Some(x) => Some(Reversed(x))
    case None => None
  }

  /** The hook a check state selects: unselected, mark or mixed (long or short). */
  function HookFor(s: CheckState, long: bool): (h: Hook)
    ensures long <==> (h.LongUnselectedHook? || h.LongMarkHook? || h.LongMixedHook?)
    ensures h.UnselectedHook? || h.LongUnselectedHook? <==> s == Unchecked
    ensures h.MarkHook? || h.LongMarkHook? <==> s == Checked
    ensures h.MixedHook? || h.LongMixedHook? <==> s == Mixed
  {
    match s
    case Unchecked => if long then LongUnselectedHook else UnselectedHook
    case Checked => if long then LongMarkHook else MarkHook
    case Mixed => if long then LongMixedHook else MixedHook
  }
}
