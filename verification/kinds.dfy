/**
 The enumerations the checkbox is configured with. The three generations of
 the control share the same check states, box shapes, animation styles and
 the thirteen animations; the newest generation adds two mark types
 (add/remove and disclosure), so the two older ones use the `ClassicMarkType`
 subset.
 */
module Kinds {

  /** Unchecked shows no mark, checked shows the mark, mixed shows a dash. */
  datatype CheckState = Unchecked | Checked | Mixed

  datatype BoxType = Circle | Square

  datatype MarkType = Checkmark | Radio | AddRemove | Disclosure

  /** The mark types the two older generations (and the preset classes) know. */
  type ClassicMarkType = m: MarkType | m.Checkmark? || m.Radio? witness Checkmark

  /**
   The state `toggleCheckState` moves to, the same in every generation:
   checked and unchecked swap, mixed goes to unchecked.
   */
  function ToggleTarget(s: CheckState): (t: CheckState)
    ensures t != Mixed
    ensures t == Checked <==> s == Unchecked
  {
    match s
    case Checked => Unchecked
    case Unchecked => Checked
    case Mixed => Unchecked
  }

  /** Whether an animation focuses on the stroke or on the fill. */
  datatype AnimationStyle = StrokeStyle | FillStyle

  /** The thirteen animations for switching to and from the unchecked state. */
  datatype Animation =
    | Stroke
    | Fill
    | Bounce(style: AnimationStyle)
    | Expand(style: AnimationStyle)
    | Flat(style: AnimationStyle)
    | Spiral
    | Fade(style: AnimationStyle)
    | Dot(style: AnimationStyle)

  /** The style an animation runs in; the two style-less animations count as stroke, except fill. */
  function StyleOf(a: Animation): AnimationStyle
  {
    match a
    case Stroke => StrokeStyle
    case Fill => FillStyle
    case Spiral => StrokeStyle
    case Bounce(s) => s
    case Expand(s) => s
    case Flat(s) => s
    case Fade(s) => s
    case Dot(s) => s
  }
}
