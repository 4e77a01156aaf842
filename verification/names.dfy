/**
 The string raw values of the newest generation's enumerations and the
 failable decoders built on them (`init?(rawValue:)`). Interface Builder
 stores every inspectable enum as one of these strings.
 */
module Names {
  import opened Wrappers
  import opened Kinds

  function CheckStateName(s: CheckState): string
  {
    match s
    case Unchecked => "Unchecked"
    case Checked => "Checked"
    case Mixed => "Mixed"
  }

  function BoxTypeName(b: BoxType): string
  {
    match b
    case Circle => "Circle"
    case Square => "Square"
  }

  function MarkTypeName(m: MarkType): string
  {
    match m
    case Checkmark => "Checkmark"
    case Radio => "Radio"
    case AddRemove => "AddRemove"
    case Disclosure => "Disclosure"
  }

  function StyleName(s: AnimationStyle): string
  {
    match s
    case StrokeStyle => "Stroke"
    case FillStyle => "Fill"
  }

  /** The raw value of an animation: one literal per case and style. */
  function AnimationName(a: Animation): string
  {
    match a
    case Stroke => "Stroke"
    case Fill => "Fill"
    case Bounce(s) => if s == StrokeStyle then "BounceStroke" else "BounceFill"
    case Expand(s) => if s == StrokeStyle then "ExpandStroke" else "ExpandFill"
    case Flat(s) => if s == StrokeStyle then "FlatStroke" else "FlatFill"
    case Spiral => "Spiral"
    case Fade(s) => if s == StrokeStyle then "FadeStroke" else "FadeFill"
    case Dot(s) => if s == StrokeStyle then "DotStroke" else "DotFill"
  }

  /** The strings the animation decoder accepts, listed independently of it. */
  const AnimationNames: set<string> :=
    {"Stroke", "Fill", "BounceStroke", "BounceFill", "ExpandStroke",
     "ExpandFill", "FlatStroke", "FlatFill", "Spiral", "FadeStroke",
     "FadeFill", "DotStroke", "DotFill"}

  const CheckStateNames: set<string> := {"Unchecked", "Checked", "Mixed"}
  const BoxTypeNames: set<string> := {"Circle", "Square"}
  const MarkTypeNames: set<string> := {"Checkmark", "Radio", "AddRemove", "Disclosure"}

  function ParseCheckState(t: string): (r: Option<CheckState>)
    ensures r.Some? <==> t in CheckStateNames
    ensures r.Some? ==> CheckStateName(r.value) == t
  {
    if t == "Unchecked" then Some(Unchecked)
    else if t == "Checked" then Some(Checked)
    else if t == "Mixed" then Some(Mixed)
    else None
  }

  function ParseBoxType(t: string): (r: Option<BoxType>)
    ensures r.Some? <==> t in BoxTypeNames
    ensures r.Some? ==> BoxTypeName(r.value) == t
  {
    if t == "Circle" then Some(Circle)
    else if t == "Square" then Some(Square)
    else None
  }

  function ParseMarkType(t: string): (r: Option<MarkType>)
    ensures r.Some? <==> t in MarkTypeNames
    ensures r.Some? ==> MarkTypeName(r.value) == t
  {
    if t == "Checkmark" then Some(Checkmark)
    else if t == "Radio" then Some(Radio)
    else if t == "AddRemove" then Some(AddRemove)
    else if t == "Disclosure" then Some(Disclosure)
    else None
  }

  /** `Animation(rawValue:)`: exactly the thirteen names decode, anything else is nil. */
  function ParseAnimation(t: string): (r: Option<Animation>)
    ensures r.Some? <==> t in AnimationNames
    ensures r.Some? ==> AnimationName(r.value) == t
  {
    if t == "Stroke" then Some(Stroke)
    else if t == "Fill" then Some(Fill)
    else if t == "BounceStroke" then Some(Bounce(StrokeStyle))
    else if t == "BounceFill" then Some(Bounce(FillStyle))
    else if t == "ExpandStroke" then Some(Expand(StrokeStyle))
    else if t == "ExpandFill" then Some(Expand(FillStyle))
    else if t == "FlatStroke" then Some(Flat(StrokeStyle))
    else if t == "FlatFill" then Some(Flat(FillStyle))
    else if t == "Spiral" then Some(Spiral)
    else if t == "FadeStroke" then Some(Fade(StrokeStyle))
    else if t == "FadeFill" then Some(Fade(FillStyle))
    else if t == "DotStroke" then Some(Dot(StrokeStyle))
    else if t == "DotFill" then Some(Dot(FillStyle))
    else None
  }

  /** Decoding the raw value of any animation gives that animation back. */
  lemma AnimationRoundTrip(a: Animation)
    ensures ParseAnimation(AnimationName(a)) == Some(a)
  {
    match a
    case Bounce(s) => if s.StrokeStyle? {} else {}
    case Expand(s) => if s.StrokeStyle? {} else {}
    case Flat(s) => if s.StrokeStyle? {} else {}
    case Fade(s) => if s.StrokeStyle? {} else {}
    case Dot(s) => if s.StrokeStyle? {} else {}
    case _ =>
  }

  /** Distinct animations have distinct raw values. */
  lemma AnimationNameInjective(a: Animation, b: Animation)
    requires AnimationName(a) == AnimationName(b)
    ensures a == b
  {
    AnimationRoundTrip(a);
    AnimationRoundTrip(b);
  }

  lemma CheckStateRoundTrip(s: CheckState)
    ensures ParseCheckState(CheckStateName(s)) == Some(s)
  {
  }

  lemma BoxTypeRoundTrip(b: BoxType)
    ensures ParseBoxType(BoxTypeName(b)) == Some(b)
  {
  }

  lemma MarkTypeRoundTrip(m: MarkType)
    ensures ParseMarkType(MarkTypeName(m)) == Some(m)
  {
  }
}
