/**
 The integer raw values of the oldest generation's enumerations and their
 failable decoders. The animation codes put the animation in the tens digit
 and the style in the units digit (stroke 0, fill 1).

 The animation decoder exists twice: `DecodeAnimationAsWritten` follows the
 code as it stands, whose fade branch compares the code with 50 and so never
 yields fade-stroke; `DecodeAnimation` is the evidently intended decoder, and
 it is the one the rest of the model uses.
 */
module Codes {
  import opened Wrappers
  import opened Kinds

  function CheckStateCode(s: CheckState): int
  {
    match s
    case Unchecked => 0
    case Checked => 1
    case Mixed => 2
  }

  function BoxTypeCode(b: BoxType): int
  {
    match b
    case Circle => 0
    case Square => 1
  }

  function MarkTypeCode(m: ClassicMarkType): int
  {
    if m == Checkmark then 0 else 1
  }

  function DecodeCheckState(n: int): (r: Option<CheckState>)
    ensures r.Some? <==> 0 <= n <= 2
    ensures r.Some? ==> CheckStateCode(r.value) == n
  {
    if n == 0 then Some(Unchecked)
    else if n == 1 then Some(Checked)
    else if n == 2 then Some(Mixed)
    else None
  }

  function DecodeBoxType(n: int): (r: Option<BoxType>)
    ensures r.Some? <==> 0 <= n <= 1
    ensures r.Some? ==> BoxTypeCode(r.value) == n
  {
    if n == 0 then Some(Circle) else if n == 1 then Some(Square) else None
  }

  function DecodeMarkType(n: int): (r: Option<ClassicMarkType>)
    ensures r.Some? <==> 0 <= n <= 1
    ensures r.Some? ==> MarkTypeCode(r.value) == n
  {
    if n == 0 then Some(Checkmark) else if n == 1 then Some(Radio) else None
  }

  /** The raw value of an animation: tens digit for the case, units digit 1 for the fill style. */
  function AnimationCode(a: Animation): int
  {
    match a
    case Stroke => 0
    case Fill => 10
    case Bounce(s) => if s == StrokeStyle then 20 else 21
    case Expand(s) => if s == StrokeStyle then 30 else 31
    case Flat(s) => if s == StrokeStyle then 40 else 41
    case Spiral => 50
    case Fade(s) => if s == StrokeStyle then 60 else 61
    case Dot(s) => if s == StrokeStyle then 70 else 71
  }

  /** The codes an animation decoder accepts, listed independently of it. */
  const AnimationCodes: set<int> := {0, 10, 20, 21, 30, 31, 40, 41, 50, 60, 61, 70, 71}

  /** The style a two-code range assigns: the lower (even) code is stroke. */
  function StyleAt(n: int, strokeCode: int): AnimationStyle
  {
    if n == strokeCode then StrokeStyle else FillStyle
  }

  /**
   `init?(rawValue:)` exactly as written: each range 20...21, 30...31, ...
   tests its own even code for stroke, except the fade range, which tests 50.
   */
  function DecodeAnimationAsWritten(n: int): (r: Option<Animation>)
    ensures r.Some? <==> n in AnimationCodes
  {
    if n == 0 then Some(Stroke)
    else if n == 10 then Some(Fill)
    else if 20 <= n <= 21 then Some(Bounce(StyleAt(n, 20)))
    else if 30 <= n <= 31 then Some(Expand(StyleAt(n, 30)))
    else if 40 <= n <= 41 then Some(Flat(StyleAt(n, 40)))
    else if n == 50 then Some(Spiral)
    else if 60 <= n <= 61 then Some(Fade(StyleAt(n, 50)))
    else if 70 <= n <= 71 then Some(Dot(StyleAt(n, 70)))
    else None
  }

  /** The decoder with the fade range testing its own stroke code, 60. */
  function DecodeAnimation(n: int): (r: Option<Animation>)
    ensures r.Some? <==> n in AnimationCodes
    ensures r.Some? ==> AnimationCode(r.value) == n
  {
    if n == 0 then Some(Stroke)
    else if n == 10 then Some(Fill)
    else if 20 <= n <= 21 then Some(Bounce(StyleAt(n, 20)))
    else if 30 <= n <= 31 then Some(Expand(StyleAt(n, 30)))
    else if 40 <= n <= 41 then Some(Flat(StyleAt(n, 40)))
    else if n == 50 then Some(Spiral)
    else if 60 <= n <= 61 then Some(Fade(StyleAt(n, 60)))
    else if 70 <= n <= 71 then Some(Dot(StyleAt(n, 70)))
    else None
  }

  /** The as-written decoder cannot produce fade-stroke: its code 60 comes back as fade-fill. */
  lemma FadeStrokeDoesNotRoundTrip()
    ensures DecodeAnimationAsWritten(AnimationCode(Fade(StrokeStyle))) == Some(Fade(FillStyle))
    ensures forall n :: DecodeAnimationAsWritten(n) != Some(Fade(StrokeStyle))
  {
  }

  /** Code 60 is the only input on which the two decoders disagree. */
  lemma DecodersDifferOnlyAtSixty(n: int)
    ensures DecodeAnimationAsWritten(n) != DecodeAnimation(n) <==> n == 60
  {
  }

  /** With the fade branch corrected, decoding the raw value of every animation gives it back. */
  lemma AnimationRoundTrip(a: Animation)
    ensures DecodeAnimation(AnimationCode(a)) == Some(a)
  {
    match a
    case Bounce(s) => if s.StrokeStyle? {} else {}
    case Expand(s) => if s.StrokeStyle? {} else {}
    case Flat(s) => if s.StrokeStyle? {} else {}
    case Fade(s) => if s.StrokeStyle? {} else {}
    case Dot(s) => if s.StrokeStyle? {} else {}
    case _ =>
  }

  /** The codes keep the style in the units digit: stroke even, fill odd. */
  lemma StyleInUnitsDigit(a: Animation)
    requires !a.Stroke? && !a.Fill? && !a.Spiral?
    ensures AnimationCode(a) % 10 == (if a.style == StrokeStyle then 0 else 1)
  {
  }

  lemma CheckStateRoundTrip(s: CheckState)
    ensures DecodeCheckState(CheckStateCode(s)) == Some(s)
  {
  }

  lemma BoxTypeRoundTrip(b: BoxType)
    ensures DecodeBoxType(BoxTypeCode(b)) == Some(b)
  {
  }

  lemma MarkTypeRoundTrip(m: ClassicMarkType)
    ensures DecodeMarkType(MarkTypeCode(m)) == Some(m)
  {
  }
}
