/**
 The values a freshly created checkbox starts from (the `DefaultValues`
 structure). The default controller kind lives with the controllers.
 */
module Defaults {
  import opened Kinds

  const DefaultAnimation: Animation := Stroke
  const DefaultMarkType: MarkType := Checkmark
  const DefaultBoxType: BoxType := Circle
  const DefaultCheckState: CheckState := Unchecked
}
