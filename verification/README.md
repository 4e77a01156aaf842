# M13Checkbox in Dafny

M13Checkbox is an iOS checkbox control. It draws itself with three shape layers: an unselected box, a selected box and a mark. It animates between three check states: unchecked, checked and mixed. The repository holds three generations of the control, and this project models each one separately.

- **`Source/`** is the oldest generation. A single view owns its layers, a path manager, an animation preset table and Interface Builder proxies that use integer codes (`original_checkbox.dfy`, `path_manager.dfy`, `animation_presets.dfy`, `codes.dfy`).
- **`M13Checkbox/`** is the middle generation. The view delegates to managers (base, spiral, dot, fill), which draw from path presets (`classic_managers.dfy`, `classic_presets.dfy`).
- **`Sources/`** is the newest generation. It has string codecs, a controller that owns a path generator (check, radio, add/remove, disclosure), and the stroke, flat, bounce and spiral managers with their presets (`names.dfy`, `defaults.dfy`, `sources_checkbox.dfy`, `controller.dfy`, `spiral_controller.dfy`, `flat_controller.dfy`, `dot_controller.dfy`, `transitions.dfy`, `path_generator.dfy`, `preset_paths.dfy`, `managers.dfy`).

How the model represents the source:

- **Layers.** A layer is a record: opacity, stroke end, a transform, stroke and fill colour tokens, line width, and a symbolic tag for the path it shows (`layers.dfy`). A tag names the box, the dot or one of the generator's mark hooks, or wraps another tag to say that path is drawn from its other end, as the spiral animations draw the long marks.
- **Paths.** Paths are sequences of move, line, arc and close commands over real coordinates, with angles in units of π. Uniform scale-and-shift maps act on them (`geometry.dfy`). Every fixed fraction of the size that the source writes is kept as written.
- **Completions.** A completion block is explicit data: the work it will do when it runs. The model returns it as a value and never runs it implicitly.
- **Layout.** A later layout pass is a flag, or a separate function the caller applies.
- **Colours.** Colours are tokens (tint, secondary tint, checkmark tint, none). The palette keeps their values by name.

## Model

| member | source | states |
|---|---|---|
| Kinds.ToggleTarget | Sources/M13Checkbox.swift:319-331 | toggling never targets mixed, and targets checked exactly from unchecked |
| Names.ParseCheckState | Sources/M13Checkbox.swift:31-38 | a state name parses exactly when it is one of the three raw strings, and the result prints back to the same string |
| Names.ParseBoxType | Sources/M13Checkbox.swift:46-51 | a box name parses exactly when it is "Circle" or "Square", and prints back unchanged |
| Names.ParseMarkType | Sources/M13Checkbox.swift:59-68 | a mark name parses exactly when it is one of the four raw strings, and prints back unchanged |
| Names.ParseAnimation | Sources/M13Checkbox.swift:91-124 | an animation name parses exactly when it is one of the thirteen strings, and prints back unchanged |
| Names.AnimationRoundTrip | Sources/M13Checkbox.swift:91-172 | parsing the raw value of any animation gives that animation back |
| Names.AnimationNameInjective | Sources/M13Checkbox.swift:126-172 | two animations with the same raw value are the same animation |
| Names.CheckStateRoundTrip | Sources/M13Checkbox.swift:31-38 | parsing a state's raw value gives the state back |
| Names.BoxTypeRoundTrip | Sources/M13Checkbox.swift:46-51 | parsing a box type's raw value gives it back |
| Names.MarkTypeRoundTrip | Sources/M13Checkbox.swift:59-68 | parsing a mark type's raw value gives it back |
| Codes.DecodeCheckState | Source/M13Checkbox.swift:26-35 | an integer decodes to a state exactly when it is 0, 1 or 2, and re-encodes to itself |
| Codes.DecodeBoxType | Source/M13Checkbox.swift:38-45 | an integer decodes to a box type exactly when it is 0 or 1, and re-encodes to itself |
| Codes.DecodeMarkType | Source/M13Checkbox.swift:48-59 | an integer decodes to a mark type exactly when it is 0 or 1, and re-encodes to itself |
| Codes.DecodeAnimationAsWritten | Source/M13Checkbox.swift:82-107 | the decoder as written accepts exactly the thirteen codes 0, 10, 20, 21, 30, 31, 40, 41, 50, 60, 61, 70, 71 |
| Codes.DecodeAnimation | Source/M13Checkbox.swift:82-129 | the corrected decoder accepts exactly the same codes, and every accepted code re-encodes to itself |
| Codes.FadeStrokeDoesNotRoundTrip | Source/M13Checkbox.swift:101-102 | as written, code 60 decodes to fade-fill, and no code decodes to fade-stroke |
| Codes.DecodersDifferOnlyAtSixty | Source/M13Checkbox.swift:82-107 | the decoder as written and the corrected one disagree on exactly one input, 60 |
| Codes.AnimationRoundTrip | Source/M13Checkbox.swift:82-129 | with the corrected decoder, every animation survives encoding then decoding |
| Codes.StyleInUnitsDigit | Source/M13Checkbox.swift:110-129 | a styled animation's code ends in 0 for the stroke style and in 1 for the fill style |
| Codes.CheckStateRoundTrip | Source/M13Checkbox.swift:26-35 | decoding a state's code gives the state back |
| Codes.BoxTypeRoundTrip | Source/M13Checkbox.swift:38-45 | decoding a box type's code gives it back |
| Codes.MarkTypeRoundTrip | Source/M13Checkbox.swift:48-59 | decoding a mark type's code gives it back |
| Layers.HookFor | Sources/Paths/M13CheckboxPathGenerator.swift:167-206 | each state selects its own hook (unselected, mark, mixed), in the long family exactly when a long mark is asked for |
| Geometry.Then | Sources/Paths/M13CheckboxRadioPathGenerator.swift:22-29 | the composed map sends every point where the first map and then the second would |
| Geometry.MapPath | Sources/Paths/M13CheckboxRadioPathGenerator.swift:22-29 | applying a map to a path keeps its number of commands |
| Geometry.MapPathAt | Sources/Paths/M13CheckboxRadioPathGenerator.swift:22-29 | each command of the mapped path is the matching command of the original, mapped |
| Geometry.MapSegmentThen | Sources/Paths/M13CheckboxRadioPathGenerator.swift:22-29 | mapping one command by two maps in turn is mapping it by their composition |
| Geometry.MapPathThen | Sources/Paths/M13CheckboxRadioPathGenerator.swift:22-29 | applying two maps in turn is applying their composition once |
| Geometry.AboutCentre | Sources/Paths/M13CheckboxRadioPathGenerator.swift:22-29 | the scale about (c, c) keeps (c, c) fixed and has the requested factor |
| Geometry.ScaleThenShiftIsAboutCentre | Sources/Paths/M13CheckboxRadioPathGenerator.swift:22-29 | scaling by k and shifting by (1 - k)c is scaling by k about (c, c) |
| Geometry.Polyline | Sources/Paths/M13CheckboxCheckPathGenerator.swift:276-284 | a polyline moves to its first vertex and draws a line to each later one |
| PathGenerator.CircleBox | Sources/Paths/M13CheckboxPathGenerator.swift:59-71 | the circle box is one full turn about the centre, with radius (size - boxLineWidth)/2 |
| PathGenerator.RoundedRectBox | Sources/Paths/M13CheckboxPathGenerator.swift:73-148 | the rounded rectangle starts with a move and ends closed |
| PathGenerator.RoundedRectCorners | Sources/Paths/M13CheckboxPathGenerator.swift:73-148 | after its one move, every side ends on the square the middle of the line runs along and every arc has the corner radius; the arcs are centred exactly on the four corner centres, or there are none when the corner radius is zero |
| PathGenerator.RoundedRectStartsTopCentre | Sources/Paths/M13CheckboxPathGenerator.swift:73-80 | the base generator's rectangle starts at the top centre, on the line's centre |
| PathGenerator.AddRemoveRectStartsMiddleLeft | Sources/Paths/M13CheckboxAddRemovePathGenerator.swift:32-50 | the add/remove rectangle starts at the middle of the left side |
| PathGenerator.DotIsBoxShrunkAboutCentre | Sources/Paths/M13CheckboxPathGenerator.swift:150-165 | the dot is the box scaled by 1/20 about the box's centre, which stays fixed |
| PathGenerator.CircleDot | Sources/Paths/M13CheckboxPathGenerator.swift:150-165 | for a circular box the dot is a circle about the same centre with 1/20 of the radius |
| PathGenerator.CheckmarkOrientation | Sources/Paths/M13CheckboxCheckPathGenerator.swift:160-175 | the short arm ends left of the middle point, which lies left of the centre line, and both lie below the centre |
| PathGenerator.SquareCheckmarkIsScaledCircle | Sources/Paths/M13CheckboxCheckPathGenerator.swift:24-45 | for a square box, the middle point and the short-arm end are the circle's, scaled by 1.5 about the centre |
| PathGenerator.RadioDiscIsBoxShrunkAboutCentre | Sources/Paths/M13CheckboxRadioPathGenerator.swift:22-29 | the radio mark is the box scaled by 0.665 about the box's centre |
| PathGenerator.RadioMapBounds | Sources/Paths/M13CheckboxRadioPathGenerator.swift:22-29 | the radio map sends the box square into [0.1675 size, 0.8325 size] squared |
| PathGenerator.DotMapBounds | Sources/Paths/M13CheckboxPathGenerator.swift:150-165 | the dot map sends the box square into [0.475 size, 0.525 size] squared |
| PathGenerator.HookPath | Sources/Paths/M13CheckboxPathGenerator.swift:208-251 | a hook returns a path exactly when that generator overrides it with one |
| PathGenerator.PathForMark | Sources/Paths/M13CheckboxPathGenerator.swift:167-186 | a nil state has no mark; otherwise the state's short hook decides |
| PathGenerator.PathForLongMark | Sources/Paths/M13CheckboxPathGenerator.swift:188-206 | a nil state has no long mark; otherwise the state's long hook decides |
| PathGenerator.MarkShapeFor | Sources/Paths/M13CheckboxPathGenerator.swift:167-186 | the layer tag for a state's mark is present exactly when the generator draws a mark, and names that state's hook |
| PathGenerator.LongMarkShapeFor | Sources/Paths/M13CheckboxPathGenerator.swift:188-206 | the layer tag for a state's long mark is present exactly when the long hook draws one |
| PathGenerator.HasMarkMatchesPath | Sources/Paths/M13CheckboxPathGenerator.swift:167-186 | whether a mark exists can be read off the hook table, without the geometry |
| PathGenerator.MarkPresenceTable | Sources/Paths/M13CheckboxCheckPathGenerator.swift:276-323 | the base generator has no marks; check and radio have none only for unchecked; add/remove always has one |
| PathGenerator.CheckMarkAndLongMarkShareArms | Sources/Paths/M13CheckboxCheckPathGenerator.swift:276-295 | the checkmark and the long checkmark share their first two vertices |
| PathGenerator.CheckMixedBars | Sources/Paths/M13CheckboxCheckPathGenerator.swift:296-315 | the mixed dash runs along y = size/2 from 0.25 size to 0.75 size; the long dash extends it to size - boxLineWidth |
| PathGenerator.RadioHooks | Sources/Paths/M13CheckboxRadioPathGenerator.swift:22-49 | the radio's mixed mark is its mark, both long marks are the box, and the mark is the shrunk box |
| PathGenerator.AddRemoveHooks | Sources/Paths/M13CheckboxAddRemovePathGenerator.swift:109-165 | mixed is the unselected plus, the long mark is the mark, and the minus is the plus without its vertical stroke |
| PresetPaths.AsGenerator | Sources/M13CheckboxPathPresets.swift:51-69 | the presets carry the same measurements as a check generator |
| PresetPaths.CircleAsWritten | Sources/M13CheckboxPathPresets.swift:176-184 | the circle as written is a single arc |
| PresetPaths.CircleAsWrittenOffCentre | Sources/M13CheckboxPathPresets.swift:176-184 | with any positive line width, the circle as written is centred bw/2 up and left of the box centre |
| PresetPaths.CirclePath | Sources/Paths/M13CheckboxPathGenerator.swift:59-71 | the corrected circle is centred, with radius (size - boxLineWidth)/2, starting 45 degrees above the right |
| PresetPaths.CircleStrokeFillsFrame | Sources/Paths/M13CheckboxPathGenerator.swift:59-71 | the corrected circle's stroke exactly fills the square [0, size] |
| PresetPaths.BoxTable | Sources/M13CheckboxPathPresets.swift:167-174 | the box is the corrected, centred circle for a circular box and the rounded rectangle for a square one |
| PresetPaths.RadioIsBoxShrunkAboutCentre | Sources/M13CheckboxPathPresets.swift:288-303 | the radio mark is the box scaled by 0.665 about its centre |
| PresetPaths.PathForTable | Sources/M13CheckboxPathPresets.swift:254-263 | `path(state)` is never nil, and unchecked and checked draw the same path |
| PresetPaths.MixedMarksAreHorizontal | Sources/M13CheckboxPathPresets.swift:314-341 | both mixed marks lie on y = size/2 and share their ends; the checkmark's passes through the centre |
| PresetPaths.CheckmarkAsGenerator | Sources/M13CheckboxPathPresets.swift:278-286 | the presets' checkmark shares the check generator's short-arm end and middle point but ends at the presets' own long-arm end, and the long checkmark at the presets' own box intersection (both computed without the generator's line-width terms); the mixed checkmark is the generator's |
| PresetPaths.LongMarkTable | Sources/Presets/M13CheckboxSpiralPathPresets.swift:53-75 | unchecked and checked share a long mark; mixed ignores the mark type; the radio's long mark is the box |
| PresetPaths.LongMarksExtendMarks | Sources/Presets/M13CheckboxSpiralPathPresets.swift:22-51 | the long checkmark and the long mixed mark extend the short ones, the latter to size - boxLineWidth |
| PresetPaths.DotIsBoxShrunkAboutCentre | Sources/Presets/M13CheckboxDotPathPresets.swift:21-28 | the dot is the box scaled by 1/20 about its centre |
| Transitions.ChooseBranch | Sources/Managers/M13CheckboxSpiralController.swift:102-209 | an animation hides the mark exactly when only the origin has one, shows it exactly when only the target has one, and otherwise morphs |
| Transitions.CompletionOf | Sources/Managers/M13CheckboxSpiralController.swift:102-209 | hide and show finish by resetting to the target; a morph resets to the state current when it finishes |
| Transitions.StyledColours | Sources/Managers/M13CheckboxFlatController.swift:215-257 | the fill style fills the selected box in tint and strokes the mark in the checkmark tint; the stroke style leaves the box unfilled and fills the mark in tint only for the radio mark |
| SpiralController.Reset | Sources/Managers/M13CheckboxSpiralController.swift:226-263 | the selected box and the mark are fully drawn exactly when the state has a mark; colours, widths and paths come from the generator |
| Transitions.BoxAndMarkLayout | Sources/Managers/M13CheckboxSpiralController.swift:211-224 | both boxes show the box; the mark shows the current state's mark, none exactly when the generator draws none for it; nothing else changes (the flat controller's layout, Sources/Managers/M13CheckboxFlatController.swift:200-213, is the same) |
| Transitions.BoxAndMarkLayoutIdempotent | Sources/Managers/M13CheckboxSpiralController.swift:211-224 | laying out twice is laying out once |
| SpiralController.Start | Sources/Managers/M13CheckboxSpiralController.swift:102-209 | hide swaps in the origin's long mark, drawn reversed, and sets the mark's stroke end and opacity and the selected box's stroke end to where the reversed animations start; show swaps in the target's long mark, drawn reversed, and sets the mark's stroke end and opacity to where the forward animations start; a morph leaves the layers untouched; the unselected box is never written |
| SpiralController.StartWritesAreTransient | Sources/Managers/M13CheckboxSpiralController.swift:131-185 | after a hide or a show, the completion's reset lands where a reset from the layers before the animation would, whatever the animations start from |
| SpiralController.ResetShowsMarkIffPath | Sources/Managers/M13CheckboxSpiralController.swift:245-257 | after a reset the mark is opaque exactly when `pathForMark(state)` is not nil |
| SpiralController.ResetIdempotent | Sources/Managers/M13CheckboxSpiralController.swift:226-263 | resetting twice to one state is resetting once |
| FlatController.Reset | Sources/Managers/M13CheckboxFlatController.swift:215-257 | opacity follows the presence of a mark; stroke ends and transforms are kept; colours follow the style |
| FlatController.Start | Sources/Managers/M13CheckboxFlatController.swift:126-198 | the path morph is skipped exactly when hiding from mixed or showing into mixed |
| FlatController.ResetShowsMarkIffPath | Sources/Managers/M13CheckboxFlatController.swift:215-257 | after a reset the mark and the selected box are opaque exactly when `pathForMark(state)` is not nil |
| FlatController.ResetIdempotent | Sources/Managers/M13CheckboxFlatController.swift:215-257 | resetting twice to one state is resetting once |
| DotController.Reset | Sources/Managers/M13CheckboxDotController.swift:207-251 | with a mark, the dot is hidden and the selected box unscaled; without one, the dot shows and the box is scaled to nothing |
| DotController.Layout | Sources/Managers/M13CheckboxDotController.swift:192-205 | the unselected box shows the dot and the selected box shows the box |
| DotController.Start | Sources/Managers/M13CheckboxDotController.swift:126-190 | hiding with the stroke style clears the dot at once; showing sets the target's mark path |
| DotController.ResetDotXorMark | Sources/Managers/M13CheckboxDotController.swift:207-251 | after a reset exactly one of the dot and the mark is visible |
| DotController.ResetIdempotent | Sources/Managers/M13CheckboxDotController.swift:207-251 | resetting twice to one state is resetting once |
| Controller.New | Sources/M13CheckboxController.swift:23-60 | a new controller is unchecked, with the checkmark, the check generator, morphing on and the default colours |
| Controller.GeneratorFor | Sources/M13CheckboxController.swift:70-81 | each mark type selects its own generator kind, and no two share one |
| Controller.Reset | Sources/M13CheckboxController.swift:151-156 | the reset stores a non-nil state, lays out, and lets the subclass reset its layers; nothing else changes |
| Controller.Animate | Sources/M13CheckboxController.swift:128-132 | the state moves to a non-nil target at once; the completion the subclass schedules runs before the caller's |
| Controller.Successor | Sources/M13CheckboxController.swift:70-87 | the new generator has the new kind and every measurement of the old |
| Controller.SetMarkType | Sources/M13CheckboxController.swift:62-68 | the same mark type is a no-op; any other is stored, and the check state is kept |
| Controller.RunKeepsTarget | Sources/M13CheckboxController.swift:90-107 | a batch of completion work aimed at the current state keeps it, and schedules only such work |
| Controller.SettleKeepsTarget | Sources/M13CheckboxController.swift:90-107 | any number of rounds of such work keeps the state |
| Controller.SetMarkTypeKeepsState | Sources/M13CheckboxController.swift:62-107 | switching the mark type never changes the check state, neither on return nor after its completions |
| Controller.SetMarkTypeSwapsGeneratorLate | Sources/M13CheckboxController.swift:90-98 | animated, with a mark drawn for the current state, the mark type changes on return but the generator only in the completion |
| Controller.SetMarkTypeInstallsSuccessor | Sources/M13CheckboxController.swift:99-107 | otherwise the successor generator is installed before the call returns |
| Controller.RunActionKeepsTarget | Sources/M13CheckboxController.swift:90-107 | one piece of completion work aimed at the current state keeps it, and schedules only such work |
| Controller.RunActionSpawnsTarget | Sources/M13CheckboxController.swift:128-156 | work aimed at a state, or a reset, schedules only work aimed at that state |
| Controller.RunSpawnsTarget | Sources/M13CheckboxController.swift:128-156 | a batch of such work schedules only work aimed at that state |
| Controller.RunAppend | Sources/M13CheckboxController.swift:128-132 | running two batches in turn is running their concatenation |
| Controller.EndsAnimatingTo | Sources/M13Checkbox.swift:295-317 | work that ends by animating to a state leaves the controller there, and nothing scheduled afterwards moves it away |
| SourcesCheckbox.KindOf | Sources/M13Checkbox.swift:175-194 | each animation installs its own controller subclass; the styled ones pass their style on |
| SourcesCheckbox.Setup | Sources/M13Checkbox.swift:235-247 | a new checkbox is unchecked, with the stroke animation and a stroke controller |
| SourcesCheckbox.Value | Sources/M13Checkbox.swift:265-274 | the value is the object configured for the current state |
| SourcesCheckbox.SetCheckState | Sources/M13Checkbox.swift:295-317 | setting the state touches only the controller's state and layers |
| SourcesCheckbox.SetSameStateIsNoOp | Sources/M13Checkbox.swift:295-298 | setting the current state does nothing at all |
| SourcesCheckbox.SetCheckStateImmediate | Sources/M13Checkbox.swift:300-315 | unanimated, or animated with morphing, the new state holds on return |
| SourcesCheckbox.SetCheckStateDeferred | Sources/M13Checkbox.swift:302-308 | animated without morphing, the new state holds once the completion has run, and stays |
| SourcesCheckbox.ToggleTwice | Sources/M13Checkbox.swift:319-331 | toggling never reaches mixed, and toggling twice from checked or unchecked returns to the start |
| SourcesCheckbox.LongPress | Sources/M13Checkbox.swift:398-408 | the view is selected while the press begins or changes; only an ended press toggles, with animation, and reports a change |
| SourcesCheckbox.SetAnimation | Sources/M13Checkbox.swift:348-382 | the new animation is stored |
| SourcesCheckbox.SetAnimationHandsOver | Sources/M13Checkbox.swift:348-382 | the new controller takes over the colours, generator, duration, state, morphing and mark type, and is reset to the state |
| SourcesCheckbox.SetAnimationKeepsMatchingGenerator | Sources/M13Checkbox.swift:365-370 | when the generator already matches the mark type, the hand-over keeps it |
| SourcesCheckbox.SetAnimationName | Sources/M13Checkbox+IB.swift:19-30 | a known name installs its animation; any other installs the default |
| SourcesCheckbox.SetMarkTypeName | Sources/M13Checkbox+IB.swift:33-44 | a known name sets its mark type, any other the checkmark; the check state is kept |
| SourcesCheckbox.SetBoxTypeName | Sources/M13Checkbox+IB.swift:47-58 | a known name sets its box type, any other the circle; nothing else changes |
| SourcesCheckbox.SetCheckStateName | Sources/M13Checkbox+IB.swift:61-72 | a known name sets its state, any other unchecked |
| SourcesCheckbox.ProxiesRoundTrip | Sources/M13Checkbox+IB.swift:19-72 | writing back what a proxy reads leaves its property, and for mark, box and state the whole view, as it was |
| SourcesCheckbox.SetCheckmarkLineWidth | Sources/M13Checkbox.swift:435-444 | the generator changes only in its checkmark line width, and the state is kept |
| SourcesCheckbox.SetBoxLineWidth | Sources/M13Checkbox.swift:462-471 | the generator changes only in its box line width, and the state is kept |
| SourcesCheckbox.SetMarkType | Sources/M13Checkbox.swift:446-460 | the controller takes the new mark type and keeps the check state; the same mark type changes nothing and schedules nothing |
| SourcesCheckbox.PropertySetters | Sources/M13Checkbox.swift:338-345 | the duration, corner radius, box type, hide-box and colour setters keep the state, layers, animation and mark type; each value reads back, and the last write wins |
| SourcesCheckbox.LayoutSubviews | Sources/M13Checkbox.swift:513-519 | the generator's size becomes the smaller side of the frame |
| Managers.NewManager | Sources/M13CheckboxManager.swift:23-45 | a new manager is unchecked with the default colours; only the spiral manager installs the spiral presets |
| Layers.LayersToDisplay | Sources/M13CheckboxManager.swift:52-54 | a manager displays no layers exactly when it is the base manager (the middle generation's, M13Checkbox/M13CheckboxManager.swift:47-49, is the same) |
| Managers.Layout | Sources/Managers/M13CheckboxFlatManager.swift:224-241 | both boxes show the box; the flat manager's mark shows the mixed mark |
| Managers.Reset | Sources/M13CheckboxManager.swift:86-89 | a reset stores the state and changes nothing but the layers; the base manager leaves them |
| Managers.StepFor | Sources/Managers/M13CheckboxSpiralManager.swift:104-231 | hide into unchecked, show out of it, otherwise morph, or compress for the radio mark |
| Managers.Animate | Sources/Managers/M13CheckboxStrokeManager.swift:100-184 | the state moves to the target at once, and only the mark's path is written directly |
| Managers.BaseManagerStores | Sources/M13CheckboxManager.swift:65-89 | the base manager's animate and reset only store the state |
| Managers.AnimationSettlesToReset | Sources/Managers/M13CheckboxStrokeManager.swift:100-184 | every drawing manager's animation ends where an unanimated reset to the target would |
| Managers.ResetIdempotent | Sources/Managers/M13CheckboxStrokeManager.swift:201-243 | resetting twice to one state is resetting once |
| Managers.StrokedResetTable | Sources/Managers/M13CheckboxSpiralManager.swift:248-291 | the stroke and spiral managers fully draw the selected box and the mark exactly when not unchecked |
| Managers.CheckedAndMixedAgree | Sources/Managers/M13CheckboxBounceManager.swift:230-276 | checked and mixed differ only in the mark's path |
| Managers.FlatResetTable | Sources/Managers/M13CheckboxFlatManager.swift:243-291 | opacity follows the state, the colours follow the style, and the mark shows the state's path |
| Managers.BounceResetTable | Sources/Managers/M13CheckboxBounceManager.swift:230-276 | the mark is scaled to nothing exactly when unchecked, and the unselected box's opacity is never written |
| Managers.BounceWiggle | Sources/Managers/M13CheckboxBounceManager.swift:125-160 | the wiggle amplitude is 0.20 for a square box and 0.35 otherwise, used by hide and show |
| Managers.FlatMorphSkips | Sources/Managers/M13CheckboxFlatManager.swift:123-222 | the flat manager skips the path morph exactly from mixed to unchecked and from unchecked to mixed |
| Managers.SpiralLongMarks | Sources/Managers/M13CheckboxSpiralManager.swift:104-150 | the spiral manager hides from the origin's long mark and shows through the target's, both drawn reversed |
| ClassicPresets.BoxAsWrittenOffCentre | M13Checkbox/M13CheckboxPathPresets.swift:153-161 | with a positive line width, the box as written differs from the centred box exactly for the circle, whose centre is off the box centre |
| ClassicPresets.EnlargeIsAboutCentre | M13Checkbox/M13CheckboxPathPresets.swift:255-279 | the square box's enlargement (scale 1.5, shift by -size/4) is a scale by 1.5 about the centre |
| ClassicPresets.CheckmarkShape | M13Checkbox/M13CheckboxPathPresets.swift:255-279 | the circle checkmark goes down to its middle vertex and then up to the right; the square checkmark is it enlarged about the centre |
| ClassicPresets.MixedMarksAreHorizontal | M13Checkbox/M13CheckboxPathPresets.swift:307-334 | both mixed marks lie on y = size/2, share their ends with the checkmark's x positions, and pass the centre |
| ClassicPresets.PathForTable | M13Checkbox/M13CheckboxPathPresets.swift:231-240 | `path(state)` is never nil; unchecked and checked draw the mark, mixed the mixed mark |
| ClassicPresets.LongMarkTable | M13Checkbox/M13CheckboxSpiralPathPresets.swift:47-85 | unchecked and checked share a long mark; the long mixed mark runs from size/3 to size on y = size/2; the radio's long mark is the box |
| ClassicPresets.UncheckedLongMarkIsNotMixed | M13Checkbox/M13CheckboxSpiralPathPresets.swift:47-85 | on a box of positive size the unchecked long mark is neither this generation's long mixed mark nor the newest presets' |
| ClassicPresets.LongCheckmarkStartsLikeMark | M13Checkbox/M13CheckboxSpiralPathPresets.swift:17-45 | the long checkmark starts where the checkmark does; on a circle it turns at (size/2, size/1.57894) and ends at the circle's diagonal point; on a square those vertices are enlarged about the centre |
| ClassicPresets.DotIsBoxShrunkAboutCentre | M13Checkbox/M13CheckboxDotPathPresets.swift:17-24 | the dot equals the newest presets' dot: the box scaled by 1/20 about its centre |
| ClassicManagers.NewManager | M13Checkbox/M13CheckboxSpiralManager.swift:37-89 | a new manager is unchecked; the spiral and dot managers install their own presets |
| ClassicManagers.Layout | M13Checkbox/M13CheckboxDotManager.swift:187-200 | the selected box shows the box and the mark the state's path; only the dot manager shows the dot |
| ClassicManagers.Reset | M13Checkbox/M13CheckboxManager.swift:81-84 | a reset stores the state and changes nothing but the layers |
| ClassicManagers.StepFor | M13Checkbox/M13CheckboxSpiralManager.swift:99-199 | hide into unchecked, show out of it, otherwise morph |
| ClassicManagers.Animate | M13Checkbox/M13CheckboxFillManager.swift:100-154 | the state moves to the target at once; the selected box is not written directly |
| ClassicManagers.SetTint | M13Checkbox/M13CheckboxDotManager.swift:17-26 | a new tint points every subclass's selected-box stroke at the tint; the dot manager then writes the mark stroke in the stroke style and the selected-box fill in the fill style; the spiral manager writes the mark stroke (M13Checkbox/M13CheckboxSpiralManager.swift:17-22) and the fill manager the selected-box fill (M13Checkbox/M13CheckboxFillManager.swift:17-22); the base manager writes no layer, and no other layer property changes |
| ClassicManagers.SetTintAfterResetKeepsLayers | M13Checkbox/M13CheckboxFillManager.swift:17-22 | right after a reset a new tint rewrites no layer token, only the palette's tint |
| ClassicManagers.BaseManagerStores | M13Checkbox/M13CheckboxManager.swift:60-84 | the base manager's animate and reset only store the state, with no completion |
| ClassicManagers.AnimationSettlesToReset | M13Checkbox/M13CheckboxSpiralManager.swift:99-199 | every drawing manager's animation ends where an unanimated reset to the target would |
| ClassicManagers.ResetIdempotent | M13Checkbox/M13CheckboxDotManager.swift:202-249 | resetting twice to one state is resetting once |
| ClassicManagers.CheckedAndMixedAgree | M13Checkbox/M13CheckboxFillManager.swift:171-205 | checked and mixed differ only in the mark's path |
| ClassicManagers.SpiralResetTable | M13Checkbox/M13CheckboxSpiralManager.swift:233-252 | the selected box and the mark are fully drawn exactly when not unchecked |
| ClassicManagers.DotResetTable | M13Checkbox/M13CheckboxDotManager.swift:231-246 | unchecked shows the dot, scales the box to nothing and hides the mark; otherwise the reverse |
| ClassicManagers.FillResetTable | M13Checkbox/M13CheckboxFillManager.swift:182-198 | the box is scaled to nothing and the mark hidden exactly when unchecked; the box is filled in tint and the mark in the checkmark tint |
| ClassicManagers.SpiralLongMarks | M13Checkbox/M13CheckboxSpiralManager.swift:99-145 | hiding uses the target's (unchecked) long mark where the newer manager uses the origin's, both drawn reversed; from checked the two draw the same path, since unchecked and checked share a long mark; from mixed the newer one strokes the long mixed mark and this one the unchecked long mark, a different path on a box of positive size |
| ClassicManagers.MorphWithoutRadioCase | M13Checkbox/M13CheckboxSpiralManager.swift:179-193 | between checked and mixed every manager morphs, while the newer spiral manager compresses a radio mark |
| ClassicManagers.DotHideClearsUnselected | M13Checkbox/M13CheckboxDotManager.swift:133-138 | going to unchecked, the stroke-style dot manager hides the unselected box at once; the fill style leaves it |
| PathManager.BoxIsCentred | Source/M13CheckboxPathManager.swift:46-53 | the circle is centred and equals the corrected presets' box, unlike the middle generation's as written |
| PathManager.DotIsCentred | Source/M13CheckboxPathManager.swift:123-129 | the dot is one full turn about the centre with radius size/20, lying horizontally inside [0.45 size, 0.55 size] |
| PathManager.MarkAgreesWithPresets | Source/M13CheckboxPathManager.swift:131-170 | the mark equals the middle generation's; the radio mark is the box scaled by 0.665 about the centre |
| PathManager.LongCheckmarkSharesArms | Source/M13CheckboxPathManager.swift:176-197 | the long checkmark shares its first two vertices with the checkmark; on a circle its far end lies further right and higher |
| PathManager.MixedCheckmarkIsFlattenedMark | Source/M13CheckboxPathManager.swift:212-245 | the mixed checkmark lies on y = size/2 at the checkmark's x positions; the mixed radio mark spans its ends |
| OriginalCheckbox.ColourTable | Source/M13Checkbox.swift:781-855 | the dot animations alone fill the unselected box; the selected box is always stroked in tint, and filled exactly for fill-style animations with the checkmark and for fill-style flat and dot with either mark; the mark always has a colour |
| OriginalCheckbox.RadioColourTable | Source/M13Checkbox.swift:790-855 | the radio mark is filled rather than stroked by stroke, spiral and fill, in the checkmark tint for fill |
| OriginalCheckbox.New | Source/M13Checkbox.swift:157-202 | a new view is unchecked, with the stroke animation, the selected box and the mark transparent, and a layout pending |
| OriginalCheckbox.Value | Source/M13Checkbox.swift:222-231 | the value is the object configured for the current state |
| OriginalCheckbox.ResetLayersTable | Source/M13Checkbox.swift:623-635 | the reset makes every layer opaque and untransformed but never writes the selected box's stroke end, and is idempotent |
| OriginalCheckbox.SetCheckState | Source/M13Checkbox.swift:254-283 | the new state is always stored, with no check against the current one, and only the layers change besides |
| OriginalCheckbox.SetCheckStateUnanimated | Source/M13Checkbox.swift:254-283 | unanimated, the selected box and the mark are visible exactly when the state is not unchecked |
| OriginalCheckbox.SetCheckStateAnimatedOnlyStores | Source/M13Checkbox.swift:280-282 | animated mixed, or any animated change with a zero duration, only stores the state |
| OriginalCheckbox.SetCheckStateAnimatedResets | Source/M13Checkbox.swift:332-605 | otherwise the layers are reset first; only the stroke-style dot into unchecked hides the unselected box; the spiral puts the long checkmark, reversed, on the mark |
| OriginalCheckbox.ToggleTwice | Source/M13Checkbox.swift:290-302 | toggling never reaches mixed, mixed toggles to unchecked, and toggling twice returns to the start |
| OriginalCheckbox.SetAnimation | Source/M13Checkbox.swift:319-329 | setting the animation requests a layout and changes only the animation and colours |
| OriginalCheckbox.SetMarkType | Source/M13Checkbox.swift:695-710 | setting the mark type requests a layout and changes only the mark type and colours |
| OriginalCheckbox.SettersKeepSupported | Source/M13Checkbox.swift:319-329 | after either setter the view never pairs the radio mark with the spiral, and each keeps the requested value exactly when the pair is allowed |
| OriginalCheckbox.SetBoxType | Source/M13Checkbox.swift:740-748 | the box type is stored and a layout requested |
| OriginalCheckbox.SetCornerRadius | Source/M13Checkbox.swift:724-734 | the radius is stored; a layout is requested only for a square box |
| OriginalCheckbox.SetCheckmarkLineWidth | Source/M13Checkbox.swift:684-692 | the width goes to the path manager and the mark layer, and nowhere else |
| OriginalCheckbox.SetBoxLineWidth | Source/M13Checkbox.swift:713-722 | the width goes to the path manager and both box layers; the mark is untouched |
| OriginalCheckbox.PlainSetters | Source/M13Checkbox.swift:309-316 | hiding the box and setting the duration keep the state and layers; with a zero duration an animated state change only stores the state |
| OriginalCheckbox.SetPalette | Source/M13Checkbox.swift:670-681 | a colour change stores the palette and rewrites only the layers' colours |
| OriginalCheckbox.Layout | Source/M13Checkbox.swift:895-915 | the size becomes the smaller side; the unselected box shows the dot exactly for the dot animations |
| OriginalCheckbox.EndTracking | Source/M13Checkbox.swift:653-658 | a finished touch deselects, toggles the state and reports a change |
| OriginalCheckbox.TrackingTable | Source/M13Checkbox.swift:641-663 | a completed touch toggles the state and a cancelled one keeps it; neither leaves the view selected |
| OriginalCheckbox.SetAnimationCode | Source/M13Checkbox+IB.swift:14-25 | an unknown animation code installs the stroke animation |
| OriginalCheckbox.SetMarkTypeCode | Source/M13Checkbox+IB.swift:28-39 | an unknown mark code gives the checkmark |
| OriginalCheckbox.SetBoxTypeCode | Source/M13Checkbox+IB.swift:42-53 | an unknown box code gives the circle |
| OriginalCheckbox.SetCheckStateCode | Source/M13Checkbox+IB.swift:56-67 | an unknown state code gives unchecked |
| OriginalCheckbox.ProxiesRoundTrip | Source/M13Checkbox+IB.swift:14-67 | writing back what a proxy reads keeps the box type and the state; for any allowed view it also keeps the mark type and, with the corrected codec, the animation |
| OriginalCheckbox.AnimationProxyAsWritten | Source/M13Checkbox+IB.swift:14-25 | with the codec as written the round trip keeps every allowed animation except fade-stroke, which becomes fade-fill |
| AnimationPresets.SelectedEndShowsAll | Source/M13CheckboxAnimationPresets.swift:95-732 | the selected end shows every layer in full, except the stroke-style dot's unselected box, which is transparent |
| AnimationPresets.UnselectedEndHidesSelection | Source/M13CheckboxAnimationPresets.swift:72-709 | the unselected end hides the selected box and the mark of every entry, and shows the unselected box stroked |
| AnimationPresets.StrokeEndStartsAtZero | Source/M13CheckboxAnimationPresets.swift:80-93 | only stroke and spiral start the selected box and the mark at stroke end 0 |
| AnimationPresets.ScaleZeroOnlyUnselected | Source/M13CheckboxAnimationPresets.swift:136-699 | scale-to-zero appears only at the unselected end: on the selected box for fill, expand and dot, on the mark for bounce and expand |
| AnimationPresets.ColoursFollowStyle | Source/M13CheckboxAnimationPresets.swift:124-731 | fill-style entries fill the selected box and stroke the mark in the secondary preset; stroke-style entries fill nothing and stroke the mark in the main one |
| AnimationPresets.LineWidthKeptButFlatFill | Source/M13CheckboxAnimationPresets.swift:446-452 | every layer keeps its line width except the flat-fill mark at the unselected end |
| AnimationPresets.UnselectedMarkOpacity | Source/M13CheckboxAnimationPresets.swift:87-709 | the mark starts opaque exactly for bounce, expand and flat-fill |
| AnimationPresets.PresetColoursMatchView | Source/M13Checkbox.swift:781-872 | for the checkmark the preset colours are the ones the view sets; the unselected box agrees except for the dot animations |

## Left out

- Trigonometry and square roots. The long arm's box intersection, the long arm's end point and the middle generation's circle diagonal are parameters (`PathGenerator.Opaque`), not computed. The newest path presets compute their own long-arm end and box intersection (Sources/M13CheckboxPathPresets.swift:76-145) without the box line-width terms the check generator uses (Sources/Paths/M13CheckboxCheckPathGenerator.swift:97-98 and 154-155), so those two are separate parameters, and the presets' checkmarks agree with the generator's only up to their far ends (`PresetPaths.CheckmarkAsGenerator`). The middle generation's `checkmarkMiddlePoint` and `checkmarkShortArmEndPoint` (M13Checkbox/M13CheckboxPathPresets.swift:128-134) feed only those formulas, so they are left out with them.
- Core Animation. Keyframes, timing functions, durations and removing animations are not modelled. An animation is modelled by the layer writes it makes directly and by the reset its completion block runs. The values the spiral controller's stroke-end and opacity animations start from come from the animation generator, which is not part of this model; they are inputs (`SpiralController.StartValues`), carried by each controller.
- UIKit and colour values. Layer hiding for `hideBox` (kept as a flag), UIColor values, `setNeedsLayout`, sublayer management, rasterisation and line caps are not modelled. Colours are tokens, and a pending layout is a flag or a separate function.
- Console output is not modelled: the warning printed when the spiral animation meets the radio mark (Source/M13Checkbox.swift:326 and 704) and the debug prints of the checkmark's size and vertices (M13Checkbox/M13CheckboxPathPresets.swift:274-275).
- The disclosure path generator is not part of this model. It is represented by the map of hooks it draws.
- The stroke, fill, bounce, expand and fade controllers of the newest generation are not part of this model. Their layer handling passes the state and completions through unchanged.
- Completion blocks still pending on a controller that a new animation replaces are not modelled. They capture the controller weakly, so once it is released they do nothing.
- The demo application, the gesture recognisers, the playgrounds and the Objective-C header are left out. They are user-interface plumbing.
- PresetPaths.Box, PresetPaths.RadioPath, PresetPaths.Dot, PresetPaths.LongMark, ClassicPresets.Mark, ClassicPresets.Dot, ClassicPresets.LongMark: for a circular box these are built from the centred circle, the corrected half of the off-centre circle finding below. The program builds them from its off-centre circle (Sources/M13CheckboxPathPresets.swift:167-184 and 288-303, Sources/Presets/M13CheckboxDotPathPresets.swift:21-26, M13Checkbox/M13CheckboxPathPresets.swift:153-161, M13Checkbox/M13CheckboxDotPathPresets.swift:17-23), so for a circular box what it draws sits boxLineWidth/2 up and to the left of these. The shrink-about-the-centre equations hold for any box, the as-written one included (Geometry.ScaleThenShiftIsAboutCentre).
- AnimationPresets.UnselectedEndHidesSelection treats a cleared line-width flag as hiding the layer. The animation manager that reads the flag is not part of this model.

## Findings

| source | as written | input that shows it | evidently intended | confidence | as-written member | corrected member |
|---|---|---|---|---|---|---|
| Source/M13Checkbox.swift:101-102 | the fade case compares the code with 50, so 60 decodes to fade-fill | code 60: decodes to `.Fade(.Fill)`, which encodes to 61 | compare with 60, so that 60 decodes to `.Fade(.Stroke)` | high, not executed | Codes.FadeStrokeDoesNotRoundTrip | Codes.AnimationRoundTrip |
| Sources/M13CheckboxPathPresets.swift:176-184 | the circle is drawn about (radius, radius) with radius (size - boxLineWidth)/2 | size 100, boxLineWidth 2: centre (49, 49) instead of (50, 50) | about (size/2, size/2), as the path generators and the oldest path manager draw it | medium, not executed | PresetPaths.CircleAsWrittenOffCentre | PresetPaths.CircleStrokeFillsFrame |
| M13Checkbox/M13CheckboxPathPresets.swift:153-161 | the same circle about (radius, radius) | size 100, boxLineWidth 2: centre (49, 49) instead of (50, 50) | about (size/2, size/2) | medium, not executed | ClassicPresets.BoxAsWrittenOffCentre | PathManager.BoxIsCentred |
