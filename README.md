# Splat viewer: the viewer-state logic, in Dafny

This project models the decision logic inside `js/main.js`, a browser viewer for
Gaussian-splat models (`.splat`, `.ply`, `.spz`) built on a 3D engine. Around the
engine calls, the file holds five small pieces of state and a few pure rules.
They are modelled here as one module per component:

- `FileExtension`: `split('.').pop().toLowerCase()` on a file name or a URL path.
  It is proved to be the lower-cased text after the last `.`, with `split` and
  `join` shown to be inverses, and dispatched three ways (`spz`, `splat`/`ply`,
  anything else).
- `ModelLoader`: the single current-model slot (`currentModel`,
  `currentModelType`) as the class `ModelSlot`. The class has `disposeCurrentModel`,
  `loadModel`, `scaleModel`, the two load buttons and the start-up choice between
  the `model` query parameter and the default URL. Each method is proved equal
  to a function on a value state (`Dispose`, `Scale`, `Load`, `Startup`), and the
  lemmas are stated about those functions. The URL parser, the loaders and
  `decodeURIComponent` are inputs: a `LoaderEnv` per load attempt.
- `CameraConstraints`: the before-render observer that clamps the vertical
  angle to [0.2, 1.75] and the radius to at least 2.0 and then to
  `upperRadiusLimit`. It is the class `OrbitCamera`, on `real`.
- `DoubleTapPan`: the pointer-down double-tap detector (`0 < t - lastTap < 300`),
  the double-click handler, the fly-to radius `max(min(2d, upper || 7), lower || 2)`
  and the animation lock. It is the class `PanController`, proved against `Step`.
- `UiReadout`: the 450 ms, visible-only readout gate and `getTotalVertices`. It
  is the class `ControlPanel`, proved against `OnFrame`.
- `Common`: `Option`, `Result`, and `JsValue` (`undefined`, `null` or a number)
  with JavaScript's `||`.

Behaviour of the code that the model keeps as written:

- A malformed URL, or a source that is neither a file nor a string, throws
  before the `try` block. The slot is then left empty, no fallback box is made
  and the loading spinner stays shown. Only failures inside the `try` produce
  the fallback box.
- An `spz` import that resolves with an empty mesh list also ends in the
  fallback box, because reading `position` of `meshes[0]` throws inside the `try`.
- The radius clamp raises the radius to the configured constant 2.0, not to the
  camera's `lowerRadiusLimit` property. The upper limit is applied last, so a
  limit below 2.0 wins.
- The readout gate is strict: a gap of exactly 450 ms writes nothing.
- `upper || 7` and `lower || 2` treat a limit of 0 like an unset one.

## Model

| member | source | states |
|---|---|---|
| `FileExtension.Split` | js/main.js:266 | `split('.')` gives at least one segment and no segment holds a `.` |
| `FileExtension.JoinSplit` | js/main.js:266 | joining the segments of `split('.')` with `.` gives back the string |
| `FileExtension.SplitJoin` | js/main.js:266 | splitting dot-free segments joined by `.` gives back the segments |
| `FileExtension.RawExtensionIsLastSegment` | js/main.js:266 | the popped segment is a dot-free suffix of the name, either the whole name or preceded by a `.` |
| `FileExtension.RawExtensionAfterLastDot` | js/main.js:266 | the popped segment of `p + "." + t` (with `t` dot-free) is `t`, and of a dot-free `t` is `t` itself |
| `FileExtension.LowerChar` | js/main.js:266 | `toLowerCase` maps `A`-`Z` to `a`-`z` and leaves every other character alone |
| `FileExtension.ToLower` | js/main.js:266 | `toLowerCase` keeps the length, leaves no upper-case letter, changes a character only by lower-casing it, and neither makes nor loses a `.` |
| `FileExtension.ToLowerIdempotent` | js/main.js:266 | lower-casing twice is lower-casing once |
| `FileExtension.ToLowerKeepsNoDot` | js/main.js:266 | lower-casing never introduces a `.` |
| `FileExtension.ExtensionAfterLastDot` | js/main.js:266 | the extension is the lower-cased text after the last `.` and holds no `.` |
| `FileExtension.ExtensionWithoutDot` | js/main.js:266 | a name without `.` yields the whole name, lower-cased |
| `FileExtension.ExtensionIsStable` | js/main.js:266 | taking the extension of an extension changes nothing |
| `FileExtension.UpperCaseDoubleDotExample` | js/main.js:266 | `"A.B.SPLAT"` has extension `"splat"` |
| `FileExtension.ToLowerMatchesIgnoringCase` | js/main.js:266 | the lower-cased text equals a lower-case word exactly when the text spells that word in any mixture of cases |
| `FileExtension.DispatchIgnoresCase` | js/main.js:266-298 | a name selects the importer exactly when its last segment spells `spz` in any case, and the splat loader exactly when it spells `splat` or `ply` in any case; every other segment is unsupported |
| `FileExtension.DotlessNameDispatch` | js/main.js:284-298 | a name without `.` dispatches on the whole name: `"model"` is unsupported, `"SPZ"` selects the importer |
| `FileExtension.QueryStringIgnored` | js/main.js:270-272 | for a URL the extension is read from the parsed path alone, so the query and fragment never change it (the split of the URL into its parts is the parser's, an input) |
| `FileExtension.QueryStringExample` | js/main.js:270-272 | `/m/scene.ply?v=1.2` gives `ply` from its path, where the raw text would give `2` |
| `ModelLoader.Dispose` | js/main.js:229-237 | disposing leaves the slot empty, does nothing to an empty slot, and disposes exactly the old model when its tag is set |
| `ModelLoader.DisposeIdempotent` | js/main.js:229-237 | disposing twice is disposing once |
| `ModelLoader.Scale` | js/main.js:358-369 | scaling sets the current model's uniform scale and nothing else, and does nothing to an empty slot |
| `ModelLoader.SourceExtension` | js/main.js:261-279 | a file gives its name's extension; a string gives its URL path's extension or throws "Invalid URL format"; any other source throws; the extension holds no `.` |
| `ModelLoader.TryLoad` | js/main.js:283-304 | the `try` block fails exactly for an unsupported extension, a rejected loader or an empty import; `spz` installs a mesh at height 0, `splat`/`ply` a pickable splat |
| `ModelLoader.Load` | js/main.js:254-317 | `loadModel` first disposes the old model; a throw leaves the slot empty with the spinner shown; a return leaves a consistent slot holding the returned model, spinner hidden, scaled 1 unless it is the fallback box, which raises one alert |
| `ModelLoader.LoadSpz` | js/main.js:284-290 | an `spz` source whose import yields meshes becomes a mesh tagged `mesh`, at height 0, scaled 1 |
| `ModelLoader.LoadSplatOrPly` | js/main.js:291-295 | a `splat` or `ply` source whose load succeeds becomes a pickable splat tagged `splat`, scaled 1 |
| `ModelLoader.LoadFallsBack` | js/main.js:296-311 | an unsupported extension or any loader failure installs the fallback box tagged `mesh` with one alert and hides the spinner |
| `ModelLoader.LoadThrowsBeforeTry` | js/main.js:264-279 | a malformed URL or a wrong source type throws with the slot emptied and the spinner still shown |
| `ModelLoader.FileNameExample` | js/main.js:264-266 | a file named `A.B.SPLAT` loads as a splat |
| `ModelLoader.SecondLoadDisposesFirst` | js/main.js:254-255 | a second load disposes exactly the model the first one returned |
| `ModelLoader.DefaultModelIsSplat` | js/main.js:12 | the default model URL's path has extension `splat` |
| `ModelLoader.Startup` | js/main.js:717-732 | start-up leaves a consistent, non-empty slot whenever the default URL parses, and disposes at most the old model |
| `ModelLoader.StartupFallsBackToDefault` | js/main.js:720-728 | a non-empty `model` parameter that is not a valid URL is followed by a load of the default URL, whose outcome ends up in the slot |
| `ModelLoader.StartupKeepsParamFallback` | js/main.js:720-728 | a parameter URL that parses but names an unsupported format ends in exactly the state of that one load, the fallback box; the default URL is not tried |
| `ModelLoader.StartupUsesParam` | js/main.js:720-724 | a non-empty parameter that decodes to a well-formed URL decides the slot alone: start-up is exactly that one load, whatever its loader does |
| `ModelLoader.StartupWithoutParam` | js/main.js:718-731 | with no parameter, an empty one, or one `decodeURIComponent` rejects, start-up is exactly one load of the default URL from the slot as it was |
| `ModelLoader.ModelSlot.constructor` | js/main.js:32-33 | the slot starts empty |
| `ModelLoader.ModelSlot.DisposeCurrentModel` | js/main.js:229-237 | the new state is `Dispose` of the old |
| `ModelLoader.ModelSlot.ScaleModel` | js/main.js:358-369 | the new state is `Scale` of the old |
| `ModelLoader.ModelSlot.LoadModel` | js/main.js:254-317 | the new state and the result are `Load` of the old state |
| `ModelLoader.ModelSlot.LoadAtStartup` | js/main.js:717-732 | the new state is `Startup` of the old |
| `ModelLoader.ModelSlot.OnLoadUrlButton` | js/main.js:677-686 | an empty URL input only raises an alert; otherwise the URL is loaded |
| `ModelLoader.ModelSlot.OnLoadFileButton` | js/main.js:664-674 | with no file selected only an alert is raised; otherwise the first file is loaded |
| `CameraConstraints.ClampBeta` | js/main.js:88 | the vertical angle ends in [0.2, 1.75]: unchanged inside, the nearest bound outside |
| `CameraConstraints.ClampRadiusAsWritten` | js/main.js:89-95 | as written: an `undefined` limit leaves the radius at least 2.0; any other limit, `null` read as 0, bounds it from above |
| `CameraConstraints.ClampRadius` | js/main.js:89-95 | the radius ends at least 2.0 when no numeric upper limit is set, and at most the limit when one is; inside the range it is unchanged, below 2.0 it becomes 2.0, and above the limit it becomes the limit, which wins when it is below 2.0 |
| `CameraConstraints.ClampIdempotent` | js/main.js:86-96 | applying the constraint twice equals applying it once, and its result is a state it leaves alone |
| `CameraConstraints.AsWrittenDiffersOnlyOnNull` | js/main.js:92-95 | the clamp as written and as intended agree on every limit except `null` |
| `CameraConstraints.NullUpperLimitCollapsesRadius` | js/main.js:92-95 | with a `null` limit the clamp as written turns radius 4 into 0, below the lower bound; the intended clamp keeps 4 |
| `CameraConstraints.OrbitCamera.constructor` | js/main.js:60-67 | the camera starts with the angle, radius and limits it is given |
| `CameraConstraints.OrbitCamera.ConstrainFrame` | js/main.js:86-96 | a frame sets the angle to its clamped value and the radius by the corrected clamp (see Findings), and leaves a state the constraint does not change |
| `CameraConstraints.OrbitCamera.ApplyReadyConfiguration` | js/main.js:99-106 | once the scene is ready: radius 4, limits 7 and 2, the configured vertical angle |
| `CameraConstraints.OrbitCamera.SetUpperRadiusLimit` | js/main.js:600-605 | the max-distance input sets the upper limit |
| `DoubleTapPan.TargetRadius` | js/main.js:416-420 | the fly-to radius is never below `lower \|\| 2` nor below `min(2d, upper \|\| 7)`, never above `upper \|\| 7` when the limits are ordered; it is twice the distance when that lies between the limits, the upper limit when twice the distance exceeds it, and the lower limit when twice the distance is below that |
| `DoubleTapPan.TargetRadiusExample` | js/main.js:416-420 | distance 5 with limits 2..7 gives radius 7 |
| `DoubleTapPan.UnsetLimitsFallBack` | js/main.js:418-419 | unset limits and limits of 0 behave as 7 and 2 |
| `DoubleTapPan.CenterRequest` | js/main.js:407-420 | an animation is requested exactly when the lock is free and the pick hit with a point; it targets that point, lasts 30 frames, and flies to the `TargetRadius` of the distance and limits |
| `DoubleTapPan.Center` | js/main.js:407-432 | while the lock is held, or when the pick misses, nothing changes; with the lock free and a hit with a point, the lock is taken with exactly the requested animation |
| `DoubleTapPan.Step` | js/main.js:380-404 | every event keeps the lock in step with the animation in flight; only the end callback releases it; a free lock is taken by a left double-click or a triggering pointer-down on a hit with a point, and by nothing else; a pointer-down sets `lastTap` to 0 on a trigger and to its time otherwise |
| `DoubleTapPan.LockHeldUntilAnimationEnds` | js/main.js:407-432 | while the lock is held, any run of events without the end callback keeps the lock and the animation in flight |
| `DoubleTapPan.Triggers` | js/main.js:393-403 | the detector yields one decision per pointer-down, by the same rule and remembered tap time (`NextTap`) that `Step` uses |
| `DoubleTapPan.RunMatchesTriggers` | js/main.js:380-432 | over any run of pointer-downs, the handler remembers the tap time the detector ends in; a free lock is taken only if some tap fires, and, when every pick hits with a point, it is taken exactly when some tap fires |
| `DoubleTapPan.NoTwoTriggersInARow` | js/main.js:396-402 | with clock readings of at least 300 ms, two consecutive pointer-downs never both trigger |
| `DoubleTapPan.ThreeQuickTaps` | js/main.js:396-402 | three quick taps trigger exactly once, on the second |
| `DoubleTapPan.TapGapExamples` | js/main.js:396-402 | a gap of 150 ms triggers; gaps of 400 ms and of exactly 300 ms do not |
| `DoubleTapPan.DoubleClickSequence` | js/main.js:380-432 | a first double-click takes the lock, a second one during the animation changes nothing, and one after the end callback launches again |
| `DoubleTapPan.MissChangesNothing` | js/main.js:413-414 | a miss, or a hit without a point, leaves the state and the lock unchanged |
| `DoubleTapPan.PanController.constructor` | js/main.js:377-390 | the detector starts with `lastTap` 0 and the lock free |
| `DoubleTapPan.PanController.HandleDoubleTap` | js/main.js:407-432 | the new state is `Center` of the old |
| `DoubleTapPan.PanController.OnAnimationEnd` | js/main.js:426-429 | the end callback frees the lock and nothing else |
| `DoubleTapPan.PanController.OnEvent` | js/main.js:380-404 | the new state is `Step` of the old |
| `UiReadout.ReduceIsSum` | js/main.js:349-353 | the `reduce` fold equals its start value plus the reference sum of the counts |
| `UiReadout.TotalVerticesAppend` | js/main.js:349-353 | the total over two mesh lists is the sum of their totals |
| `UiReadout.MissingCountAddsNothing` | js/main.js:351 | a mesh whose count is missing or 0 adds nothing to the total |
| `UiReadout.TotalVerticesNonNegative` | js/main.js:349-353 | with no negative counts the total is not negative |
| `UiReadout.OnFrame` | js/main.js:166-180 | a frame writes exactly when more than 450 ms have passed and the panel is visible; a write records the time, the figures and the vertex total; `lastUpdateTime` changes only with a write; the throttle invariant is kept |
| `UiReadout.ToggleVisible` | js/main.js:542-546 | a header click flips visibility and nothing else |
| `UiReadout.HiddenPanelWritesNothing` | js/main.js:166-180 | a hidden panel is never written, over any number of frames |
| `UiReadout.FramesKeepThrottle` | js/main.js:165-180 | over any run of frames, writes are more than 450 ms apart and earlier writes are kept |
| `UiReadout.ThrottleBoundary` | js/main.js:169 | a gap of exactly 450 ms writes nothing; 451 ms writes |
| `UiReadout.ControlPanel.constructor` | js/main.js:36 | the panel starts hidden with no writes |
| `UiReadout.ControlPanel.OnBeforeRender` | js/main.js:166-180 | the new state is `OnFrame` of the old |
| `UiReadout.ControlPanel.OnHeaderClick` | js/main.js:542-546 | the new state is `ToggleVisible` of the old |

## Left out

- Engine construction and rendering are not modelled because they are engine calls with no logic of their own. This covers `Engine`, `Scene`, the camera's sensitivities and auto-rotation settings, the render loop, resize and WebXR.
- The picking chain (`getPickResult`, `scene.pick`, `pickWithRay`) and `Vector3.Distance` are engine work. Their outcome is the `PickView` input: the pick result and the distance as a `real`.
- `animateCameraTo` is recorded only as the launched `FlyTo` (target, radius, 30 frames). Its keyframes and the `AnimationGroup` are engine objects.
- The loaders (`ImportMeshAsync`, `GaussianSplattingMesh.loadFileAsync`), `URL.createObjectURL`, `new URL(...)` and `decodeURIComponent` are outcomes given as inputs, not modelled.
- The engine's scene graph is not modelled. So a splat mesh that the splat loader creates and then fails to fill stays out of the model, as do the meshes `getTotalVertices` walks; their vertex counts are an input.
- `setMeshesPickable` is reduced to one flag on the model; the children it also marks are engine objects.
- `addPostEffects`, the sharpen slider and the pixel-ratio slider are engine configuration. They are floating-point settings with no decision logic.
- The settings-section and scene-info toggles, `innerHTML` markup, `alert` dialogs beyond the recorded alert text, console logging and listener registration are DOM glue.
- Two `loadModel` calls overlapping across an `await` are not modelled; each load is one atomic step.
- Floating point is not modelled: NaN (from `parseFloat` of an empty input), rounding, and `toFixed` are left out. Angles, radii, distances and times are `real`.
- FileExtension.ToLower, FileExtension.LowerChar: model `toLowerCase` on ASCII letters only, and other Unicode case mappings are left out. This changes no dispatch outcome. The only non-ASCII characters whose lower case starts with an ASCII letter are U+212A KELVIN SIGN (to `k`) and U+0130 (to `i` followed by a combining dot), and neither `k` nor `i` occurs in `spz`, `splat` or `ply`.
- CameraConstraints.OrbitCamera.ApplyReadyConfiguration: does not model the horizontal angle or the target it also sets, and takes the configured vertical angle (π/3) as a parameter because π is not a `real` literal.
- The spinner element is assumed present (it is part of the panel markup built before any load).

## Findings

| source | as written | input that shows it | evidently intended | confidence | as-written member | corrected member |
|---|---|---|---|---|---|---|
| js/main.js:92-95 | the upper limit is applied whenever it is `!== undefined`, so a `null` limit passes the guard and `Math.min(radius, null)` reads it as 0 | radius 4 with `upperRadiusLimit` `null`, the engine's value before the ready callback sets 7 | skip the upper clamp unless a limit is set (the comment says "if defined"), leaving radius 4 | medium, not executed: it depends on the engine starting the limit at `null` and on a frame rendering before the ready callback | `CameraConstraints.ClampRadiusAsWritten`, `CameraConstraints.NullUpperLimitCollapsesRadius` | `CameraConstraints.ClampRadius` (used by `OrbitCamera.ConstrainFrame`) |
