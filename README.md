# Splatters scene renderer and sample-box uniform ring, in Dafny

This project models two pieces of sequential logic from a visionOS app that
renders Gaussian-splat point clouds and tracks the user's hands.

**The scene renderer** (`VisionSceneRenderer`, module `VisionScene`):
- It keeps a 32-slot buffer of hand-joint transforms. `updateGenericBalls` copies incoming joints into it.
- For every slot it copies, it runs three hand-gesture recognisers on fixed joints of the incoming array (module `Gestures`):
  - a pinch with a time debounce, a distance threshold and a thumb displacement;
  - a zoom derivative;
  - a finger-curl swipe that turns the model by a fixed step.
- `load` swaps the model renderer, and does nothing for the model already loaded.
- `viewports`:
  - seeds the model translation from the renderer's centre on the first frame;
  - adds the pinch displacement while a pinch is active;
  - builds one descriptor per eye, or none without a renderer.
- `renderLoop` dispatches on the layer state.

**The sample-box renderer's uniform ring** (`SampleBoxRenderer`, module `SampleBox`):
- The uniform block is aligned to 256 bytes.
- One slot of the dynamic uniform buffer is used per frame in flight. The slot index and byte offset advance cyclically.
- The view count is clamped to two.
- The cameras are written into the two views of the current slot.

The recognisers are specified as pure step functions on small state records. The classes' methods change their fields and are proved equal to those functions. Lemmas then state what the source promises over a whole update.

Floating-point values are modelled as `real`, and 4×4 matrices as opaque column records. The renderer's `dist` (a square root of a sum of squares) is a function-valued parameter. The model requires only that this function is a distance (`Geometry.IsDistance`): it is non-negative, symmetric, and zero exactly when the points coincide. The clock (`CACurrentMediaTime`) becomes a parameter: one reading per loop iteration.

Where the code and its own comments or names disagree, the model follows the code:
- **Pinch debounce.** It is 0.01 s (`SampleApp/Scene/VisionSceneRenderer.swift:104`), although the comments at lines 104 and 106 say 100 ms.
- **Swipe step.** It is `Angle.degrees(0.002)` (line 187), so rotation is kept in degrees.
- **Swipe debounce.** There is none: the guard is `if true` (line 165), and the 0.05 s `updateInterval` of line 163 (commented "100 milliseconds") is unused.
- **Joint slots.** The recognisers read slots 17, 20, 23, 26 and 30, written as `r + 2`, `r + 5`, … with `r = 15` (lines 80-87). Slot 30 is passed as `littleMid` (line 161) but is `r + 15`, the little-finger tip rather than a mid joint.
- **Once per slot.** `updateGenericBalls` runs the recognisers once per copied slot, not once per update. As a result:
  - `zoom` is always 0 after an update of two or more joints (`RunZoomSettles`);
  - a curled hand turns the model by one real step plus 0.002° backwards for each further slot (`RunSwipeCurled`).
- **Empty viewports.** `viewports` returns no descriptors only when there is no model renderer (line 300). A missing device anchor is replaced by the identity (line 278). The "rightside-up" calibration rotation `commonUpCalibration` is computed (line 276) but its use is commented out (line 295).
- **`updateUniforms` loop bound.** The loop writes camera `i` while `i <= maxViewCount` (`SampleBoxRenderer/Sources/SampleBoxRenderer.swift:139`), one past the last view. With `maxViewCount` 2 that extra index is ignored by `setUniforms`; with `maxViewCount` 1 camera 1 is written into `uniforms1` (`ApplyCamerasClosedForm` states both cases).
- **`firstRender` is never reset.** A newly loaded model keeps the translation of the previous one.

## Model

| member | source | states |
|---|---|---|
| Geometry.Diagonal | SampleApp/Scene/VisionSceneRenderer.swift:25 | `simd_float4x4(1)` puts the value on the diagonal, so an identity joint sits at the origin with unit Y axis |
| Geometry.Sub | SampleApp/Scene/VisionSceneRenderer.swift:119-121 | the pinch delta is the displacement that, added to the last thumb point, gives the current one; it is zero exactly when the thumb has not moved |
| Wrappers.Option.GetOr | SampleApp/Scene/VisionSceneRenderer.swift:278 | `??`: the anchor when present, the default (identity) otherwise |
| Gestures.PinchStep | SampleApp/Scene/VisionSceneRenderer.swift:102-134 | before the 0.01 s debounce nothing changes; coinciding joints (distance 0) change nothing; below 0.070 the pinch activates, `dV` becomes thumb minus old `lP`, `lP` the thumb, the time `now`; at or above 0.070 it deactivates and resamples `lP` only; recorded times are at least the interval apart |
| Gestures.PinchStepIdempotent | SampleApp/Scene/VisionSceneRenderer.swift:102-134 | a second pinch update at the same clock reading changes nothing more |
| Gestures.PinchRepeatedSampleHasNoDelta | SampleApp/Scene/VisionSceneRenderer.swift:118-127 | a pinch that fires again on an unchanged thumb reports a zero delta |
| Gestures.ZoomStep | SampleApp/Scene/VisionSceneRenderer.swift:139-149 | `lastDist` becomes the current non-negative distance and `zoom` its change since the previous call (divided by `maxZoomDist` = 1) |
| Gestures.SwipeDelta | SampleApp/Scene/VisionSceneRenderer.swift:186-187 | the rotation step is exactly ±0.002 degrees, positive exactly when the index joint moved towards +Z |
| Gestures.SwipeStep | SampleApp/Scene/VisionSceneRenderer.swift:161-195 | an untracked hand changes nothing; a curled hand activates the swipe, takes the index joint's Y axis, steps the rotation by `SwipeDelta` and records Z and time; an open hand only clears `swipeActivated`; the rotation moves by one step or not at all |
| Gestures.Tick | SampleApp/Scene/VisionSceneRenderer.swift:84-87 | one loop iteration applies each recogniser once, to slots 20/23/26/30 (swipe) and 17/20 (pinch, zoom) |
| Gestures.RunZoomSettles | SampleApp/Scene/VisionSceneRenderer.swift:79-89 | after an update over two or more joints `zoom` is 0 and `lastDist` the current thumb-index distance |
| Gestures.RunPinchAtOneInstant | SampleApp/Scene/VisionSceneRenderer.swift:79-89 | when every iteration reads the same clock value, the update leaves the pinch state as one `isPinchActivated` call would |
| Gestures.RunSwipeCurled | SampleApp/Scene/VisionSceneRenderer.swift:79-89 | with a curled tracked hand an update over n joints activates the swipe, sets axis and Z, and moves the rotation by `SwipeDelta` − (n − 1)·0.002 |
| Gestures.RunSwipeOpen | SampleApp/Scene/VisionSceneRenderer.swift:79-89 | with an open tracked hand no rotation happens and `swipeActivated` ends false |
| Gestures.RunSwipeUntracked | SampleApp/Scene/VisionSceneRenderer.swift:79-89 | with an untracked hand the swipe state is left alone |
| VisionScene.InitialBallCoords | SampleApp/Scene/VisionSceneRenderer.swift:21-27 | the joint buffer starts as 32 identity transforms, every joint at the origin |
| VisionScene.VisionSceneRenderer.constructor | SampleApp/Scene/VisionSceneRenderer.swift:29-72 | the buffer holds the 32 identity slots; gesture fields, model, renderer, `firstRender` and translation take their declared initial values |
| VisionScene.VisionSceneRenderer.IsPinchActivated | SampleApp/Scene/VisionSceneRenderer.swift:102-134 | the pinch fields after the call are `PinchStep` of those before, nothing else changes |
| VisionScene.VisionSceneRenderer.CalcZoom | SampleApp/Scene/VisionSceneRenderer.swift:139-149 | the zoom fields after the call are `ZoomStep` of those before, nothing else changes |
| VisionScene.VisionSceneRenderer.IsSwipe | SampleApp/Scene/VisionSceneRenderer.swift:161-195 | the swipe fields (including `rotation`) after the call are `SwipeStep` of those before, nothing else changes |
| VisionScene.VisionSceneRenderer.RecogniseGestures | SampleApp/Scene/VisionSceneRenderer.swift:84-87 | the three calls together perform one `Tick` |
| VisionScene.VisionSceneRenderer.UpdateGenericBalls | SampleApp/Scene/VisionSceneRenderer.swift:79-89 | slots below `balls.count` hold the incoming joints, later slots are unchanged, and the gesture state is `Run` of the old one; it needs at most 32 joints and, when any arrive, at least 31 |
| VisionScene.LoadStep | SampleApp/Scene/VisionSceneRenderer.swift:197-226 | the current model changes nothing; another sets `model`, and a renderer exists exactly when a model was named and its construction succeeded; only a failed splat load reports its error |
| VisionScene.LoadIdempotent | SampleApp/Scene/VisionSceneRenderer.swift:198 | loading the same model twice is the same as loading it once |
| VisionScene.VisionSceneRenderer.Load | SampleApp/Scene/VisionSceneRenderer.swift:197-226 | the new `model`/`modelRenderer` and the outcome are those of `LoadStep` |
| VisionScene.CenterPoint | SampleApp/Scene/VisionSceneRenderer.swift:254-256 | x, y, z are seeded from the first three entries of the centre |
| VisionScene.NextTranslation | SampleApp/Scene/VisionSceneRenderer.swift:252-270 | the new translation differs from its base (the centre on a first render, the old translation otherwise) by `dV` while pinching and by nothing otherwise |
| VisionScene.TranslationIsSeedPlusPinches | SampleApp/Scene/VisionSceneRenderer.swift:252-270 | over any run of frames the translation is the seed plus the deltas of the pinching frames: the centre is read once |
| VisionScene.TruncateToInt | SampleApp/Scene/VisionSceneRenderer.swift:290-291 | `Int(_:)` truncates toward zero |
| VisionScene.Describe | SampleApp/Scene/VisionSceneRenderer.swift:279-297 | the model matrix carries translation and rotation, the hand matrix neither; both share the user viewpoint; depth is reversed (near from `depthRange.y`); screen size is the truncated viewport size |
| VisionScene.VisionSceneRenderer.Viewports | SampleApp/Scene/VisionSceneRenderer.swift:249-301 | no renderer: no descriptors and no change; otherwise `firstRender` is set, the translation is `NextTranslation` of the old one, and there is exactly one descriptor per view |
| VisionScene.Dispatch | SampleApp/Scene/VisionSceneRenderer.swift:383-392 | invalidated exits, paused waits, running renders, and nothing else |
| VisionScene.VisionSceneRenderer.RenderLoop | SampleApp/Scene/VisionSceneRenderer.swift:381-395 | each iteration dispatches on the state it sees; the loop exits exactly when an invalidated state arrives, and only as its last action |
| SampleBox.UniformsArray.SetUniforms | SampleBoxRenderer/Sources/SampleBoxRenderer.swift:52-58 | index 0 writes only `uniforms0`, index 1 only `uniforms1`, any other index changes nothing |
| SampleBox.AlignedSize | SampleBoxRenderer/Sources/SampleBoxRenderer.swift:50 | a multiple of 256, at least the size and less than size + 256 |
| SampleBox.UniformsAlignedSizeIs256 | SampleBoxRenderer/Sources/SampleBoxRenderer.swift:44-50 | the two-view uniform block is 256 bytes and needs no padding |
| SampleBox.ClampViewCount | SampleBoxRenderer/Sources/SampleBoxRenderer.swift:83 | `min(requested, 2)` |
| SampleBox.NextSlot | SampleBoxRenderer/Sources/SampleBoxRenderer.swift:133 | the next slot index stays in range and is the successor, wrapping to 0 after the last |
| SampleBox.SlotAfterWrapsOnce | SampleBoxRenderer/Sources/SampleBoxRenderer.swift:132-136 | within one turn the slot is start + frames, wrapped once |
| SampleBox.SlotAfterFullCycle | SampleBoxRenderer/Sources/SampleBoxRenderer.swift:133 | `maxSimultaneousRenders` frames return to the starting slot |
| SampleBox.SlotAfterPartialCycle | SampleBoxRenderer/Sources/SampleBoxRenderer.swift:133 | fewer frames never return to it, so the frames in flight use distinct slots |
| SampleBox.SlotOffset | SampleBoxRenderer/Sources/SampleBoxRenderer.swift:134 | the offset is 256-aligned and the slot ends inside the buffer of `alignedSize * maxSimultaneousRenders` bytes |
| SampleBox.ApplyCamerasClosedForm | SampleBoxRenderer/Sources/SampleBoxRenderer.swift:138-142 | after the loop view 0 holds camera 0 and view 1 camera 1 where they exist and the bound allows, the rest of the slot is unchanged |
| SampleBox.LaterCamerasIgnored | SampleBoxRenderer/Sources/SampleBoxRenderer.swift:138-142 | cameras beyond the second have no effect |
| SampleBox.SampleBoxRenderer.constructor | SampleBoxRenderer/Sources/SampleBoxRenderer.swift:76-90 | `maxViewCount` is clamped, the buffer has `maxSimultaneousRenders` slots of `alignedSize` bytes, index, offset and pointer start at 0 |
| SampleBox.SampleBoxRenderer.Slot | SampleBoxRenderer/Sources/SampleBoxRenderer.swift:135 | the uniforms pointer designates the slot of the current index, inside the buffer |
| SampleBox.SampleBoxRenderer.UpdateDynamicBufferState | SampleBoxRenderer/Sources/SampleBoxRenderer.swift:132-136 | the index becomes `NextSlot` of the old one, the offset and pointer follow it and stay inside the buffer |
| SampleBox.SampleBoxRenderer.UpdateUniforms | SampleBoxRenderer/Sources/SampleBoxRenderer.swift:138-142 | only the current slot changes, to `ApplyCameras` of its old contents |
| SampleBox.SampleBoxRenderer.Render | SampleBoxRenderer/Sources/SampleBoxRenderer.swift:144-146 | the slot advances, then the cameras are written into the new slot |

## Left out

- `dist`: Dafny has no square root, and the solver cannot reason reliably about products of reals. So the Euclidean formula is not modelled. The renderer takes the distance as a function satisfying `IsDistance`: non-negative, symmetric, and zero exactly when the points coincide.
- Floating-point precision: `Float`/`Double` arithmetic and the conversions between them are modelled as exact real arithmetic.
- Angle units: the swipe rotation is kept in degrees. Its conversion to radians for the rotation matrix is part of the symbolic view matrix.
- Matrix and projection arithmetic: `matrix4x4_rotation`, `matrix4x4_translation`, `ProjectiveTransform3D` and `.inverse` are not computed. The view matrices and the projection are symbolic records of their inputs.
- The clock: `CACurrentMediaTime` is replaced by one reading per iteration of `updateGenericBalls`, passed in as a sequence. `isSwipe` and `isPinchActivated` share the reading of their iteration. Their separate reads are not modelled.
- `renderLoop`: the `while true` loop is modelled over a finite sequence of observed layer states. `waitUntilRunning` and `renderFrame` are actions it records. `renderFrame` itself is not modelled: it queries the frame, takes the semaphore, copies the joints out, and calls into Metal.
- Concurrency: the in-flight `DispatchSemaphore`, the completion handler, the render `Thread` and the `Task` in `startRenderLoop` are not modelled.
- ARKit and Combine: the session, the `sink` subscriptions that deliver joints, and `queryDeviceAnchor` are not modelled. The device anchor is a parameter of `Viewports`.
- `updateHandSkeletonPositions`, `defaultRotation` and `updateRotation`. The first only copies two optionals. The second adds `rotationPerSecond * 0`. The third is empty.
- Model renderers: splat loading (`SplatRenderer`, `readPLY`) and sample-box construction are external. `Load` receives their result. A renderer is represented only by the centre it reports.
- Metal: the pipeline, depth state, mesh and texture construction, and the encoder calls in `SampleBoxRenderer.render` are not modelled. The buffer's initial contents are unspecified.
- `willRender` (empty) and the `SampleBoxRenderer` adapter to the app's renderer protocol (field copies) are not modelled.
- Swift `Int` overflow: integers are unbounded. The sizes involved (256 bytes times a handful of slots) are far from the 64-bit limits.
- `alignedSize` computes `& -0x100` on a two's-complement integer. It is modelled as subtracting the remainder modulo 256, which is the same for the non-negative sums involved.
