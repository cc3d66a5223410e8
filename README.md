# SmoothTilt in Dafny

A model of the tilt logic of the SmoothTilt component (`Assets/SmoothTilt/SmoothTilt.cs`). The component tilts an object towards a target pitch (`xRot`) and yaw (`yRot`) around a center rotation. There are two ways to drive it:

- **Pointer mode.** A mouse or touch position strictly inside a screen rectangle is mapped linearly onto `center ∓ tiltRange`. A position anywhere else resets both angles to the center. In global mode the rectangle is the whole display. In local mode it is the object's bounding box: its eight corners are projected through the camera and reduced to a componentwise min/max.
- **Axis mode.** Two analog axis values steer the angles. Each tick adds `speed * input`, with the sign chosen by the inversion flags. When there is no input the angles can snap back to the center. They are always clamped to `center ± tiltRange`.

The component corrects its own mode flags: `LocalTilt` with `useAxis` set switches to global mode, and `SetupComponents` falls back to global mode when the object has neither a RectTransform nor a Renderer.

Files, one module each:

- `vectors.dfy` (`Vectors`): Vector2/Vector3, Mathf Min/Max/Clamp, and the min/max folds the engine loops compute.
- `bounds.dfy` (`ScreenBounds`): Bounds, `SetMinMax`, the world-corner loop and `FindMinAndMaxOfBounds`.
- `mapping.dfy` (`Mapping`): `Map`, the open-rectangle guard and the pointer mapping.
- `axis.dfy` (`Axis`): the per-tick axis integrator.
- `smooth_tilt.dfy` (`Tilt`): the `SmoothTilt` class with its fields and the methods that update them in place.

Engine calls are parameters. An `EngineFrame` carries what the engine supplies on one tick:

- `Input.GetAxisRaw` values;
- the pointer: the mouse position, or on touch builds the first touch if there is one;
- `Display.main` rendering size;
- `RectTransform.GetWorldCorners`;
- `Renderer.bounds`;
- `Camera.WorldToScreenPoint`, as a function.

`GetComponent` results become the two booleans passed to `SetupComponents`. The transform's Euler angles are an argument of `SetCenterRotation`. Angles and coordinates are unbounded reals.

Where the code differs from what one might expect of it, the model follows the code:

- **Edge points reset.** The guard is strict, so a pointer exactly on an edge of the rectangle (the display's corner (0,0), for one) resets to the center. It is not mapped to `center ± tiltRange`. Only interior points are mapped, and they land strictly inside the range.
- **No division by zero.** A zero-width or zero-height rectangle contains no point, so `Map` is never reached with a zero divisor (`Mapping.Inside`).
- **`SetCenterRotation` keeps the transform's angles.** It sets the center to its argument, but the stored angles come from the transform's current Euler angles, not from the new center.
- **Touch builds with no touch.** The code resets and then tests the origin as if it were the pointer. The result is exactly the pointer mapping at (0,0). In global mode that is always the center (`Mapping.OriginCentersInGlobalMode`). In local mode, if the origin lies strictly inside the object's screen rectangle, the origin is mapped instead.

## Model

| member | source | states |
|---|---|---|
| `Vectors.Lesser` | Assets/SmoothTilt/SmoothTilt.cs:454 | Mathf.Min as used by Vector2.Min/Vector3.Min: the result is at most both arguments and is one of them |
| `Vectors.Greater` | Assets/SmoothTilt/SmoothTilt.cs:455 | Mathf.Max: the result is at least both arguments and is one of them |
| `Vectors.Clamp` | Assets/SmoothTilt/SmoothTilt.cs:354-355 | Mathf.Clamp: lands in [min, max] when min ≤ max; a value already inside is unchanged; below min gives min; above max (and not below min) gives max |
| `Vectors.MinOf2` | Assets/SmoothTilt/SmoothTilt.cs:448-456 | the Vector2.Min fold is ≤ every point in x and in y, and each coordinate equals some point's coordinate |
| `Vectors.MaxOf2` | Assets/SmoothTilt/SmoothTilt.cs:448-456 | the Vector2.Max fold is ≥ every point in x and in y, and each coordinate equals some point's coordinate |
| `Vectors.MinOf3` | Assets/SmoothTilt/SmoothTilt.cs:298-307 | the Vector3.Min fold is ≤ every corner in x, y and z, and each coordinate is attained by some corner |
| `Vectors.MaxOf3` | Assets/SmoothTilt/SmoothTilt.cs:298-307 | the Vector3.Max fold is ≥ every corner in x, y and z, and each coordinate is attained by some corner |
| `ScreenBounds.Bounds.Corners` | Assets/SmoothTilt/SmoothTilt.cs:435-447 | eight points, the first the box's min and the last its max; every coordinate is the box's low or high value, and each low/high combination sits at its fixed index |
| `ScreenBounds.FromMinMax` | Assets/SmoothTilt/SmoothTilt.cs:310-311 | Bounds.SetMinMax builds a box whose min and max are exactly the given corners |
| `ScreenBounds.WorldCornerBounds` | Assets/SmoothTilt/SmoothTilt.cs:298-307 | the corner loop returns the componentwise min and max of all corners: every corner lies between them on each axis |
| `ScreenBounds.FindMinAndMaxOfBounds` | Assets/SmoothTilt/SmoothTilt.cs:430-461 | the returned min is ≤ and the max ≥ every projected corner in x and y; each of the four coordinates is some projected corner's coordinate; both results have z = 0 |
| `Mapping.Map` | Assets/SmoothTilt/SmoothTilt.cs:466-469 | requires `to1 != from1`; the point (value, result) lies on the line through (from1, from2) and (to1, to2) |
| `Mapping.MapEndpoints` | Assets/SmoothTilt/SmoothTilt.cs:466-469 | Map sends `from1` to `from2` and `to1` to `to2` |
| `Mapping.MapMidpoint` | Assets/SmoothTilt/SmoothTilt.cs:466-469 | Map sends the middle of the source range to the middle of the target range |
| `Mapping.MapStrictlyBetween` | Assets/SmoothTilt/SmoothTilt.cs:466-469 | a value strictly inside the source range lands strictly inside the target range, in either orientation |
| `Mapping.MapMonotone` | Assets/SmoothTilt/SmoothTilt.cs:466-469 | over an increasing source range, Map strictly increases when the target increases and strictly decreases when it decreases |
| `Mapping.MapSwapTargets` | Assets/SmoothTilt/SmoothTilt.cs:466-469 | swapping the target endpoints reflects the result: `from2 + to2 - Map(...)` |
| `Mapping.Inside` | Assets/SmoothTilt/SmoothTilt.cs:380-381 | the open-rectangle guard: a point on or beyond any edge is outside, and passing it implies `min.x < max.x` and `min.y < max.y` |
| `Mapping.MapAround` | Assets/SmoothTilt/SmoothTilt.cs:383-389 | one axis of the in-rectangle mapping: the low edge goes to `center - range` and the high edge to `center + range`, or the reverse when descending |
| `Mapping.MapAroundWithin` | Assets/SmoothTilt/SmoothTilt.cs:383-389 | a coordinate strictly inside the rectangle maps strictly inside `center ± range` when the range is positive |
| `Mapping.MapAroundReflects` | Assets/SmoothTilt/SmoothTilt.cs:383-389 | flipping the direction (an inversion flag) gives `2 * center - result` |
| `Mapping.MapAroundMonotone` | Assets/SmoothTilt/SmoothTilt.cs:383-389 | the ascending mapping strictly increases with the pointer and the descending one strictly decreases |
| `Mapping.PointerTarget` | Assets/SmoothTilt/SmoothTilt.cs:380-394 | outside the open rectangle, both angles are the center; inside, both lie strictly within `center ± range` (range > 0) or equal the center (range = 0) |
| `Mapping.PointerTargetInRange` | Assets/SmoothTilt/SmoothTilt.cs:380-394 | for any pointer and rectangle, pointer mode keeps both angles in `center ± range` when the range is not negative |
| `Mapping.PointerInversionReflects` | Assets/SmoothTilt/SmoothTilt.cs:383-389 | toggling `yInverse` reflects the yaw about `center.y` and keeps the pitch; toggling `xInverse` reflects the pitch about `center.x` and keeps the yaw |
| `Mapping.PointerMidpointCenters` | Assets/SmoothTilt/SmoothTilt.cs:383-389 | a pointer at the rectangle's middle leaves both angles at the center, under every inversion setting |
| `Mapping.OriginCentersInGlobalMode` | Assets/SmoothTilt/SmoothTilt.cs:365-394 | against the display rectangle from (0,0), the origin (the no-touch position) always yields the center, for any display size |
| `Axis.AxisStep` | Assets/SmoothTilt/SmoothTilt.cs:341-355 | one angle's tick: stays in `center ± range` (range ≥ 0); equals the center on reset; otherwise moves by exactly ±delta when that stays in range, else stops at the bound it overshot |
| `Axis.AxisTarget` | Assets/SmoothTilt/SmoothTilt.cs:334-356 | after an axis tick both angles lie in `center ± tiltRange` (tiltRange ≥ 0), and both equal the center when `resetOnNoInput` holds and both inputs are 0 |
| `Axis.AxisTargetChange` | Assets/SmoothTilt/SmoothTilt.cs:341-346 | without reset and inside the clamp, the yaw changes by `horizontalSpeed * xInput` (negated under `yInverse`) and the pitch by `-verticalSpeed * yInput` (negated under `xInverse`) |
| `Axis.HoldSaturates` | Assets/SmoothTilt/SmoothTilt.cs:341-355 | holding a steady non-negative input for n ticks from an in-range angle gives `Clamp(rot + n * delta)`: a linear climb that saturates at the upper bound |
| `Tilt.SmoothTilt.constructor` | Assets/SmoothTilt/SmoothTilt.cs:41-204 | the field initialisers: angles 0, flags off, speeds 0.5, smoothness 1, tiltRange 5 |
| `Tilt.SmoothTilt.ResetToCenterRotation` | Assets/SmoothTilt/SmoothTilt.cs:419-423 | sets `xRot`/`yRot` to the center; its frame allows no other field to change |
| `Tilt.SmoothTilt.SetCenterRotation` | Assets/SmoothTilt/SmoothTilt.cs:410-417 | the center becomes the argument, while `xRot`/`yRot` become the transform's Euler x/y; nothing else changes |
| `Tilt.SmoothTilt.SetupComponents` | Assets/SmoothTilt/SmoothTilt.cs:471-486 | records the found components; `isLocal` stays set only if a RectTransform or a Renderer exists |
| `Tilt.SmoothTilt.AxisTilt` | Assets/SmoothTilt/SmoothTilt.cs:334-356 | the new angles are `AxisTarget` of the old state; both are in range afterwards (tiltRange ≥ 0) and centered on a no-input reset |
| `Tilt.SmoothTilt.MouseTouchTilt` | Assets/SmoothTilt/SmoothTilt.cs:361-395 | the new angles are `PointerTarget` of the pointer (the origin on touch builds without a touch); outside the open rectangle they are the center; in range afterwards (tiltRange ≥ 0) |
| `Tilt.SmoothTilt.GlobalTilt` | Assets/SmoothTilt/SmoothTilt.cs:258-275 | with `useAxis`: stores the axis values and applies AxisTilt; otherwise maps the pointer against (0,0)..(width,height); in range afterwards |
| `Tilt.SmoothTilt.LocalScreenBounds` | Assets/SmoothTilt/SmoothTilt.cs:288-321 | succeeds exactly when a RectTransform or Renderer exists; the rectangle is the projected min/max of the rect's corner box, or else of the renderer's bounds, with z = 0 |
| `Tilt.SmoothTilt.LocalTilt` | Assets/SmoothTilt/SmoothTilt.cs:280-327 | with `useAxis`: `isLocal` turns false and the angles are untouched; otherwise the angles are the pointer mapping against the object's screen rectangle; fails with nothing changed when neither component exists |
| `Tilt.SmoothTilt.TiltEffect` | Assets/SmoothTilt/SmoothTilt.cs:243-253 | dispatches on `isLocal` to LocalTilt or GlobalTilt with their exact effects; the clamp invariant `InRange` holds afterwards whenever the angles were recomputed or it held before (tiltRange ≥ 0) |

## Left out

- ApplyTilt (SmoothTilt.cs:401-405) is not modelled. It builds a quaternion and slerps the transform towards it by `smoothness * Time.deltaTime`, which is engine floating-point quaternion maths. So `smoothness` is carried as a field but nothing reads it, and convergence of the smoothing is not stated.
- The Unity lifecycle hooks `Awake`, `Update` and `OnValidate` are not modelled, because the host drives them. `Awake`'s sequence is left to callers: default the camera, `SetupComponents`, then `SetCenterRotation` with the transform's angles. `Update` is a call to `TiltEffect`.
- The camera fallback to `Camera.main` is not modelled: the projection function passed in is whichever camera applies.
- Axis names (`horizontalAxis`, `verticalAxis`) are not modelled. Only the values the input system returns for them are.
- Of the touches on touch builds, only the first one's position is modelled.
- `Debug.Log`/`LogWarning`, `debugBounds` and `OnDrawGizmos` are not modelled, because they are diagnostics only.
- The `thisTransf` reference is not modelled. Its Euler angles are a parameter of `SetCenterRotation`.
- The public getter/setter properties are not modelled as members: the class fields are public, so they are read and assigned directly.
- `LocalTilt` with neither a RectTransform nor a Renderer throws a NullReferenceException at `ren.bounds`. The model returns `ok == false` with nothing changed instead.
- IEEE float rounding is ignored: all arithmetic is over unbounded reals.
- The editor-only `DrawConditionAttribute` and `DrawConditionDrawer` are not modelled. They decide what the inspector shows and do no tilt computation.
