# Orbit camera controller of the AtomECS demos

The demos render an atom-cooling simulation with Bevy. Each demo camera carries
a `DemoCamera` component: an `orbit` angle about the vertical axis, an
elevation angle (`delta` in the source), a `radius`, a look-at `target` and a
`rotating` flag. Once per frame, the system `control_camera` does three things:

- it sums the frame's mouse-motion events, each scaled by `1e-2`;
- for each camera, a left press starts a drag unless the cursor is outside the
  usable part of that camera's viewport, in which case the camera is skipped
  for the frame;
- a left release ends a drag, and a camera that is still dragging adds the
  motion to its angles, clamps the elevation to `[-1.4, 1.4]` and rewrites its
  transform from the closed-form spherical formula of `get_transform`.

The model has four modules:

- `Wrappers` (wrappers.dfy) holds `Option`.
- `Vectors` (vectors.dfy) holds the `Vec2`/`Vec3` arithmetic, over exact reals.
- `Camera` (camera.dfy) holds the state, the motion sum, the clamp, the press
  gate, the per-camera frame function `Step`, the pose, the `DemoCamera` and
  `Transform` classes and the `ControlCamera` method.
- `Frames` (frames.dfy) holds properties of one camera over a run of frames.

The imperative parts follow the source's shape. `AccumulateMotion` is the
summing loop, proved equal to the specification function `AccumulatedMotion`.
`UpdateCamera` is one pass of the camera loop, working on the `DemoCamera` and
`Transform` objects in place; its early `return` is the source's `continue`.
`ControlCamera` computes the motion once and runs `UpdateCamera` over the
query. Both methods are proved against `Step`, a function on the value view
`CameraState` of a camera, and `Step`'s contract and the `Frames` lemmas state
what the source promises.

Inputs the source reads from Bevy become explicit parameters, bundled in
`FrameInput`:

- the mouse-motion events become a sequence of deltas;
- `just_pressed(Left)` and `just_released(Left)` become two booleans;
- the primary window's cursor position becomes an `Option`;
- the `Scale` resource becomes a real number.

Each query item carries the camera's viewport size as an `Option`. Sine and
cosine are passed in as a `Trig` pair of functions and are otherwise
uninterpreted. The only fact about them used is the Pythagorean identity,
which is a precondition of `TranslationOnSphere`. The rotation written by
`looking_at` is kept symbolic, as `LookingAt(eye, center, up)`.

On three points the model follows the code where a reader might expect otherwise:

- The press gate also passes when the window knows no cursor position, not
  only when the camera has no viewport.
- A release is not unconditional: a camera skipped by an out-of-region press
  ignores a release in the same frame.
- The radius is not kept positive by anything. `new` accepts any radius, and
  the model places no requirement on it.

## Model

| member | source | states |
|---|---|---|
| Camera.AccumulateMotion | src/camera.rs:42-45 | the loop's result is the arrival-order sum of every motion delta scaled by `1e-2` (`AccumulatedMotion`) |
| Camera.AccumulatedMotionIsScaledTotal | src/camera.rs:42-45 | the accumulated motion equals `1e-2` times the plain sum of all raw deltas, and is zero when there are no events |
| Camera.Min | src/camera.rs:68 | `f32::min` on non-NaN operands: the result is at most both operands and is one of them |
| Camera.Max | src/camera.rs:69 | `f32::max` on non-NaN operands: the result is at least both operands and is one of them |
| Camera.ClampElevation | src/camera.rs:68-69 | `min(1.4)` then `max(-1.4)` always yields a value in `[-1.4, 1.4]`, leaves a value already in range unchanged, and maps values above or below the range to the nearer bound |
| Camera.PressAccepted | src/camera.rs:48-57 | a press starts a drag if and only if the camera has no viewport, or no cursor position is known, or the cursor satisfies `x <= 0.95*width` and `y <= height` (non-strict) |
| Camera.Step | src/camera.rs:47-73 | one frame for one camera: radius and target never change; an out-of-region press leaves the whole state unchanged and ignores a release; an accepted press without release starts a drag; a release that is not skipped always ends it; with no button event the drag state carries over; the transform is rewritten exactly when the camera ends the frame rotating and was not skipped, and then orbit becomes `old orbit + motion.x` (unbounded) and the elevation the clamped sum, inside `[-1.4, 1.4]`; otherwise both angles are untouched; a camera not dragging and not pressed ignores all motion; the elevation bound is preserved |
| Camera.Translation | src/camera.rs:19-21 | the translation's offset from `target * scale` is `(r·cos(orbit)·cos(delta), r·sin(delta), r·sin(orbit)·cos(delta))`, the closed form of `get_transform` |
| Camera.GetTransform | src/camera.rs:18-23 | the pose's translation is that closed form, and its rotation is `looking_at` from that translation toward `target * scale` with the y axis up (kept symbolic as `LookingAt(eye, target * scale, Y)`) |
| Camera.TranslationOnSphere | src/camera.rs:18-22 | given `sin² + cos² = 1`, the translation lies at squared distance `radius²` from `target * scale` (so at distance the absolute value of `radius`), for all angles |
| Camera.PoseIgnoresDragState | src/camera.rs:18-22 | the pose depends only on orbit, elevation, radius, target and scale: changing the `rotating` flag does not change it |
| Camera.DemoCamera.Default | src/camera.rs:29-33 | a default camera has orbit 0.6, elevation 0.6, radius 5.0, target at the origin and is not rotating |
| Camera.DemoCamera.New | src/camera.rs:25-27 | `new(radius, target)` sets exactly radius and target and keeps every other default |
| Camera.UpdateCamera | src/camera.rs:47-73 | one pass of the camera loop (`FrameApplied`): the `DemoCamera` object holds `Step`'s new state, and the `Transform` is `get_transform` of that state when `Step` says it moved, otherwise untouched |
| Camera.ControlCamera | src/camera.rs:35-75 | every camera of the query satisfies `FrameApplied` with the same motion sum: it is updated by `Step`, and its transform is rewritten from its new state exactly when it moved and is unchanged otherwise |
| Frames.RunKeepsElevationInBounds | src/camera.rs:65-69 | over any sequence of frames, with motion of any size, an elevation inside `[-1.4, 1.4]` stays inside it |
| Frames.NewCameraElevationAlwaysInBounds | src/camera.rs:25-33 | a camera made by `default()` or `new` keeps its elevation in `[-1.4, 1.4]` after any number of frames |
| Frames.RunKeepsRadiusAndTarget | src/camera.rs:65-73 | over any sequence of frames, radius and target stay as created |
| Frames.RunWithoutPressIsIdle | src/camera.rs:48-73 | a camera that is not dragging, over frames with no left press, stays exactly as it is whatever the motion and releases |
| Frames.DragAccumulatesOrbit | src/camera.rs:65-66 | during a drag with no button events the orbit is the start orbit plus the sum of all frames' horizontal motion, with no wrapping, and the drag continues |
| Frames.DefaultDragStep | src/camera.rs:29-73 | from the default camera, an accepted press with motion summing to (0.1, 0) moves the orbit from 0.6 to 0.7, keeps the elevation at 0.6 and starts the drag |
| Frames.DefaultDragScenario | src/camera.rs:29-73 | the same for one motion event (10, 0) at scale 70 inside a 1000 by 800 viewport |

## Left out

- `get_quaternion` (src/camera.rs:15-17) is not modelled. It composes Bevy `Quat` rotations and is never called by `control_camera`.
- The orientation from `Transform::looking_at` is not computed. It is kept as a symbolic `LookingAt(eye, target * scale, Y)` value.
- `f32` rounding is not modelled: every quantity is an exact real, including `1e-2`, `0.95` and the `u32`-to-`f32` casts. NaN and infinite inputs are outside the model, so `Min`/`Max` are plain real minimum and maximum.
- Real sine and cosine are not modelled. They are parameters, and only the Pythagorean identity is assumed about them.
- The `unwrap()` of the primary window (src/camera.rs:51) is not modelled. It panics when there is no primary window; the model always has a window, whose cursor position may be absent.
- `Transform`'s `scale` field is not modelled. `control_camera` never touches it.
- Camera.ControlCamera requires the query's components to be pairwise distinct objects. Bevy's query guarantees this for distinct entities.
- src/lasers.rs, src/atoms.rs, src/lib.rs and the example programs are not part of this model. They spawn meshes, materials and UI and call into the simulation engine. The colour mapping `get_color` that src/lasers.rs imports is not defined in the files available.
