/** The orbit-camera controller of the demos: a `DemoCamera` component holds an
    orbit angle, an elevation angle (`delta`), a radius and a look-at target,
    and the per-frame system `control_camera` turns left-button drags into
    changes of the two angles and rewrites the camera's transform.

    `f32` quantities are exact reals. Sine and cosine are not interpreted:
    every pose is computed from a `Trig` pair passed in by the caller, and the
    only fact about them used anywhere is the Pythagorean identity, assumed
    as a precondition where it is needed. The orientation produced by Bevy's
    `Transform::looking_at` is kept symbolic. */
module Camera {
  import opened Wrappers
  import opened Vectors

  /** Each motion event's delta is scaled by `1e-2` before it is summed. */
  const MOTION_SCALE: real := 0.01

  /** The elevation is clamped to `[-MAX_ELEVATION, MAX_ELEVATION]`. */
  const MAX_ELEVATION: real := 1.4

  /** The right-hand strip of the viewport that a press may not start in
      begins at this fraction of the viewport's width. */
  const USABLE_WIDTH_FRACTION: real := 0.95

  /** The value view of one `DemoCamera` component. `delta` is the elevation
      angle (the source's own field name). */
  datatype CameraState = CameraState(orbit: real, delta: real, radius: real, target: Vec3, rotating: bool)

  /** `DemoCamera::default()`. */
  const DEFAULT_STATE: CameraState := CameraState(0.6, 0.6, 5.0, ZERO3, false)

  /** The sine and cosine the pose formula is evaluated with. */
  datatype Trig = Trig(sin: real -> real, cos: real -> real)

  /** The one property of sine and cosine the model relies on. */
  ghost predicate Pythagorean(trig: Trig) {
    forall a :: trig.sin(a) * trig.sin(a) + trig.cos(a) * trig.cos(a) == 1.0
  }

  /** The rotation part of a transform: either whatever rotation the entity
      had before `control_camera` first wrote it, or the result of
      `looking_at(center, up)` from `eye`. */
  datatype Orientation = Unwritten | LookingAt(eye: Vec3, center: Vec3, up: Vec3)

  /** Translation and rotation of a Bevy `Transform`. */
  datatype Pose = Pose(translation: Vec3, rotation: Orientation)

  /** The physical size of a camera's viewport, in pixels (`UVec2`). */
  datatype Viewport = Viewport(width: nat, height: nat)

  /** Everything `control_camera` reads in one frame besides the cameras: the
      mouse-motion events, whether the left button was just pressed and just
      released, the primary window's cursor position and the world-to-render
      `Scale` resource. */
  datatype FrameInput = FrameInput(
    motion: seq<Vec2>,
    leftJustPressed: bool,
    leftJustReleased: bool,
    cursor: Option<Vec2>,
    scale: real)

  /** What one frame does to one camera: its new state, and whether its
      transform was rewritten. */
  datatype FrameOutcome = FrameOutcome(state: CameraState, moved: bool)

  // ---------------------------------------------------------------- motion

  /** The accumulated motion after the events, summed in arrival order as
      the loop in `control_camera` does. */
  function AccumulatedMotion(events: seq<Vec2>): Vec2 {
    if events == [] then ZERO2
    else Add2(AccumulatedMotion(events[..|events| - 1]), Scale2(events[|events| - 1], MOTION_SCALE))
  }

  /** The plain sum of the raw deltas, the reference the scaled sum is
      measured against. */
  function RawTotal(events: seq<Vec2>): Vec2 {
    if events == [] then ZERO2 else Add2(events[0], RawTotal(events[1..]))
  }

  lemma {:induction false} RawTotalAppend(events: seq<Vec2>, e: Vec2)
    ensures RawTotal(events + [e]) == Add2(RawTotal(events), e)
  {
    if events != [] {
      assert (events + [e])[1..] == events[1..] + [e];
      RawTotalAppend(events[1..], e);
    }
  }

  /** The accumulated motion is the sum of all deltas times `1e-2`; with no
      events it is zero. */
  lemma {:induction false} AccumulatedMotionIsScaledTotal(events: seq<Vec2>)
    ensures AccumulatedMotion(events) == Scale2(RawTotal(events), MOTION_SCALE)
    ensures events == [] ==> AccumulatedMotion(events) == ZERO2
  {
    if events != [] {
      var init := events[..|events| - 1];
      var last := events[|events| - 1];
      assert events == init + [last];
      AccumulatedMotionIsScaledTotal(init);
      RawTotalAppend(init, last);
    }
  }

  /** The first loop of `control_camera`. */
  method AccumulateMotion(events: seq<Vec2>) returns (motion: Vec2)
    ensures motion == AccumulatedMotion(events)
  {
    motion := ZERO2;
    for i := 0 to |events|
      invariant motion == AccumulatedMotion(events[..i])
    {
      assert events[..i + 1][..i] == events[..i];
      motion := Add2(motion, Scale2(events[i], MOTION_SCALE));
    }
    assert events[..|events|] == events;
  }

  // ---------------------------------------------------------------- clamp

  /** `f32::min`, for the operands the model admits (no NaN): the smaller
      operand. */
  function Min(a: real, b: real): (r: real)
    ensures r <= a && r <= b
    ensures r == a || r == b
  {
    if a < b then a else b
  }

  /** `f32::max`, for the operands the model admits (no NaN): the larger
      operand. */
  function Max(a: real, b: real): (r: real)
    ensures r >= a && r >= b
    ensures r == a || r == b
  {
    if a > b then a else b
  }

  ghost predicate ElevationInBounds(s: CameraState) {
    -MAX_ELEVATION <= s.delta <= MAX_ELEVATION
  }

  /** `delta.min(1.4)` followed by `.max(-1.4)`. */
  function ClampElevation(e: real): (r: real)
    ensures -MAX_ELEVATION <= r <= MAX_ELEVATION
    ensures -MAX_ELEVATION <= e <= MAX_ELEVATION ==> r == e
    ensures e > MAX_ELEVATION ==> r == MAX_ELEVATION
    ensures e < -MAX_ELEVATION ==> r == -MAX_ELEVATION
  {
    Max(Min(e, MAX_ELEVATION), -MAX_ELEVATION)
  }

  // ---------------------------------------------------------------- gating

  /** Whether a left press may start a drag. Only when the camera has a
      viewport and the window knows the cursor position is anything checked;
      the comparisons are non-strict, so the boundary itself is usable. */
  function PressAccepted(viewport: Option<Viewport>, cursor: Option<Vec2>): (r: bool)
    ensures r <==> (viewport.None? || cursor.None?
                    || (cursor.value.x <= USABLE_WIDTH_FRACTION * viewport.value.width as real
                        && cursor.value.y <= viewport.value.height as real))
  {
    match viewport
    case None => true
    case Some(size) =>
      match cursor
      case None => true
      case Some(pos) =>
        !(pos.x > USABLE_WIDTH_FRACTION * size.width as real || pos.y > size.height as real)
  }

  /** A press outside the usable region: the camera is skipped for the frame. */
  predicate SkipsFrame(input: FrameInput, viewport: Option<Viewport>) {
    input.leftJustPressed && !PressAccepted(viewport, input.cursor)
  }

  // ---------------------------------------------------------------- one frame

  /** What one pass of the second loop of `control_camera` does to one
      camera's state. */
  function Step(s: CameraState, input: FrameInput, viewport: Option<Viewport>): (r: FrameOutcome)
    // radius and target are never written
    ensures r.state.radius == s.radius && r.state.target == s.target
    // a press outside the usable region skips the camera: nothing changes,
    // not even on a release in the same frame
    ensures SkipsFrame(input, viewport) ==> r.state == s && !r.moved
    // an accepted press starts a drag unless a release follows it
    ensures input.leftJustPressed && PressAccepted(viewport, input.cursor) && !input.leftJustReleased
            ==> r.state.rotating
    // a release (handled after the press) ends a drag
    ensures !SkipsFrame(input, viewport) && input.leftJustReleased ==> !r.state.rotating
    // with no button event the drag state carries over
    ensures !input.leftJustPressed && !input.leftJustReleased ==> r.state.rotating == s.rotating
    // the transform is rewritten exactly when the camera ends the frame rotating
    ensures r.moved <==> !SkipsFrame(input, viewport) && r.state.rotating
    ensures r.moved ==>
              r.state.orbit == s.orbit + AccumulatedMotion(input.motion).x
              && r.state.delta == ClampElevation(s.delta + AccumulatedMotion(input.motion).y)
              && ElevationInBounds(r.state)
    ensures !r.moved ==> r.state.orbit == s.orbit && r.state.delta == s.delta
    // motion is ignored while not dragging
    ensures !input.leftJustPressed && !s.rotating ==> r.state == s && !r.moved
    ensures ElevationInBounds(s) ==> ElevationInBounds(r.state)
  {
    if SkipsFrame(input, viewport) then
      FrameOutcome(s, false)
    else
      var rotating := (input.leftJustPressed || s.rotating) && !input.leftJustReleased;
      if rotating then
        var motion := AccumulatedMotion(input.motion);
        var s' := s.(orbit := s.orbit + motion.x,
                     delta := ClampElevation(s.delta + motion.y),
                     rotating := true);
        FrameOutcome(s', true)
      else
        FrameOutcome(s.(rotating := false), false)
  }

  // ---------------------------------------------------------------- pose

  /** The camera's position: on the sphere of radius `radius` around the
      scaled target, at azimuth `orbit` and elevation `delta`. */
  function Translation(s: CameraState, scale: real, trig: Trig): (r: Vec3)
    // the offset from the scaled target is the spherical-coordinate vector
    ensures Sub3(r, Scale3(s.target, scale))
            == Vec3(s.radius * trig.cos(s.orbit) * trig.cos(s.delta),
                    s.radius * trig.sin(s.delta),
                    s.radius * trig.sin(s.orbit) * trig.cos(s.delta))
  {
    Vec3(s.radius * trig.cos(s.orbit) * trig.cos(s.delta) + s.target.x * scale,
         s.radius * trig.sin(s.delta) + s.target.y * scale,
         s.radius * trig.sin(s.orbit) * trig.cos(s.delta) + s.target.z * scale)
  }

  /** `get_transform`: the translation, looking at the scaled target with
      the y axis up. */
  function GetTransform(s: CameraState, scale: real, trig: Trig): (r: Pose)
    ensures r.translation == Translation(s, scale, trig)
    // the camera looks from its own position at the scaled target, y up
    ensures r.rotation == LookingAt(r.translation, Scale3(s.target, scale), UNIT_Y)
  {
    var eye := Translation(s, scale, trig);
    Pose(eye, LookingAt(eye, Scale3(s.target, scale), UNIT_Y))
  }

  /** Wherever the angles are, the camera's squared distance from the scaled
      target is `radius * radius`, so its distance is `|radius|`. */
  lemma TranslationOnSphere(s: CameraState, scale: real, trig: Trig)
    requires Pythagorean(trig)
    ensures var offset := Sub3(Translation(s, scale, trig), Scale3(s.target, scale));
            Dot3(offset, offset) == s.radius * s.radius
  {
    var so, co := trig.sin(s.orbit), trig.cos(s.orbit);
    var se, ce := trig.sin(s.delta), trig.cos(s.delta);
    var r := s.radius;
    var offset := Sub3(Translation(s, scale, trig), Scale3(s.target, scale));
    assert offset == Vec3(r * co * ce, r * se, r * so * ce);
    assert so * so + co * co == 1.0;
    assert se * se + ce * ce == 1.0;
  }

  /** The pose depends on the angles, the radius, the target and the scale
      only: the drag flag has no part in it. */
  lemma PoseIgnoresDragState(s: CameraState, rotating: bool, scale: real, trig: Trig)
    ensures GetTransform(s.(rotating := rotating), scale, trig) == GetTransform(s, scale, trig)
  {
  }

  // ---------------------------------------------------------------- components

  /** The `DemoCamera` component. */
  class DemoCamera {
    var orbit: real
    var delta: real
    var radius: real
    var target: Vec3
    var rotating: bool

    function State(): CameraState
      reads this
    {
      CameraState(orbit, delta, radius, target, rotating)
    }

    /** `DemoCamera::default()`. */
    constructor Default()
      ensures State() == DEFAULT_STATE
      ensures ElevationInBounds(State()) && !rotating
    {
      orbit, delta, radius, target, rotating := 0.6, 0.6, 5.0, ZERO3, false;
    }

    /** `DemoCamera::new`: the given radius and target, every other field
        from the default. */
    constructor New(radius: real, target: Vec3)
      ensures State() == DEFAULT_STATE.(radius := radius, target := target)
      ensures ElevationInBounds(State()) && !rotating
    {
      this.orbit, this.delta, this.radius, this.target, this.rotating := 0.6, 0.6, radius, target, false;
    }
  }

  /** The translation and rotation of a camera entity's `Transform`. */
  class Transform {
    var translation: Vec3
    var rotation: Orientation

    function Current(): Pose
      reads this
    {
      Pose(translation, rotation)
    }
  }

  /** One item of the query `(&mut DemoCamera, &mut Transform, &Camera)`; of the
      `Camera` only the viewport is read. */
  datatype QueryItem = QueryItem(camera: DemoCamera, transform: Transform, viewport: Option<Viewport>)

  /** The components of distinct entities are distinct objects. */
  predicate DistinctComponents(query: seq<QueryItem>) {
    forall i, j :: 0 <= i < j < |query| ==>
      query[i].camera != query[j].camera && query[i].transform != query[j].transform
  }

  /** One camera entity after one frame: the camera holds `Step`'s new
      state, and the transform is `get_transform` of that state if `Step`
      says it moved, and what it was before otherwise. */
  ghost predicate FrameApplied(before: CameraState, poseBefore: Pose, after: CameraState, poseAfter: Pose,
                               input: FrameInput, viewport: Option<Viewport>, trig: Trig)
  {
    var out := Step(before, input, viewport);
    after == out.state
    && poseAfter == if out.moved then GetTransform(after, input.scale, trig) else poseBefore
  }

  /** One pass of the second loop of `control_camera`, for one camera entity,
      with the frame's accumulated motion. The early `return` is the source's
      `continue`. */
  method UpdateCamera(camera: DemoCamera, transform: Transform, viewport: Option<Viewport>,
                      input: FrameInput, motion: Vec2, trig: Trig)
    requires motion == AccumulatedMotion(input.motion)
    modifies camera, transform
    ensures FrameApplied(old(camera.State()), old(transform.Current()), camera.State(), transform.Current(),
                         input, viewport, trig)
  {
    if input.leftJustPressed {
      // only do something if the press lands inside the usable viewport
      if viewport.Some? {
        var size := viewport.value;
        if input.cursor.Some? {
          var pos := input.cursor.value;
          if pos.x > USABLE_WIDTH_FRACTION * size.width as real || pos.y > size.height as real {
            return;
          }
        }
      }
      camera.rotating := true;
    }
    if input.leftJustReleased {
      camera.rotating := false;
    }
    if camera.rotating {
      camera.orbit := camera.orbit + motion.x;
      camera.delta := camera.delta + motion.y;
      camera.delta := Min(camera.delta, MAX_ELEVATION);
      camera.delta := Max(camera.delta, -MAX_ELEVATION);
      var t := GetTransform(camera.State(), input.scale, trig);
      transform.translation := t.translation;
      transform.rotation := t.rotation;
    }
  }

  /** `control_camera`: sums the frame's motion once, then applies `Step`
      with that same motion to every camera of the query, rewriting the
      transform of each camera that ends the frame rotating and leaving the
      others alone. */
  method ControlCamera(input: FrameInput, trig: Trig, query: seq<QueryItem>)
    requires DistinctComponents(query)
    modifies set i | 0 <= i < |query| :: query[i].camera
    modifies set i | 0 <= i < |query| :: query[i].transform
    ensures forall i :: 0 <= i < |query| ==>
              FrameApplied(old(query[i].camera.State()), old(query[i].transform.Current()),
                           query[i].camera.State(), query[i].transform.Current(),
                           input, query[i].viewport, trig)
  {
    var motion := AccumulateMotion(input.motion);
    for k := 0 to |query|
      invariant forall i :: 0 <= i < k ==>
                  FrameApplied(old(query[i].camera.State()), old(query[i].transform.Current()),
                               query[i].camera.State(), query[i].transform.Current(),
                               input, query[i].viewport, trig)
      invariant forall i :: k <= i < |query| ==>
                  query[i].camera.State() == old(query[i].camera.State())
                  && query[i].transform.Current() == old(query[i].transform.Current())
    {
      UpdateCamera(query[k].camera, query[k].transform, query[k].viewport, input, motion, trig);
    }
  }
}
