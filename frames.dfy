/** `control_camera` runs once per frame; these are the properties of one
    camera over a whole run of frames. */
module Frames {
  import opened Wrappers
  import opened Vectors
  import opened Camera

  /** One frame as one camera sees it: the frame's input and the camera's
      viewport at that frame (the viewport may be resized between frames). */
  datatype Frame = Frame(input: FrameInput, viewport: Option<Viewport>)

  /** The camera's state after the frames, in order. */
  function Run(s: CameraState, frames: seq<Frame>): CameraState
    decreases |frames|
  {
    if frames == [] then s
    else Run(Step(s, frames[0].input, frames[0].viewport).state, frames[1..])
  }

  /** The orbit motion of the frames, summed. */
  function OrbitTotal(frames: seq<Frame>): real
    decreases |frames|
  {
    if frames == [] then 0.0
    else AccumulatedMotion(frames[0].input.motion).x + OrbitTotal(frames[1..])
  }

  /** The elevation stays within its clamp bounds, however large the motion. */
  lemma {:induction false} RunKeepsElevationInBounds(s: CameraState, frames: seq<Frame>)
    requires ElevationInBounds(s)
    ensures ElevationInBounds(Run(s, frames))
    decreases |frames|
  {
    if frames != [] {
      RunKeepsElevationInBounds(Step(s, frames[0].input, frames[0].viewport).state, frames[1..]);
    }
  }

  /** So a camera made by `default()` or `new` never leaves the bounds. */
  lemma NewCameraElevationAlwaysInBounds(radius: real, target: Vec3, frames: seq<Frame>)
    ensures ElevationInBounds(Run(DEFAULT_STATE, frames))
    ensures ElevationInBounds(Run(DEFAULT_STATE.(radius := radius, target := target), frames))
  {
    RunKeepsElevationInBounds(DEFAULT_STATE, frames);
    RunKeepsElevationInBounds(DEFAULT_STATE.(radius := radius, target := target), frames);
  }

  /** Radius and target are the ones the camera was created with. */
  lemma {:induction false} RunKeepsRadiusAndTarget(s: CameraState, frames: seq<Frame>)
    ensures Run(s, frames).radius == s.radius && Run(s, frames).target == s.target
    decreases |frames|
  {
    if frames != [] {
      RunKeepsRadiusAndTarget(Step(s, frames[0].input, frames[0].viewport).state, frames[1..]);
    }
  }

  /** Without a left press, a camera that is not being dragged ignores every
      motion and release: nothing about it changes. */
  lemma {:induction false} RunWithoutPressIsIdle(s: CameraState, frames: seq<Frame>)
    requires !s.rotating
    requires forall i :: 0 <= i < |frames| ==> !frames[i].input.leftJustPressed
    ensures Run(s, frames) == s
    decreases |frames|
  {
    if frames != [] {
      RunWithoutPressIsIdle(Step(s, frames[0].input, frames[0].viewport).state, frames[1..]);
    }
  }

  /** During a drag with no further button events, the orbit angle is the
      starting angle plus all the horizontal motion, with no bound and no
      wrapping, and the drag goes on. */
  lemma {:induction false} DragAccumulatesOrbit(s: CameraState, frames: seq<Frame>)
    requires s.rotating
    requires forall i :: 0 <= i < |frames| ==>
               !frames[i].input.leftJustPressed && !frames[i].input.leftJustReleased
    ensures Run(s, frames).orbit == s.orbit + OrbitTotal(frames)
    ensures Run(s, frames).rotating
    decreases |frames|
  {
    if frames != [] {
      DragAccumulatesOrbit(Step(s, frames[0].input, frames[0].viewport).state, frames[1..]);
    }
  }

  /** A single motion event contributes its delta times `1e-2`. */
  lemma OneEventMotion(e: Vec2)
    ensures AccumulatedMotion([e]) == Scale2(e, MOTION_SCALE)
  {
  }

  /** A default camera, a press inside a 1000 by 800 viewport and motion
      that sums to (0.1, 0): the drag starts, the orbit moves from 0.6 to 0.7
      and the elevation stays at 0.6. */
  lemma DefaultDragStep(events: seq<Vec2>)
    requires AccumulatedMotion(events) == Vec2(0.1, 0.0)
    ensures var input := FrameInput(events, true, false, Some(Vec2(100.0, 100.0)), 70.0);
            var out := Step(DEFAULT_STATE, input, Some(Viewport(1000, 800)));
            out.moved && out.state.orbit == 0.7 && out.state.delta == 0.6 && out.state.rotating
  {
  }

  /** The same with the single motion event (10, 0) at scale 70. */
  lemma DefaultDragScenario()
    ensures var input := FrameInput([Vec2(10.0, 0.0)], true, false, Some(Vec2(100.0, 100.0)), 70.0);
            var out := Step(DEFAULT_STATE, input, Some(Viewport(1000, 800)));
            out.moved && out.state.orbit == 0.7 && out.state.delta == 0.6 && out.state.rotating
  {
    OneEventMotion(Vec2(10.0, 0.0));
    DefaultDragStep([Vec2(10.0, 0.0)]);
  }
}
