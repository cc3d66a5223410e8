/** The SmoothTilt component (SmoothTilt.cs): the rotation state it carries
    from tick to tick, the mode flags it corrects by itself, and the
    dispatch between local/global and pointer/axis tilting. What the engine
    supplies on a tick (axis values, pointer, display size, world corners,
    renderer bounds, camera projection) comes in as an EngineFrame. */
module Tilt {
  import opened Vectors
  import opened ScreenBounds
  import opened Mapping
  import opened Axis

  datatype Option<T> = None | Some(value: T)

  /** Where MouseTouchTilt reads the pointer: Input.mousePosition on desktop
      builds, or on Android/iOS the first touch, if the screen is touched. */
  datatype PointerInput = Mouse(position: Vec2) | Touch(firstTouch: Option<Vec2>)

  /** The position MouseTouchTilt tests; with no touch it is the origin. */
  function PointerPosition(pointer: PointerInput): Vec2 {
    match pointer
    case Mouse(p) => p
    case Touch(Some(p)) => p
    case Touch(None) => Vec2(0.0, 0.0)
  }

  /** The engine readings one tick consumes. */
  datatype EngineFrame = EngineFrame(
    horizontalAxis: real,            // Input.GetAxisRaw(horizontalAxis)
    verticalAxis: real,              // Input.GetAxisRaw(verticalAxis)
    pointer: PointerInput,
    renderingWidth: nat,             // Display.main.renderingWidth
    renderingHeight: nat,            // Display.main.renderingHeight
    rectWorldCorners: seq<Vec3>,     // RectTransform.GetWorldCorners
    rendererBounds: Bounds,          // Renderer.bounds
    worldToScreen: Vec3 -> Vec3)     // Camera.WorldToScreenPoint

  /** The whole display, which global pointer mode maps against. */
  function DisplayMax(frame: EngineFrame): Vec3 {
    Vec3(frame.renderingWidth as real, frame.renderingHeight as real, 0.0)
  }

  class SmoothTilt {
    // rotation state carried between ticks
    var xRot: real
    var yRot: real
    var xInput: real
    var yInput: real
    var centerRotation: Vec3

    // whether GetComponent found a RectTransform / a Renderer
    var hasRect: bool
    var hasRenderer: bool

    // settings (public properties of the component)
    var isLocal: bool
    var xInverse: bool
    var yInverse: bool
    var useAxis: bool
    var resetOnNoInput: bool
    var horizontalSpeed: real
    var verticalSpeed: real
    var smoothness: real
    var tiltRange: real

    /** The field initialisers of the component. */
    constructor ()
      ensures xRot == 0.0 && yRot == 0.0 && xInput == 0.0 && yInput == 0.0
      ensures centerRotation == Vec3(0.0, 0.0, 0.0) && !hasRect && !hasRenderer
      ensures !isLocal && !xInverse && !yInverse && !useAxis && !resetOnNoInput
      ensures horizontalSpeed == 0.5 && verticalSpeed == 0.5 && smoothness == 1.0 && tiltRange == 5.0
    {
      xRot, yRot, xInput, yInput := 0.0, 0.0, 0.0, 0.0;
      centerRotation := Vec3(0.0, 0.0, 0.0);
      hasRect, hasRenderer := false, false;
      isLocal, xInverse, yInverse, useAxis, resetOnNoInput := false, false, false, false, false;
      horizontalSpeed, verticalSpeed, smoothness, tiltRange := 0.5, 0.5, 1.0, 5.0;
    }

    /** The current target pitch and yaw. */
    function Angles(): TiltAngles
      reads this
    {
      TiltAngles(xRot, yRot)
    }

    /** Both angles lie within `tiltRange` of the center. */
    predicate InRange()
      reads this
    {
      centerRotation.x - tiltRange <= xRot <= centerRotation.x + tiltRange &&
      centerRotation.y - tiltRange <= yRot <= centerRotation.y + tiltRange
    }

    /** What AxisTilt makes of the current state for these inputs. */
    function AxisOutcome(xIn: real, yIn: real): TiltAngles
      reads this
    {
      AxisTarget(Angles(), centerRotation, xIn, yIn, horizontalSpeed, verticalSpeed,
                 xInverse, yInverse, resetOnNoInput, tiltRange)
    }

    /** What MouseTouchTilt makes of the current settings for this pointer
        and screen rectangle. */
    function PointerOutcome(pointer: PointerInput, minToScreen: Vec3, maxToScreen: Vec3): TiltAngles
      reads this
    {
      PointerTarget(PointerPosition(pointer), minToScreen, maxToScreen, centerRotation,
                    tiltRange, xInverse, yInverse)
    }

    /** The box LocalTilt projects: the RectTransform's corners when there is
        one, otherwise the Renderer's bounds. */
    function LocalBounds(frame: EngineFrame): Bounds
      reads this
      requires |frame.rectWorldCorners| == 4
    {
      if hasRect then RectBounds(frame.rectWorldCorners) else frame.rendererBounds
    }

    /** ResetToCenterRotation: both angles back to the center; nothing else changes. */
    method ResetToCenterRotation()
      modifies this`xRot, this`yRot
      ensures xRot == centerRotation.x && yRot == centerRotation.y
    {
      xRot := centerRotation.x;
      yRot := centerRotation.y;
    }

    /** SetCenterRotation: the new center is `newRotation`, but the stored
        angles are taken from the transform's current Euler angles. */
    method SetCenterRotation(newRotation: Vec3, eulerAngles: Vec3)
      modifies this`centerRotation, this`xRot, this`yRot
      ensures centerRotation == newRotation
      ensures xRot == eulerAngles.x && yRot == eulerAngles.y
    {
      centerRotation := newRotation;
      yRot := eulerAngles.y;
      xRot := eulerAngles.x;
    }

    /** SetupComponents: records which components exist, and falls back to
        global mode when local mode has neither to measure. */
    method SetupComponents(rectFound: bool, rendererFound: bool)
      modifies this`hasRect, this`hasRenderer, this`isLocal
      ensures hasRect == rectFound && hasRenderer == rendererFound
      ensures isLocal == (old(isLocal) && (rectFound || rendererFound))
    {
      hasRect := rectFound;
      hasRenderer := rendererFound;
      if isLocal {
        if !hasRenderer && !hasRect {
          isLocal := false;
        }
      }
    }

    /** AxisTilt: steer, optionally reset, clamp. */
    method AxisTilt(xIn: real, yIn: real)
      modifies this`xRot, this`yRot
      ensures Angles() == old(AxisOutcome(xIn, yIn))
      ensures tiltRange >= 0.0 ==> InRange()
      ensures NoInputReset(resetOnNoInput, xIn, yIn) && tiltRange >= 0.0 ==>
        xRot == centerRotation.x && yRot == centerRotation.y
    {
      ghost var before := Angles();
      ghost var reset := NoInputReset(resetOnNoInput, xIn, yIn);
      var yawStep, pitchStep := horizontalSpeed * xIn, verticalSpeed * yIn;

      if yInverse {
        yRot := yRot - yawStep;
      } else {
        yRot := yRot + yawStep;
      }
      if xInverse {
        xRot := xRot + pitchStep;
      } else {
        xRot := xRot - pitchStep;
      }

      if resetOnNoInput && xIn == 0.0 && yIn == 0.0 {
        ResetToCenterRotation();
      }
      assert yRot == (if reset then centerRotation.y else Steer(before.y, yawStep, yInverse));
      assert xRot == (if reset then centerRotation.x else Steer(before.x, pitchStep, !xInverse));

      yRot := Clamp(yRot, centerRotation.y - tiltRange, centerRotation.y + tiltRange);
      xRot := Clamp(xRot, centerRotation.x - tiltRange, centerRotation.x + tiltRange);
      assert yRot == AxisStep(before.y, yawStep, yInverse, reset, centerRotation.y, tiltRange);
      assert xRot == AxisStep(before.x, pitchStep, !xInverse, reset, centerRotation.x, tiltRange);
    }

    /** MouseTouchTilt: map the pointer onto the angles when it is strictly
        inside the rectangle, otherwise reset. On touch builds with no touch
        it resets first and then tests the origin. */
    method MouseTouchTilt(minToScreen: Vec3, maxToScreen: Vec3, pointer: PointerInput)
      modifies this`xRot, this`yRot
      ensures Angles() == old(PointerOutcome(pointer, minToScreen, maxToScreen))
      ensures !Inside(PointerPosition(pointer), minToScreen, maxToScreen) ==>
        xRot == centerRotation.x && yRot == centerRotation.y
      ensures tiltRange >= 0.0 ==> InRange()
    {
      var mousePos: Vec2;
      match pointer {
        case Mouse(p) =>
          mousePos := p;
        case Touch(touch) =>
          mousePos := Vec2(0.0, 0.0);
          if touch.Some? {
            mousePos := touch.value;
          } else {
            ResetToCenterRotation();
          }
      }

      if mousePos.x > minToScreen.x && mousePos.x < maxToScreen.x &&
         mousePos.y > minToScreen.y && mousePos.y < maxToScreen.y
      {
        if yInverse {
          yRot := Map(mousePos.x, minToScreen.x, maxToScreen.x, centerRotation.y + tiltRange, centerRotation.y - tiltRange);
        } else {
          yRot := Map(mousePos.x, minToScreen.x, maxToScreen.x, centerRotation.y - tiltRange, centerRotation.y + tiltRange);
        }
        if xInverse {
          xRot := Map(mousePos.y, minToScreen.y, maxToScreen.y, centerRotation.x - tiltRange, centerRotation.x + tiltRange);
        } else {
          xRot := Map(mousePos.y, minToScreen.y, maxToScreen.y, centerRotation.x + tiltRange, centerRotation.x - tiltRange);
        }
      } else {
        ResetToCenterRotation();
      }
    }

    /** GlobalTilt: axis steering when `useAxis`, otherwise the pointer
        mapped against the whole display. */
    method GlobalTilt(frame: EngineFrame)
      modifies this`xRot, this`yRot, this`xInput, this`yInput
      ensures useAxis ==> xInput == frame.horizontalAxis && yInput == frame.verticalAxis
      ensures useAxis ==> Angles() == old(AxisOutcome(frame.horizontalAxis, frame.verticalAxis))
      ensures !useAxis ==> xInput == old(xInput) && yInput == old(yInput)
      ensures !useAxis ==>
        Angles() == old(PointerOutcome(frame.pointer, Vec3(0.0, 0.0, 0.0), DisplayMax(frame)))
      ensures tiltRange >= 0.0 ==> InRange()
    {
      if useAxis {
        xInput := frame.horizontalAxis;
        yInput := frame.verticalAxis;
        AxisTilt(xInput, yInput);
      } else {
        MouseTouchTilt(Vec3(0.0, 0.0, 0.0), DisplayMax(frame), frame.pointer);
      }
    }

    /** The screen rectangle LocalTilt maps against: the RectTransform's
        world corners reduced to a box, or else the Renderer's bounds, with
        the box's corners projected and reduced again. `ok` is false when
        there is neither component (a null reference in the engine). */
    method LocalScreenBounds(frame: EngineFrame) returns (ok: bool, minToScreen: Vec3, maxToScreen: Vec3)
      requires |frame.rectWorldCorners| == 4
      ensures ok == (hasRect || hasRenderer)
      ensures ok ==> minToScreen == ScreenMin(LocalBounds(frame), frame.worldToScreen)
      ensures ok ==> maxToScreen == ScreenMax(LocalBounds(frame), frame.worldToScreen)
      ensures ok ==> minToScreen.z == 0.0 && maxToScreen.z == 0.0
    {
      minToScreen := Vec3(0.0, 0.0, 0.0);
      maxToScreen := Vec3(0.0, 0.0, 0.0);

      if hasRect {
        var corners := new Vec3[4](k requires 0 <= k < 4 => frame.rectWorldCorners[k]);
        assert corners[..] == frame.rectWorldCorners;
        var minCorner, maxCorner := WorldCornerBounds(corners);
        var bounds := FromMinMax(minCorner, maxCorner);
        minToScreen, maxToScreen := FindMinAndMaxOfBounds(bounds, frame.worldToScreen);
        ok := true;
      } else if hasRenderer {
        minToScreen, maxToScreen := FindMinAndMaxOfBounds(frame.rendererBounds, frame.worldToScreen);
        ok := true;
      } else {
        ok := false;
      }
    }

    /** LocalTilt: with `useAxis` set it switches itself to global mode and
        leaves the angles alone; otherwise it maps the pointer against the
        screen rectangle of the object. `ok` is false when the object has
        neither a RectTransform nor a Renderer, where the engine would stop
        at a null reference before anything changes. */
    method LocalTilt(frame: EngineFrame) returns (ok: bool)
      requires |frame.rectWorldCorners| == 4
      modifies this`isLocal, this`xRot, this`yRot
      ensures ok == (useAxis || hasRect || hasRenderer)
      ensures isLocal == (old(isLocal) && !useAxis)
      ensures useAxis || !ok ==> Angles() == old(Angles())
      ensures !useAxis && ok ==>
        Angles() == old(PointerOutcome(frame.pointer,
                                       ScreenMin(LocalBounds(frame), frame.worldToScreen),
                                       ScreenMax(LocalBounds(frame), frame.worldToScreen)))
      ensures !useAxis && ok && tiltRange >= 0.0 ==> InRange()
    {
      if useAxis {
        isLocal := false;
        return true;
      }

      var minToScreen, maxToScreen;
      ok, minToScreen, maxToScreen := LocalScreenBounds(frame);
      if !ok {
        return;
      }

      MouseTouchTilt(minToScreen, maxToScreen, frame.pointer);
    }

    /** TiltEffect: local or global tilting by the `isLocal` flag. Once
        ApplyTilt is set aside, this is the whole per-tick update. */
    method TiltEffect(frame: EngineFrame) returns (ok: bool)
      requires |frame.rectWorldCorners| == 4
      modifies this`isLocal, this`xRot, this`yRot, this`xInput, this`yInput
      ensures ok == !(old(isLocal) && !useAxis && !hasRect && !hasRenderer)
      ensures isLocal == (old(isLocal) && !useAxis)
      ensures old(isLocal) ==> xInput == old(xInput) && yInput == old(yInput)
      ensures old(isLocal) && (useAxis || !ok) ==> Angles() == old(Angles())
      ensures old(isLocal) && !useAxis && ok ==>
        Angles() == old(PointerOutcome(frame.pointer,
                                       ScreenMin(LocalBounds(frame), frame.worldToScreen),
                                       ScreenMax(LocalBounds(frame), frame.worldToScreen)))
      ensures !old(isLocal) && useAxis ==>
        Angles() == old(AxisOutcome(frame.horizontalAxis, frame.verticalAxis))
      ensures !old(isLocal) && !useAxis ==>
        Angles() == old(PointerOutcome(frame.pointer, Vec3(0.0, 0.0, 0.0), DisplayMax(frame)))
      ensures tiltRange >= 0.0 && (old(InRange()) || !old(isLocal) || (!useAxis && ok)) ==> InRange()
    {
      if isLocal {
        ok := LocalTilt(frame);
      } else {
        GlobalTilt(frame);
        ok := true;
      }
    }
  }
}
