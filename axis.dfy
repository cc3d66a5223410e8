/** Axis mode (SmoothTilt.cs, AxisTilt): each tick adds `speed * input` to
    an angle, with a sign chosen by the inversion flag. It may snap back to
    the center when there is no input, and it always clamps the angle to
    `center ± tiltRange`. */
module Axis {
  import opened Vectors

  /** The angle after adding (or, when `subtract`, taking away) `delta`. */
  function Steer(rot: real, delta: real, subtract: bool): real {
    if subtract then rot - delta else rot + delta
  }

  /** The reset condition at SmoothTilt.cs:348: both inputs exactly zero
      with `resetOnNoInput` on. */
  function NoInputReset(resetOnNoInput: bool, xInput: real, yInput: real): bool {
    resetOnNoInput && xInput == 0.0 && yInput == 0.0
  }

  /** One angle's update in AxisTilt: steer by `delta`, snap to `center`
      when `reset`, then clamp to `center ± range`. */
  function AxisStep(rot: real, delta: real, subtract: bool, reset: bool,
                    center: real, range: real): (r: real)
    ensures range >= 0.0 ==> center - range <= r <= center + range
    ensures reset && range >= 0.0 ==> r == center
    ensures !reset && center - range <= Steer(rot, delta, subtract) <= center + range ==>
      r == (if subtract then rot - delta else rot + delta)
    ensures !reset && range >= 0.0 && Steer(rot, delta, subtract) > center + range ==> r == center + range
    ensures !reset && range >= 0.0 && Steer(rot, delta, subtract) < center - range ==> r == center - range
  {
    Clamp(if reset then center else Steer(rot, delta, subtract), center - range, center + range)
  }

  /** The angles AxisTilt leaves for axis inputs `xInput` (horizontal) and
      `yInput` (vertical). The horizontal input steers the yaw, added unless
      `yInverse`; the vertical input steers the pitch, taken away unless
      `xInverse`. */
  function AxisTarget(rot: TiltAngles, center: Vec3, xInput: real, yInput: real,
                      horizontalSpeed: real, verticalSpeed: real,
                      xInverse: bool, yInverse: bool, resetOnNoInput: bool,
                      range: real): (t: TiltAngles)
    ensures range >= 0.0 ==>
      center.x - range <= t.x <= center.x + range && center.y - range <= t.y <= center.y + range
    ensures NoInputReset(resetOnNoInput, xInput, yInput) && range >= 0.0 ==>
      t == TiltAngles(center.x, center.y)
  {
    var reset := NoInputReset(resetOnNoInput, xInput, yInput);
    TiltAngles(AxisStep(rot.x, verticalSpeed * yInput, !xInverse, reset, center.x, range),
               AxisStep(rot.y, horizontalSpeed * xInput, yInverse, reset, center.y, range))
  }

  /** Inside the clamp, inversion flips the sign of the change: the yaw
      moves by `horizontalSpeed * xInput` (negated under `yInverse`) and the
      pitch by `-verticalSpeed * yInput` (negated under `xInverse`). */
  lemma AxisTargetChange(rot: TiltAngles, center: Vec3, xInput: real, yInput: real,
                         horizontalSpeed: real, verticalSpeed: real,
                         xInverse: bool, yInverse: bool, resetOnNoInput: bool, range: real)
    requires !NoInputReset(resetOnNoInput, xInput, yInput)
    ensures var t := AxisTarget(rot, center, xInput, yInput, horizontalSpeed, verticalSpeed,
                                xInverse, yInverse, resetOnNoInput, range);
      var dy := if yInverse then -(horizontalSpeed * xInput) else horizontalSpeed * xInput;
      var dx := if xInverse then verticalSpeed * yInput else -(verticalSpeed * yInput);
      (center.y - range <= rot.y + dy <= center.y + range ==> t.y == rot.y + dy) &&
      (center.x - range <= rot.x + dx <= center.x + range ==> t.x == rot.x + dx)
  {
  }

  /** The yaw after holding the same input for `n` ticks, starting at `rot`
      and without reset (the pitch evolves the same way). */
  function Hold(rot: real, delta: real, n: nat, center: real, range: real): real
  {
    if n == 0 then rot else AxisStep(Hold(rot, delta, n - 1, center, range), delta, false, false, center, range)
  }

  /** Where `n` unclamped pushes of `delta` take `rot`: `rot + n * delta`. */
  function Pushed(rot: real, delta: real, n: nat): (r: real)
    ensures r == rot + (n as real) * delta
  {
    if n == 0 then rot else Pushed(rot, delta, n - 1) + delta
  }

  /** Holding a steady non-negative push moves the angle linearly until it
      saturates at the upper bound: after `n` ticks it is the clamp of
      `rot + n * delta`. So the tilt is a steered integrator, not a direct map. */
  lemma {:induction false} HoldSaturates(rot: real, delta: real, n: nat, center: real, range: real)
    requires delta >= 0.0 && center - range <= rot <= center + range
    ensures Hold(rot, delta, n, center, range) == Clamp(Pushed(rot, delta, n), center - range, center + range)
    ensures Pushed(rot, delta, n) >= rot
  {
    if n > 0 {
      HoldSaturates(rot, delta, n - 1, center, range);
      ClampThenPush(Pushed(rot, delta, n - 1), delta, center - range, center + range);
    }
  }

  /** Pushing a clamped value up by `delta` and clamping again is the same
      as clamping the pushed value, when the value was not below the range. */
  lemma ClampThenPush(value: real, delta: real, lo: real, hi: real)
    requires delta >= 0.0 && lo <= value && lo <= hi
    ensures Clamp(Clamp(value, lo, hi) + delta, lo, hi) == Clamp(value + delta, lo, hi)
  {
  }
}
