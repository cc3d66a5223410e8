/** Pointer mode (SmoothTilt.cs, MouseTouchTilt and Map): a screen point
    strictly inside a rectangle is mapped linearly onto `center ∓ tiltRange`
    per axis; any other point sends the tilt back to the center. */
module Mapping {
  import opened Vectors

  /** Map: the linear map taking `from1` to `from2` and `to1` to `to2`.
      The point (value, r) lies on the line through (from1, from2) and
      (to1, to2). */
  function Map(value: real, from1: real, to1: real, from2: real, to2: real): (r: real)
    requires to1 != from1
    ensures (r - from2) * (to1 - from1) == (value - from1) * (to2 - from2)
  {
    (value - from1) / (to1 - from1) * (to2 - from2) + from2
  }

  /** Map sends the ends of the source range to the ends of the target range. */
  lemma MapEndpoints(from1: real, to1: real, from2: real, to2: real)
    requires to1 != from1
    ensures Map(from1, from1, to1, from2, to2) == from2
    ensures Map(to1, from1, to1, from2, to2) == to2
  {
    var d := to1 - from1;
    assert (to1 - from1) / d == 1.0;
  }

  /** Map sends the middle of the source range to the middle of the target range. */
  lemma MapMidpoint(from1: real, to1: real, from2: real, to2: real)
    requires to1 != from1
    ensures Map((from1 + to1) / 2.0, from1, to1, from2, to2) == (from2 + to2) / 2.0
  {
    var d := to1 - from1;
    assert ((from1 + to1) / 2.0 - from1) / d == 0.5 by {
      assert (from1 + to1) / 2.0 - from1 == d * 0.5;
    }
  }

  /** A value strictly inside the source range lands strictly inside the
      target range (or on its single point when the target is degenerate). */
  lemma MapStrictlyBetween(value: real, from1: real, to1: real, from2: real, to2: real)
    requires from1 < value < to1
    ensures var r := Map(value, from1, to1, from2, to2);
      (from2 < to2 ==> from2 < r < to2) &&
      (to2 < from2 ==> to2 < r < from2) &&
      (from2 == to2 ==> r == from2)
  {
    var t := (value - from1) / (to1 - from1);
    var d := to1 - from1;
    assert 0.0 < t < 1.0 by {
      assert t * d == value - from1;
      PositiveFactor(t, d);
      var u := 1.0 - t;
      var ud := u * d;
      assert ud == d - t * d;
      assert ud == to1 - value;
      PositiveFactor(u, d);
    }
    var r := Map(value, from1, to1, from2, to2);
    var w, rest := to2 - from2, 1.0 - t;
    var below, above := t * w, rest * w;
    assert r == below + from2;
    assert above == w - below;
    if from2 < to2 {
      MulPositive(t, w);
      MulPositive(rest, w);
    } else if to2 < from2 {
      var down := -w;
      var belowDown, aboveDown := t * down, rest * down;
      assert belowDown == -below && aboveDown == -above;
      MulPositive(t, down);
      MulPositive(rest, down);
    }
  }

  /** Map is strictly increasing over an increasing source range when the
      target range increases, and strictly decreasing when it decreases. */
  lemma MapMonotone(v1: real, v2: real, from1: real, to1: real, from2: real, to2: real)
    requires from1 < to1 && v1 < v2
    ensures from2 < to2 ==> Map(v1, from1, to1, from2, to2) < Map(v2, from1, to1, from2, to2)
    ensures to2 < from2 ==> Map(v1, from1, to1, from2, to2) > Map(v2, from1, to1, from2, to2)
  {
    var d := to1 - from1;
    var t1, t2 := (v1 - from1) / d, (v2 - from1) / d;
    assert t2 - t1 == (v2 - v1) / d;
    assert t1 < t2 by {
      assert (t2 - t1) * d == v2 - v1;
      PositiveFactor(t2 - t1, d);
    }
    var m2 := Map(v2, from1, to1, from2, to2);
    var m1 := Map(v1, from1, to1, from2, to2);
    assert m2 - m1 == (t2 - t1) * (to2 - from2);
    if from2 < to2 {
      MulPositive(t2 - t1, to2 - from2);
    } else if to2 < from2 {
      MulPositive(t2 - t1, from2 - to2);
    }
  }

  /** Swapping the target endpoints reflects the result about the middle of
      the target range. */
  lemma MapSwapTargets(value: real, from1: real, to1: real, from2: real, to2: real)
    requires to1 != from1
    ensures Map(value, from1, to1, to2, from2) == from2 + to2 - Map(value, from1, to1, from2, to2)
  {
    var t := (value - from1) / (to1 - from1);
    assert Map(value, from1, to1, to2, from2) == t * (from2 - to2) + to2;
    assert Map(value, from1, to1, from2, to2) == t * (to2 - from2) + from2;
  }

  /** The product of two positive reals is positive (helper for the lemmas above). */
  lemma MulPositive(a: real, b: real)
    requires a > 0.0 && b > 0.0
    ensures a * b > 0.0
  {
  }

  /** A factor whose product with a positive real is positive is itself
      positive (helper for the lemmas above). */
  lemma PositiveFactor(a: real, b: real)
    requires b > 0.0 && a * b > 0.0
    ensures a > 0.0
  {
    assert a == (a * b) / b;
  }

  /** The guard at SmoothTilt.cs:380-381: strict on every side, so a point on
      an edge is outside, and a rectangle that contains any point has
      non-zero width and height, which keeps Map away from a zero divisor. */
  function Inside(p: Vec2, min: Vec3, max: Vec3): (inside: bool)
    ensures inside ==> min.x < max.x && min.y < max.y
    ensures p.x <= min.x || max.x <= p.x || p.y <= min.y || max.y <= p.y ==> !inside
  {
    p.x > min.x && p.x < max.x && p.y > min.y && p.y < max.y
  }

  /** One axis of the in-rectangle mapping: `lo` goes to `center - range`
      and `hi` to `center + range`, or the reverse when `descending`. Yaw
      uses `descending == yInverse`; pitch uses `descending == !xInverse`. */
  function MapAround(p: real, lo: real, hi: real, center: real, range: real, descending: bool): (r: real)
    requires lo < hi
    ensures p == lo ==> r == (if descending then center + range else center - range)
    ensures p == hi ==> r == (if descending then center - range else center + range)
  {
    MapEndpoints(lo, hi, center - range, center + range);
    MapEndpoints(lo, hi, center + range, center - range);
    if descending then Map(p, lo, hi, center + range, center - range)
    else Map(p, lo, hi, center - range, center + range)
  }

  /** Inside the open interval, the mapped angle stays strictly within
      `center ± range`, and moves with `p` in the direction `descending` picks. */
  lemma MapAroundWithin(p: real, lo: real, hi: real, center: real, range: real, descending: bool)
    requires lo < p < hi && range > 0.0
    ensures center - range < MapAround(p, lo, hi, center, range, descending) < center + range
  {
    MapStrictlyBetween(p, lo, hi, center - range, center + range);
    MapStrictlyBetween(p, lo, hi, center + range, center - range);
  }

  /** Flipping the direction reflects the mapped angle about the center. */
  lemma MapAroundReflects(p: real, lo: real, hi: real, center: real, range: real, descending: bool)
    requires lo < hi
    ensures MapAround(p, lo, hi, center, range, !descending) ==
            2.0 * center - MapAround(p, lo, hi, center, range, descending)
  {
    MapSwapTargets(p, lo, hi, center - range, center + range);
  }

  /** With a positive range, the ascending map increases strictly with `p`
      and the descending one decreases strictly. */
  lemma MapAroundMonotone(p1: real, p2: real, lo: real, hi: real, center: real, range: real)
    requires lo < hi && p1 < p2 && range > 0.0
    ensures MapAround(p1, lo, hi, center, range, false) < MapAround(p2, lo, hi, center, range, false)
    ensures MapAround(p1, lo, hi, center, range, true) > MapAround(p2, lo, hi, center, range, true)
  {
    MapMonotone(p1, p2, lo, hi, center - range, center + range);
    MapMonotone(p1, p2, lo, hi, center + range, center - range);
  }

  /** The angles MouseTouchTilt leaves in `xRot`/`yRot` for pointer `p` and
      screen rectangle `min`..`max`. A point outside the open rectangle
      gives the center; a point inside maps x onto the yaw and y onto the
      pitch, the non-inverted pitch decreasing as the pointer rises. */
  function PointerTarget(p: Vec2, min: Vec3, max: Vec3, center: Vec3, range: real,
                         xInverse: bool, yInverse: bool): (t: TiltAngles)
    ensures !Inside(p, min, max) ==> t == TiltAngles(center.x, center.y)
    ensures Inside(p, min, max) && range > 0.0 ==>
      center.x - range < t.x < center.x + range && center.y - range < t.y < center.y + range
    ensures Inside(p, min, max) && range == 0.0 ==> t == TiltAngles(center.x, center.y)
  {
    if Inside(p, min, max) then
      var t := TiltAngles(MapAround(p.y, min.y, max.y, center.x, range, !xInverse),
                          MapAround(p.x, min.x, max.x, center.y, range, yInverse));
      if range > 0.0 then
        MapAroundWithin(p.y, min.y, max.y, center.x, range, !xInverse);
        MapAroundWithin(p.x, min.x, max.x, center.y, range, yInverse);
        t
      else
        MapStrictlyBetween(p.y, min.y, max.y, center.x + range, center.x - range);
        MapStrictlyBetween(p.x, min.x, max.x, center.y + range, center.y - range);
        t
    else
      TiltAngles(center.x, center.y)
  }

  /** Pointer mode keeps the tilt within `center ± range` whatever the
      pointer and rectangle, provided the range is not negative. */
  lemma PointerTargetInRange(p: Vec2, min: Vec3, max: Vec3, center: Vec3, range: real,
                             xInverse: bool, yInverse: bool)
    requires range >= 0.0
    ensures var t := PointerTarget(p, min, max, center, range, xInverse, yInverse);
      center.x - range <= t.x <= center.x + range && center.y - range <= t.y <= center.y + range
  {
  }

  /** Setting an inversion flag reflects that angle about the center and
      leaves the other angle alone, for every pointer position. */
  lemma PointerInversionReflects(p: Vec2, min: Vec3, max: Vec3, center: Vec3, range: real,
                                 xInverse: bool, yInverse: bool)
    ensures var t := PointerTarget(p, min, max, center, range, xInverse, yInverse);
      var ty := PointerTarget(p, min, max, center, range, xInverse, !yInverse);
      var tx := PointerTarget(p, min, max, center, range, !xInverse, yInverse);
      ty == TiltAngles(t.x, 2.0 * center.y - t.y) && tx == TiltAngles(2.0 * center.x - t.x, t.y)
  {
    if Inside(p, min, max) {
      MapAroundReflects(p.x, min.x, max.x, center.y, range, yInverse);
      MapAroundReflects(p.y, min.y, max.y, center.x, range, !xInverse);
    }
  }

  /** A pointer at the middle of the rectangle leaves the tilt at the
      center, whatever the inversion flags. */
  lemma PointerMidpointCenters(min: Vec3, max: Vec3, center: Vec3, range: real,
                               xInverse: bool, yInverse: bool)
    requires min.x < max.x && min.y < max.y
    ensures PointerTarget(Vec2((min.x + max.x) / 2.0, (min.y + max.y) / 2.0), min, max,
                          center, range, xInverse, yInverse) == TiltAngles(center.x, center.y)
  {
    MapMidpoint(min.x, max.x, center.y - range, center.y + range);
    MapMidpoint(min.x, max.x, center.y + range, center.y - range);
    MapMidpoint(min.y, max.y, center.x - range, center.x + range);
    MapMidpoint(min.y, max.y, center.x + range, center.x - range);
  }

  /** In global mode the rectangle starts at the screen origin, so the
      origin (where a touch build reads the pointer when nothing touches the
      screen) always resets the tilt to the center, for any display size. */
  lemma OriginCentersInGlobalMode(width: real, height: real, center: Vec3, range: real,
                                  xInverse: bool, yInverse: bool)
    ensures PointerTarget(Vec2(0.0, 0.0), Vec3(0.0, 0.0, 0.0), Vec3(width, height, 0.0),
                          center, range, xInverse, yInverse) == TiltAngles(center.x, center.y)
  {
  }
}
