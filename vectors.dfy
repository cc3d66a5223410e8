/** The engine value types the tilt component computes with: Unity's
    Vector2 and Vector3, and the Mathf helpers applied to them. Coordinates
    are unbounded reals, so float rounding is not modelled. */
module Vectors {

  /** Mathf.Min: the first argument unless the second is strictly smaller. */
  function Lesser(a: real, b: real): (r: real)
    ensures r <= a && r <= b
    ensures r == a || r == b
  {
    if a < b then a else b
  }

  /** Mathf.Max: the first argument unless the second is strictly larger. */
  function Greater(a: real, b: real): (r: real)
    ensures r >= a && r >= b
    ensures r == a || r == b
  {
    if a > b then a else b
  }

  /** Mathf.Clamp: a value below `min` becomes `min`, otherwise one above
      `max` becomes `max`. With `min > max` the result need not lie in any
      interval, which the first postcondition reflects. */
  function Clamp(value: real, min: real, max: real): (r: real)
    ensures min <= max ==> min <= r <= max
    ensures min <= value <= max ==> r == value
    ensures value < min ==> r == min
    ensures min <= value && max < value ==> r == max
  {
    if value < min then min else if value > max then max else value
  }

  datatype Vec2 = Vec2(x: real, y: real) {
    /** Vector2.Min: componentwise Mathf.Min. */
    function Min(other: Vec2): Vec2 {
      Vec2(Lesser(x, other.x), Lesser(y, other.y))
    }

    /** Vector2.Max: componentwise Mathf.Max. */
    function Max(other: Vec2): Vec2 {
      Vec2(Greater(x, other.x), Greater(y, other.y))
    }
  }

  datatype Vec3 = Vec3(x: real, y: real, z: real) {
    /** Vector3.Min: componentwise Mathf.Min. */
    function Min(other: Vec3): Vec3 {
      Vec3(Lesser(x, other.x), Lesser(y, other.y), Lesser(z, other.z))
    }

    /** Vector3.Max: componentwise Mathf.Max. */
    function Max(other: Vec3): Vec3 {
      Vec3(Greater(x, other.x), Greater(y, other.y), Greater(z, other.z))
    }

    /** The implicit Vector3-to-Vector2 conversion, which drops z. */
    function ToVec2(): Vec2 {
      Vec2(x, y)
    }
  }

  /** The pitch (`xRot`) and yaw (`yRot`) the component tilts towards. */
  datatype TiltAngles = TiltAngles(x: real, y: real)

  /** The componentwise minimum that a loop `min = Vector2.Min(min, v)`
      reaches over `pts`, started from `pts[0]`. */
  function MinOf2(pts: seq<Vec2>): (m: Vec2)
    requires |pts| > 0
    ensures forall k :: 0 <= k < |pts| ==> m.x <= pts[k].x && m.y <= pts[k].y
    ensures exists k :: 0 <= k < |pts| && m.x == pts[k].x
    ensures exists k :: 0 <= k < |pts| && m.y == pts[k].y
  {
    if |pts| == 1 then pts[0] else MinOf2(pts[..|pts| - 1]).Min(pts[|pts| - 1])
  }

  /** The componentwise maximum that a loop `max = Vector2.Max(max, v)`
      reaches over `pts`, started from `pts[0]`. */
  function MaxOf2(pts: seq<Vec2>): (m: Vec2)
    requires |pts| > 0
    ensures forall k :: 0 <= k < |pts| ==> pts[k].x <= m.x && pts[k].y <= m.y
    ensures exists k :: 0 <= k < |pts| && m.x == pts[k].x
    ensures exists k :: 0 <= k < |pts| && m.y == pts[k].y
  {
    if |pts| == 1 then pts[0] else MaxOf2(pts[..|pts| - 1]).Max(pts[|pts| - 1])
  }

  /** The componentwise minimum that a loop `min = Vector3.Min(min, v)`
      reaches over `pts`, started from `pts[0]`. */
  function MinOf3(pts: seq<Vec3>): (m: Vec3)
    requires |pts| > 0
    ensures forall k :: 0 <= k < |pts| ==> m.x <= pts[k].x && m.y <= pts[k].y && m.z <= pts[k].z
    ensures exists k :: 0 <= k < |pts| && m.x == pts[k].x
    ensures exists k :: 0 <= k < |pts| && m.y == pts[k].y
    ensures exists k :: 0 <= k < |pts| && m.z == pts[k].z
  {
    if |pts| == 1 then pts[0] else MinOf3(pts[..|pts| - 1]).Min(pts[|pts| - 1])
  }

  /** The componentwise maximum that a loop `max = Vector3.Max(max, v)`
      reaches over `pts`, started from `pts[0]`. */
  function MaxOf3(pts: seq<Vec3>): (m: Vec3)
    requires |pts| > 0
    ensures forall k :: 0 <= k < |pts| ==> pts[k].x <= m.x && pts[k].y <= m.y && pts[k].z <= m.z
    ensures exists k :: 0 <= k < |pts| && m.x == pts[k].x
    ensures exists k :: 0 <= k < |pts| && m.y == pts[k].y
    ensures exists k :: 0 <= k < |pts| && m.z == pts[k].z
  {
    if |pts| == 1 then pts[0] else MaxOf3(pts[..|pts| - 1]).Max(pts[|pts| - 1])
  }
}
