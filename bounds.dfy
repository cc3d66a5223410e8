/** The screen rectangle that local mode maps the pointer against: the
    axis-aligned box around an object, its eight corners projected through
    the camera, and the componentwise min/max of the projections. The
    camera projection (Camera.WorldToScreenPoint) is an engine call and is
    passed in as a function. */
module ScreenBounds {
  import opened Vectors

  /** Unity's Bounds: an axis-aligned box given by its center and half-size. */
  datatype Bounds = Bounds(center: Vec3, extents: Vec3) {
    /** Bounds.min */
    function Min(): Vec3 {
      Vec3(center.x - extents.x, center.y - extents.y, center.z - extents.z)
    }

    /** Bounds.max */
    function Max(): Vec3 {
      Vec3(center.x + extents.x, center.y + extents.y, center.z + extents.z)
    }

    /** The eight corners `center ± extents`, in the order in which
        FindMinAndMaxOfBounds projects them: x varies fastest, then z, then y.
        Every combination of a low or high coordinate per axis occurs. */
    function Corners(): (r: seq<Vec3>)
      ensures |r| == 8 && r[0] == Min() && r[7] == Max()
      ensures forall k :: 0 <= k < 8 ==>
        (r[k].x == Min().x || r[k].x == Max().x) &&
        (r[k].y == Min().y || r[k].y == Max().y) &&
        (r[k].z == Min().z || r[k].z == Max().z)
      ensures forall hx: bool, hy: bool, hz: bool ::
        r[CornerIndex(hx, hy, hz)] ==
          Vec3(if hx then Max().x else Min().x,
               if hy then Max().y else Min().y,
               if hz then Max().z else Min().z)
    {
      var lo, hi := Min(), Max();
      [Vec3(lo.x, lo.y, lo.z), Vec3(hi.x, lo.y, lo.z),
       Vec3(lo.x, lo.y, hi.z), Vec3(hi.x, lo.y, hi.z),
       Vec3(lo.x, hi.y, lo.z), Vec3(hi.x, hi.y, lo.z),
       Vec3(lo.x, hi.y, hi.z), Vec3(hi.x, hi.y, hi.z)]
    }
  }

  /** Where the corner with a high x (`hx`), y (`hy`) and z (`hz`)
      coordinate stands in Bounds.Corners. */
  function CornerIndex(hx: bool, hy: bool, hz: bool): (k: nat)
    ensures k < 8
  {
    (if hx then 1 else 0) + (if hz then 2 else 0) + (if hy then 4 else 0)
  }

  /** Bounds.SetMinMax: `extents = (max - min) * 0.5`, `center = min + extents`.
      The box it builds has exactly the requested min and max. */
  function FromMinMax(min: Vec3, max: Vec3): (b: Bounds)
    ensures b.Min() == min && b.Max() == max
  {
    var ext := Vec3((max.x - min.x) * 0.5, (max.y - min.y) * 0.5, (max.z - min.z) * 0.5);
    Bounds(Vec3(min.x + ext.x, min.y + ext.y, min.z + ext.z), ext)
  }

  /** The box LocalTilt builds around a RectTransform's world corners. */
  function RectBounds(corners: seq<Vec3>): Bounds
    requires |corners| > 0
  {
    FromMinMax(MinOf3(corners), MaxOf3(corners))
  }

  /** The eight corners of `b` in screen space, each reduced to a Vector2. */
  function ScreenPoints(b: Bounds, worldToScreen: Vec3 -> Vec3): (pts: seq<Vec2>)
    ensures |pts| == 8
  {
    var c := b.Corners();
    seq(8, k requires 0 <= k < 8 => worldToScreen(c[k]).ToVec2())
  }

  /** The `_minToScreen` result of FindMinAndMaxOfBounds. */
  function ScreenMin(b: Bounds, worldToScreen: Vec3 -> Vec3): Vec3 {
    var m := MinOf2(ScreenPoints(b, worldToScreen));
    Vec3(m.x, m.y, 0.0)
  }

  /** The `_maxToScreen` result of FindMinAndMaxOfBounds. */
  function ScreenMax(b: Bounds, worldToScreen: Vec3 -> Vec3): Vec3 {
    var m := MaxOf2(ScreenPoints(b, worldToScreen));
    Vec3(m.x, m.y, 0.0)
  }

  /** The loop in LocalTilt that finds the smallest and largest
      RectTransform world corner, componentwise. */
  method WorldCornerBounds(corners: array<Vec3>) returns (minCorner: Vec3, maxCorner: Vec3)
    requires corners.Length > 0
    ensures minCorner == MinOf3(corners[..]) && maxCorner == MaxOf3(corners[..])
    ensures forall k :: 0 <= k < corners.Length ==>
      minCorner.x <= corners[k].x <= maxCorner.x &&
      minCorner.y <= corners[k].y <= maxCorner.y &&
      minCorner.z <= corners[k].z <= maxCorner.z
  {
    minCorner := corners[0];
    maxCorner := corners[0];
    for i := 0 to corners.Length
      invariant minCorner == MinOf3(corners[..if i == 0 then 1 else i])
      invariant maxCorner == MaxOf3(corners[..if i == 0 then 1 else i])
    {
      var v := corners[i];
      assert corners[..i + 1][..i] == corners[..i];
      minCorner := minCorner.Min(v);
      maxCorner := maxCorner.Max(v);
    }
    assert corners[..corners.Length] == corners[..];
  }

  /** FindMinAndMaxOfBounds: projects the eight corners of `bounds`, then
      reduces them to the componentwise min and max, returned with z = 0. */
  method FindMinAndMaxOfBounds(bounds: Bounds, worldToScreen: Vec3 -> Vec3)
    returns (minToScreen: Vec3, maxToScreen: Vec3)
    ensures minToScreen == ScreenMin(bounds, worldToScreen)
    ensures maxToScreen == ScreenMax(bounds, worldToScreen)
    ensures minToScreen.z == 0.0 && maxToScreen.z == 0.0
    ensures var pts := ScreenPoints(bounds, worldToScreen);
      (forall k :: 0 <= k < 8 ==>
         minToScreen.x <= pts[k].x <= maxToScreen.x && minToScreen.y <= pts[k].y <= maxToScreen.y) &&
      (exists k :: 0 <= k < 8 && minToScreen.x == pts[k].x) &&
      (exists k :: 0 <= k < 8 && minToScreen.y == pts[k].y) &&
      (exists k :: 0 <= k < 8 && maxToScreen.x == pts[k].x) &&
      (exists k :: 0 <= k < 8 && maxToScreen.y == pts[k].y)
  {
    var c := bounds.Corners();
    var extentPoints := new Vec2[] [
      worldToScreen(c[0]).ToVec2(), worldToScreen(c[1]).ToVec2(),
      worldToScreen(c[2]).ToVec2(), worldToScreen(c[3]).ToVec2(),
      worldToScreen(c[4]).ToVec2(), worldToScreen(c[5]).ToVec2(),
      worldToScreen(c[6]).ToVec2(), worldToScreen(c[7]).ToVec2()];
    ghost var pts := ScreenPoints(bounds, worldToScreen);
    assert extentPoints[..] == pts;

    var min := extentPoints[0];
    var max := extentPoints[0];
    for i := 0 to extentPoints.Length
      invariant min == MinOf2(pts[..if i == 0 then 1 else i])
      invariant max == MaxOf2(pts[..if i == 0 then 1 else i])
    {
      var v := extentPoints[i];
      assert pts[..i + 1][..i] == pts[..i];
      min := min.Min(v);
      max := max.Max(v);
    }
    assert pts[..8] == pts;

    minToScreen := Vec3(min.x, min.y, 0.0);
    maxToScreen := Vec3(max.x, max.y, 0.0);
  }
}
