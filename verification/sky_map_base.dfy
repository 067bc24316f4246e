/**
 * The geometry of a sky map (jephem.tools.SkyMapBase): the eye matrix, the
 * zoom, the eye orientation, the disk radius in pixels, and the maps between
 * screen and pixel coordinates.
 */
module SkyMapBases {
  import opened Wrappers
  import opened MathLib
  import Constants

  // Rotation axes and senses.
  const X: int := 0
  const Y: int := 1
  const Z: int := 2
  const PLUS: int := 3
  const MINUS: int := 4

  /** Java's int division, truncating toward zero. */
  function JavaDiv(a: int, b: int): (q: int)
    requires b > 0
    ensures a >= 0 ==> q == a / b
    ensures a < 0 ==> q == -((-a) / b)
  {
    if a >= 0 then a / b else -((-a) / b)
  }

  /** A (int) cast of a double, truncating toward zero (NaN and saturation left out). */
  function Truncate(z: real): (n: int)
    ensures z >= 0.0 ==> n as real <= z < n as real + 1.0
    ensures z < 0.0 ==> n as real - 1.0 < z <= n as real
  {
    if z >= 0.0 then z.Floor else -((-z).Floor)
  }

  /** The disk radius at zoom 1: half the smaller side (integer halving), never negative. */
  function BaseRadius(w: int, h: int): (r0: int)
    ensures r0 >= 0
    ensures r0 == 0 || (2 * r0 <= w && 2 * r0 <= h)
  {
    var r0 := if JavaDiv(h, 2) <= JavaDiv(w, 2) then JavaDiv(h, 2) else JavaDiv(w, 2);
    if r0 < 0 then 0 else r0
  }

  /** The radius calcRHW stores: the truncated zoom times the radius at zoom 1. */
  function Radius(zoom: real, w: int, h: int): int
  {
    Truncate(zoom) * BaseRadius(w, h)
  }

  /** Any zoom strictly between -1 and 1 truncates to 0, so the disk vanishes. */
  lemma SmallZoomHasNoDisk(zoom: real, w: int, h: int)
    requires -1.0 < zoom < 1.0
    ensures Radius(zoom, w, h) == 0
  {
  }

  /**
   * For zooms from 1 to 2 the disk has the zoom-1 radius and fits the panel;
   * any non-negative zoom gives a radius that is a whole multiple of it.
   */
  lemma RadiusFits(zoom: real, w: int, h: int)
    requires zoom >= 0.0
    ensures Radius(zoom, w, h) == zoom.Floor * BaseRadius(w, h) >= 0
    ensures 1.0 <= zoom < 2.0 ==> var r := Radius(zoom, w, h); r == 0 || (2 * r <= w && 2 * r <= h)
  {
    var k := zoom.Floor;
    assert k >= 0;
    assert Truncate(zoom) == k;
    MultiplyNonNegative(k, BaseRadius(w, h));
    if 1.0 <= zoom < 2.0 {
      assert k == 1;
    }
  }

  lemma MultiplyNonNegative(a: int, b: int)
    requires a >= 0 && b >= 0
    ensures a * b >= 0
  {
  }

  /** A larger non-negative zoom never gives a smaller disk. */
  lemma {:induction false} RadiusMonotonic(z1: real, z2: real, w: int, h: int)
    requires 0.0 <= z1 <= z2
    ensures Radius(z1, w, h) <= Radius(z2, w, h)
  {
    var r0 := BaseRadius(w, h);
    var k1, k2 := z1.Floor, z2.Floor;
    assert k1 <= k2;
    assert Truncate(z1) == k1 && Truncate(z2) == k2;
    MultiplyNonNegative(k2 - k1, r0);
    assert k2 * r0 - k1 * r0 == (k2 - k1) * r0;
  }

  /**
   * The radius as calcRHW evidently means it: the cast applied to the
   * product of the zoom and the zoom-1 radius, not to the zoom alone.
   */
  function RadiusIntended(zoom: real, w: int, h: int): int
  {
    Truncate(zoom * BaseRadius(w, h) as real)
  }

  /**
   * As written, a zoom-out step below 1 removes the disk however large the
   * panel: at zoom 0.5 on a 100 x 100 panel the radius is 0 instead of 25.
   */
  lemma HalfZoomLosesDisk()
    ensures BaseRadius(100, 100) == 50
    ensures Radius(0.5, 100, 100) == 0
    ensures RadiusIntended(0.5, 100, 100) == 25
  {
  }

  /**
   * With the cast on the product, a non-negative zoom scales the zoom-1
   * radius to within one pixel, keeps a disk whenever the scaled radius
   * reaches one pixel, and a larger zoom never gives a smaller disk.
   */
  lemma RadiusIntendedScales(z1: real, z2: real, w: int, h: int)
    requires 0.0 <= z1 <= z2
    ensures var r0, r := BaseRadius(w, h) as real, RadiusIntended(z1, w, h);
      r as real <= z1 * r0 < r as real + 1.0
    ensures z1 * BaseRadius(w, h) as real >= 1.0 ==> RadiusIntended(z1, w, h) >= 1
    ensures RadiusIntended(z1, w, h) <= RadiusIntended(z2, w, h)
  {
    var r0 := BaseRadius(w, h) as real;
    ScaleMonotonic(z1, z2, r0);
    TruncateMonotonic(z1 * r0, z2 * r0);
    assert RadiusIntended(z1, w, h) == Truncate(z1 * r0);
    assert RadiusIntended(z2, w, h) == Truncate(z2 * r0);
  }

  lemma ScaleMonotonic(z1: real, z2: real, r0: real)
    requires 0.0 <= z1 <= z2 && r0 >= 0.0
    ensures 0.0 <= z1 * r0 <= z2 * r0
  {
    assert z2 * r0 - z1 * r0 == (z2 - z1) * r0;
  }

  lemma TruncateMonotonic(a: real, b: real)
    requires 0.0 <= a <= b
    ensures 0 <= Truncate(a) <= Truncate(b)
  {
  }

  /** The rotation rotateEye applies about axis X, Y or Z; None for any other axis. */
  function RotationMatrix(m: Lib, direction: int, angle: real): (r: Option<Mat3>)
    ensures r.Some? <==> direction == X || direction == Y || direction == Z
  {
    if direction == X then Some(m.rotX(angle))
    else if direction == Y then Some(m.rotY(angle))
    else if direction == Z then Some(m.rotZ(angle))
    else None
  }

  /**
   * getCartesianCoords (SkyMapBase.java:217-224): the unit vector at
   * longitude theta and latitude phi, in radians.
   */
  function CartesianCoords(m: Lib, theta: real, phi: real): (v: Vec3)
    ensures v.x0.Some? && v.x1.Some? && v.x2.Some?
  {
    Vec3(Some(m.cos(phi) * m.cos(theta)), Some(m.cos(phi) * m.sin(theta)), Some(m.sin(phi)))
  }

  /** With sin^2 + cos^2 = 1, getCartesianCoords gives a vector of norm 1. */
  lemma CartesianCoordsUnit(m: Lib, theta: real, phi: real)
    requires Sound(m)
    ensures var v := CartesianCoords(m, theta, phi);
      v.x0.value * v.x0.value + v.x1.value * v.x1.value + v.x2.value * v.x2.value == 1.0
  {
    var ct, st, cp, sp := m.cos(theta), m.sin(theta), m.cos(phi), m.sin(phi);
    assert st * st + ct * ct == 1.0;
    assert sp * sp + cp * cp == 1.0;
    assert (cp * ct) * (cp * ct) + (cp * st) * (cp * st) == (cp * cp) * (ct * ct + st * st);
  }

  /**
   * screenToPixel (SkyMapBase.java:273-277): scale by the radius, flip both
   * axes, and shift by half the panel size, halved as ints.
   */
  function ScreenToPixel(v: Vec3, w: int, h: int, r: int): (p: Vec3)
    ensures p.x2 == Some(0.0)
  {
    Vec3(Plus(Times(Neg(v.x0), Some(r as real)), Some(JavaDiv(w, 2) as real)),
         Plus(Times(Neg(v.x1), Some(r as real)), Some(JavaDiv(h, 2) as real)),
         Some(0.0))
  }

  /**
   * pixelToScreen (SkyMapBase.java:283-287): the reverse map, halving the
   * panel size as doubles. A zero radius gives non-finite coordinates.
   */
  function PixelToScreen(p: Vec3, w: int, h: int, r: int): (v: Vec3)
    ensures v.x2 == Some(0.0)
    ensures r == 0 ==> v.x0 == None && v.x1 == None
  {
    Vec3(Div(Plus(Neg(p.x0), Some(w as real / 2.0)), Some(r as real)),
         Div(Plus(Neg(p.x1), Some(h as real / 2.0)), Some(r as real)),
         Some(0.0))
  }

  /** (-(-x*r + a) + b) / r is x exactly when a == b, for a non-zero r. */
  lemma ShiftBack(x: real, r: real, a: real, b: real)
    requires r != 0.0
    ensures (-((-x) * r + a) + b) / r == x <==> a == b
  {
    assert -((-x) * r + a) + b == x * r + (b - a);
    assert (x * r + (b - a)) / r == x + (b - a) / r;
    if (b - a) / r == 0.0 {
      assert b - a == ((b - a) / r) * r;
    }
  }

  /** The integer half of n equals its real half exactly when n is even. */
  lemma HalfExact(n: int)
    ensures JavaDiv(n, 2) as real == n as real / 2.0 <==> n % 2 == 0
  {
    if n >= 0 {
      assert n == 2 * (n / 2) + n % 2;
    } else {
      assert -n == 2 * ((-n) / 2) + (-n) % 2;
    }
  }

  /**
   * pixelToScreen undoes screenToPixel on the screen plane (z = 0) exactly
   * when the radius is non-zero and both panel sides are even: an odd side
   * leaves the point half a pixel off.
   */
  lemma PixelScreenRoundTrip(v: Vec3, w: int, h: int, r: int)
    requires r != 0 && v.x0.Some? && v.x1.Some? && v.x2 == Some(0.0)
    ensures PixelToScreen(ScreenToPixel(v, w, h, r), w, h, r) == v <==> w % 2 == 0 && h % 2 == 0
  {
    var rr := r as real;
    var x, y := v.x0.value, v.x1.value;
    var aw, bw, ah, bh := JavaDiv(w, 2) as real, w as real / 2.0, JavaDiv(h, 2) as real, h as real / 2.0;
    var p := ScreenToPixel(v, w, h, r);
    assert p.x0.value == (-x) * rr + aw && p.x1.value == (-y) * rr + ah;
    var back := PixelToScreen(p, w, h, r);
    assert back.x0 == Some((-((-x) * rr + aw) + bw) / rr);
    assert back.x1 == Some((-((-y) * rr + ah) + bh) / rr);
    ShiftBack(x, rr, aw, bw);
    ShiftBack(y, rr, ah, bh);
    HalfExact(w);
    HalfExact(h);
  }

  /**
   * The geometric state of a sky map. The panel size is read by calcRHW;
   * here it is the argument of CalcRHW.
   */
  class SkyMapBase {
    var skyFrame: int
    var zoom: real
    var em: Mat3
    var theta0: real
    var phi0: real
    var w: int
    var h: int
    var r: int

    /**
     * The constructor (SkyMapBase.java:80-93): zoom 1, the equatorial frame,
     * the identity turned by -90 degrees about X, and orientation (0, 0).
     */
    constructor (m: Lib)
      ensures zoom == 1.0 && skyFrame == Constants.FRAME_EQUATORIAL
      ensures em == m.mulMat(m.rotX(Constants.ToRadians(-90.0)), IDENTITY)
      ensures theta0 == 0.0 && phi0 == 0.0
      ensures w == 0 && h == 0 && r == 0
    {
      zoom := 1.0;
      skyFrame := Constants.FRAME_EQUATORIAL;
      em := IDENTITY;
      w, h, r := 0, 0, 0;
      theta0, phi0 := 0.0, 0.0;
      new;
      var rotated := RotateEye(X, -90.0, m);
      theta0, phi0 := 0.0, 0.0;
    }

    /** setEyeMatrix. */
    method SetEyeMatrix(matrix: Mat3)
      modifies this
      ensures em == matrix
      ensures zoom == old(zoom) && skyFrame == old(skyFrame) && theta0 == old(theta0) && phi0 == old(phi0)
      ensures w == old(w) && h == old(h) && r == old(r)
    {
      em := matrix;
    }

    /** setZoom (SkyMapBase.java:109-112): the disk radius changes only at the next calcRHW. */
    method SetZoom(z: real)
      modifies this
      ensures zoom == z
      ensures em == old(em) && skyFrame == old(skyFrame) && theta0 == old(theta0) && phi0 == old(phi0)
      ensures w == old(w) && h == old(h) && r == old(r)
    {
      zoom := z;
    }

    /**
     * rotateEye (SkyMapBase.java:119-136): the increment is in degrees; the
     * rotation about the given axis is applied on the left of the eye
     * matrix. Any other direction is refused and nothing changes.
     */
    method RotateEye(direction: int, increment: real, m: Lib) returns (res: Result<()>)
      modifies this
      ensures res.Ok? <==> direction == X || direction == Y || direction == Z
      ensures res.Err? ==> res.error == IllegalArgument && em == old(em)
      ensures res.Ok? ==> em == m.mulMat(RotationMatrix(m, direction, Constants.ToRadians(increment)).value, old(em))
      ensures zoom == old(zoom) && skyFrame == old(skyFrame) && theta0 == old(theta0) && phi0 == old(phi0)
      ensures w == old(w) && h == old(h) && r == old(r)
    {
      var angle := Constants.ToRadians(increment);
      var rot := RotationMatrix(m, direction, angle);
      if rot.None? {
        return Err(IllegalArgument);
      }
      em := m.mulMat(rot.value, em);
      return Ok(());
    }

    /**
     * setEyeOrientation (SkyMapBase.java:143-147): the degree arguments are
     * stored in radians, so converting them back gives them unchanged.
     */
    method SetEyeOrientation(theta: real, phi: real)
      modifies this
      ensures Constants.ToDegrees(theta0) == theta && Constants.ToDegrees(phi0) == phi
      ensures theta0 * 180.0 == theta * Constants.PI && phi0 * 180.0 == phi * Constants.PI
      ensures em == old(em) && zoom == old(zoom) && skyFrame == old(skyFrame)
      ensures w == old(w) && h == old(h) && r == old(r)
    {
      theta0 := Constants.ToRadians(theta);
      phi0 := Constants.ToRadians(phi);
      Constants.DegreesRadiansRoundTrip(theta);
      Constants.DegreesRadiansRoundTrip(phi);
    }

    /**
     * calcRHW (SkyMapBase.java:200-208): records the panel size and the disk
     * radius for the current zoom.
     */
    method CalcRHW(width: int, height: int)
      modifies this
      ensures w == width && h == height && r == Radius(zoom, width, height)
      ensures em == old(em) && zoom == old(zoom) && skyFrame == old(skyFrame)
      ensures theta0 == old(theta0) && phi0 == old(phi0)
    {
      w := width;
      h := height;
      var m := 0;
      var r0 := if JavaDiv(h, 2) - 2 * m <= JavaDiv(w, 2) - 2 * m then JavaDiv(h, 2) - 2 * m else JavaDiv(w, 2) - 2 * m;
      if r0 < 0 {
        r0 := 0;
      }
      r := Truncate(zoom) * r0;
    }
  }
}
