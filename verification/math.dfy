/**
 * The floating-point and linear-algebra helpers the model leaves abstract:
 * java.lang.Math (sin, cos, sqrt, asin), tig.maths.Maths.atan3 and the
 * tig.maths Vector3 / Matrix3 products and the Matrix3 rotations about
 * the three axes.
 */
module MathLib {
  import opened Wrappers

  /** A Java double: None stands for NaN. */
  type Double = Option<real>

  /** A 3-vector of doubles (tig.maths.Vector3). */
  datatype Vec3 = Vec3(x0: Double, x1: Double, x2: Double)

  /** A 3x3 matrix of doubles, row by row (tig.maths.Matrix3). */
  datatype Mat3 = Mat3(
    m00: real, m01: real, m02: real,
    m10: real, m11: real, m12: real,
    m20: real, m21: real, m22: real)

  const IDENTITY: Mat3 := Mat3(1.0, 0.0, 0.0, 0.0, 1.0, 0.0, 0.0, 0.0, 1.0)

  /**
   * The library functions, as uninterpreted function values. Only the
   * identities listed in Sound are assumed about them.
   */
  datatype Lib = Lib(
    sin: real -> real,
    cos: real -> real,
    sqrt: real -> real,
    asin: real -> real,
    atan3: (real, real) -> real,
    mulVec: (Mat3, Vec3) -> Vec3,
    mulMat: (Mat3, Mat3) -> Mat3,
    rotX: real -> Mat3,
    rotY: real -> Mat3,
    rotZ: real -> Mat3)

  /** sin 0 = 0, cos 0 = 1 and sin^2 + cos^2 = 1. */
  ghost predicate Sound(m: Lib)
  {
    && m.sin(0.0) == 0.0
    && m.cos(0.0) == 1.0
    && (forall x :: m.sin(x) * m.sin(x) + m.cos(x) * m.cos(x) == 1.0)
  }

  // Java double arithmetic: NaN in, NaN out. Overflow to an infinity is not modelled.

  function Plus(a: Double, b: Double): Double
  {
    if a.Some? && b.Some? then Some(a.value + b.value) else None
  }

  function Minus(a: Double, b: Double): Double
  {
    if a.Some? && b.Some? then Some(a.value - b.value) else None
  }

  function Times(a: Double, b: Double): Double
  {
    if a.Some? && b.Some? then Some(a.value * b.value) else None
  }

  function Neg(a: Double): Double
  {
    if a.Some? then Some(-a.value) else None
  }

  /** Division; a zero divisor gives NaN (an infinity is folded into NaN). */
  function Div(a: Double, b: Double): (r: Double)
    ensures r.Some? <==> a.Some? && b.Some? && b.value != 0.0
  {
    if a.Some? && b.Some? && b.value != 0.0 then Some(a.value / b.value) else None
  }

  function Sin(m: Lib, a: Double): Double
  {
    if a.Some? then Some(m.sin(a.value)) else None
  }

  function Cos(m: Lib, a: Double): Double
  {
    if a.Some? then Some(m.cos(a.value)) else None
  }

  /** Math.sqrt: NaN below zero. */
  function Sqrt(m: Lib, a: Double): Double
  {
    if a.Some? && a.value >= 0.0 then Some(m.sqrt(a.value)) else None
  }

  /** Math.asin: NaN outside [-1, 1]. */
  function Asin(m: Lib, a: Double): Double
  {
    if a.Some? && -1.0 <= a.value <= 1.0 then Some(m.asin(a.value)) else None
  }

  /** tig.maths.Maths.atan3(y, x): the angle of (x, y) in [0, 2 pi). */
  function Atan3(m: Lib, y: Double, x: Double): Double
  {
    if y.Some? && x.Some? then Some(m.atan3(y.value, x.value)) else None
  }
}
