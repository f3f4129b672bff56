/** The few pieces of JavaScript's Math object and of three.js's Vector3 that the
    simulation relies on, over mathematical reals. Floating-point rounding is not
    modelled; sin, cos and log are passed in as function parameters where used. */
module JsMath {

  /** Math.PI, as the real number its double literal denotes. */
  const PI: real := 3.141592653589793

  /** Math.max of two numbers. */
  function Max(a: real, b: real): (m: real)
    ensures m >= a && m >= b
    ensures m == a || m == b
  {
    if a >= b then a else b
  }

  /** Math.min of two numbers. */
  function Min(a: real, b: real): (m: real)
    ensures m <= a && m <= b
    ensures m == a || m == b
  {
    if a <= b then a else b
  }

  /** A point or offset in render space (three.js Vector3, or a [x, y, z] tuple). */
  datatype Vec3 = Vec3(x: real, y: real, z: real)

  const Origin: Vec3 := Vec3(0.0, 0.0, 0.0)

  function Add(a: Vec3, b: Vec3): Vec3 {
    Vec3(a.x + b.x, a.y + b.y, a.z + b.z)
  }

  function Sub(a: Vec3, b: Vec3): Vec3 {
    Vec3(a.x - b.x, a.y - b.y, a.z - b.z)
  }

  function Scale(k: real, a: Vec3): Vec3 {
    Vec3(k * a.x, k * a.y, k * a.z)
  }

  function NormSquared(a: Vec3): real {
    a.x * a.x + a.y * a.y + a.z * a.z
  }

  /** Vector3.lerp(v, alpha): every component moves alpha of the way towards v. */
  function Lerp(from: Vec3, to: Vec3, alpha: real): (r: Vec3)
    ensures Sub(r, to) == Scale(1.0 - alpha, Sub(from, to))
  {
    Vec3(from.x + (to.x - from.x) * alpha,
         from.y + (to.y - from.y) * alpha,
         from.z + (to.z - from.z) * alpha)
  }

  /** Products and squares of non-negative reals, which the solver's
      nonlinear arithmetic does not find on its own. */
  lemma ProductNonNegative(a: real, b: real)
    requires 0.0 <= a && 0.0 <= b
    ensures 0.0 <= a * b
  {
  }

  lemma ProductPositive(a: real, b: real)
    requires 0.0 < a && 0.0 < b
    ensures 0.0 < a * b
  {
  }

  lemma SquareMonotone(a: real, b: real)
    requires 0.0 <= a <= b
    ensures a * a <= b * b
    ensures a < b ==> a * a < b * b
  {
    assert b * b - a * a == (b - a) * (b + a);
    ProductNonNegative(b - a, b + a);
    if a < b {
      ProductPositive(b - a, b + a);
    }
  }
}
