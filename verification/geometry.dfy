/** Exact real-valued 3-vectors and 3x3 matrices. Rotations are never
    computed from an angle here: a rotation is whatever 3x3 matrix a caller
    supplies, so every property proved about it holds for every angle. */
module Geometry {

  datatype Vec3 = Vec3(x: real, y: real, z: real)

  /** A 3x3 matrix given by its rows; it acts on a vector by `MatVec`. */
  datatype Mat3 = Mat3(r0: Vec3, r1: Vec3, r2: Vec3)

  const Zero: Vec3 := Vec3(0.0, 0.0, 0.0)
  const XAxis: Vec3 := Vec3(1.0, 0.0, 0.0)
  const YAxis: Vec3 := Vec3(0.0, 1.0, 0.0)
  const ZAxis: Vec3 := Vec3(0.0, 0.0, 1.0)

  function Add(a: Vec3, b: Vec3): Vec3 {
    Vec3(a.x + b.x, a.y + b.y, a.z + b.z)
  }

  function Neg(a: Vec3): Vec3 {
    Vec3(-a.x, -a.y, -a.z)
  }

  function Sub(a: Vec3, b: Vec3): Vec3 {
    Add(a, Neg(b))
  }

  /** Component-wise product: the effect of a scale by `s`. */
  function Hadamard(s: Vec3, v: Vec3): Vec3 {
    Vec3(s.x * v.x, s.y * v.y, s.z * v.z)
  }

  function Dot(a: Vec3, b: Vec3): real {
    a.x * b.x + a.y * b.y + a.z * b.z
  }

  function MatVec(m: Mat3, v: Vec3): Vec3 {
    Vec3(Dot(m.r0, v), Dot(m.r1, v), Dot(m.r2, v))
  }

  /** Every matrix is linear: it maps sums to sums and the origin to itself. */
  lemma MatVecLinear(m: Mat3, a: Vec3, b: Vec3)
    ensures MatVec(m, Add(a, b)) == Add(MatVec(m, a), MatVec(m, b))
    ensures MatVec(m, Zero) == Zero
  {
  }

  /** A vector and its negation cancel, in either order. */
  lemma NegCancels(p: Vec3)
    ensures Add(Neg(p), p) == Zero
    ensures Add(p, Neg(p)) == Zero
  {
  }
}
