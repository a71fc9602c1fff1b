/** Vector values used by the camera and the pipeline.  Arithmetic that is
    closed-form (addition, scaling, the cross product) is defined here over
    exact reals; the operations of the vector library that need square roots
    or trigonometry are supplied from outside as `VectorOps`. */
module Vectors {

  /** A 3D vector of components (Vector3f). */
  datatype Vec3 = Vec3(x: real, y: real, z: real)

  /** An integer screen position (Vector2i). */
  datatype Vec2i = Vec2i(x: int, y: int)

  function Add(a: Vec3, b: Vec3): Vec3 {
    Vec3(a.x + b.x, a.y + b.y, a.z + b.z)
  }

  function Sub(a: Vec3, b: Vec3): Vec3 {
    Vec3(a.x - b.x, a.y - b.y, a.z - b.z)
  }

  /** `v * s` for a scalar `s`. */
  function Scale(v: Vec3, s: real): Vec3 {
    Vec3(v.x * s, v.y * s, v.z * s)
  }

  function Neg(v: Vec3): Vec3 {
    Vec3(-v.x, -v.y, -v.z)
  }

  /** The right-handed cross product `a.Cross(b)`. */
  function Cross(a: Vec3, b: Vec3): Vec3 {
    Vec3(a.y * b.z - a.z * b.y, a.z * b.x - a.x * b.z, a.x * b.y - a.y * b.x)
  }

  /** Swapping the operands of the cross product negates it. */
  lemma CrossAntiCommutative(a: Vec3, b: Vec3)
    ensures Cross(b, a) == Neg(Cross(a, b))
  {
  }

  /** Scaling the negation of a vector is negating the scaled vector. */
  lemma ScaleNeg(v: Vec3, s: real)
    ensures Scale(Neg(v), s) == Neg(Scale(v, s))
  {
  }

  /** The vector-library operations that rest on square roots and
      trigonometry: `v.Normalize()`, `v.Rotate(angle, axis)` (angle in
      degrees) and `ToDegree(asin(s))`.  Their definitions are not part of
      this model, so they are parameters. */
  datatype VectorOps = VectorOps(
    normalize: Vec3 -> Vec3,
    rotate: (Vec3, real, Vec3) -> Vec3,
    asinDegrees: real -> real)

  /** Normalising a negated nonzero vector gives the negated normalised
      vector, as it does for division by the Euclidean length.  The zero
      vector, whose length is zero, is left unconstrained. */
  ghost predicate NormalizeIsOdd(ops: VectorOps) {
    forall v :: v != Vec3(0.0, 0.0, 0.0) ==> ops.normalize(Neg(v)) == Neg(ops.normalize(v))
  }
}
