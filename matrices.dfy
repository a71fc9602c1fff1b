/** 4×4 matrices over exact reals, stored row by row, with the row-major
    product and the action of a matrix on a column vector. */
module Matrices {

  /** A homogeneous 4-component vector; also one row of a matrix. */
  datatype Vec4 = Vec4(x: real, y: real, z: real, w: real)

  /** A 4×4 matrix given by its rows `r0` … `r3` (Matrix4f, m[i][j] = ri.j). */
  datatype Mat4 = Mat4(r0: Vec4, r1: Vec4, r2: Vec4, r3: Vec4)

  function Dot(a: Vec4, b: Vec4): real {
    a.x * b.x + a.y * b.y + a.z * b.z + a.w * b.w
  }

  /** The row vector `r` times the matrix `m`: component j is the sum over k
      of r[k] * m[k][j]. */
  function RowTimes(r: Vec4, m: Mat4): Vec4 {
    Vec4(r.x * m.r0.x + r.y * m.r1.x + r.z * m.r2.x + r.w * m.r3.x,
         r.x * m.r0.y + r.y * m.r1.y + r.z * m.r2.y + r.w * m.r3.y,
         r.x * m.r0.z + r.y * m.r1.z + r.z * m.r2.z + r.w * m.r3.z,
         r.x * m.r0.w + r.y * m.r1.w + r.z * m.r2.w + r.w * m.r3.w)
  }

  /** `a * b`: entry (i, j) is the sum over k of a[i][k] * b[k][j]. */
  function Mul(a: Mat4, b: Mat4): Mat4 {
    Mat4(RowTimes(a.r0, b), RowTimes(a.r1, b), RowTimes(a.r2, b), RowTimes(a.r3, b))
  }

  /** `m * v` for a column vector `v` on the right. */
  function Apply(m: Mat4, v: Vec4): Vec4 {
    Vec4(Dot(m.r0, v), Dot(m.r1, v), Dot(m.r2, v), Dot(m.r3, v))
  }

  /** The four unit column vectors. */
  const E0 := Vec4(1.0, 0.0, 0.0, 0.0)
  const E1 := Vec4(0.0, 1.0, 0.0, 0.0)
  const E2 := Vec4(0.0, 0.0, 1.0, 0.0)
  const E3 := Vec4(0.0, 0.0, 0.0, 1.0)

  function Add4(a: Vec4, b: Vec4): Vec4 {
    Vec4(a.x + b.x, a.y + b.y, a.z + b.z, a.w + b.w)
  }

  function Scale4(s: real, a: Vec4): Vec4 {
    Vec4(s * a.x, s * a.y, s * a.z, s * a.w)
  }

  lemma DotAdd(a: Vec4, b: Vec4, v: Vec4)
    ensures Dot(Add4(a, b), v) == Dot(a, v) + Dot(b, v)
  {
  }

  lemma DotScale(s: real, a: Vec4, v: Vec4)
    ensures Dot(Scale4(s, a), v) == s * Dot(a, v)
  {
    assert (s * a.x) * v.x == s * (a.x * v.x);
    assert (s * a.y) * v.y == s * (a.y * v.y);
    assert (s * a.z) * v.z == s * (a.z * v.z);
    assert (s * a.w) * v.w == s * (a.w * v.w);
  }

  /** One row of a product acting on v is that row acting on m * v. */
  lemma RowTimesDot(r: Vec4, m: Mat4, v: Vec4)
    ensures Dot(RowTimes(r, m), v) == Dot(r, Apply(m, v))
  {
    var a, b, c, d := Scale4(r.x, m.r0), Scale4(r.y, m.r1), Scale4(r.z, m.r2), Scale4(r.w, m.r3);
    assert RowTimes(r, m) == Add4(Add4(Add4(a, b), c), d);
    DotAdd(Add4(Add4(a, b), c), d, v);
    DotAdd(Add4(a, b), c, v);
    DotAdd(a, b, v);
    DotScale(r.x, m.r0, v);
    DotScale(r.y, m.r1, v);
    DotScale(r.z, m.r2, v);
    DotScale(r.w, m.r3, v);
  }

  /** Multiplying by a product is multiplying by its factors, right factor
      first: (a * b) * v == a * (b * v). */
  lemma ApplyMul(a: Mat4, b: Mat4, v: Vec4)
    ensures Apply(Mul(a, b), v) == Apply(a, Apply(b, v))
  {
    RowTimesDot(a.r0, b, v);
    RowTimesDot(a.r1, b, v);
    RowTimesDot(a.r2, b, v);
    RowTimesDot(a.r3, b, v);
  }

  /** Two matrices that act alike on the four unit vectors are equal. */
  lemma Extensionality(m: Mat4, n: Mat4)
    requires Apply(m, E0) == Apply(n, E0) && Apply(m, E1) == Apply(n, E1)
    requires Apply(m, E2) == Apply(n, E2) && Apply(m, E3) == Apply(n, E3)
    ensures m == n
  {
    assert Apply(m, E0) == Vec4(m.r0.x, m.r1.x, m.r2.x, m.r3.x);
    assert Apply(m, E1) == Vec4(m.r0.y, m.r1.y, m.r2.y, m.r3.y);
    assert Apply(m, E2) == Vec4(m.r0.z, m.r1.z, m.r2.z, m.r3.z);
    assert Apply(m, E3) == Vec4(m.r0.w, m.r1.w, m.r2.w, m.r3.w);
    assert Apply(n, E0) == Vec4(n.r0.x, n.r1.x, n.r2.x, n.r3.x);
    assert Apply(n, E1) == Vec4(n.r0.y, n.r1.y, n.r2.y, n.r3.y);
    assert Apply(n, E2) == Vec4(n.r0.z, n.r1.z, n.r2.z, n.r3.z);
    assert Apply(n, E3) == Vec4(n.r0.w, n.r1.w, n.r2.w, n.r3.w);
  }

  /** Both groupings of a triple product act alike on any vector. */
  lemma MulAssociativeOn(a: Mat4, b: Mat4, c: Mat4, v: Vec4)
    ensures Apply(Mul(Mul(a, b), c), v) == Apply(Mul(a, Mul(b, c)), v)
  {
    calc {
      Apply(Mul(Mul(a, b), c), v);
      { ApplyMul(Mul(a, b), c, v); }
      Apply(Mul(a, b), Apply(c, v));
      { ApplyMul(a, b, Apply(c, v)); }
      Apply(a, Apply(b, Apply(c, v)));
      { ApplyMul(b, c, v); }
      Apply(a, Apply(Mul(b, c), v));
      { ApplyMul(a, Mul(b, c), v); }
      Apply(Mul(a, Mul(b, c)), v);
    }
  }

  /** The matrix product is associative. */
  lemma MulAssociative(a: Mat4, b: Mat4, c: Mat4)
    ensures Mul(Mul(a, b), c) == Mul(a, Mul(b, c))
  {
    MulAssociativeOn(a, b, c, E0);
    MulAssociativeOn(a, b, c, E1);
    MulAssociativeOn(a, b, c, E2);
    MulAssociativeOn(a, b, c, E3);
    Extensionality(Mul(Mul(a, b), c), Mul(a, Mul(b, c)));
  }
}
