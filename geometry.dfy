/** Vectors, 3x3 matrices and rigid transforms over `real`, as btVector3,
    btMatrix3x3 and btTransform provide them, plus the numeric routines the
    constraint calls but does not define. */
module Geometry {

  /** A btVector3: three components, indexed 0, 1, 2. */
  datatype Vec3 = Vec3(x: real, y: real, z: real)

  const Zero := Vec3(0.0, 0.0, 0.0)

  function Get(v: Vec3, i: int): real
    requires 0 <= i < 3
  {
    if i == 0 then v.x else if i == 1 then v.y else v.z
  }

  /** `v` with component `i` replaced by `a`. */
  function With(v: Vec3, i: int, a: real): (r: Vec3)
    requires 0 <= i < 3
    ensures Get(r, i) == a
    ensures forall j | 0 <= j < 3 && j != i :: Get(r, j) == Get(v, j)
  {
    if i == 0 then v.(x := a) else if i == 1 then v.(y := a) else v.(z := a)
  }

  function Add(a: Vec3, b: Vec3): Vec3 { Vec3(a.x + b.x, a.y + b.y, a.z + b.z) }

  function Sub(a: Vec3, b: Vec3): Vec3 { Vec3(a.x - b.x, a.y - b.y, a.z - b.z) }

  function Neg(a: Vec3): Vec3 { Vec3(-a.x, -a.y, -a.z) }

  function Scale(a: Vec3, s: real): Vec3 { Vec3(a.x * s, a.y * s, a.z * s) }

  function Dot(a: Vec3, b: Vec3): real { a.x * b.x + a.y * b.y + a.z * b.z }

  function Cross(a: Vec3, b: Vec3): Vec3
  {
    Vec3(a.y * b.z - a.z * b.y, a.z * b.x - a.x * b.z, a.x * b.y - a.y * b.x)
  }

  /** The cross product is orthogonal to both of its factors. */
  lemma CrossOrthogonal(a: Vec3, b: Vec3)
    ensures Dot(Cross(a, b), a) == 0.0 && Dot(Cross(a, b), b) == 0.0
  {
  }

  /** A btMatrix3x3, stored by rows: `mat[i][j]` is `At(mat, i, j)`. */
  datatype Mat3 = Mat3(r0: Vec3, r1: Vec3, r2: Vec3)

  function Row(m: Mat3, i: int): Vec3
    requires 0 <= i < 3
  {
    if i == 0 then m.r0 else if i == 1 then m.r1 else m.r2
  }

  function At(m: Mat3, i: int, j: int): real
    requires 0 <= i < 3 && 0 <= j < 3
  {
    Get(Row(m, i), j)
  }

  /** getColumn(j). */
  function Column(m: Mat3, j: int): Vec3
    requires 0 <= j < 3
  {
    Vec3(At(m, 0, j), At(m, 1, j), At(m, 2, j))
  }

  /** Matrix times column vector. */
  function MulVec(m: Mat3, v: Vec3): Vec3
  {
    Vec3(Dot(m.r0, v), Dot(m.r1, v), Dot(m.r2, v))
  }

  /** Matrix product. */
  function Mul(a: Mat3, b: Mat3): Mat3
  {
    Mat3(Vec3(Dot(a.r0, Column(b, 0)), Dot(a.r0, Column(b, 1)), Dot(a.r0, Column(b, 2))),
         Vec3(Dot(a.r1, Column(b, 0)), Dot(a.r1, Column(b, 1)), Dot(a.r1, Column(b, 2))),
         Vec3(Dot(a.r2, Column(b, 0)), Dot(a.r2, Column(b, 1)), Dot(a.r2, Column(b, 2))))
  }

  /** getSkewSymmetricMatrix's three rows, as a matrix: the cross-product
      matrix of `v`, zero on the diagonal and antisymmetric. */
  function SkewSymmetric(v: Vec3): (m: Mat3)
    ensures forall w :: MulVec(m, w) == Cross(v, w)
    ensures forall i, j | 0 <= i < 3 && 0 <= j < 3 :: At(m, i, j) == -At(m, j, i)
  {
    Mat3(Vec3(0.0, -v.z, v.y), Vec3(v.z, 0.0, -v.x), Vec3(-v.y, v.x, 0.0))
  }

  /** A btTransform: a basis and an origin. */
  datatype Transform = Transform(basis: Mat3, origin: Vec3)

  /** The image of point `p` under `t`. */
  function Apply(t: Transform, p: Vec3): Vec3
  {
    Add(MulVec(t.basis, p), t.origin)
  }

  /** btTransform's `t * u`: first `u`, then `t`. */
  function Compose(t: Transform, u: Transform): (r: Transform)
    ensures r.origin == Apply(t, u.origin)
    ensures forall j | 0 <= j < 3 :: Column(r.basis, j) == MulVec(t.basis, Column(u.basis, j))
  {
    Transform(Mul(t.basis, u.basis), Apply(t, u.origin))
  }

  /** Floating-point routines the constraint calls and does not define
      (btAtan2, btAsin, SIMD_HALF_PI, btMatrix3x3::inverse): the model takes
      them as given values and assumes nothing about them. */
  datatype Libm = Libm(atan2: (real, real) -> real, asin: real -> real,
                       halfPi: real, inverse: Mat3 -> Mat3)
}
