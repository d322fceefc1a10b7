/** The relative-rotation decomposition of btGeneric6DofConstraint.cpp:
    btGetMatrixElem's flat index and the three branches of matrixToEulerXYZ. */
module EulerXYZ {
  import opened Geometry

  /** btGetMatrixElem: flat index k reads row k % 3, column k / 3. */
  function MatrixElem(m: Mat3, index: int): real
    requires 0 <= index < 9
  {
    var i := index % 3;
    var j := index / 3;
    At(m, i, j)
  }

  /** The flat index is column-major: index 3 * j + i is row i, column j,
      so element 2 is `mat[2][0]`, not `mat[0][2]`. */
  lemma MatrixElemColumnMajor(m: Mat3, i: int, j: int)
    requires 0 <= i < 3 && 0 <= j < 3
    ensures MatrixElem(m, 3 * j + i) == At(m, i, j)
  {
  }

  /** What matrixToEulerXYZ writes into `xyz` and whether it returns true. */
  datatype Euler = Euler(angles: Vec3, unique: bool)

  /** matrixToEulerXYZ: a three-way branch on element 2 (`mat[2][0]`).
      Strictly between -1 and 1 the angles are unique; at or past either
      end the decomposition is degenerate, y is pinned at -+halfPi, z at 0
      and x carries the combined angle. */
  function MatrixToEulerXYZ(lib: Libm, m: Mat3): (e: Euler)
    ensures e.unique <==> -1.0 < At(m, 2, 0) < 1.0
    ensures e.unique ==>
      e.angles == Vec3(lib.atan2(-At(m, 2, 1), At(m, 2, 2)),
                       lib.asin(At(m, 2, 0)),
                       lib.atan2(-At(m, 1, 0), At(m, 0, 0)))
    ensures At(m, 2, 0) <= -1.0 ==>
      e.angles == Vec3(-lib.atan2(At(m, 0, 1), At(m, 1, 1)), -lib.halfPi, 0.0)
    ensures At(m, 2, 0) >= 1.0 ==>
      e.angles == Vec3(lib.atan2(At(m, 0, 1), At(m, 1, 1)), lib.halfPi, 0.0)
  {
    if MatrixElem(m, 2) < 1.0 then
      if MatrixElem(m, 2) > -1.0 then
        Euler(Vec3(lib.atan2(-MatrixElem(m, 5), MatrixElem(m, 8)),
                   lib.asin(MatrixElem(m, 2)),
                   lib.atan2(-MatrixElem(m, 1), MatrixElem(m, 0))),
              true)
      else
        Euler(Vec3(-lib.atan2(MatrixElem(m, 3), MatrixElem(m, 4)), -lib.halfPi, 0.0), false)
    else
      Euler(Vec3(lib.atan2(MatrixElem(m, 3), MatrixElem(m, 4)), lib.halfPi, 0.0), false)
  }
}
