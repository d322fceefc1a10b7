/** btGeneric6DofConstraint: two frames, one per body, tied together along
    three translational and three rotational degrees of freedom. Each step it
    recomputes the frames in world space and the relative angles, tests the
    angular limits, and then either fills rows for the solver (getInfo1 and
    getInfo2) or, on the obsolete path, applies impulses itself
    (buildJacobian and solveConstraintObsolete). */
module Generic6Dof {
  import opened Geometry
  import opened EulerXYZ
  import opened LimitRules
  import opened LimitMotors
  import opened RowRules
  import opened ConstraintRows
  import opened SweepRules

  // ------------------------------------------------------------ pure parts

  /** calculateAngleInfo's constraint axes from frame B's x axis `axis0` and
      frame A's z axis `axis2`. */
  function ConstraintAxes(axis0: Vec3, axis2: Vec3): (ax: seq<Vec3>)
    ensures |ax| == 3
  {
    var a1 := Cross(axis2, axis0);
    [Cross(a1, axis2), a1, Cross(axis0, a1)]
  }

  /** The constraint axes are the ones the Euler rates need: axis 1 is
      normal to both frame axes, axis 0 to axis 1 and frame A's z axis,
      axis 2 to frame B's x axis and axis 1. */
  lemma ConstraintAxesOrthogonal(axis0: Vec3, axis2: Vec3)
    ensures var ax := ConstraintAxes(axis0, axis2);
            Dot(ax[1], axis0) == 0.0 && Dot(ax[1], axis2) == 0.0 &&
            Dot(ax[0], ax[1]) == 0.0 && Dot(ax[0], axis2) == 0.0 &&
            Dot(ax[2], axis0) == 0.0 && Dot(ax[2], ax[1]) == 0.0
  {
    var a1 := Cross(axis2, axis0);
    CrossOrthogonal(axis2, axis0);
    CrossOrthogonal(a1, axis2);
    CrossOrthogonal(axis0, a1);
  }

  /** The relative rotation calculateAngleInfo decomposes: A's basis
      inverted, times B's. */
  function RelativeFrame(lib: Libm, transformA: Transform, transformB: Transform): Mat3
  {
    Mul(lib.inverse(transformA.basis), transformB.basis)
  }

  /** calcAnchorPos's weight of frame A's origin: all of it when body B is
      static, otherwise A's share of the total inverse mass. */
  function AnchorWeight(imA: real, imB: real): (w: real)
    requires imB == 0.0 || imA + imB != 0.0
    ensures imA >= 0.0 && imB >= 0.0 ==> 0.0 <= w <= 1.0
    ensures imB == 0.0 ==> w == 1.0
    ensures imB != 0.0 && imA == imB ==> w == 0.5
    ensures imA == 0.0 && imB != 0.0 ==> w == 0.0
  {
    if imB == 0.0 then 1.0
    else
      assert imA == imB ==> imA / (imA + imB) == 0.5 by {
        if imA == imB {
          assert imA + imB == 2.0 * imA;
        }
      }
      imA / (imA + imB)
  }

  /** calcAnchorPos: the anchor between the two frame origins, nearer the
      origin of the lighter body. */
  function AnchorPoint(pA: Vec3, pB: Vec3, imA: real, imB: real): (p: Vec3)
    requires imB == 0.0 || imA + imB != 0.0
    ensures imB == 0.0 ==> p == pA
    ensures imA == 0.0 && imB != 0.0 ==> p == pB
    ensures imB != 0.0 && imA == imB ==> p == Scale(Add(pA, pB), 0.5)
  {
    var weight := AnchorWeight(imA, imB);
    Add(Scale(pA, weight), Scale(pB, 1.0 - weight))
  }

  /** For non-negative inverse masses the anchor lies on the segment between
      the two origins: each coordinate lies between theirs. */
  lemma AnchorBetweenOrigins(pA: Vec3, pB: Vec3, imA: real, imB: real, i: int)
    requires imA >= 0.0 && imB >= 0.0 && (imB == 0.0 || imA + imB != 0.0)
    requires 0 <= i < 3
    ensures var p := Get(AnchorPoint(pA, pB, imA, imB), i);
            (Get(pA, i) <= p <= Get(pB, i)) || (Get(pB, i) <= p <= Get(pA, i))
  {
    ConvexCombinationBetween(pA, pB, AnchorWeight(imA, imB), i);
  }

  /** A convex combination of two points lies between them, coordinate by
      coordinate. */
  lemma ConvexCombinationBetween(pA: Vec3, pB: Vec3, w: real, i: int)
    requires 0.0 <= w <= 1.0 && 0 <= i < 3
    ensures var p := Get(Add(Scale(pA, w), Scale(pB, 1.0 - w)), i);
            (Get(pA, i) <= p <= Get(pB, i)) || (Get(pB, i) <= p <= Get(pA, i))
  {
    var p := Add(Scale(pA, w), Scale(pB, 1.0 - w));
    if i == 0 {
      ScalarBetween(pA.x, pB.x, w, p.x);
    } else if i == 1 {
      ScalarBetween(pA.y, pB.y, w, p.y);
    } else {
      ScalarBetween(pA.z, pB.z, w, p.z);
    }
  }

  /** The scalar case: `p`, a convex combination of `a` and `b`, lies
      between them. */
  lemma ScalarBetween(a: real, b: real, w: real, p: real)
    requires 0.0 <= w <= 1.0 && p == a * w + b * (1.0 - w)
    ensures (a <= p <= b) || (b <= p <= a)
  {
    assert p == b + w * (a - b);
    assert p == a + (1.0 - w) * (b - a);
    if a <= b {
      ScaleNonPositive(w, a - b);
      ScaleNonPositive(1.0 - w, a - b);
      assert (1.0 - w) * (b - a) == -((1.0 - w) * (a - b));
    } else {
      ScaleNonPositive(w, b - a);
      ScaleNonPositive(1.0 - w, b - a);
      assert w * (a - b) == -(w * (b - a));
    }
  }

  lemma ScaleNonPositive(x: real, y: real)
    requires x >= 0.0 && y <= 0.0
    ensures x * y <= 0.0
  {
  }

  /** How many of the axes are armed. */
  function CountArmed(armed: seq<bool>): (n: nat)
    ensures n <= |armed|
  {
    if armed == [] then 0
    else CountArmed(armed[..|armed| - 1]) + (if armed[|armed| - 1] then 1 else 0)
  }

  /** Counting a prefix one element longer adds that element. */
  lemma CountArmedStep(armed: seq<bool>, i: int)
    requires 0 <= i < |armed|
    ensures CountArmed(armed[..i + 1]) == CountArmed(armed[..i]) + (if armed[i] then 1 else 0)
  {
    assert armed[..i + 1][..i] == armed[..i];
  }

  /** An armed axis gets a row of its own: the armed axes before axis `i`
      take fewer rows than those up to `j > i`. */
  lemma {:induction false} CountArmedBelow(armed: seq<bool>, i: int, j: int)
    requires 0 <= i < j <= |armed| && armed[i]
    ensures CountArmed(armed[..i]) + 1 <= CountArmed(armed[..j])
    decreases j - i
  {
    CountArmedStep(armed, j - 1);
    if j - 1 > i {
      CountArmedBelow(armed, i, j - 1);
    }
  }

  /** The row each armed axis asks for: bt_get_limit_motor_info2's values
      for its motor, along its constraint axis (unused for idle axes). */
  function MotorRows(motors: seq<RotationalMotor>, axes: seq<Vec3>, fps: real,
                     rbA: RigidBody, rbB: RigidBody): (rv: seq<RowValues>)
    requires |motors| == 3 && |axes| == 3
    ensures |rv| == 3
    ensures forall i | 0 <= i < 3 && NeedApplyTorques(motors[i]) ::
      rv[i] == MotorRow(motors[i], fps, JointVelocity(rbA, rbB, axes[i]))
  {
    seq(3, i requires 0 <= i < 3 =>
      if NeedApplyTorques(motors[i]) then MotorRow(motors[i], fps, JointVelocity(rbA, rbB, axes[i]))
      else RowValues(0.0, 0.0, 0.0))
  }

  /** Scaling by a non-negative stride keeps order. */
  lemma ScaleMono(a: int, b: int, s: int)
    requires a <= b && s >= 0
    ensures a * s <= b * s
  {
    assert b * s - a * s == (b - a) * s;
  }

  /** The first entry of the row setAngularLimits gives axis `k`: `base`
      (the entry of row `rowOffset`) plus one stride `s` per armed axis
      before `k`. */
  function RowStart(armed: seq<bool>, base: int, s: int, k: int): int
    requires 0 <= k <= |armed|
  {
    if k == 0 then base else RowStart(armed, base, s, k - 1) + (if armed[k - 1] then s else 0)
  }

  /** RowStart is the source's row index times the stride. */
  lemma {:induction false} RowStartIsRowTimesStride(armed: seq<bool>, rowOffset: int, s: int, k: int)
    requires 0 <= k <= |armed|
    ensures RowStart(armed, rowOffset * s, s, k) == (rowOffset + CountArmed(armed[..k])) * s
  {
    if k > 0 {
      RowStartIsRowTimesStride(armed, rowOffset, s, k - 1);
      CountArmedStep(armed, k - 1);
      assert (rowOffset + CountArmed(armed[..k - 1]) + 1) * s == (rowOffset + CountArmed(armed[..k - 1])) * s + s;
    }
  }

  /** Rows start in order: an armed axis `k` before `n` ends a whole stride
      before axis `n`'s row starts, and no row starts before `base`. */
  lemma {:induction false} RowStartBelow(armed: seq<bool>, base: int, s: int, k: int, n: int)
    requires 0 <= k <= n <= |armed| && s >= 0
    ensures base <= RowStart(armed, base, s, k) <= RowStart(armed, base, s, n)
    ensures k < n && armed[k] ==> RowStart(armed, base, s, k) + s <= RowStart(armed, base, s, n)
    decreases n
  {
    if n > 0 {
      if k < n {
        RowStartBelow(armed, base, s, k, n - 1);
      } else {
        RowStartBelow(armed, base, s, k - 1, n - 1);
      }
    }
  }

  /** The buffers once setAngularLimits has handled the first `n` axes from
      buffers `b`: each armed axis `k` gets its row (axis `axes[k]`, values
      `values[k]`) at entry RowStart(armed, base, s, k). */
  function AngularRowsWritten(b: RowBuffers, armed: seq<bool>, axes: seq<Vec3>, values: seq<RowValues>,
                              base: int, s: int, n: int): (w: RowBuffers)
    requires |armed| == |axes| == |values| && 0 <= n <= |armed|
    requires Uniform(b) && 0 <= base && s >= 3 && RowStart(armed, base, s, n) <= |b.j1Angular|
    ensures Uniform(w) && |w.j1Angular| == |b.j1Angular|
    decreases n
  {
    if n == 0 then b
    else
      var prev := AngularRowsWritten(b, armed, axes, values, base, s, n - 1);
      if armed[n - 1] then
        RowStartBelow(armed, base, s, n - 1, n - 1);
        WriteRow(prev, RowStart(armed, base, s, n - 1), axes[n - 1], values[n - 1])
      else prev
  }

  /** Handling the first `n` axes writes only inside their rows: from entry
      `base` up to the next free row. */
  lemma {:induction false} AngularRowsKept(b: RowBuffers, armed: seq<bool>, axes: seq<Vec3>, values: seq<RowValues>,
                                           base: int, s: int, n: int)
    requires |armed| == |axes| == |values| && 0 <= n <= |armed|
    requires Uniform(b) && 0 <= base && s >= 3 && RowStart(armed, base, s, n) <= |b.j1Angular|
    ensures KeptOutside(b, AngularRowsWritten(b, armed, axes, values, base, s, n),
                        base, RowStart(armed, base, s, n))
  {
    if n > 0 {
      RowStartBelow(armed, base, s, n - 1, n - 1);
      AngularRowsKept(b, armed, axes, values, base, s, n - 1);
      if armed[n - 1] {
        var prev := AngularRowsWritten(b, armed, axes, values, base, s, n - 1);
        var start := RowStart(armed, base, s, n - 1);
        KeptChain(b, prev, WriteRow(prev, start, axes[n - 1], values[n - 1]), base, start, start + s);
      }
    }
  }

  /** After the first `n` axes, every armed axis `k < n` has its own row,
      not overwritten by a later axis. */
  lemma {:induction false} AngularRowsHold(b: RowBuffers, armed: seq<bool>, axes: seq<Vec3>, values: seq<RowValues>,
                                           base: int, s: int, n: int, k: int)
    requires |armed| == |axes| == |values| && 0 <= k < n <= |armed| && armed[k]
    requires Uniform(b) && 0 <= base && s >= 3 && RowStart(armed, base, s, n) <= |b.j1Angular|
    ensures RowIn(AngularRowsWritten(b, armed, axes, values, base, s, n),
                  RowStart(armed, base, s, k), axes[k], values[k])
  {
    RowStartBelow(armed, base, s, n - 1, n - 1);
    if k < n - 1 {
      AngularRowsHold(b, armed, axes, values, base, s, n - 1, k);
      if armed[n - 1] {
        RowStartBelow(armed, base, s, k, n - 1);
        var prev := AngularRowsWritten(b, armed, axes, values, base, s, n - 1);
        var start := RowStart(armed, base, s, n - 1);
        RowInKept(prev, WriteRow(prev, start, axes[n - 1], values[n - 1]),
                  RowStart(armed, base, s, k), axes[k], values[k], start, start + 3);
      }
    }
  }

  /** The diagonals btJacobianEntry computes for the two bodies (its internals
      are not part of this model): for a linear row from the normal and the
      two pivots relative to the centres of mass, and for an angular row
      from the joint axis. */
  datatype JacobianDiagonals = JacobianDiagonals(
    linear: (RigidBody, RigidBody, Vec3, Vec3, Vec3) -> real,
    angular: (RigidBody, RigidBody, Vec3) -> real)

  /** Three motors after each is tested against its angle. */
  function Tested(motors: seq<RotationalMotor>, angles: Vec3): (ms: seq<RotationalMotor>)
    requires |motors| == 3
    ensures |ms| == 3 && forall i | 0 <= i < 3 :: ms[i] == AfterTest(motors[i], Get(angles, i))
  {
    [AfterTest(motors[0], angles.x), AfterTest(motors[1], angles.y), AfterTest(motors[2], angles.z)]
  }

  /** Which of three motors are armed. */
  function ArmedAxes(motors: seq<RotationalMotor>): (a: seq<bool>)
    requires |motors| == 3
    ensures |a| == 3 && forall i | 0 <= i < 3 :: a[i] == NeedApplyTorques(motors[i])
  {
    [NeedApplyTorques(motors[0]), NeedApplyTorques(motors[1]), NeedApplyTorques(motors[2])]
  }

  /** The right-hand side setLinearLimits gives linear row `j`: `k` times
      component `j` of the offset from frame A's world origin to frame B's. */
  function LinearRowError(k: real, originA: Vec3, originB: Vec3, j: int): real
    requires 0 <= j < 3
  {
    k * Get(Sub(originB, originA), j)
  }

  /** The three linear rows of a buffer set with row stride `s`: ones on
      the diagonal of the J1 linear block, the cross-product matrices of the
      frame offsets `a1` (negated) and `a2` in the J1 and J2 angular blocks,
      and LinearRowError on the right. */
  predicate LinearRowsIn(j1Linear: seq<real>, b: RowBuffers, s: int, a1: Vec3, a2: Vec3,
                         k: real, originA: Vec3, originB: Vec3)
  {
    0 <= s && 2 * s + 2 < |j1Linear| && 2 * s < |b.error| &&
    j1Linear[0] == 1.0 && j1Linear[s + 1] == 1.0 && j1Linear[2 * s + 2] == 1.0 &&
    BlockIn(b.j1Angular, s, SkewSymmetric(Neg(a1))) && BlockIn(b.j2Angular, s, SkewSymmetric(a2)) &&
    b.error[0] == LinearRowError(k, originA, originB, 0) &&
    b.error[s] == LinearRowError(k, originA, originB, 1) &&
    b.error[2 * s] == LinearRowError(k, originA, originB, 2)
  }

  /** Appending is associative. */
  lemma SeqAppendAssoc<T>(a: seq<T>, b: seq<T>, c: seq<T>)
    ensures (a + b) + c == a + (b + c)
  {
  }

  // ------------------------------------------------------------ the constraint

  /** The angular rows, written from row 3 on, leave the three linear
      rows' angular blocks and right-hand sides as they were. */
  lemma AngularRowsSpareLinear(b: RowBuffers, armed: seq<bool>, axes: seq<Vec3>, values: seq<RowValues>,
                               s: int, n: int, j1Linear: seq<real>, a1: Vec3, a2: Vec3,
                               k: real, originA: Vec3, originB: Vec3)
    requires |armed| == |axes| == |values| == n && s >= 3
    requires Uniform(b) && RowStart(armed, 3 * s, s, n) <= |b.j1Angular|
    requires LinearRowsIn(j1Linear, b, s, a1, a2, k, originA, originB)
    ensures LinearRowsIn(j1Linear, AngularRowsWritten(b, armed, axes, values, 3 * s, s, n),
                         s, a1, a2, k, originA, originB)
  {
    var w := AngularRowsWritten(b, armed, axes, values, 3 * s, s, n);
    var hi := RowStart(armed, 3 * s, s, n);
    AngularRowsKept(b, armed, axes, values, 3 * s, s, n);
    BlockKept(b.j1Angular, w.j1Angular, s, SkewSymmetric(Neg(a1)), 3 * s, hi);
    BlockKept(b.j2Angular, w.j2Angular, s, SkewSymmetric(a2), 3 * s, hi);
  }

  /** Armed axis `i` has its row, with values `values[i]`, at row `first`
      plus the number of armed axes before it (stride `s`). */
  predicate AngularRowsFrom(b: RowBuffers, armed: seq<bool>, axes: seq<Vec3>, values: seq<RowValues>,
                            first: int, s: int)
    requires |armed| == |axes| == |values|
  {
    forall i | 0 <= i < |armed| && armed[i] :: RowIn(b, (first + CountArmed(armed[..i])) * s, axes[i], values[i])
  }

  /** setAngularLimits called at row 3 leaves armed axis `i` in row 3 plus
      the number of armed axes before it. */
  lemma AngularRowsFromThree(b: RowBuffers, armed: seq<bool>, axes: seq<Vec3>, values: seq<RowValues>,
                             s: int, n: int)
    requires |armed| == |axes| == |values| == n && s >= 3
    requires Uniform(b) && RowStart(armed, 3 * s, s, n) <= |b.j1Angular|
    ensures AngularRowsFrom(AngularRowsWritten(b, armed, axes, values, 3 * s, s, n), armed, axes, values, 3, s)
  {
    forall i | 0 <= i < n && armed[i]
      ensures RowIn(AngularRowsWritten(b, armed, axes, values, 3 * s, s, n),
                    (3 + CountArmed(armed[..i])) * s, axes[i], values[i])
    {
      AngularRowsHold(b, armed, axes, values, 3 * s, s, n, i);
      RowStartIsRowTimesStride(armed, 3, s, i);
    }
  }

  class Generic6DofConstraint {
    var frameInA: Transform
    var frameInB: Transform
    var useLinearReferenceFrameA: bool
    var useSolveConstraintObsolete: bool
    const linearLimits: TranslationalLimitMotor
    const angularLimits: seq<RotationalLimitMotor>
    var calculatedTransformA: Transform
    var calculatedTransformB: Transform
    var calculatedAxisAngleDiff: Vec3
    var calculatedAxis: seq<Vec3>
    var anchorPos: Vec3
    /** getDiagonal() of m_jacLinear[i] and m_jacAng[i], the only part of the
        Jacobian entries the constraint reads back. */
    var jacLinearDiagonal: Vec3
    var jacAngularDiagonal: Vec3
    var timeStep: real

    /** Three distinct rotational motors and three constraint axes. */
    ghost predicate Valid()
      reads this`calculatedAxis
    {
      |angularLimits| == 3 && |calculatedAxis| == 3 &&
      forall a, b | 0 <= a < b < 3 :: angularLimits[a] != angularLimits[b]
    }

    /** The constructor: frames and reference-frame choice as given, the
        obsolete solve path selected. The motors start from `linear` and
        `angular`, the values their own constructors give them. */
    constructor (frameInA: Transform, frameInB: Transform, useLinearReferenceFrameA: bool,
                 linear: TranslationalMotor, angular: seq<RotationalMotor>)
      requires |angular| == 3
      ensures Valid()
      ensures this.frameInA == frameInA && this.frameInB == frameInB
      ensures this.useLinearReferenceFrameA == useLinearReferenceFrameA
      ensures useSolveConstraintObsolete
      ensures fresh(linearLimits) && fresh(angularLimits[0]) && fresh(angularLimits[1]) && fresh(angularLimits[2])
      ensures linearLimits.Value() == linear && AngularValues() == angular
    {
      this.frameInA := frameInA;
      this.frameInB := frameInB;
      this.useLinearReferenceFrameA := useLinearReferenceFrameA;
      useSolveConstraintObsolete := true;
      linearLimits := new TranslationalLimitMotor(linear);
      var m0 := new RotationalLimitMotor(angular[0]);
      var m1 := new RotationalLimitMotor(angular[1]);
      var m2 := new RotationalLimitMotor(angular[2]);
      angularLimits := [m0, m1, m2];
      calculatedAxis := [Zero, Zero, Zero];
    }

    /** The values of the three rotational motors. */
    function AngularValues(): (ms: seq<RotationalMotor>)
      requires Valid()
      reads this`calculatedAxis, angularLimits
      ensures |ms| == 3 && forall i | 0 <= i < 3 :: ms[i] == angularLimits[i].Value()
    {
      [angularLimits[0].Value(), angularLimits[1].Value(), angularLimits[2].Value()]
    }

    /** Which rotational axes are armed (needApplyTorques). */
    function Armed(): (a: seq<bool>)
      requires Valid()
      reads this`calculatedAxis, angularLimits
      ensures |a| == 3 && forall i | 0 <= i < 3 :: a[i] == NeedApplyTorques(angularLimits[i].Value())
    {
      ArmedAxes(AngularValues())
    }

    /** The world direction of linear axis `i`: a column of frame A's or frame
        B's basis, as useLinearReferenceFrameA chooses. */
    function LinearAxis(i: int): Vec3
      requires 0 <= i < 3
      reads this`useLinearReferenceFrameA, this`calculatedTransformA, this`calculatedTransformB
    {
      if useLinearReferenceFrameA then Column(calculatedTransformA.basis, i)
      else Column(calculatedTransformB.basis, i)
    }

    /** What calculateAngleInfo leaves behind for the current world frames. */
    ghost predicate AngleInfoHolds(lib: Libm)
      reads this`calculatedAxisAngleDiff, this`calculatedAxis, this`calculatedTransformA, this`calculatedTransformB
    {
      calculatedAxisAngleDiff ==
        MatrixToEulerXYZ(lib, RelativeFrame(lib, calculatedTransformA, calculatedTransformB)).angles &&
      calculatedAxis == ConstraintAxes(Column(calculatedTransformB.basis, 0), Column(calculatedTransformA.basis, 2))
    }

    /** calculateAngleInfo: the Euler angles of B relative to A, and the three
        constraint axes. */
    method CalculateAngleInfo(lib: Libm)
      requires Valid()
      modifies this`calculatedAxisAngleDiff, this`calculatedAxis
      ensures Valid() && AngleInfoHolds(lib)
    {
      var relativeFrame := Mul(lib.inverse(calculatedTransformA.basis), calculatedTransformB.basis);
      var e := MatrixToEulerXYZ(lib, relativeFrame);
      calculatedAxisAngleDiff := e.angles;
      var axis0 := Column(calculatedTransformB.basis, 0);
      var axis2 := Column(calculatedTransformA.basis, 2);
      calculatedAxis := calculatedAxis[1 := Cross(axis2, axis0)];
      calculatedAxis := calculatedAxis[0 := Cross(calculatedAxis[1], axis2)];
      calculatedAxis := calculatedAxis[2 := Cross(axis0, calculatedAxis[1])];
    }

    /** calculateTransforms: each frame carried into world space by its body's
        centre-of-mass transform, then the angle information. */
    method CalculateTransforms(rbA: RigidBody, rbB: RigidBody, lib: Libm)
      requires Valid()
      modifies this`calculatedTransformA, this`calculatedTransformB,
               this`calculatedAxisAngleDiff, this`calculatedAxis
      ensures Valid() && AngleInfoHolds(lib)
      ensures calculatedTransformA == Compose(rbA.centerOfMassTransform, frameInA)
      ensures calculatedTransformB == Compose(rbB.centerOfMassTransform, frameInB)
    {
      calculatedTransformA := Compose(rbA.centerOfMassTransform, frameInA);
      calculatedTransformB := Compose(rbB.centerOfMassTransform, frameInB);
      CalculateAngleInfo(lib);
    }

    /** calcAnchorPos. */
    method CalcAnchorPos(rbA: RigidBody, rbB: RigidBody)
      requires rbB.invMass == 0.0 || rbA.invMass + rbB.invMass != 0.0
      modifies this`anchorPos
      ensures anchorPos == AnchorPoint(calculatedTransformA.origin, calculatedTransformB.origin,
                                       rbA.invMass, rbB.invMass)
    {
      var imA := rbA.invMass;
      var imB := rbB.invMass;
      var weight: real;
      if imB == 0.0 {
        weight := 1.0;
      } else {
        weight := imA / (imA + imB);
      }
      var pA := calculatedTransformA.origin;
      var pB := calculatedTransformB.origin;
      anchorPos := Add(Scale(pA, weight), Scale(pB, 1.0 - weight));
    }

    /** testAngularLimitMotor: test axis `i`'s angle against its limits and
        report whether the axis is armed. */
    method TestAngularLimitMotor(i: int) returns (armed: bool)
      requires Valid() && 0 <= i < 3
      modifies angularLimits[i]
      ensures angularLimits[i].Value() == AfterTest(old(angularLimits[i].Value()), Get(calculatedAxisAngleDiff, i))
      ensures armed == NeedApplyTorques(angularLimits[i].Value())
    {
      var angle := Get(calculatedAxisAngleDiff, i);
      var _ := angularLimits[i].TestLimitValue(angle);
      armed := NeedApplyTorques(angularLimits[i].Value());
    }

    /** The loop getInfo1 and buildJacobian share: test every angular limit
        against the current angle, and count the armed axes. */
    method TestAngularLimits() returns (armedCount: int)
      requires Valid()
      modifies angularLimits
      ensures forall i | 0 <= i < 3 ::
        angularLimits[i].Value() == AfterTest(old(angularLimits[i].Value()), Get(calculatedAxisAngleDiff, i))
      ensures armedCount == CountArmed(Armed())
    {
      ghost var before := AngularValues();
      ghost var after := Tested(before, calculatedAxisAngleDiff);
      armedCount := 0;
      for i := 0 to 3
        invariant forall k | 0 <= k < 3 :: angularLimits[k].Value() == if k < i then after[k] else before[k]
        invariant armedCount == CountArmed(ArmedAxes(after)[..i])
      {
        var armed := TestAngularLimitMotor(i);
        CountArmedStep(ArmedAxes(after), i);
        if armed {
          armedCount := armedCount + 1;
        }
      }
      assert ArmedAxes(after)[..3] == ArmedAxes(after);
      assert AngularValues() == after;
    }

    /** getInfo1: no rows on the obsolete path; otherwise the three linear
        rows plus one per armed rotational axis, after recomputing the frames
        and testing every angular limit. */
    method GetInfo1(rbA: RigidBody, rbB: RigidBody, lib: Libm) returns (numConstraintRows: int, nub: int)
      requires Valid()
      modifies this`calculatedTransformA, this`calculatedTransformB,
               this`calculatedAxisAngleDiff, this`calculatedAxis, angularLimits
      ensures Valid()
      ensures useSolveConstraintObsolete ==>
        numConstraintRows == 0 && nub == 0 &&
        calculatedTransformA == old(calculatedTransformA) && calculatedTransformB == old(calculatedTransformB) &&
        calculatedAxisAngleDiff == old(calculatedAxisAngleDiff) && calculatedAxis == old(calculatedAxis) &&
        forall i | 0 <= i < 3 :: angularLimits[i].Value() == old(angularLimits[i].Value())
      ensures !useSolveConstraintObsolete ==>
        calculatedTransformA == Compose(rbA.centerOfMassTransform, frameInA) &&
        calculatedTransformB == Compose(rbB.centerOfMassTransform, frameInB) &&
        AngleInfoHolds(lib) &&
        (forall i | 0 <= i < 3 ::
           angularLimits[i].Value() == AfterTest(old(angularLimits[i].Value()), Get(calculatedAxisAngleDiff, i))) &&
        numConstraintRows == 3 + CountArmed(Armed()) && nub == 3 &&
        3 <= numConstraintRows <= 6
    {
      if useSolveConstraintObsolete {
        numConstraintRows := 0;
        nub := 0;
        return;
      }
      CalculateTransforms(rbA, rbB, lib);
      numConstraintRows := 3;
      nub := 3;
      var armedCount := TestAngularLimits();
      numConstraintRows := numConstraintRows + armedCount;
    }

    /** The diagonal buildLinearJacobian gives linear axis `i`: its world
        direction, with both pivots at the anchor. */
    function LinearJacobianDiagonal(rbA: RigidBody, rbB: RigidBody, jac: JacobianDiagonals, i: int): real
      requires 0 <= i < 3
      reads this`useLinearReferenceFrameA, this`calculatedTransformA, this`calculatedTransformB, this`anchorPos
    {
      jac.linear(rbA, rbB, LinearAxis(i),
                 Sub(anchorPos, CenterOfMassPosition(rbA)), Sub(anchorPos, CenterOfMassPosition(rbB)))
    }

    /** The start of buildJacobian: every accumulated impulse cleared. */
    method ResetAccumulators()
      requires Valid()
      modifies linearLimits`accumulatedImpulse, angularLimits
      ensures linearLimits.accumulatedImpulse == Zero
      ensures forall i | 0 <= i < 3 ::
        angularLimits[i].Value() == old(angularLimits[i].Value()).(accumulatedImpulse := 0.0)
    {
      linearLimits.accumulatedImpulse := Zero;
      ghost var before := AngularValues();
      for i := 0 to 3
        modifies angularLimits
        invariant forall k | 0 <= k < 3 ::
          angularLimits[k].Value() == if k < i then before[k].(accumulatedImpulse := 0.0) else before[k]
      {
        angularLimits[i].accumulatedImpulse := 0.0;
      }
    }

    /** buildJacobian's linear loop: a Jacobian entry for every limited
        linear axis; the others keep theirs. */
    method BuildLinearJacobians(rbA: RigidBody, rbB: RigidBody, jac: JacobianDiagonals)
      modifies this`jacLinearDiagonal
      ensures forall i | 0 <= i < 3 ::
        Get(jacLinearDiagonal, i) ==
          if linearLimits.IsLimited(i) then LinearJacobianDiagonal(rbA, rbB, jac, i)
          else Get(old(jacLinearDiagonal), i)
    {
      var pivotAInW := anchorPos;
      var pivotBInW := anchorPos;
      for i := 0 to 3
        invariant forall k | 0 <= k < 3 ::
          Get(jacLinearDiagonal, k) ==
            if k < i && linearLimits.IsLimited(k) then LinearJacobianDiagonal(rbA, rbB, jac, k)
            else Get(old(jacLinearDiagonal), k)
      {
        if linearLimits.IsLimited(i) {
          var normalWorld: Vec3;
          if useLinearReferenceFrameA {
            normalWorld := Column(calculatedTransformA.basis, i);
          } else {
            normalWorld := Column(calculatedTransformB.basis, i);
          }
          var diagonal := jac.linear(rbA, rbB, normalWorld, Sub(pivotAInW, CenterOfMassPosition(rbA)),
                                     Sub(pivotBInW, CenterOfMassPosition(rbB)));
          jacLinearDiagonal := With(jacLinearDiagonal, i, diagonal);
        }
      }
    }

    /** buildJacobian's angular loop: test every angular limit, and build a
        Jacobian entry along the constraint axis of every armed one. */
    method BuildAngularJacobians(rbA: RigidBody, rbB: RigidBody, jac: JacobianDiagonals)
      requires Valid()
      modifies angularLimits, this`jacAngularDiagonal
      ensures forall i | 0 <= i < 3 ::
        angularLimits[i].Value() == AfterTest(old(angularLimits[i].Value()), Get(calculatedAxisAngleDiff, i))
      ensures forall i | 0 <= i < 3 ::
        Get(jacAngularDiagonal, i) ==
          if NeedApplyTorques(angularLimits[i].Value()) then jac.angular(rbA, rbB, calculatedAxis[i])
          else Get(old(jacAngularDiagonal), i)
    {
      ghost var before := AngularValues();
      ghost var after := Tested(before, calculatedAxisAngleDiff);
      for i := 0 to 3
        invariant forall k | 0 <= k < 3 :: angularLimits[k].Value() == if k < i then after[k] else before[k]
        invariant forall k | 0 <= k < 3 ::
          Get(jacAngularDiagonal, k) ==
            if k < i && NeedApplyTorques(after[k]) then jac.angular(rbA, rbB, calculatedAxis[k])
            else Get(old(jacAngularDiagonal), k)
      {
        var armed := TestAngularLimitMotor(i);
        if armed {
          var normalWorld := calculatedAxis[i];
          jacAngularDiagonal := With(jacAngularDiagonal, i, jac.angular(rbA, rbB, normalWorld));
        }
      }
    }

    /** buildJacobian: on the obsolete path, clear the accumulators, recompute
        the frames and the anchor, and build the Jacobian entries of the
        limited linear axes and the armed angular axes; otherwise nothing. */
    method BuildJacobian(rbA: RigidBody, rbB: RigidBody, lib: Libm, jac: JacobianDiagonals)
      requires Valid()
      requires useSolveConstraintObsolete ==> rbB.invMass == 0.0 || rbA.invMass + rbB.invMass != 0.0
      modifies this`calculatedTransformA, this`calculatedTransformB, this`calculatedAxisAngleDiff,
               this`calculatedAxis, this`anchorPos, this`jacLinearDiagonal, this`jacAngularDiagonal,
               linearLimits`accumulatedImpulse, angularLimits
      ensures Valid()
      ensures !useSolveConstraintObsolete ==> unchanged(this, linearLimits) && unchanged(angularLimits)
      ensures useSolveConstraintObsolete ==>
        linearLimits.accumulatedImpulse == Zero &&
        calculatedTransformA == Compose(rbA.centerOfMassTransform, frameInA) &&
        calculatedTransformB == Compose(rbB.centerOfMassTransform, frameInB) &&
        AngleInfoHolds(lib) &&
        anchorPos == AnchorPoint(calculatedTransformA.origin, calculatedTransformB.origin, rbA.invMass, rbB.invMass)
      ensures useSolveConstraintObsolete ==>
        forall i | 0 <= i < 3 ::
          angularLimits[i].Value() ==
            AfterTest(old(angularLimits[i].Value()).(accumulatedImpulse := 0.0), Get(calculatedAxisAngleDiff, i))
      ensures useSolveConstraintObsolete ==>
        forall i | 0 <= i < 3 ::
          Get(jacLinearDiagonal, i) ==
            if linearLimits.IsLimited(i) then LinearJacobianDiagonal(rbA, rbB, jac, i)
            else Get(old(jacLinearDiagonal), i)
      ensures useSolveConstraintObsolete ==>
        forall i | 0 <= i < 3 ::
          Get(jacAngularDiagonal, i) ==
            if NeedApplyTorques(angularLimits[i].Value()) then jac.angular(rbA, rbB, calculatedAxis[i])
            else Get(old(jacAngularDiagonal), i)
    {
      if useSolveConstraintObsolete {
        ResetAccumulators();
        CalculateTransforms(rbA, rbB, lib);
        CalcAnchorPos(rbA, rbB);
        BuildLinearJacobians(rbA, rbB, jac);
        BuildAngularJacobians(rbA, rbB, jac);
      }
    }

    /** The linear loop of solveConstraintObsolete as it sees the constraint
        now, with body velocities at the anchor `velA` and `velB`. */
    ghost function LinearSweepOf(rbA: RigidBody, rbB: RigidBody, velA: seq<Vec3>, velB: seq<Vec3>): LinearSweep
      reads this, linearLimits
    {
      LinearSweep(linearLimits.Value(), [LinearAxis(0), LinearAxis(1), LinearAxis(2)],
                  calculatedTransformA.origin, calculatedTransformB.origin, anchorPos,
                  rbA, rbB, timeStep, jacLinearDiagonal, velA, velB)
    }

    /** The angular loop of solveConstraintObsolete as it sees the constraint
        now, with body angular velocities `velA` and `velB`. */
    ghost function AngularSweepOf(rbA: RigidBody, rbB: RigidBody, velA: seq<Vec3>, velB: seq<Vec3>): AngularSweep
      requires Valid()
      reads this, angularLimits
    {
      AngularSweep(AngularValues(), calculatedAxis, rbA, rbB, timeStep, jacAngularDiagonal, velA, velB)
    }

    /** solveConstraintObsolete's linear loop: solveLinearAxis on every
        limited axis, along frame A's or frame B's axis. */
    method SolveLinearAxes(bodyA: SolverBody, bodyB: SolverBody, rbA: RigidBody, rbB: RigidBody,
                           velA: seq<Vec3>, velB: seq<Vec3>)
      requires LinearSweepOf(rbA, rbB, velA, velB).WellFormed()
      requires bodyA != bodyB
      modifies linearLimits`accumulatedImpulse, bodyA, bodyB
      ensures var s := old(LinearSweepOf(rbA, rbB, velA, velB));
              linearLimits.accumulatedImpulse == LinearAccumulated(s, 3) &&
              bodyA.applied == old(bodyA.applied) + LinearLog(s, 3, true) &&
              bodyB.applied == old(bodyB.applied) + LinearLog(s, 3, false)
    {
      ghost var s := LinearSweepOf(rbA, rbB, velA, velB);
      var pointInA := calculatedTransformA.origin;
      var pointInB := calculatedTransformB.origin;
      for i := 0 to 3
        invariant linearLimits.Value() == s.motor.(accumulatedImpulse := LinearAccumulated(s, i))
        invariant bodyA.applied == old(bodyA.applied) + LinearLog(s, i, true)
        invariant bodyB.applied == old(bodyB.applied) + LinearLog(s, i, false)
      {
        SolveLinearAxisOf(i, bodyA, bodyB, rbA, rbB, pointInA, pointInB, velA, velB, s);
        SeqAppendAssoc(old(bodyA.applied), LinearLog(s, i, true), LinearStep(s, i, true));
        SeqAppendAssoc(old(bodyB.applied), LinearLog(s, i, false), LinearStep(s, i, false));
      }
    }

    /** One pass of the linear loop: solve axis `i` if it is limited. `s`
        describes the loop, and the first `i` axes have been solved. */
    method SolveLinearAxisOf(i: int, bodyA: SolverBody, bodyB: SolverBody, rbA: RigidBody, rbB: RigidBody,
                             pointInA: Vec3, pointInB: Vec3, velA: seq<Vec3>, velB: seq<Vec3>,
                             ghost s: LinearSweep)
      requires s.WellFormed() && 0 <= i < 3
      requires linearLimits.Value() == s.motor.(accumulatedImpulse := LinearAccumulated(s, i))
      requires s.axes == [LinearAxis(0), LinearAxis(1), LinearAxis(2)] &&
               pointInA == s.pointInA && pointInB == s.pointInB && anchorPos == s.anchorPos &&
               timeStep == s.dt && jacLinearDiagonal == s.diagonals &&
               rbA == s.rbA && rbB == s.rbB && velA == s.velA && velB == s.velB
      requires bodyA != bodyB
      modifies linearLimits`accumulatedImpulse, bodyA, bodyB
      ensures linearLimits.Value() == s.motor.(accumulatedImpulse := LinearAccumulated(s, i + 1))
      ensures bodyA.applied == old(bodyA.applied) + LinearStep(s, i, true)
      ensures bodyB.applied == old(bodyB.applied) + LinearStep(s, i, false)
    {
      if linearLimits.IsLimited(i) {
        var jacDiagABInv := 1.0 / Get(jacLinearDiagonal, i);
        var linearAxis: Vec3;
        if useLinearReferenceFrameA {
          linearAxis := Column(calculatedTransformA.basis, i);
        } else {
          linearAxis := Column(calculatedTransformB.basis, i);
        }
        LinearAccumulatedAhead(s, i, i);
        LinearSolveReadsOneComponent(s.motor, LinearAccumulated(s, i), i, Depth(pointInA, pointInB, linearAxis),
                                     timeStep, Dot(linearAxis, Sub(velA[i], velB[i])), jacDiagABInv);
        var _ := linearLimits.SolveLinearAxis(timeStep, jacDiagABInv, rbA, bodyA, pointInA, rbB, bodyB, pointInB,
                                              i, linearAxis, anchorPos, velA[i], velB[i]);
      }
    }

    /** solveConstraintObsolete's angular loop: solveAngularLimits on every
        armed axis, along its constraint axis. */
    method SolveAngularAxes(bodyA: SolverBody, bodyB: SolverBody, rbA: RigidBody, rbB: RigidBody,
                            velA: seq<Vec3>, velB: seq<Vec3>)
      requires Valid() && AngularSweepOf(rbA, rbB, velA, velB).WellFormed()
      requires bodyA != bodyB
      modifies angularLimits, bodyA, bodyB
      ensures var s := old(AngularSweepOf(rbA, rbB, velA, velB));
              (forall i | 0 <= i < 3 :: angularLimits[i].Value() == AngularAfter(s, i)) &&
              bodyA.applied == old(bodyA.applied) + AngularLog(s, 3, true) &&
              bodyB.applied == old(bodyB.applied) + AngularLog(s, 3, false)
    {
      ghost var s := AngularSweepOf(rbA, rbB, velA, velB);
      for i := 0 to 3
        invariant forall k | 0 <= k < 3 ::
          angularLimits[k].Value() == if k < i then AngularAfter(s, k) else s.motors[k]
        invariant bodyA.applied == old(bodyA.applied) + AngularLog(s, i, true)
        invariant bodyB.applied == old(bodyB.applied) + AngularLog(s, i, false)
      {
        SolveAngularAxis(i, bodyA, bodyB, rbA, rbB, velA, velB, s);
        SeqAppendAssoc(old(bodyA.applied), AngularLog(s, i, true), AngularStep(s, i, true));
        SeqAppendAssoc(old(bodyB.applied), AngularLog(s, i, false), AngularStep(s, i, false));
      }
    }

    /** One pass of the angular loop: solve axis `i` if it is armed. `s`
        describes the loop; the motor of axis `i` has not been touched yet. */
    method SolveAngularAxis(i: int, bodyA: SolverBody, bodyB: SolverBody, rbA: RigidBody, rbB: RigidBody,
                            velA: seq<Vec3>, velB: seq<Vec3>, ghost s: AngularSweep)
      requires Valid() && s.WellFormed() && 0 <= i < 3
      requires angularLimits[i].Value() == s.motors[i] && calculatedAxis == s.axes &&
               timeStep == s.dt && jacAngularDiagonal == s.diagonals &&
               rbA == s.rbA && rbB == s.rbB && velA == s.velA && velB == s.velB
      requires bodyA != bodyB
      modifies angularLimits[i], bodyA, bodyB
      ensures angularLimits[i].Value() == AngularAfter(s, i)
      ensures bodyA.applied == old(bodyA.applied) + AngularStep(s, i, true)
      ensures bodyB.applied == old(bodyB.applied) + AngularStep(s, i, false)
    {
      if NeedApplyTorques(angularLimits[i].Value()) {
        var angularAxis := calculatedAxis[i];
        var angularJacDiagABInv := 1.0 / Get(jacAngularDiagonal, i);
        var _ := angularLimits[i].SolveAngularLimits(timeStep, angularAxis, angularJacDiagABInv,
                                                     rbA, bodyA, rbB, bodyB, velA[i], velB[i]);
      }
    }

    /** solveConstraintObsolete: on the obsolete path, record the time step,
        then solve the limited linear axes and the armed angular axes in
        turn; otherwise nothing. The velocities each solve reads from the
        solver bodies are given: `linVelA[i]`, `linVelB[i]` at the anchor for
        linear axis `i`, `angVelA[i]`, `angVelB[i]` for angular axis `i`. */
    method SolveConstraintObsolete(bodyA: SolverBody, bodyB: SolverBody, timeStep: real,
                                   rbA: RigidBody, rbB: RigidBody,
                                   linVelA: seq<Vec3>, linVelB: seq<Vec3>,
                                   angVelA: seq<Vec3>, angVelB: seq<Vec3>)
      requires Valid()
      requires useSolveConstraintObsolete ==>
        bodyA != bodyB &&
        LinearSweepOf(rbA, rbB, linVelA, linVelB).(dt := timeStep).WellFormed() &&
        AngularSweepOf(rbA, rbB, angVelA, angVelB).(dt := timeStep).WellFormed()
      modifies this`timeStep, linearLimits`accumulatedImpulse, angularLimits, bodyA, bodyB
      ensures Valid()
      ensures !useSolveConstraintObsolete ==>
        unchanged(this, linearLimits, bodyA, bodyB) && unchanged(angularLimits)
      ensures useSolveConstraintObsolete ==>
        var ls := old(LinearSweepOf(rbA, rbB, linVelA, linVelB)).(dt := timeStep);
        var asw := old(AngularSweepOf(rbA, rbB, angVelA, angVelB)).(dt := timeStep);
        this.timeStep == timeStep &&
        linearLimits.accumulatedImpulse == LinearAccumulated(ls, 3) &&
        (forall i | 0 <= i < 3 :: angularLimits[i].Value() == AngularAfter(asw, i)) &&
        bodyA.applied == old(bodyA.applied) + LinearLog(ls, 3, true) + AngularLog(asw, 3, true) &&
        bodyB.applied == old(bodyB.applied) + LinearLog(ls, 3, false) + AngularLog(asw, 3, false)
    {
      if useSolveConstraintObsolete {
        this.timeStep := timeStep;
        SolveLinearAxes(bodyA, bodyB, rbA, rbB, linVelA, linVelB);
        SolveAngularAxes(bodyA, bodyB, rbA, rbB, angVelA, angVelB);
      }
    }

    /** getInfo2: the three linear rows, then, from row 3 on, one row per
        armed rotational axis in axis order. The buffers must have room for
        the rows getInfo1 counted. */
    method GetInfo2(info: ConstraintInfo2, rbA: RigidBody, rbB: RigidBody)
      requires Valid() && info.Valid() && !useSolveConstraintObsolete
      requires 3 + CountArmed(Armed()) <= info.rows
      modifies info.j1LinearAxis, info.j1AngularAxis, info.j2AngularAxis, info.cfm, info.constraintError,
               info.lowerLimit, info.upperLimit
      ensures LinearRowsHold(info, rbA, rbB)
      ensures AngularRowsFrom(Buffers(info), Armed(), calculatedAxis,
                              MotorRows(AngularValues(), calculatedAxis, info.fps, rbA, rbB), 3, info.rowskip)
    {
      var row := SetLinearLimits(info, rbA, rbB);
      ghost var mid := Buffers(info);
      ghost var j1 := info.j1LinearAxis[..];
      row := SetAngularLimits(info, row, rbA, rbB);
      ghost var armed := Armed();
      ghost var s := info.rowskip;
      ghost var values := MotorRows(AngularValues(), calculatedAxis, info.fps, rbA, rbB);
      AngularRowsSpareLinear(mid, armed, calculatedAxis, values, s, |armed|, j1,
                             MulVec(rbA.centerOfMassTransform.basis, frameInA.origin),
                             MulVec(rbB.centerOfMassTransform.basis, frameInB.origin), info.fps * info.erp,
                             Apply(rbA.centerOfMassTransform, frameInA.origin),
                             Apply(rbB.centerOfMassTransform, frameInB.origin));
      AngularRowsFromThree(mid, armed, calculatedAxis, values, s, |armed|);
    }

    /** What setLinearLimits leaves in the first three rows: ones on the
        diagonal of the J1 linear block, the cross-product matrices of the
        two frame offsets in the J1 and J2 angular blocks, and the
        positional error between the two frame origins on the right. */
    ghost predicate LinearRowsHold(info: ConstraintInfo2, rbA: RigidBody, rbB: RigidBody)
      requires info.Valid()
      reads this`frameInA, this`frameInB, info.j1LinearAxis, info.j1AngularAxis, info.j2AngularAxis,
            info.cfm, info.constraintError, info.lowerLimit, info.upperLimit
    {
      3 * info.rowskip <= info.rows * info.rowskip &&
      LinearRowsIn(info.j1LinearAxis[..], Buffers(info), info.rowskip,
                   MulVec(rbA.centerOfMassTransform.basis, frameInA.origin),
                   MulVec(rbB.centerOfMassTransform.basis, frameInB.origin), info.fps * info.erp,
                   Apply(rbA.centerOfMassTransform, frameInA.origin),
                   Apply(rbB.centerOfMassTransform, frameInB.origin))
    }

    /** setLinearLimits: fill the three linear rows, touching nothing else,
        and report three rows used. */
    method SetLinearLimits(info: ConstraintInfo2, rbA: RigidBody, rbB: RigidBody) returns (row: int)
      requires info.Valid() && info.rows >= 3
      modifies info.j1LinearAxis, info.j1AngularAxis, info.j2AngularAxis, info.constraintError
      ensures row == 3
      ensures LinearRowsHold(info, rbA, rbB)
      ensures var s := info.rowskip;
              forall k | 0 <= k < info.j1LinearAxis.Length && k != 0 && k != s + 1 && k != 2 * s + 2 ::
                info.j1LinearAxis[k] == old(info.j1LinearAxis[k])
      ensures SameOutsideBlock(info.j1AngularAxis, info.rowskip) && SameOutsideBlock(info.j2AngularAxis, info.rowskip)
      ensures var s := info.rowskip;
              forall k | 0 <= k < info.constraintError.Length && k != 0 && k != s && k != 2 * s ::
                info.constraintError[k] == old(info.constraintError[k])
    {
      var body0Trans := rbA.centerOfMassTransform;
      var body1Trans := rbB.centerOfMassTransform;
      var s := info.rowskip;
      RowBelow(2, info.rows, s);
      info.j1LinearAxis[0] := 1.0;
      info.j1LinearAxis[s + 1] := 1.0;
      info.j1LinearAxis[2 * s + 2] := 1.0;
      var a1 := MulVec(body0Trans.basis, frameInA.origin);
      WriteSkewSymmetric(info.j1AngularAxis, s, Neg(a1));
      var a2 := MulVec(body1Trans.basis, frameInB.origin);
      WriteSkewSymmetric(info.j2AngularAxis, s, a2);
      SetLinearErrors(info, a1, body0Trans.origin, a2, body1Trans.origin);
      return 3;
    }

    /** setLinearLimits' right-hand sides: row `j` gets `fps * erp` times
        component `j` of `(a2 + origin1) - (a1 + origin0)`. */
    method SetLinearErrors(info: ConstraintInfo2, a1: Vec3, origin0: Vec3, a2: Vec3, origin1: Vec3)
      requires info.Valid() && 3 * info.rowskip <= info.rows * info.rowskip
      modifies info.constraintError
      ensures var k := info.fps * info.erp;
              var s := info.rowskip;
              info.constraintError[0] == LinearRowError(k, Add(a1, origin0), Add(a2, origin1), 0) &&
              info.constraintError[s] == LinearRowError(k, Add(a1, origin0), Add(a2, origin1), 1) &&
              info.constraintError[2 * s] == LinearRowError(k, Add(a1, origin0), Add(a2, origin1), 2)
      ensures var s := info.rowskip;
              forall n | 0 <= n < info.constraintError.Length && n != 0 && n != s && n != 2 * s ::
                info.constraintError[n] == old(info.constraintError[n])
    {
      var s := info.rowskip;
      var k := info.fps * info.erp;
      ghost var originA := Add(a1, origin0);
      ghost var originB := Add(a2, origin1);
      for j := 0 to 3
        invariant j > 0 ==> info.constraintError[0] == LinearRowError(k, originA, originB, 0)
        invariant j > 1 ==> info.constraintError[s] == LinearRowError(k, originA, originB, 1)
        invariant j > 2 ==> info.constraintError[2 * s] == LinearRowError(k, originA, originB, 2)
        invariant forall n | 0 <= n < info.constraintError.Length &&
                             !(n == 0 && j > 0) && !(n == s && j > 1) && !(n == 2 * s && j > 2) ::
                    info.constraintError[n] == old(info.constraintError[n])
      {
        assert s * j == if j == 0 then 0 else if j == 1 then s else 2 * s;
        info.constraintError[s * j] := k * (Get(a2, j) + Get(origin1, j) - Get(a1, j) - Get(origin0, j));
      }
    }

    /** setAngularLimits: one row per armed axis, in axis order, from row
        `rowOffset` on (see AngularRowsWritten); the returned row is the
        next free one. */
    method SetAngularLimits(info: ConstraintInfo2, rowOffset: int, rbA: RigidBody, rbB: RigidBody) returns (row: int)
      requires Valid() && info.Valid()
      requires 0 <= rowOffset && rowOffset + CountArmed(Armed()) <= info.rows
      modifies info.j1AngularAxis, info.j2AngularAxis, info.cfm, info.constraintError,
               info.lowerLimit, info.upperLimit
      ensures row == rowOffset + CountArmed(Armed())
      ensures RowStart(Armed(), rowOffset * info.rowskip, info.rowskip, |Armed()|) == row * info.rowskip <= info.rows * info.rowskip
      ensures Buffers(info) == AngularRowsWritten(old(Buffers(info)), Armed(), calculatedAxis,
                                                  MotorRows(AngularValues(), calculatedAxis, info.fps, rbA, rbB),
                                                  rowOffset * info.rowskip, info.rowskip, |Armed()|)
    {
      ghost var b0 := Buffers(info);
      ghost var armed := Armed();
      ghost var axes := calculatedAxis;
      ghost var values := MotorRows(AngularValues(), calculatedAxis, info.fps, rbA, rbB);
      var s := info.rowskip;
      assert armed[..3] == armed;
      ScaleMono(rowOffset + CountArmed(armed), info.rows, s);
      ScaleMono(rowOffset, info.rows, s);
      RowStartIsRowTimesStride(armed, rowOffset, s, 3);
      row := rowOffset;
      for i := 0 to 3
        invariant row == rowOffset + CountArmed(armed[..i])
        invariant row * s == RowStart(armed, rowOffset * s, s, i)
        invariant Buffers(info) == AngularRowsWritten(b0, armed, axes, values, rowOffset * s, s, i)
      {
        RowStartBelow(armed, rowOffset * s, s, i + 1, 3);
        row := SetAngularRow(info, i, row, rbA, rbB, rowOffset, b0, armed, values);
      }
    }

    /** One pass of setAngularLimits' loop: the row of axis `i`, if armed,
        goes at row `row`, which then advances. */
    method SetAngularRow(info: ConstraintInfo2, i: int, row: int, rbA: RigidBody, rbB: RigidBody,
                         ghost rowOffset: int, ghost b0: RowBuffers, ghost armed: seq<bool>,
                         ghost values: seq<RowValues>) returns (next: int)
      requires Valid() && info.Valid() && 0 <= i < 3
      requires armed == Armed() && values == MotorRows(AngularValues(), calculatedAxis, info.fps, rbA, rbB)
      requires 0 <= rowOffset && rowOffset + CountArmed(armed) <= info.rows
      requires Uniform(b0) && |b0.j1Angular| == info.rows * info.rowskip
      requires row == rowOffset + CountArmed(armed[..i])
      requires row * info.rowskip == RowStart(armed, rowOffset * info.rowskip, info.rowskip, i)
      requires RowStart(armed, rowOffset * info.rowskip, info.rowskip, i + 1) <= info.rows * info.rowskip
      requires Buffers(info) == AngularRowsWritten(b0, armed, calculatedAxis, values, rowOffset * info.rowskip, info.rowskip, i)
      modifies info.j1AngularAxis, info.j2AngularAxis, info.cfm, info.constraintError,
               info.lowerLimit, info.upperLimit
      ensures next == rowOffset + CountArmed(armed[..i + 1])
      ensures next * info.rowskip == RowStart(armed, rowOffset * info.rowskip, info.rowskip, i + 1)
      ensures Buffers(info) == AngularRowsWritten(b0, armed, calculatedAxis, values, rowOffset * info.rowskip, info.rowskip, i + 1)
    {
      var s := info.rowskip;
      CountArmedStep(armed, i);
      next := row;
      if NeedApplyTorques(angularLimits[i].Value()) {
        CountArmedBelow(armed, i, 3);
        assert armed[..3] == armed;
        var r := GetLimitMotorInfo2(angularLimits[i], rbA, rbB, info, row, calculatedAxis[i]);
        assert (row + 1) * s == row * s + s;
        next := row + r;
      }
    }
  }
}
