/** What one call of solveConstraintObsolete does, as functions of the
    constraint's state when the call starts: the linear loop solves every
    limited axis, the angular loop every armed axis, each solve pushing one
    impulse into body A and its opposite into body B. */
module SweepRules {
  import opened Geometry
  import opened LimitRules
  import opened LimitMotors

  // ------------------------------------------------------------ linear loop

  /** What the linear loop reads: the motor, the three world axes, the frame
      origins, the anchor, the bodies, the time step, the Jacobian
      diagonals, and the velocities at the anchor each solve sees. */
  datatype LinearSweep = LinearSweep(
    motor: TranslationalMotor, axes: seq<Vec3>,
    pointInA: Vec3, pointInB: Vec3, anchorPos: Vec3,
    rbA: RigidBody, rbB: RigidBody, dt: real, diagonals: Vec3,
    velA: seq<Vec3>, velB: seq<Vec3>)
  {
    /** Three axes and velocities, a time step to divide by, and a
        non-zero diagonal for every limited axis. */
    predicate WellFormed()
    {
      |axes| == 3 && |velA| == 3 && |velB| == 3 && dt != 0.0 &&
      forall i | 0 <= i < 3 && AxisLimited(motor, i) :: Get(diagonals, i) != 0.0
    }
  }

  /** The solve of linear axis `i`: skipped when the axis is not limited,
      otherwise solveLinearAxis on the motor the loop started with. */
  function LinearAxisSolve(s: LinearSweep, i: int): (o: Outcome)
    requires s.WellFormed() && 0 <= i < 3
    ensures !AxisLimited(s.motor, i) ==> o == Skipped
  {
    if !AxisLimited(s.motor, i) then Skipped
    else LinearSolve(s.motor, i, Depth(s.pointInA, s.pointInB, s.axes[i]), s.dt,
                     Dot(s.axes[i], Sub(s.velA[i], s.velB[i])), 1.0 / Get(s.diagonals, i))
  }

  /** The impulse solveLinearAxis pushes into body A (`onA`) or body B for
      axis `i` and magnitude `impulse`: B gets the opposite magnitude. */
  function LinearBodyImpulse(s: LinearSweep, i: int, onA: bool, impulse: real): BodyImpulse
    requires s.WellFormed() && 0 <= i < 3
  {
    var n := s.axes[i];
    if onA then
      BodyImpulse(Scale(n, s.rbA.invMass),
                  MulVec(s.rbA.invInertiaTensorWorld, Cross(Sub(s.anchorPos, CenterOfMassPosition(s.rbA)), n)),
                  impulse)
    else
      BodyImpulse(Scale(n, s.rbB.invMass),
                  MulVec(s.rbB.invInertiaTensorWorld, Cross(Sub(s.anchorPos, CenterOfMassPosition(s.rbB)), n)),
                  -impulse)
  }

  /** The impulses the solve of linear axis `i` pushes into one body. */
  function LinearStep(s: LinearSweep, i: int, onA: bool): seq<BodyImpulse>
    requires s.WellFormed() && 0 <= i < 3
  {
    match LinearAxisSolve(s, i)
    case Skipped => []
    case Applied(impulse, _) => [LinearBodyImpulse(s, i, onA, impulse)]
  }

  /** The impulses the first `n` linear axes push into one body, in order. */
  function LinearLog(s: LinearSweep, n: int, onA: bool): seq<BodyImpulse>
    requires s.WellFormed() && 0 <= n <= 3
  {
    if n == 0 then [] else LinearLog(s, n - 1, onA) + LinearStep(s, n - 1, onA)
  }

  /** The accumulator after the first `n` linear axes are solved. */
  function LinearAccumulated(s: LinearSweep, n: int): Vec3
    requires s.WellFormed() && 0 <= n <= 3
  {
    if n == 0 then s.motor.accumulatedImpulse
    else
      match LinearAxisSolve(s, n - 1)
      case Skipped => LinearAccumulated(s, n - 1)
      case Applied(_, acc) => With(LinearAccumulated(s, n - 1), n - 1, acc)
  }

  /** The loop leaves the components it has not reached yet alone, so each
      axis is solved from the accumulator the loop started with. */
  lemma {:induction false} LinearAccumulatedAhead(s: LinearSweep, n: int, k: int)
    requires s.WellFormed() && 0 <= n <= k < 3
    ensures Get(LinearAccumulated(s, n), k) == Get(s.motor.accumulatedImpulse, k)
  {
    if n > 0 {
      LinearAccumulatedAhead(s, n - 1, k);
    }
  }

  /** After the loop, component `i` of the accumulator is the one the solve
      of axis `i` produced, or the old one when that solve was skipped; an
      unlimited axis keeps its accumulator. */
  lemma {:induction false} LinearAccumulatedFinal(s: LinearSweep, n: int, i: int)
    requires s.WellFormed() && 0 <= i < n <= 3
    ensures var o := LinearAxisSolve(s, i);
            Get(LinearAccumulated(s, n), i) ==
              if o.Applied? then o.accumulated else Get(s.motor.accumulatedImpulse, i)
  {
    if n - 1 > i {
      LinearAccumulatedFinal(s, n - 1, i);
    } else {
      LinearAccumulatedAhead(s, i, i);
    }
  }

  /** Every linear impulse comes in an equal and opposite pair: the two
      bodies receive the same number of impulses, with opposite
      magnitudes. */
  lemma {:induction false} LinearLogsOpposite(s: LinearSweep, n: int)
    requires s.WellFormed() && 0 <= n <= 3
    ensures |LinearLog(s, n, true)| == |LinearLog(s, n, false)| <= n
    ensures forall k | 0 <= k < |LinearLog(s, n, true)| ::
              LinearLog(s, n, false)[k].magnitude == -LinearLog(s, n, true)[k].magnitude
  {
    if n > 0 {
      LinearLogsOpposite(s, n - 1);
    }
  }

  // ------------------------------------------------------------ angular loop

  /** What the angular loop reads: the three motors, the constraint axes,
      the bodies, the time step, the Jacobian diagonals, and the angular
      velocities each solve sees. */
  datatype AngularSweep = AngularSweep(
    motors: seq<RotationalMotor>, axes: seq<Vec3>,
    rbA: RigidBody, rbB: RigidBody, dt: real, diagonals: Vec3,
    velA: seq<Vec3>, velB: seq<Vec3>)
  {
    /** Three motors, axes and velocities, a time step to divide by, and a
        non-zero diagonal for every armed axis. */
    predicate WellFormed()
    {
      |motors| == 3 && |axes| == 3 && |velA| == 3 && |velB| == 3 && dt != 0.0 &&
      forall i | 0 <= i < 3 && NeedApplyTorques(motors[i]) :: Get(diagonals, i) != 0.0
    }
  }

  /** The solve of angular axis `i`: skipped when the axis is not armed,
      otherwise solveAngularLimits on its motor. */
  function AngularAxisSolve(s: AngularSweep, i: int): (o: Outcome)
    requires s.WellFormed() && 0 <= i < 3
    ensures !NeedApplyTorques(s.motors[i]) ==> o == Skipped
  {
    if !NeedApplyTorques(s.motors[i]) then Skipped
    else AngularSolve(s.motors[i], s.dt, Dot(s.axes[i], Sub(s.velA[i], s.velB[i])), 1.0 / Get(s.diagonals, i))
  }

  /** The motor of axis `i` after the loop: only its accumulated impulse
      may have changed, and only if its solve was applied. */
  function AngularAfter(s: AngularSweep, i: int): (m: RotationalMotor)
    requires s.WellFormed() && 0 <= i < 3
    ensures m == s.motors[i].(accumulatedImpulse := m.accumulatedImpulse)
    ensures AngularAxisSolve(s, i).Skipped? ==> m == s.motors[i]
  {
    match AngularAxisSolve(s, i)
    case Skipped => s.motors[i]
    case Applied(_, acc) => s.motors[i].(accumulatedImpulse := acc)
  }

  /** The impulse solveAngularLimits pushes into body A (`onA`) or body B for
      axis `i` and magnitude `impulse`: B gets the opposite magnitude. */
  function AngularBodyImpulse(s: AngularSweep, i: int, onA: bool, impulse: real): BodyImpulse
    requires s.WellFormed() && 0 <= i < 3
  {
    if onA then BodyImpulse(Zero, MulVec(s.rbA.invInertiaTensorWorld, s.axes[i]), impulse)
    else BodyImpulse(Zero, MulVec(s.rbB.invInertiaTensorWorld, s.axes[i]), -impulse)
  }

  /** The impulses the solve of angular axis `i` pushes into one body. */
  function AngularStep(s: AngularSweep, i: int, onA: bool): seq<BodyImpulse>
    requires s.WellFormed() && 0 <= i < 3
  {
    match AngularAxisSolve(s, i)
    case Skipped => []
    case Applied(impulse, _) => [AngularBodyImpulse(s, i, onA, impulse)]
  }

  /** The impulses the first `n` angular axes push into one body, in order. */
  function AngularLog(s: AngularSweep, n: int, onA: bool): seq<BodyImpulse>
    requires s.WellFormed() && 0 <= n <= 3
  {
    if n == 0 then [] else AngularLog(s, n - 1, onA) + AngularStep(s, n - 1, onA)
  }

  /** Every angular impulse comes in an equal and opposite pair, and a pure
      torque: no linear component. */
  lemma {:induction false} AngularLogsOpposite(s: AngularSweep, n: int)
    requires s.WellFormed() && 0 <= n <= 3
    ensures |AngularLog(s, n, true)| == |AngularLog(s, n, false)| <= n
    ensures forall k | 0 <= k < |AngularLog(s, n, true)| ::
              AngularLog(s, n, false)[k].magnitude == -AngularLog(s, n, true)[k].magnitude &&
              AngularLog(s, n, true)[k].linearComponent == Zero &&
              AngularLog(s, n, false)[k].linearComponent == Zero
  {
    if n > 0 {
      AngularLogsOpposite(s, n - 1);
    }
  }

  /** No axis armed, no impulse: an angular loop over idle axes leaves both
      bodies alone. */
  lemma {:induction false} IdleAxesApplyNothing(s: AngularSweep, n: int, onA: bool)
    requires s.WellFormed() && 0 <= n <= 3
    requires forall i | 0 <= i < n :: !NeedApplyTorques(s.motors[i])
    ensures AngularLog(s, n, onA) == []
  {
    if n > 0 {
      IdleAxesApplyNothing(s, n - 1, onA);
    }
  }
}
