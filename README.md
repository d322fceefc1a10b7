# Generic 6-DoF constraint (Bullet), modelled in Dafny

This project models Bullet's generic six-degree-of-freedom joint,
`btGeneric6DofConstraint`. The joint ties a frame on rigid body A to a frame on
rigid body B along three translational axes and three rotational axes. Each
axis can be free, limited or locked. A rotational axis can also be driven by a
motor. The arithmetic is over `real`, and vectors and matrices are triples.

The model covers the whole decision and bookkeeping logic of
`btGeneric6DofConstraint.cpp`:

- `geometry.dfy` (`Geometry`): btVector3, btMatrix3x3 and btTransform. The
  numeric routines the constraint calls but does not define (`btAtan2`,
  `btAsin`, `SIMD_HALF_PI`, `btMatrix3x3::inverse`) are values of a `Libm`
  datatype, and nothing is assumed about them.
- `euler.dfy` (`EulerXYZ`): `btGetMatrixElem` and the three branches of
  `matrixToEulerXYZ`.
- `limit_rules.dfy` (`LimitRules`): the pure rules of both limit motors, as
  functions of a motor's field values. These are:
  - the limit test;
  - the choice of target velocity and impulse cap;
  - the per-call clip;
  - the accumulator rule;
  - the linear window.
- `limit_motors.dfy` (`LimitMotors`): `btRotationalLimitMotor` and
  `btTranslationalLimitMotor` as classes whose methods update their fields in
  place, each method proved against the rules above. A `SolverBody` records
  every `applyImpulse` call made on it.
- `rows.dfy` (`RowRules`): the scalar values `bt_get_limit_motor_info2` gives
  a row: right-hand side and bounds.
- `constraint_info.dfy` (`ConstraintRows`): the `btConstraintInfo2` row
  buffers as arrays with stride `rowskip`, `bt_get_limit_motor_info2`, and the
  skew-symmetric block writes of `setLinearLimits`.
- `sweep_rules.dfy` (`SweepRules`): what one call of `solveConstraintObsolete`
  does, as functions of the constraint's state at the start of the call.
- `constraint.dfy` (`Generic6Dof`): the constraint class, covering:
  - frames, angles, axes and the anchor;
  - limit testing;
  - `getInfo1`, `getInfo2`, `setLinearLimits` and `setAngularLimits`;
  - `buildJacobian` and `solveConstraintObsolete`.

### Notes on the code

The model follows the code in these points, which are easy to misread:

- **Euler elements.** `matrixToEulerXYZ` reads element 2 of the column-major
  flat index, which is `mat[2][0]`, not `mat[0][2]`. In the degenerate branches
  it reads elements 3 and 4, which are `mat[0][1]` and `mat[1][1]`.
- **Rotational accumulator.** The rotational accumulator resets to zero when
  the running sum leaves ±1e30. It is not unbounded, and it is not clamped to
  the bound.
- **Rotational cap.** The rotational cap is multiplied by the time step before
  the clip.
- **Locked linear axis.** A locked linear axis (`lowerLimit >= upperLimit`)
  skips the window logic entirely. It keeps the raw depth and the ±1e30 bounds.
- **Total rotational impulse.** The per-call clip bounds each call's impulse,
  not the accumulated total; the `@todo` at line 177 says as much. Two solves
  clipped to 1 leave an accumulated impulse of 2
  (`LimitRules.AccumulatedImpulseCanExceedCap`).

## Model

Every source cell is a line range of
`ofxBullet/libs/src/BulletDynamics/ConstraintSolver/btGeneric6DofConstraint.cpp`,
relative to the repository root.

| member | source | states |
|---|---|---|
| EulerXYZ.MatrixElemColumnMajor | ofxBullet/libs/src/BulletDynamics/ConstraintSolver/btGeneric6DofConstraint.cpp:50-55 | flat index `3j+i` reads row `i`, column `j`, so index 2 is `mat[2][0]` |
| EulerXYZ.MatrixToEulerXYZ | ofxBullet/libs/src/BulletDynamics/ConstraintSolver/btGeneric6DofConstraint.cpp:59-95 | returns true exactly when `-1 < mat[2][0] < 1`; gives the angles of the unique branch from atan2/asin of the elements used; `mat[2][0] <= -1` gives y = -halfPi, z = 0, x = -atan2(e3,e4); `>= 1` gives y = +halfPi, z = 0, x = atan2(e3,e4) |
| LimitRules.TestLimit | ofxBullet/libs/src/BulletDynamics/ConstraintSolver/btGeneric6DofConstraint.cpp:102-126 | `lo > hi` is free for every value; low-violated iff `lo <= hi` and `value < lo`, with error `value - lo < 0`; high-violated iff `lo <= hi` and `value > hi`, with error `value - hi > 0`; free otherwise |
| LimitRules.LimitCode | ofxBullet/libs/src/BulletDynamics/ConstraintSolver/btGeneric6DofConstraint.cpp:102-126 | the stored state is 0, 1 or 2: 0 exactly for free, 1 exactly for low-violated |
| LimitRules.AfterTest | ofxBullet/libs/src/BulletDynamics/ConstraintSolver/btGeneric6DofConstraint.cpp:102-126 | the test replaces the limit state; it replaces the error only when a bound is violated; every other field is unchanged |
| LimitRules.ArmedAfterTest | ofxBullet/libs/src/BulletDynamics/ConstraintSolver/btGeneric6DofConstraint.cpp:388-395 | after the test an axis is armed iff its motor is on or the value lies outside a well-formed range |
| LimitRules.AfterTestIdempotent | ofxBullet/libs/src/BulletDynamics/ConstraintSolver/btGeneric6DofConstraint.cpp:102-126 | testing the same value twice equals testing it once |
| LimitMotors.RotationalLimitMotor.TestLimitValue | ofxBullet/libs/src/BulletDynamics/ConstraintSolver/btGeneric6DofConstraint.cpp:102-126 | returns the stored state (0..2) and its classification of the value; `lo > hi` returns 0 and keeps the error; the new field values are AfterTest of the old |
| LimitRules.LimitOverridesMotorDrive | ofxBullet/libs/src/BulletDynamics/ConstraintSolver/btGeneric6DofConstraint.cpp:135-145 | at a hit limit the drive (target and cap) depends on none of the motor's enable flag, target velocity or force |
| LimitRules.DriveCapScalesWithStep | ofxBullet/libs/src/BulletDynamics/ConstraintSolver/btGeneric6DofConstraint.cpp:135-145 | the cap is proportional to the time step, and non-negative for non-negative forces and a positive step |
| LimitMotors.RotationalLimitMotor.SelectDrive | ofxBullet/libs/src/BulletDynamics/ConstraintSolver/btGeneric6DofConstraint.cpp:135-145 | the branches compute MotorDrive of the motor's current value |
| LimitRules.ClipImpulse | ofxBullet/libs/src/BulletDynamics/ConstraintSolver/btGeneric6DofConstraint.cpp:172-185 | with a non-negative cap the result lies in [-cap, cap] and keeps the sign of the input; an input within the cap passes unchanged; one past it is cut to the cap on its side |
| LimitMotors.RotationalLimitMotor.ClipMotorImpulse | ofxBullet/libs/src/BulletDynamics/ConstraintSolver/btGeneric6DofConstraint.cpp:174-185 | the sign-branched clip computes ClipImpulse |
| LimitRules.AccumulateImpulse | ofxBullet/libs/src/BulletDynamics/ConstraintSolver/btGeneric6DofConstraint.cpp:189-194 | the running sum is kept when it lies in [lo, hi] and reset to 0 otherwise, never clamped; with `lo <= 0 <= hi` the result is inside the window |
| LimitRules.AngularSolveBounded | ofxBullet/libs/src/BulletDynamics/ConstraintSolver/btGeneric6DofConstraint.cpp:133-196 | an axis that is not armed is skipped for every velocity and Jacobian factor; after an applied solve the accumulator lies in [-1e30, 1e30] whatever it held before |
| LimitRules.AngularSolveSteps | ofxBullet/libs/src/BulletDynamics/ConstraintSolver/btGeneric6DofConstraint.cpp:135-196 | the step-by-step locals (target, cap, correction velocity, clipped impulse) yield exactly AngularSolve's outcome |
| LimitRules.AngularImpulseWithinCap | ofxBullet/libs/src/BulletDynamics/ConstraintSolver/btGeneric6DofConstraint.cpp:177-196 | while the sum stays in ±1e30, the applied impulse is the clipped one and lies within the cap; otherwise the accumulator resets and the whole old total is taken back |
| LimitRules.AccumulationGrowsAtMostLinearly | ofxBullet/libs/src/BulletDynamics/ConstraintSolver/btGeneric6DofConstraint.cpp:177-196 | after n more calls whose impulses lie within the cap, the accumulator is within n times the cap |
| LimitRules.DemoSolveAddsCap | ofxBullet/libs/src/BulletDynamics/ConstraintSolver/btGeneric6DofConstraint.cpp:135-196 | a motor-driven free axis with cap 1 asking for velocity 10 adds exactly 1 per solve |
| LimitRules.AccumulatedImpulseCanExceedCap | ofxBullet/libs/src/BulletDynamics/ConstraintSolver/btGeneric6DofConstraint.cpp:177-196 | the clip bounds each call, not the total: two solves clipped to 1 leave an accumulated impulse of 2 |
| LimitMotors.RotationalLimitMotor.SolveAngularLimits | ofxBullet/libs/src/BulletDynamics/ConstraintSolver/btGeneric6DofConstraint.cpp:129-210 | returns 0 and changes nothing when AngularSolve skips; otherwise returns its impulse, stores its accumulator, and pushes `+r` along body 0's inverse inertia times the axis into body A and `-r` along body 1's into body B |
| LimitMotors.RotationalLimitMotor.SolveAlong | ofxBullet/libs/src/BulletDynamics/ConstraintSolver/btGeneric6DofConstraint.cpp:133-207 | the same, once the relative velocity is known |
| LimitMotors.RotationalLimitMotor.ApplyAngularImpulse | ofxBullet/libs/src/BulletDynamics/ConstraintSolver/btGeneric6DofConstraint.cpp:189-207 | the accumulator takes the clipped impulse under the ±1e30 rule; the returned impulse is its change; equal and opposite impulses go to the two bodies |
| LimitRules.LinearWindow | ofxBullet/libs/src/BulletDynamics/ConstraintSolver/btGeneric6DofConstraint.cpp:244-274 | slack (early exit) iff `min < max` and `min <= depth <= max`; past max the depth is reduced by max with bounds [0, 1e30]; below min it is reduced by min with bounds [-1e30, 0]; `min >= max` keeps depth and ±1e30; the window always contains 0 |
| LimitRules.LinearSolve | ofxBullet/libs/src/BulletDynamics/ConstraintSolver/btGeneric6DofConstraint.cpp:244-284 | skipped iff the window is slack; otherwise the accumulator component takes the normal impulse under the window's reset rule, stays inside the window, and the impulse is its change |
| LimitRules.LinearSolveReadsOneComponent | ofxBullet/libs/src/BulletDynamics/ConstraintSolver/btGeneric6DofConstraint.cpp:281-284 | the solve of axis `i` depends only on component `i` of the accumulator |
| LimitRules.LimitPushesOneWay | ofxBullet/libs/src/BulletDynamics/ConstraintSolver/btGeneric6DofConstraint.cpp:252-284 | past the upper bound the accumulated impulse is never negative; past the lower bound it is never positive |
| LimitRules.LockedAxisImpulse | ofxBullet/libs/src/BulletDynamics/ConstraintSolver/btGeneric6DofConstraint.cpp:244-284 | a locked axis never exits early; from rest with no damping one solve applies `softness*restitution*depth/dt*jacInv`, which, for positive gains, is negative for a positive offset of A from B along the axis and positive for a negative one |
| LimitMotors.TranslationalLimitMotor.SolveLinearAxis | ofxBullet/libs/src/BulletDynamics/ConstraintSolver/btGeneric6DofConstraint.cpp:215-299 | returns 0 and changes nothing when LinearSolve skips; otherwise returns its impulse, changes only component `limit_index` of the accumulator, and pushes the linear and torque impulses (arm = anchor minus centre of mass) into body A and the opposite into body B |
| RowRules.MotorRow | ofxBullet/libs/src/BulletDynamics/ConstraintSolver/btGeneric6DofConstraint.cpp:627-711 | a free armed axis gives a motor row (target velocity, ±maxMotorForce); a locked limit gives `-(fps*erp)*error` with bounds (-inf, inf); a low limit gives [0, inf) with error at least the correction, raised to `-bounce*vel` only for incoming velocity; a high limit mirrors this |
| RowRules.LimitOverridesMotor | ofxBullet/libs/src/BulletDynamics/ConstraintSolver/btGeneric6DofConstraint.cpp:627-712 | at a violated limit the row depends on none of the motor's enable flag, target velocity or force |
| RowRules.RowBoundsOrdered | ofxBullet/libs/src/BulletDynamics/ConstraintSolver/btGeneric6DofConstraint.cpp:632-668 | with a non-negative motor force, every row's lower bound is at most its upper bound |
| RowRules.BounceOnlyStrengthens | ofxBullet/libs/src/BulletDynamics/ConstraintSolver/btGeneric6DofConstraint.cpp:670-710 | bounce never weakens a one-sided limit row: a low row's error is at least, a high row's at most, its bounce-free value |
| ConstraintRows.WriteRow | ofxBullet/libs/src/BulletDynamics/ConstraintSolver/btGeneric6DofConstraint.cpp:583-590 | writing a rotational row at entry `srow` puts the axis in J1, its negation in J2, cfm 0 and the values on the right, and changes no entry outside `[srow, srow+3)` |
| ConstraintRows.GetLimitMotorInfo2 | ofxBullet/libs/src/BulletDynamics/ConstraintSolver/btGeneric6DofConstraint.cpp:565-716 | returns 1 iff the motor is powered or limited; then the buffers are the old ones with that motor's row (MotorRow values) written at `row*rowskip`; otherwise nothing is written |
| ConstraintRows.SetRowLimits | ofxBullet/libs/src/BulletDynamics/ConstraintSolver/btGeneric6DofConstraint.cpp:627-712 | cfm, right-hand side and bounds at entry `srow` become 0 and MotorRow's values; nothing else in those buffers changes |
| ConstraintRows.RowScalars | ofxBullet/libs/src/BulletDynamics/ConstraintSolver/btGeneric6DofConstraint.cpp:630-711 | the source's branches (powered dropped at a locked limit, bounce compared against the error just written) compute cfm 0 and MotorRow's values |
| ConstraintRows.WriteSkewSymmetric | ofxBullet/libs/src/BulletDynamics/ConstraintSolver/btGeneric6DofConstraint.cpp:530-550 | the three row pointers receive the cross-product matrix of the vector; no other entry changes |
| Generic6Dof.ConstraintAxesOrthogonal | ofxBullet/libs/src/BulletDynamics/ConstraintSolver/btGeneric6DofConstraint.cpp:331-336 | axis 1 is normal to B's x and A's z axes, axis 0 to axis 1 and A's z, axis 2 to B's x and axis 1 |
| Generic6Dof.AnchorWeight | ofxBullet/libs/src/BulletDynamics/ConstraintSolver/btGeneric6DofConstraint.cpp:822-832 | weight 1 when B is static, 0.5 for equal inverse masses, 0 when only A is static, within [0, 1] for non-negative masses |
| Generic6Dof.AnchorPoint | ofxBullet/libs/src/BulletDynamics/ConstraintSolver/btGeneric6DofConstraint.cpp:820-837 | the anchor is A's origin when B is static, B's origin when only A is static, the midpoint for equal inverse masses |
| Generic6Dof.AnchorBetweenOrigins | ofxBullet/libs/src/BulletDynamics/ConstraintSolver/btGeneric6DofConstraint.cpp:820-837 | for non-negative inverse masses each coordinate of the anchor lies between the two origins' |
| Generic6Dof.Generic6DofConstraint.CalcAnchorPos | ofxBullet/libs/src/BulletDynamics/ConstraintSolver/btGeneric6DofConstraint.cpp:820-837 | stores AnchorPoint of the two world frame origins and inverse masses |
| Generic6Dof.Generic6DofConstraint.constructor | ofxBullet/libs/src/BulletDynamics/ConstraintSolver/btGeneric6DofConstraint.cpp:36-44 | frames and reference-frame choice as given, obsolete path selected, fresh distinct motors |
| Generic6Dof.Generic6DofConstraint.CalculateAngleInfo | ofxBullet/libs/src/BulletDynamics/ConstraintSolver/btGeneric6DofConstraint.cpp:308-350 | the stored angles are matrixToEulerXYZ of A's basis inverted times B's basis; the axes are ConstraintAxes of B's x axis and A's z axis, so ConstraintAxesOrthogonal applies to them |
| Generic6Dof.Generic6DofConstraint.CalculateTransforms | ofxBullet/libs/src/BulletDynamics/ConstraintSolver/btGeneric6DofConstraint.cpp:352-358 | each world frame is its body's centre-of-mass transform composed with its local frame, then the angle information holds |
| Generic6Dof.Generic6DofConstraint.TestAngularLimitMotor | ofxBullet/libs/src/BulletDynamics/ConstraintSolver/btGeneric6DofConstraint.cpp:388-395 | tests axis `i` against its current angle and returns whether it is then armed |
| Generic6Dof.Generic6DofConstraint.TestAngularLimits | ofxBullet/libs/src/BulletDynamics/ConstraintSolver/btGeneric6DofConstraint.cpp:468-475 | every axis is tested against its angle and the count is the number of armed axes |
| Generic6Dof.Generic6DofConstraint.GetInfo1 | ofxBullet/libs/src/BulletDynamics/ConstraintSolver/btGeneric6DofConstraint.cpp:455-477 | obsolete path: 0 rows, nub 0, no state changed; otherwise the frames are recomputed, every limit is tested, and the rows are 3 plus the armed axes (within [3, 6]) with nub 3 |
| Generic6Dof.Generic6DofConstraint.ResetAccumulators | ofxBullet/libs/src/BulletDynamics/ConstraintSolver/btGeneric6DofConstraint.cpp:402-408 | the linear accumulator and the three rotational accumulators are zero; nothing else in the motors changes |
| Generic6Dof.Generic6DofConstraint.BuildLinearJacobians | ofxBullet/libs/src/BulletDynamics/ConstraintSolver/btGeneric6DofConstraint.cpp:422-438 | every limited linear axis gets the diagonal for its world axis (from frame A or B) with both pivots at the anchor; the others keep theirs |
| Generic6Dof.Generic6DofConstraint.BuildAngularJacobians | ofxBullet/libs/src/BulletDynamics/ConstraintSolver/btGeneric6DofConstraint.cpp:440-450 | every axis is tested; every armed axis gets the diagonal for its constraint axis, and the others keep theirs |
| Generic6Dof.Generic6DofConstraint.BuildJacobian | ofxBullet/libs/src/BulletDynamics/ConstraintSolver/btGeneric6DofConstraint.cpp:397-453 | off the obsolete path nothing changes; on it the accumulators are cleared, frames and anchor recomputed, limits tested after the reset, and the diagonals built as above |
| SweepRules.LinearAccumulatedAhead | ofxBullet/libs/src/BulletDynamics/ConstraintSolver/btGeneric6DofConstraint.cpp:764-783 | the linear loop has not touched the accumulator components of axes it has not reached |
| SweepRules.LinearAccumulatedFinal | ofxBullet/libs/src/BulletDynamics/ConstraintSolver/btGeneric6DofConstraint.cpp:764-783 | after the loop each component is the one its own axis's solve produced, or the old one when that axis was skipped |
| SweepRules.LinearLogsOpposite | ofxBullet/libs/src/BulletDynamics/ConstraintSolver/btGeneric6DofConstraint.cpp:292-293 | the linear loop gives both bodies the same number of impulses, with opposite magnitudes, at most one per axis |
| SweepRules.AngularAfter | ofxBullet/libs/src/BulletDynamics/ConstraintSolver/btGeneric6DofConstraint.cpp:788-799 | the angular loop changes at most a motor's accumulator, and a skipped axis not at all |
| SweepRules.AngularLogsOpposite | ofxBullet/libs/src/BulletDynamics/ConstraintSolver/btGeneric6DofConstraint.cpp:203-204 | the angular loop gives both bodies equal and opposite pure torque impulses, at most one per axis |
| SweepRules.IdleAxesApplyNothing | ofxBullet/libs/src/BulletDynamics/ConstraintSolver/btGeneric6DofConstraint.cpp:788-800 | with no axis armed the angular loop pushes nothing into either body |
| Generic6Dof.Generic6DofConstraint.SolveLinearAxes | ofxBullet/libs/src/BulletDynamics/ConstraintSolver/btGeneric6DofConstraint.cpp:757-783 | the accumulator and the two bodies' impulse logs are the sweep functions of the state at the start of the loop |
| Generic6Dof.Generic6DofConstraint.SolveLinearAxisOf | ofxBullet/libs/src/BulletDynamics/ConstraintSolver/btGeneric6DofConstraint.cpp:764-782 | one pass solves axis `i` (when limited) from the accumulator the loop started with |
| Generic6Dof.Generic6DofConstraint.SolveAngularAxes | ofxBullet/libs/src/BulletDynamics/ConstraintSolver/btGeneric6DofConstraint.cpp:785-800 | each motor ends as AngularAfter of the starting state; the bodies' logs grow by the angular sweep's impulses |
| Generic6Dof.Generic6DofConstraint.SolveAngularAxis | ofxBullet/libs/src/BulletDynamics/ConstraintSolver/btGeneric6DofConstraint.cpp:788-799 | one pass solves axis `i` when it is armed |
| Generic6Dof.Generic6DofConstraint.SolveConstraintObsolete | ofxBullet/libs/src/BulletDynamics/ConstraintSolver/btGeneric6DofConstraint.cpp:745-802 | off the obsolete path nothing changes; on it the time step is stored, then every limited linear axis and every armed angular axis is solved in order, linear impulses first |
| Generic6Dof.Generic6DofConstraint.SetLinearLimits | ofxBullet/libs/src/BulletDynamics/ConstraintSolver/btGeneric6DofConstraint.cpp:487-561 | returns 3; gives J1 linear ones on the diagonal, the cross-product matrices of `-a1` and `a2` in the J1/J2 angular blocks, and `fps*erp` times the offset from frame A's world origin to frame B's on the right; touches no other entry |
| Generic6Dof.Generic6DofConstraint.SetLinearErrors | ofxBullet/libs/src/BulletDynamics/ConstraintSolver/btGeneric6DofConstraint.cpp:552-557 | entry `s*j` of the right-hand side becomes `fps*erp` times component `j` of the offset from `a1 + origin0` (frame A's world origin) to `a2 + origin1` (frame B's), for `j` in 0..2; nothing else changes |
| Generic6Dof.RowStartIsRowTimesStride | ofxBullet/libs/src/BulletDynamics/ConstraintSolver/btGeneric6DofConstraint.cpp:723-736 | the entry where axis `k`'s row starts is `(row_offset + armed axes before k) * rowskip` |
| Generic6Dof.RowStartBelow | ofxBullet/libs/src/BulletDynamics/ConstraintSolver/btGeneric6DofConstraint.cpp:725-736 | rows start in axis order, and an armed axis's row ends before any later one starts |
| Generic6Dof.AngularRowsKept | ofxBullet/libs/src/BulletDynamics/ConstraintSolver/btGeneric6DofConstraint.cpp:720-740 | setAngularLimits writes only between `row_offset` and the next free row |
| Generic6Dof.AngularRowsHold | ofxBullet/libs/src/BulletDynamics/ConstraintSolver/btGeneric6DofConstraint.cpp:720-740 | every armed axis has its own row, not overwritten by a later axis |
| Generic6Dof.Generic6DofConstraint.SetAngularLimits | ofxBullet/libs/src/BulletDynamics/ConstraintSolver/btGeneric6DofConstraint.cpp:720-740 | returns `row_offset` plus the number of armed axes (the count getInfo1 adds); the buffers are the old ones with one row per armed axis, in axis order |
| Generic6Dof.Generic6DofConstraint.SetAngularRow | ofxBullet/libs/src/BulletDynamics/ConstraintSolver/btGeneric6DofConstraint.cpp:728-736 | one pass writes axis `i`'s row when armed and advances the row by one; otherwise nothing changes |
| Generic6Dof.AngularRowsSpareLinear | ofxBullet/libs/src/BulletDynamics/ConstraintSolver/btGeneric6DofConstraint.cpp:483-484 | angular rows written from row 3 on leave the three linear rows intact |
| Generic6Dof.AngularRowsFromThree | ofxBullet/libs/src/BulletDynamics/ConstraintSolver/btGeneric6DofConstraint.cpp:483-484 | angular rows written from row 3 put armed axis `i` in row 3 plus the armed axes before it |
| Generic6Dof.Generic6DofConstraint.GetInfo2 | ofxBullet/libs/src/BulletDynamics/ConstraintSolver/btGeneric6DofConstraint.cpp:479-485 | the three linear rows hold, and each armed axis `i` has its MotorRow in row `3 + armed axes before i` |

## Left out

- Floating point: rounding, NaN and overflow are not modelled. All arithmetic is over `real`. `SIMD_EPSILON` is FLT_EPSILON and `SIMD_INFINITY` is FLT_MAX, both as exact reals.
- `btAtan2`, `btAsin`, `SIMD_HALF_PI` and `btMatrix3x3::inverse` are given values that the model knows nothing about. The Euler round-trip accuracy is therefore not stated.
- `btJacobianEntry` construction and `getDiagonal()` are not part of this model. Their internals live in another file. The diagonal comes from a given function of the same inputs the source passes (`JacobianDiagonals`).
- Solver-body and rigid-body collaborators are not modelled:
  - `applyImpulse` appends to a log of impulses instead of changing velocities.
  - The velocities read through `getAngularVelocity` and `getVelocityInLocalPointObsolete` are parameters.
  - A rigid body is the values read from it in one call.
- `needApplyTorques` and `isLimited` are defined in the header, which is not part of this model. They are taken as "motor enabled or limit state nonzero" and "upper bound not below lower bound". The first is the same test `bt_get_limit_motor_info2` applies at lines 575-578.
- The linear-torque-decoupling branch of `bt_get_limit_motor_info2` (lines 607-625) is not modelled. So are the `rotational = 0` and `body1 == 0` cases. Their only caller passes `rotational = 1` and a second body.
- A btVector3 store through a row pointer also writes a fourth (padding) component. The model writes only the three components the solver reads.
- The default constructor, `updateRHS` (a no-op), the getters `getAxis`/`getAngle`, setters and header defaults are not modelled. The commented-out code is not modelled either.
- Preconditions the source leaves to its callers are stated as `requires`:
  - a nonzero time step and nonzero Jacobian diagonals for the axes solved (the source would divide by zero);
  - two distinct solver bodies;
  - `rbB.invMass == 0` or `imA + imB != 0` in CalcAnchorPos;
  - buffers sized for the rows getInfo1 counted (the source does not check bounds);
  - `!m_useSolveConstraintObsolete` in getInfo2 (the source's `btAssert`).
- Generic6Dof.Generic6DofConstraint.GetInfo2: states the rows it fills, not that the entries outside them keep their values. SetLinearLimits and SetAngularLimits each state that for their own writes.
- LimitMotors.RotationalLimitMotor.SolveAngularLimits computes the relative velocity before the arming test, and uses one exit instead of early returns. The relative velocity is a pure value, so the outcome is the same.
- ConstraintRows.SetRowLimits works on four locals and stores them at the end. The buffers are distinct arrays, so this is equivalent to the source's writes in place.
- The motors' constructors and parameter setters are not modelled. A motor is built from a complete value.
