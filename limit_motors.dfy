/** btRotationalLimitMotor and btTranslationalLimitMotor as classes whose
    methods update their fields in place, and the two collaborators they
    talk to: the rigid bodies they read and the solver bodies they push
    impulses into. */
module LimitMotors {
  import opened Geometry
  import opened LimitRules

  /** One call of btSolverBody::applyImpulse: the linear and angular
      components and the signed magnitude they are scaled by. */
  datatype BodyImpulse = BodyImpulse(linearComponent: Vec3, angularComponent: Vec3, magnitude: real)

  /** A btSolverBody, seen only through the impulses pushed into it: the
      velocity change they cause is the solver's business. */
  class SolverBody {
    var applied: seq<BodyImpulse>

    method ApplyImpulse(linearComponent: Vec3, angularComponent: Vec3, magnitude: real)
      modifies this
      ensures applied == old(applied) + [BodyImpulse(linearComponent, angularComponent, magnitude)]
    {
      applied := applied + [BodyImpulse(linearComponent, angularComponent, magnitude)];
    }
  }

  /** What the constraint reads from a btRigidBody during one call. */
  datatype RigidBody = RigidBody(centerOfMassTransform: Transform, invMass: real,
                                 invInertiaTensorWorld: Mat3, angularVelocity: Vec3)

  function CenterOfMassPosition(b: RigidBody): Vec3
  {
    b.centerOfMassTransform.origin
  }

  /** One rotational degree of freedom: limits, motor, and the cached result
      of the last limit test. */
  class RotationalLimitMotor {
    var loLimit: real
    var hiLimit: real
    var targetVelocity: real
    var maxMotorForce: real
    var maxLimitForce: real
    var damping: real
    var limitSoftness: real
    var erp: real
    var bounce: real
    var enableMotor: bool
    var currentLimit: int
    var currentLimitError: real
    var accumulatedImpulse: real

    /** A motor with the given settings and state. */
    constructor (m: RotationalMotor)
      ensures Value() == m
    {
      loLimit, hiLimit := m.loLimit, m.hiLimit;
      targetVelocity, maxMotorForce, maxLimitForce := m.targetVelocity, m.maxMotorForce, m.maxLimitForce;
      damping, limitSoftness, erp, bounce := m.damping, m.limitSoftness, m.erp, m.bounce;
      enableMotor := m.enableMotor;
      currentLimit, currentLimitError := m.currentLimit, m.currentLimitError;
      accumulatedImpulse := m.accumulatedImpulse;
    }

    function Value(): RotationalMotor
      reads this
    {
      RotationalMotor(loLimit, hiLimit, targetVelocity, maxMotorForce, maxLimitForce,
                      damping, limitSoftness, erp, bounce, enableMotor,
                      currentLimit, currentLimitError, accumulatedImpulse)
    }

    /** testLimitValue: classify `testValue` against the limits, cache the
        state, and the error when a bound is violated; return the state. */
    method TestLimitValue(testValue: real) returns (r: int)
      modifies this`currentLimit, this`currentLimitError
      ensures var t := TestLimit(loLimit, hiLimit, testValue);
              r == currentLimit == LimitCode(t) &&
              currentLimitError == (if t.Free? then old(currentLimitError) else t.error)
      ensures loLimit > hiLimit ==> r == 0 && currentLimitError == old(currentLimitError)
      ensures 0 <= r <= 2
      ensures Value() == AfterTest(old(Value()), testValue)
    {
      if loLimit > hiLimit {
        currentLimit := 0;
        return 0;
      }
      if testValue < loLimit {
        currentLimit := 1;
        currentLimitError := testValue - loLimit;
        return 1;
      } else if testValue > hiLimit {
        currentLimit := 2;
        currentLimitError := testValue - hiLimit;
        return 2;
      }
      currentLimit := 0;
      return 0;
    }

    /** solveAngularLimits: one sequential-impulse iteration on this axis.
        `angVelA` and `angVelB` are the two solver bodies' angular velocities
        as getAngularVelocity reports them. */
    method SolveAngularLimits(timeStep: real, axis: Vec3, jacDiagABInv: real,
                              body0: RigidBody, bodyA: SolverBody,
                              body1: RigidBody, bodyB: SolverBody,
                              angVelA: Vec3, angVelB: Vec3) returns (r: real)
      requires timeStep != 0.0
      requires bodyA != bodyB
      modifies this`accumulatedImpulse, bodyA, bodyB
      ensures var o := AngularSolve(old(Value()), timeStep, Dot(axis, Sub(angVelA, angVelB)), jacDiagABInv);
              if o.Skipped? then
                r == 0.0 && accumulatedImpulse == old(accumulatedImpulse) &&
                bodyA.applied == old(bodyA.applied) && bodyB.applied == old(bodyB.applied)
              else
                r == o.impulse && accumulatedImpulse == o.accumulated &&
                bodyA.applied == old(bodyA.applied) + [BodyImpulse(Zero, MulVec(body0.invInertiaTensorWorld, axis), r)] &&
                bodyB.applied == old(bodyB.applied) + [BodyImpulse(Zero, MulVec(body1.invInertiaTensorWorld, axis), -r)]
    {
      var velDiff := Sub(angVelA, angVelB);
      var relVel := Dot(axis, velDiff);
      r := SolveAlong(timeStep, relVel, jacDiagABInv, MulVec(body0.invInertiaTensorWorld, axis), bodyA,
                      MulVec(body1.invInertiaTensorWorld, axis), bodyB, Value());
    }

    /** solveAngularLimits once the relative velocity `relVel` along the
        axis is known; `torqueA` and `torqueB` are the angular components
        of the impulses pushed into the two bodies. */
    method SolveAlong(timeStep: real, relVel: real, jacDiagABInv: real,
                      torqueA: Vec3, bodyA: SolverBody, torqueB: Vec3, bodyB: SolverBody,
                      ghost m: RotationalMotor) returns (r: real)
      requires timeStep != 0.0
      requires bodyA != bodyB
      requires m == Value()
      modifies this`accumulatedImpulse, bodyA, bodyB
      ensures var o := AngularSolve(m, timeStep, relVel, jacDiagABInv);
              if o.Skipped? then
                r == 0.0 && accumulatedImpulse == m.accumulatedImpulse &&
                bodyA.applied == old(bodyA.applied) && bodyB.applied == old(bodyB.applied)
              else
                r == o.impulse && accumulatedImpulse == o.accumulated &&
                bodyA.applied == old(bodyA.applied) + [BodyImpulse(Zero, torqueA, r)] &&
                bodyB.applied == old(bodyB.applied) + [BodyImpulse(Zero, torqueB, -r)]
    {
      r := 0.0;
      if enableMotor || currentLimit != 0 {
        var target, maxForce := SelectDrive(timeStep);
        var motorRelVel := limitSoftness * (target - damping * relVel);
        var unclipped := (1.0 + bounce) * motorRelVel * jacDiagABInv;
        var clipped := ClipMotorImpulse(unclipped, maxForce);
        AngularSolveSteps(m, timeStep, relVel, jacDiagABInv, target, maxForce, motorRelVel, clipped);
        // corrections within epsilon of zero are not applied
        if !(motorRelVel < Epsilon && motorRelVel > -Epsilon) {
          r := ApplyAngularImpulse(clipped, torqueA, bodyA, torqueB, bodyB);
        }
      }
    }

    /** The first half of solveAngularLimits: a hit limit replaces the
        motor's target velocity and force with the limit's correction and
        force; either force is turned into an impulse cap for the step. */
    method SelectDrive(timeStep: real) returns (target: real, maxForce: real)
      requires timeStep != 0.0
      ensures Drive(target, maxForce) == MotorDrive(Value(), timeStep)
    {
      target := targetVelocity;
      maxForce := maxMotorForce;
      if currentLimit != 0 {
        target := -erp * currentLimitError / timeStep;
        maxForce := maxLimitForce;
      }
      maxForce := maxForce * timeStep;
    }

    /** solveAngularLimits' clip of the correction impulse against the cap,
        by the sign of the unclipped value. */
    static method ClipMotorImpulse(unclipped: real, maxForce: real) returns (clipped: real)
      ensures clipped == ClipImpulse(unclipped, maxForce)
    {
      if unclipped > 0.0 {
        clipped := if unclipped > maxForce then maxForce else unclipped;
      } else {
        clipped := if unclipped < -maxForce then -maxForce else unclipped;
      }
    }

    /** The tail of solveAngularLimits: add `clipped` to the accumulator
        (reset to zero when the sum leaves +-1e30) and push the change
        actually made into the two bodies, opposite ways. */
    method ApplyAngularImpulse(clipped: real, torqueA: Vec3, bodyA: SolverBody,
                               torqueB: Vec3, bodyB: SolverBody) returns (r: real)
      requires bodyA != bodyB
      modifies this`accumulatedImpulse, bodyA, bodyB
      ensures accumulatedImpulse == AccumulateImpulse(old(accumulatedImpulse), clipped, -LargeImpulse, LargeImpulse)
      ensures r == accumulatedImpulse - old(accumulatedImpulse)
      ensures bodyA.applied == old(bodyA.applied) + [BodyImpulse(Zero, torqueA, r)]
      ensures bodyB.applied == old(bodyB.applied) + [BodyImpulse(Zero, torqueB, -r)]
    {
      var lo := -LargeImpulse;
      var hi := LargeImpulse;
      var oldAccum := accumulatedImpulse;
      accumulatedImpulse := AccumulateImpulse(oldAccum, clipped, lo, hi);
      r := accumulatedImpulse - oldAccum;
      bodyA.ApplyImpulse(Zero, torqueA, r);
      bodyB.ApplyImpulse(Zero, torqueB, -r);
    }
  }

  /** The three translational degrees of freedom: per-axis bounds and
      accumulated impulses, shared softness, damping and restitution. */
  class TranslationalLimitMotor {
    var lowerLimit: Vec3
    var upperLimit: Vec3
    var accumulatedImpulse: Vec3
    var limitSoftness: real
    var damping: real
    var restitution: real

    /** A motor with the given settings and state. */
    constructor (t: TranslationalMotor)
      ensures Value() == t
    {
      lowerLimit, upperLimit, accumulatedImpulse := t.lowerLimit, t.upperLimit, t.accumulatedImpulse;
      limitSoftness, damping, restitution := t.limitSoftness, t.damping, t.restitution;
    }

    function Value(): TranslationalMotor
      reads this
    {
      TranslationalMotor(lowerLimit, upperLimit, accumulatedImpulse, limitSoftness, damping, restitution)
    }

    /** isLimited: an axis whose upper bound is not below its lower bound. */
    predicate IsLimited(limitIndex: int)
      requires 0 <= limitIndex < 3
      reads this
    {
      AxisLimited(Value(), limitIndex)
    }

    /** solveLinearAxis: one sequential-impulse iteration on linear axis
        `limitIndex`. `vel1` and `vel2` are the two solver bodies' velocities
        at the anchor as getVelocityInLocalPointObsolete reports them. Only
        component `limitIndex` of the accumulator changes. */
    method SolveLinearAxis(timeStep: real, jacDiagABInv: real,
                           body1: RigidBody, bodyA: SolverBody, pointInA: Vec3,
                           body2: RigidBody, bodyB: SolverBody, pointInB: Vec3,
                           limitIndex: int, axisNormalOnA: Vec3, anchorPos: Vec3,
                           vel1: Vec3, vel2: Vec3) returns (r: real)
      requires 0 <= limitIndex < 3
      requires timeStep != 0.0
      requires bodyA != bodyB
      modifies this`accumulatedImpulse, bodyA, bodyB
      ensures var o := LinearSolve(old(Value()), limitIndex, Depth(pointInA, pointInB, axisNormalOnA),
                                   timeStep, Dot(axisNormalOnA, Sub(vel1, vel2)), jacDiagABInv);
              var relPos1 := Sub(anchorPos, CenterOfMassPosition(body1));
              var relPos2 := Sub(anchorPos, CenterOfMassPosition(body2));
              if o.Skipped? then
                r == 0.0 && accumulatedImpulse == old(accumulatedImpulse) &&
                bodyA.applied == old(bodyA.applied) && bodyB.applied == old(bodyB.applied)
              else
                r == o.impulse &&
                accumulatedImpulse == With(old(accumulatedImpulse), limitIndex, o.accumulated) &&
                bodyA.applied == old(bodyA.applied) +
                  [BodyImpulse(Scale(axisNormalOnA, body1.invMass),
                               MulVec(body1.invInertiaTensorWorld, Cross(relPos1, axisNormalOnA)), r)] &&
                bodyB.applied == old(bodyB.applied) +
                  [BodyImpulse(Scale(axisNormalOnA, body2.invMass),
                               MulVec(body2.invInertiaTensorWorld, Cross(relPos2, axisNormalOnA)), -r)]
    {
      var relPos1 := Sub(anchorPos, CenterOfMassPosition(body1));
      var relPos2 := Sub(anchorPos, CenterOfMassPosition(body2));
      var vel := Sub(vel1, vel2);
      var relVel := Dot(axisNormalOnA, vel);

      var depth := -Dot(Sub(pointInA, pointInB), axisNormalOnA);
      ghost var depth0 := depth;
      var lo := -LargeImpulse;
      var hi := LargeImpulse;
      var minLimit := Get(lowerLimit, limitIndex);
      var maxLimit := Get(upperLimit, limitIndex);

      if minLimit < maxLimit {
        if depth > maxLimit {
          depth := depth - maxLimit;
          lo := 0.0;
        } else {
          if depth < minLimit {
            depth := depth - minLimit;
            hi := 0.0;
          } else {
            return 0.0;
          }
        }
      }

      assert LinearWindow(depth0, minLimit, maxLimit) == Active(depth, lo, hi);
      var normalImpulse := limitSoftness * (restitution * depth / timeStep - damping * relVel) * jacDiagABInv;
      assert normalImpulse == NormalImpulse(Value(), depth, timeStep, relVel, jacDiagABInv);
      var oldNormalImpulse := Get(accumulatedImpulse, limitIndex);
      accumulatedImpulse := With(accumulatedImpulse, limitIndex,
                                 AccumulateImpulse(oldNormalImpulse, normalImpulse, lo, hi));
      normalImpulse := Get(accumulatedImpulse, limitIndex) - oldNormalImpulse;

      var ftorqueAxis1 := Cross(relPos1, axisNormalOnA);
      var ftorqueAxis2 := Cross(relPos2, axisNormalOnA);
      bodyA.ApplyImpulse(Scale(axisNormalOnA, body1.invMass), MulVec(body1.invInertiaTensorWorld, ftorqueAxis1), normalImpulse);
      bodyB.ApplyImpulse(Scale(axisNormalOnA, body2.invMass), MulVec(body2.invInertiaTensorWorld, ftorqueAxis2), -normalImpulse);
      r := normalImpulse;
    }
  }
}
