/** The decision rules of btRotationalLimitMotor and btTranslationalLimitMotor
    as functions of a motor's value: the limit test, the drive selection, the
    per-call clip, the accumulator rule and the linear window. The classes in
    limit_motors.dfy update their fields exactly as these functions say. */
module LimitRules {
  import opened Geometry

  /** The `btScalar(1e30)` bounds both solvers start from. */
  const LargeImpulse: real := 1000000000000000000000000000000.0

  /** SIMD_EPSILON, FLT_EPSILON (2^-23) in a single-precision build. */
  const Epsilon: real := 0.00000011920928955078125

  /** The fields of a btRotationalLimitMotor. */
  datatype RotationalMotor = RotationalMotor(
    loLimit: real, hiLimit: real,
    targetVelocity: real, maxMotorForce: real, maxLimitForce: real,
    damping: real, limitSoftness: real, erp: real, bounce: real,
    enableMotor: bool,
    currentLimit: int, currentLimitError: real,
    accumulatedImpulse: real)

  /** The fields of a btTranslationalLimitMotor: per-axis bounds and
      accumulator, shared softness, damping and restitution. */
  datatype TranslationalMotor = TranslationalMotor(
    lowerLimit: Vec3, upperLimit: Vec3, accumulatedImpulse: Vec3,
    limitSoftness: real, damping: real, restitution: real)

  // ---------------------------------------------------------------- limit test

  /** The outcome of testLimitValue: free, or a violated bound with the
      signed error past it. */
  datatype LimitTest = Free | LowViolated(error: real) | HighViolated(error: real)

  function TestLimit(lo: real, hi: real, value: real): (t: LimitTest)
    ensures lo > hi ==> t == Free
    ensures t.LowViolated? <==> lo <= hi && value < lo
    ensures t.HighViolated? <==> lo <= hi && value > hi
    ensures t.Free? <==> lo > hi || lo <= value <= hi
    ensures t.LowViolated? ==> t.error == value - lo && t.error < 0.0
    ensures t.HighViolated? ==> t.error == value - hi && t.error > 0.0
  {
    if lo > hi then Free
    else if value < lo then LowViolated(value - lo)
    else if value > hi then HighViolated(value - hi)
    else Free
  }

  /** The integer m_currentLimit stores: 0 free, 1 low, 2 high. */
  function LimitCode(t: LimitTest): (c: int)
    ensures 0 <= c <= 2
    ensures c == 0 <==> t.Free?
    ensures c == 1 <==> t.LowViolated?
  {
    match t
    case Free => 0
    case LowViolated(_) => 1
    case HighViolated(_) => 2
  }

  /** needApplyTorques: the axis is armed when its motor is on or its limit
      is violated. */
  predicate NeedApplyTorques(m: RotationalMotor)
  {
    m.enableMotor || m.currentLimit != 0
  }

  /** The motor after testLimitValue(value): the limit state is replaced, the
      error only when a bound is violated, and nothing else changes. */
  function AfterTest(m: RotationalMotor, value: real): (m2: RotationalMotor)
    ensures var t := TestLimit(m.loLimit, m.hiLimit, value);
            m2.currentLimit == LimitCode(t) &&
            m2.currentLimitError == (if t.Free? then m.currentLimitError else t.error)
    ensures m2.(currentLimit := m.currentLimit, currentLimitError := m.currentLimitError) == m
  {
    var t := TestLimit(m.loLimit, m.hiLimit, value);
    if t.Free? then m.(currentLimit := 0)
    else m.(currentLimit := LimitCode(t), currentLimitError := t.error)
  }

  /** After the test an axis is armed exactly when its motor is on or the
      value lies outside a well-formed range [lo, hi]. */
  lemma ArmedAfterTest(m: RotationalMotor, value: real)
    ensures NeedApplyTorques(AfterTest(m, value)) <==>
            m.enableMotor || (m.loLimit <= m.hiLimit && !(m.loLimit <= value <= m.hiLimit))
  {
  }

  /** Testing the same value twice is the same as testing it once. */
  lemma AfterTestIdempotent(m: RotationalMotor, value: real)
    ensures AfterTest(AfterTest(m, value), value) == AfterTest(m, value)
  {
  }

  // ------------------------------------------------ rotational impulse solve

  /** The velocity target and the impulse cap the rotational solve uses. */
  datatype Drive = Drive(target: real, cap: real)

  /** A hit limit drives toward the limit with the limit's force; a free
      axis follows the motor. Either force becomes a cap for the step. */
  function MotorDrive(m: RotationalMotor, dt: real): Drive
    requires dt != 0.0
  {
    if m.currentLimit != 0 then Drive(-m.erp * m.currentLimitError / dt, m.maxLimitForce * dt)
    else Drive(m.targetVelocity, m.maxMotorForce * dt)
  }

  /** At a hit limit the motor has no say in the solve: the drive does not
      depend on whether the motor is enabled, on its target velocity or on
      its force. */
  lemma LimitOverridesMotorDrive(m: RotationalMotor, dt: real, enable: bool, target: real, force: real)
    requires dt != 0.0 && m.currentLimit != 0
    ensures var m' := m.(enableMotor := enable, targetVelocity := target, maxMotorForce := force);
            MotorDrive(m', dt) == MotorDrive(m, dt)
  {
  }

  /** The cap is a force turned into an impulse: it is proportional to the
      time step, and non-negative for non-negative forces and a forward step. */
  lemma DriveCapScalesWithStep(m: RotationalMotor, dt: real, dt2: real)
    requires dt != 0.0 && dt2 != 0.0
    ensures MotorDrive(m, dt2).cap * dt == MotorDrive(m, dt).cap * dt2
    ensures dt > 0.0 && m.maxMotorForce >= 0.0 && m.maxLimitForce >= 0.0 ==> MotorDrive(m, dt).cap >= 0.0
  {
    var f := if m.currentLimit != 0 then m.maxLimitForce else m.maxMotorForce;
    assert MotorDrive(m, dt).cap == f * dt && MotorDrive(m, dt2).cap == f * dt2;
    assert f * dt2 * dt == f * dt * dt2;
  }

  /** The softened correction velocity `motor_relvel`. */
  function CorrectionVelocity(m: RotationalMotor, dt: real, relVel: real): real
    requires dt != 0.0
  {
    m.limitSoftness * (MotorDrive(m, dt).target - m.damping * relVel)
  }

  /** The epsilon guard: corrections this small are not applied. */
  predicate NearZero(v: real)
  {
    v < Epsilon && v > -Epsilon
  }

  /** The per-call clip of the correction impulse against `cap`, chosen by
      the sign of the unclipped value. */
  function ClipImpulse(unclipped: real, cap: real): (r: real)
    ensures cap >= 0.0 ==> -cap <= r <= cap
    ensures -cap <= unclipped <= cap ==> r == unclipped
    ensures unclipped > 0.0 && unclipped > cap ==> r == cap
    ensures unclipped <= 0.0 && unclipped < -cap ==> r == -cap
    ensures cap >= 0.0 ==> (unclipped >= 0.0 ==> r >= 0.0) && (unclipped <= 0.0 ==> r <= 0.0)
  {
    if unclipped > 0.0 then (if unclipped > cap then cap else unclipped)
    else (if unclipped < -cap then -cap else unclipped)
  }

  /** The impulse the rotational solve clips: `(1 + bounce) * motor_relvel * jacDiagABInv`. */
  function ClippedAngularImpulse(m: RotationalMotor, dt: real, relVel: real, jacInv: real): real
    requires dt != 0.0
  {
    ClipImpulse((1.0 + m.bounce) * CorrectionVelocity(m, dt, relVel) * jacInv, MotorDrive(m, dt).cap)
  }

  /** The accumulator rule both solvers share: keep the running sum when it
      lies in [lo, hi], otherwise reset it to zero (no clamping to the bound). */
  function AccumulateImpulse(prev: real, delta: real, lo: real, hi: real): (r: real)
    ensures lo <= prev + delta <= hi ==> r == prev + delta
    ensures !(lo <= prev + delta <= hi) ==> r == 0.0
    ensures lo <= 0.0 <= hi ==> lo <= r <= hi
  {
    var sum := prev + delta;
    if sum > hi then 0.0 else if sum < lo then 0.0 else sum
  }

  /** What one solve call does: nothing, or a new accumulator value and the
      impulse (new minus old accumulator) handed to the two bodies. */
  datatype Outcome = Skipped | Applied(impulse: real, accumulated: real)

  /** solveAngularLimits on the motor's value. */
  function AngularSolve(m: RotationalMotor, dt: real, relVel: real, jacInv: real): Outcome
    requires dt != 0.0
  {
    if !NeedApplyTorques(m) then Skipped
    else
      var motorRelVel := CorrectionVelocity(m, dt, relVel);
      if NearZero(motorRelVel) then Skipped
      else
        var acc := AccumulateImpulse(m.accumulatedImpulse,
                                     ClippedAngularImpulse(m, dt, relVel, jacInv),
                                     -LargeImpulse, LargeImpulse);
        Applied(acc - m.accumulatedImpulse, acc)
  }

  /** An axis that is not armed is skipped whatever its velocity, and an
      applied solve leaves the accumulator inside +-1e30, whatever it held
      before. */
  lemma AngularSolveBounded(m: RotationalMotor, dt: real, relVel: real, jacInv: real)
    requires dt != 0.0
    ensures !NeedApplyTorques(m) ==> AngularSolve(m, dt, relVel, jacInv) == Skipped
    ensures AngularSolve(m, dt, relVel, jacInv).Applied? ==>
      -LargeImpulse <= AngularSolve(m, dt, relVel, jacInv).accumulated <= LargeImpulse
  {
  }

  /** The solve as solveAngularLimits computes it step by step: with the
      drive `target`/`cap` chosen, a correction velocity not near zero, and
      the clipped impulse, the outcome is that impulse folded into the
      accumulator. */
  lemma AngularSolveSteps(m: RotationalMotor, dt: real, relVel: real, jacInv: real,
                          target: real, cap: real, motorRelVel: real, clipped: real)
    requires dt != 0.0 && NeedApplyTorques(m)
    requires Drive(target, cap) == MotorDrive(m, dt)
    requires motorRelVel == m.limitSoftness * (target - m.damping * relVel)
    requires clipped == ClipImpulse((1.0 + m.bounce) * motorRelVel * jacInv, cap)
    ensures NearZero(motorRelVel) ==> AngularSolve(m, dt, relVel, jacInv) == Skipped
    ensures !NearZero(motorRelVel) ==>
      var acc := AccumulateImpulse(m.accumulatedImpulse, clipped, -LargeImpulse, LargeImpulse);
      AngularSolve(m, dt, relVel, jacInv) == Applied(acc - m.accumulatedImpulse, acc)
  {
    assert target == MotorDrive(m, dt).target && cap == MotorDrive(m, dt).cap;
    assert motorRelVel == CorrectionVelocity(m, dt, relVel);
    assert clipped == ClippedAngularImpulse(m, dt, relVel, jacInv);
  }

  /** While the running sum stays inside the +-1e30 window, the impulse one
      rotational solve applies is the clipped one, so it is bounded by the cap;
      once the sum leaves the window, the accumulator is reset and the whole
      old total is taken back. */
  lemma AngularImpulseWithinCap(m: RotationalMotor, dt: real, relVel: real, jacInv: real)
    requires dt != 0.0 && NeedApplyTorques(m)
    requires AngularSolve(m, dt, relVel, jacInv).Applied?
    ensures var o := AngularSolve(m, dt, relVel, jacInv);
            var clipped := ClippedAngularImpulse(m, dt, relVel, jacInv);
            var cap := MotorDrive(m, dt).cap;
            (-LargeImpulse <= m.accumulatedImpulse + clipped <= LargeImpulse ==>
               o.impulse == clipped && (cap >= 0.0 ==> -cap <= o.impulse <= cap)) &&
            (!(-LargeImpulse <= m.accumulatedImpulse + clipped <= LargeImpulse) ==>
               o.accumulated == 0.0 && o.impulse == -m.accumulatedImpulse)
  {
  }

  /** The accumulator after a sweep of solves, each adding one clipped
      impulse under the rotational window. */
  function AccumulateAll(acc: real, impulses: seq<real>): real
    decreases |impulses|
  {
    if impulses == [] then acc
    else AccumulateAll(AccumulateImpulse(acc, impulses[0], -LargeImpulse, LargeImpulse), impulses[1..])
  }

  /** The clip bounds each call, not the running total: after n more calls
      whose impulses lie in [-cap, cap], the accumulator grows by at most
      n * cap. */
  lemma {:induction false} AccumulationGrowsAtMostLinearly(acc: real, impulses: seq<real>, cap: real, k: nat)
    requires cap >= 0.0
    requires -cap * (k as real) <= acc <= cap * (k as real)
    requires forall n | 0 <= n < |impulses| :: -cap <= impulses[n] <= cap
    decreases |impulses|
    ensures -cap * ((k + |impulses|) as real) <= AccumulateAll(acc, impulses)
                                             <= cap * ((k + |impulses|) as real)
  {
    if impulses != [] {
      var next := AccumulateImpulse(acc, impulses[0], -LargeImpulse, LargeImpulse);
      assert cap * ((k + 1) as real) == cap * (k as real) + cap;
      assert 0.0 <= cap * ((k + 1) as real);
      assert -cap * ((k + 1) as real) <= next <= cap * ((k + 1) as real);
      AccumulationGrowsAtMostLinearly(next, impulses[1..], cap, k + 1);
      assert k + 1 + |impulses[1..]| == k + |impulses|;
    }
  }

  /** A free, motor-driven axis with cap 1 (maxMotorForce 1, dt 1) asking
      for 10 units of velocity, with accumulator `acc`. */
  function DemoMotor(acc: real): RotationalMotor
  {
    RotationalMotor(1.0, 0.0, 10.0, 1.0, 300.0, 0.0, 1.0, 0.5, 0.0, true, 0, 0.0, acc)
  }

  /** Each solve of the demo axis adds the full cap to the accumulator. */
  lemma DemoSolveAddsCap(acc: real)
    requires -LargeImpulse <= acc + 1.0 <= LargeImpulse
    ensures MotorDrive(DemoMotor(acc), 1.0).cap == 1.0
    ensures AngularSolve(DemoMotor(acc), 1.0, 0.0, 1.0) == Applied(1.0, acc + 1.0)
  {
    var m := DemoMotor(acc);
    assert MotorDrive(m, 1.0) == Drive(10.0, 1.0);
    assert CorrectionVelocity(m, 1.0, 0.0) == 10.0;
    assert ClippedAngularImpulse(m, 1.0, 0.0, 1.0) == 1.0 by {
      assert (1.0 + m.bounce) * 10.0 * 1.0 == 10.0;
    }
  }

  /** ... and so the running total can exceed the cap: two solves of the
      demo axis, each clipped to 1, leave an accumulated impulse of 2. */
  lemma AccumulatedImpulseCanExceedCap()
    ensures var first := AngularSolve(DemoMotor(0.0), 1.0, 0.0, 1.0);
            first.Applied? &&
            var second := AngularSolve(DemoMotor(first.accumulated), 1.0, 0.0, 1.0);
            MotorDrive(DemoMotor(0.0), 1.0).cap == 1.0 && second.Applied? && second.accumulated == 2.0
  {
    DemoSolveAddsCap(0.0);
    DemoSolveAddsCap(1.0);
  }

  // ------------------------------------------------ translational axis solve

  /** isLimited: linear axis `i` has an upper bound not below its lower one. */
  predicate AxisLimited(t: TranslationalMotor, i: int)
    requires 0 <= i < 3
  {
    Get(t.upperLimit, i) >= Get(t.lowerLimit, i)
  }

  /** The positional error along the axis: `-(pointInA - pointInB) . n`. */
  function Depth(pointInA: Vec3, pointInB: Vec3, n: Vec3): real
  {
    -Dot(Sub(pointInA, pointInB), n)
  }

  /** The window solveLinearAxis selects: slack (exit early), or the
      adjusted depth with the accumulator bounds. */
  datatype Window = Slack | Active(depth: real, lo: real, hi: real)

  function LinearWindow(depth: real, minLimit: real, maxLimit: real): (w: Window)
    ensures w.Slack? <==> minLimit < maxLimit && minLimit <= depth <= maxLimit
    ensures minLimit < maxLimit && depth > maxLimit ==> w == Active(depth - maxLimit, 0.0, LargeImpulse)
    ensures minLimit < maxLimit && depth < minLimit ==> w == Active(depth - minLimit, -LargeImpulse, 0.0)
    ensures minLimit >= maxLimit ==> w == Active(depth, -LargeImpulse, LargeImpulse)
    ensures w.Active? ==> w.lo <= 0.0 <= w.hi
  {
    if minLimit < maxLimit then
      if depth > maxLimit then Active(depth - maxLimit, 0.0, LargeImpulse)
      else if depth < minLimit then Active(depth - minLimit, -LargeImpulse, 0.0)
      else Slack
    else Active(depth, -LargeImpulse, LargeImpulse)
  }

  /** The unaccumulated normal impulse for an adjusted depth. */
  function NormalImpulse(t: TranslationalMotor, depth: real, dt: real, relVel: real, jacInv: real): real
    requires dt != 0.0
  {
    t.limitSoftness * (t.restitution * depth / dt - t.damping * relVel) * jacInv
  }

  /** solveLinearAxis on the motor's value, for axis `i`. */
  function LinearSolve(t: TranslationalMotor, i: int, depth: real, dt: real, relVel: real, jacInv: real): (o: Outcome)
    requires 0 <= i < 3 && dt != 0.0
    ensures var w := LinearWindow(depth, Get(t.lowerLimit, i), Get(t.upperLimit, i));
            (o.Skipped? <==> w.Slack?) &&
            (o.Applied? ==>
               o.impulse == o.accumulated - Get(t.accumulatedImpulse, i) &&
               o.accumulated == AccumulateImpulse(Get(t.accumulatedImpulse, i),
                                                  NormalImpulse(t, w.depth, dt, relVel, jacInv),
                                                  w.lo, w.hi) &&
               w.lo <= o.accumulated <= w.hi)
  {
    var w := LinearWindow(depth, Get(t.lowerLimit, i), Get(t.upperLimit, i));
    if w.Slack? then Skipped
    else
      var prev := Get(t.accumulatedImpulse, i);
      var acc := AccumulateImpulse(prev, NormalImpulse(t, w.depth, dt, relVel, jacInv), w.lo, w.hi);
      Applied(acc - prev, acc)
  }

  /** solveLinearAxis on axis `i` reads component `i` of the accumulator and
      no other, so solving one axis does not disturb the next. */
  lemma LinearSolveReadsOneComponent(t: TranslationalMotor, acc: Vec3, i: int, depth: real, dt: real,
                                     relVel: real, jacInv: real)
    requires 0 <= i < 3 && dt != 0.0
    requires Get(acc, i) == Get(t.accumulatedImpulse, i)
    ensures LinearSolve(t.(accumulatedImpulse := acc), i, depth, dt, relVel, jacInv) ==
            LinearSolve(t, i, depth, dt, relVel, jacInv)
  {
    var t' := t.(accumulatedImpulse := acc);
    var w := LinearWindow(depth, Get(t.lowerLimit, i), Get(t.upperLimit, i));
    if w.Active? {
      assert NormalImpulse(t', w.depth, dt, relVel, jacInv) == NormalImpulse(t, w.depth, dt, relVel, jacInv);
    }
  }

  /** A violated range limit pushes one way only: past the upper bound the
      accumulated impulse is never negative, past the lower bound never
      positive. */
  lemma LimitPushesOneWay(t: TranslationalMotor, i: int, depth: real, dt: real, relVel: real, jacInv: real)
    requires 0 <= i < 3 && dt != 0.0
    requires Get(t.lowerLimit, i) < Get(t.upperLimit, i)
    ensures depth > Get(t.upperLimit, i) ==> LinearSolve(t, i, depth, dt, relVel, jacInv).accumulated >= 0.0
    ensures depth < Get(t.lowerLimit, i) ==> LinearSolve(t, i, depth, dt, relVel, jacInv).accumulated <= 0.0
  {
  }

  /** A locked axis (lower == upper) never takes the early exit: starting
      from a zero accumulator with no damping and no relative velocity, one
      solve applies `softness * restitution * depth / dt * jacInv`, which,
      for positive gains, opposes the offset of frame A from frame B in
      either direction. */
  lemma LockedAxisImpulse(t: TranslationalMotor, i: int, pointInA: Vec3, pointInB: Vec3, n: Vec3,
                          dt: real, jacInv: real)
    requires 0 <= i < 3 && dt > 0.0
    requires Get(t.lowerLimit, i) == Get(t.upperLimit, i)
    requires Get(t.accumulatedImpulse, i) == 0.0 && t.damping == 0.0
    requires var d := NormalImpulse(t, Depth(pointInA, pointInB, n), dt, 0.0, jacInv);
             -LargeImpulse <= d <= LargeImpulse
    ensures var o := LinearSolve(t, i, Depth(pointInA, pointInB, n), dt, 0.0, jacInv);
            o.Applied? &&
            o.impulse == t.limitSoftness * (t.restitution * Depth(pointInA, pointInB, n) / dt) * jacInv &&
            ((t.limitSoftness > 0.0 && t.restitution > 0.0 && jacInv > 0.0 &&
              Dot(Sub(pointInA, pointInB), n) > 0.0) ==> o.impulse < 0.0) &&
            ((t.limitSoftness > 0.0 && t.restitution > 0.0 && jacInv > 0.0 &&
              Dot(Sub(pointInA, pointInB), n) < 0.0) ==> o.impulse > 0.0)
  {
    var depth := Depth(pointInA, pointInB, n);
    var d := NormalImpulse(t, depth, dt, 0.0, jacInv);
    assert d == t.limitSoftness * (t.restitution * depth / dt) * jacInv by {
      assert t.damping * 0.0 == 0.0;
    }
    assert LinearWindow(depth, Get(t.lowerLimit, i), Get(t.upperLimit, i)) == Active(depth, -LargeImpulse, LargeImpulse);
    assert LinearSolve(t, i, depth, dt, 0.0, jacInv) == Applied(d, d);
    if t.limitSoftness > 0.0 && t.restitution > 0.0 && jacInv > 0.0 {
      CorrectionSign(t.limitSoftness, t.restitution, depth, dt, jacInv);
    }
  }

  /** Positive gains keep the sign of the depth: a negative depth gives a
      negative impulse, a positive depth a positive one. */
  lemma CorrectionSign(softness: real, restitution: real, depth: real, dt: real, jacInv: real)
    requires softness > 0.0 && restitution > 0.0 && jacInv > 0.0 && dt > 0.0
    ensures depth < 0.0 ==> softness * (restitution * depth / dt) * jacInv < 0.0
    ensures depth > 0.0 ==> softness * (restitution * depth / dt) * jacInv > 0.0
  {
    assert restitution * depth / dt == restitution * (depth / dt);
    if depth < 0.0 {
      assert depth / dt < 0.0;
      assert restitution * (depth / dt) < 0.0;
      assert softness * (restitution * depth / dt) < 0.0;
    } else if depth > 0.0 {
      assert depth / dt > 0.0;
      assert restitution * (depth / dt) > 0.0;
      assert softness * (restitution * depth / dt) > 0.0;
    }
  }
}
