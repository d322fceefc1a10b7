/** What bt_get_limit_motor_info2 writes into the scalar columns of one
    constraint row for an armed rotational axis: the right-hand side and the
    impulse bounds, as a function of the motor's value. */
module RowRules {
  import opened LimitRules

  /** SIMD_INFINITY: FLT_MAX in a single-precision build. */
  const Infinity: real := 340282346638528859811704183484516925440.0

  /** The right-hand side (`m_constraintError`) and the bounds
      (`m_lowerLimit`, `m_upperLimit`) of one row. */
  datatype RowValues = RowValues(error: real, lower: real, upper: real)

  /** The positional correction a violated limit asks for: `-(fps * erp) * error`. */
  function LimitCorrection(m: RotationalMotor, fps: real): real
  {
    -(fps * m.erp) * m.currentLimitError
  }

  /** The row of an armed axis. `vel` is the joint velocity along the axis
      (body 0's angular velocity minus body 1's, projected on it). A free
      axis is a motor row; a limited one is a limit row, locked (both bounds
      open) when lo == hi, one-sided otherwise, where bounce may raise (low
      limit) or lower (high limit) the correction for an incoming velocity. */
  function MotorRow(m: RotationalMotor, fps: real, vel: real): (r: RowValues)
    requires NeedApplyTorques(m)
    ensures m.currentLimit == 0 ==>
      r == RowValues(m.targetVelocity, -m.maxMotorForce, m.maxMotorForce)
    ensures m.currentLimit != 0 && m.loLimit == m.hiLimit ==>
      r == RowValues(LimitCorrection(m, fps), -Infinity, Infinity)
    ensures m.currentLimit == 1 && m.loLimit != m.hiLimit ==>
      r.lower == 0.0 && r.upper == Infinity &&
      r.error >= LimitCorrection(m, fps) &&
      (m.bounce > 0.0 && vel < 0.0 ==> r.error >= -m.bounce * vel) &&
      (r.error == LimitCorrection(m, fps) || (m.bounce > 0.0 && vel < 0.0 && r.error == -m.bounce * vel))
    ensures m.currentLimit != 0 && m.currentLimit != 1 && m.loLimit != m.hiLimit ==>
      r.lower == -Infinity && r.upper == 0.0 &&
      r.error <= LimitCorrection(m, fps) &&
      (m.bounce > 0.0 && vel > 0.0 ==> r.error <= -m.bounce * vel) &&
      (r.error == LimitCorrection(m, fps) || (m.bounce > 0.0 && vel > 0.0 && r.error == -m.bounce * vel))
  {
    if m.currentLimit == 0 then
      RowValues(m.targetVelocity, -m.maxMotorForce, m.maxMotorForce)
    else
      var base := LimitCorrection(m, fps);
      if m.loLimit == m.hiLimit then
        RowValues(base, -Infinity, Infinity)
      else if m.currentLimit == 1 then
        var bounced := -m.bounce * vel;
        RowValues(if m.bounce > 0.0 && vel < 0.0 && bounced > base then bounced else base, 0.0, Infinity)
      else
        var bounced := -m.bounce * vel;
        RowValues(if m.bounce > 0.0 && vel > 0.0 && bounced < base then bounced else base, -Infinity, 0.0)
  }

  /** At a violated limit the motor has no say: the row does not depend on
      whether the motor is enabled, on its target velocity or on its force. */
  lemma LimitOverridesMotor(m: RotationalMotor, fps: real, vel: real,
                            enable: bool, target: real, force: real)
    requires m.currentLimit != 0
    ensures var m' := m.(enableMotor := enable, targetVelocity := target, maxMotorForce := force);
            MotorRow(m', fps, vel) == MotorRow(m, fps, vel)
  {
  }

  /** The bounds of every row are ordered, given a non-negative motor force. */
  lemma RowBoundsOrdered(m: RotationalMotor, fps: real, vel: real)
    requires NeedApplyTorques(m)
    requires m.maxMotorForce >= 0.0
    ensures MotorRow(m, fps, vel).lower <= MotorRow(m, fps, vel).upper
  {
  }

  /** Bounce never weakens a limit row: whatever the velocity, a low limit
      asks for at least the positional correction, a high limit for at most. */
  lemma BounceOnlyStrengthens(m: RotationalMotor, fps: real, vel: real)
    requires m.currentLimit != 0 && m.loLimit != m.hiLimit
    ensures m.currentLimit == 1 ==> MotorRow(m, fps, vel).error >= MotorRow(m.(bounce := 0.0), fps, vel).error
    ensures m.currentLimit != 1 ==> MotorRow(m, fps, vel).error <= MotorRow(m.(bounce := 0.0), fps, vel).error
  {
  }
}
