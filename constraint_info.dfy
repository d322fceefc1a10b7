/** btConstraintInfo2, the row buffers the constraint fills for the solver,
    and bt_get_limit_motor_info2, which fills one row for a rotational axis. */
module ConstraintRows {
  import opened Geometry
  import opened LimitRules
  import opened LimitMotors
  import opened RowRules

  /** The solver's row buffers: `rows` rows of `rowskip` entries each, per
      column kind, and the frame rate and error reduction of the step. */
  class ConstraintInfo2 {
    const fps: real
    const erp: real
    const rowskip: int
    const rows: int
    const j1LinearAxis: array<real>
    const j1AngularAxis: array<real>
    const j2AngularAxis: array<real>
    const constraintError: array<real>
    const cfm: array<real>
    const lowerLimit: array<real>
    const upperLimit: array<real>

    /** Every buffer holds `rows * rowskip` entries, a row holds at least a
        vector, and no two buffers alias. */
    ghost predicate Valid()
    {
      rowskip >= 3 && rows >= 0 &&
      j1LinearAxis.Length == rows * rowskip && j1AngularAxis.Length == rows * rowskip &&
      j2AngularAxis.Length == rows * rowskip && constraintError.Length == rows * rowskip &&
      cfm.Length == rows * rowskip && lowerLimit.Length == rows * rowskip &&
      upperLimit.Length == rows * rowskip &&
      j1LinearAxis != j1AngularAxis && j1LinearAxis != j2AngularAxis &&
      j1LinearAxis != constraintError && j1LinearAxis != cfm &&
      j1LinearAxis != lowerLimit && j1LinearAxis != upperLimit &&
      j1AngularAxis != j2AngularAxis && j1AngularAxis != constraintError &&
      j1AngularAxis != cfm && j1AngularAxis != lowerLimit && j1AngularAxis != upperLimit &&
      j2AngularAxis != constraintError && j2AngularAxis != cfm &&
      j2AngularAxis != lowerLimit && j2AngularAxis != upperLimit &&
      constraintError != cfm && constraintError != lowerLimit && constraintError != upperLimit &&
      cfm != lowerLimit && cfm != upperLimit && lowerLimit != upperLimit
    }

    /** Zeroed buffers for `rows` rows. */
    constructor (fps: real, erp: real, rowskip: int, rows: int)
      requires rowskip >= 3 && rows >= 0
      ensures Valid()
      ensures this.fps == fps && this.erp == erp && this.rowskip == rowskip && this.rows == rows
      ensures fresh(j1LinearAxis) && fresh(j1AngularAxis) && fresh(j2AngularAxis) &&
              fresh(constraintError) && fresh(cfm) && fresh(lowerLimit) && fresh(upperLimit)
    {
      this.fps := fps;
      this.erp := erp;
      this.rowskip := rowskip;
      this.rows := rows;
      j1LinearAxis := new real[rows * rowskip](_ => 0.0);
      j1AngularAxis := new real[rows * rowskip](_ => 0.0);
      j2AngularAxis := new real[rows * rowskip](_ => 0.0);
      constraintError := new real[rows * rowskip](_ => 0.0);
      cfm := new real[rows * rowskip](_ => 0.0);
      lowerLimit := new real[rows * rowskip](_ => 0.0);
      upperLimit := new real[rows * rowskip](_ => 0.0);
    }
  }

  /** Row `a` ends before row `b` starts. */
  lemma {:induction false} RowBelow(a: int, b: int, s: int)
    requires 0 <= a < b && s >= 0
    ensures a * s + s <= b * s
    decreases b - a
  {
    if b > a + 1 {
      RowBelow(a, b - 1, s);
      assert (b - 1) * s + s == b * s;
    } else {
      assert (a + 1) * s == a * s + s;
    }
  }

  /** `y` is `x` with at most the entries in [lo, hi) changed. */
  predicate SameOutside(x: seq<real>, y: seq<real>, lo: int, hi: int)
  {
    |y| == |x| && forall k | 0 <= k < |x| && !(lo <= k < hi) :: y[k] == x[k]
  }

  /** The six buffers a rotational row writes, as values: J1 and J2
      angular, cfm, right-hand side, lower and upper bound. */
  datatype RowBuffers = RowBuffers(j1Angular: seq<real>, j2Angular: seq<real>, cfm: seq<real>,
                                   error: seq<real>, lower: seq<real>, upper: seq<real>)

  /** The current contents of those six buffers of `info`. */
  ghost function Buffers(info: ConstraintInfo2): RowBuffers
    reads info.j1AngularAxis, info.j2AngularAxis, info.cfm, info.constraintError,
          info.lowerLimit, info.upperLimit
  {
    RowBuffers(info.j1AngularAxis[..], info.j2AngularAxis[..], info.cfm[..],
               info.constraintError[..], info.lowerLimit[..], info.upperLimit[..])
  }

  /** `b1` is `b0` with at most the entries in [lo, hi) of each buffer
      changed. */
  predicate KeptOutside(b0: RowBuffers, b1: RowBuffers, lo: int, hi: int)
  {
    SameOutside(b0.j1Angular, b1.j1Angular, lo, hi) && SameOutside(b0.j2Angular, b1.j2Angular, lo, hi) &&
    SameOutside(b0.cfm, b1.cfm, lo, hi) && SameOutside(b0.error, b1.error, lo, hi) &&
    SameOutside(b0.lower, b1.lower, lo, hi) && SameOutside(b0.upper, b1.upper, lo, hi)
  }

  /** Writes confined to [lo, mid) followed by writes confined to
      [mid, hi) are confined to [lo, hi). */
  lemma KeptChain(b0: RowBuffers, b1: RowBuffers, b2: RowBuffers, lo: int, mid: int, hi: int)
    requires lo <= mid <= hi
    requires KeptOutside(b0, b1, lo, mid) && KeptOutside(b1, b2, mid, hi)
    ensures KeptOutside(b0, b2, lo, hi)
  {
  }

  /** The joint velocity bt_get_limit_motor_info2 uses for bounce: body 0's
      angular velocity minus body 1's, along the axis. */
  function JointVelocity(body0: RigidBody, body1: RigidBody, ax: Vec3): real
  {
    Dot(body0.angularVelocity, ax) - Dot(body1.angularVelocity, ax)
  }

  /** The row starting at entry `srow` of `b` is the rotational row for
      axis `ax` with values `rv`: J1 angular is the axis, J2 angular its
      negation, cfm zero. */
  predicate RowIn(b: RowBuffers, srow: int, ax: Vec3, rv: RowValues)
  {
    0 <= srow && srow + 3 <= |b.j1Angular| && srow + 3 <= |b.j2Angular| &&
    srow < |b.cfm| && srow < |b.error| && srow < |b.lower| && srow < |b.upper| &&
    b.j1Angular[srow] == ax.x && b.j1Angular[srow + 1] == ax.y && b.j1Angular[srow + 2] == ax.z &&
    b.j2Angular[srow] == -ax.x && b.j2Angular[srow + 1] == -ax.y && b.j2Angular[srow + 2] == -ax.z &&
    b.cfm[srow] == 0.0 && b.error[srow] == rv.error && b.lower[srow] == rv.lower && b.upper[srow] == rv.upper
  }

  /** A row ending before `lo` survives writes confined to [lo, hi). */
  lemma RowInKept(b0: RowBuffers, b1: RowBuffers, srow: int, ax: Vec3, rv: RowValues, lo: int, hi: int)
    requires RowIn(b0, srow, ax, rv) && srow + 3 <= lo && KeptOutside(b0, b1, lo, hi)
    ensures RowIn(b1, srow, ax, rv)
  {
  }

  /** All six buffers have the length of J1 angular. */
  predicate Uniform(b: RowBuffers)
  {
    |b.j2Angular| == |b.j1Angular| && |b.cfm| == |b.j1Angular| && |b.error| == |b.j1Angular| &&
    |b.lower| == |b.j1Angular| && |b.upper| == |b.j1Angular|
  }

  /** The buffers once the rotational row for axis `ax` with values `rv`
      is written at entry `srow`: that row holds, nothing else changed. */
  function WriteRow(b: RowBuffers, srow: int, ax: Vec3, rv: RowValues): (w: RowBuffers)
    requires Uniform(b) && 0 <= srow && srow + 3 <= |b.j1Angular|
    ensures Uniform(w) && |w.j1Angular| == |b.j1Angular|
    ensures RowIn(w, srow, ax, rv)
    ensures KeptOutside(b, w, srow, srow + 3)
  {
    RowBuffers(b.j1Angular[srow := ax.x][srow + 1 := ax.y][srow + 2 := ax.z],
               b.j2Angular[srow := -ax.x][srow + 1 := -ax.y][srow + 2 := -ax.z],
               b.cfm[srow := 0.0], b.error[srow := rv.error],
               b.lower[srow := rv.lower], b.upper[srow := rv.upper])
  }

  /** bt_get_limit_motor_info2 for a rotational axis with a second body:
      an armed motor fills row `row` and reports one row used; an idle one
      writes nothing and reports none. */
  method GetLimitMotorInfo2(limot: RotationalLimitMotor, body0: RigidBody, body1: RigidBody,
                            info: ConstraintInfo2, row: int, ax1: Vec3) returns (r: int)
    requires info.Valid() && 0 <= row < info.rows
    modifies info.j1AngularAxis, info.j2AngularAxis, info.cfm, info.constraintError,
             info.lowerLimit, info.upperLimit
    ensures r == (if NeedApplyTorques(limot.Value()) then 1 else 0)
    ensures row * info.rowskip + 3 <= info.rows * info.rowskip
    ensures Buffers(info) ==
      if r == 1 then WriteRow(old(Buffers(info)), row * info.rowskip, ax1,
                              MotorRow(limot.Value(), info.fps, JointVelocity(body0, body1, ax1)))
      else old(Buffers(info))
  {
    var srow := row * info.rowskip;
    RowBelow(row, info.rows, info.rowskip);
    var powered := limot.enableMotor;
    var limit := limot.currentLimit;
    if !(powered || limit != 0) {
      return 0;
    }
    info.j1AngularAxis[srow + 0] := ax1.x;
    info.j1AngularAxis[srow + 1] := ax1.y;
    info.j1AngularAxis[srow + 2] := ax1.z;
    info.j2AngularAxis[srow + 0] := -ax1.x;
    info.j2AngularAxis[srow + 1] := -ax1.y;
    info.j2AngularAxis[srow + 2] := -ax1.z;
    SetRowLimits(limot, body0, body1, info, srow, ax1);
    return 1;
  }

  /** The scalar half of bt_get_limit_motor_info2 for an armed axis: cfm,
      right-hand side and bounds of the row starting at `srow`, with the
      powered flag dropped when the axis is locked at a limit. The four
      entries are worked on as locals and stored at the end. */
  method SetRowLimits(limot: RotationalLimitMotor, body0: RigidBody, body1: RigidBody,
                      info: ConstraintInfo2, srow: int, ax1: Vec3)
    requires info.Valid() && 0 <= srow < info.rows * info.rowskip
    requires NeedApplyTorques(limot.Value())
    modifies info.cfm, info.constraintError, info.lowerLimit, info.upperLimit
    ensures var rv := MotorRow(limot.Value(), info.fps, JointVelocity(body0, body1, ax1));
            info.cfm[..] == old(info.cfm[..])[srow := 0.0] &&
            info.constraintError[..] == old(info.constraintError[..])[srow := rv.error] &&
            info.lowerLimit[..] == old(info.lowerLimit[..])[srow := rv.lower] &&
            info.upperLimit[..] == old(info.upperLimit[..])[srow := rv.upper]
  {
    var cfm, error, lower, upper := RowScalars(limot, body0, body1, info.fps, ax1,
      info.cfm[srow], info.constraintError[srow], info.lowerLimit[srow], info.upperLimit[srow]);
    info.cfm[srow] := cfm;
    info.constraintError[srow] := error;
    info.lowerLimit[srow] := lower;
    info.upperLimit[srow] := upper;
  }

  /** The branches of bt_get_limit_motor_info2 that choose cfm, right-hand
      side and bounds, from the entries' current values: a powered free axis
      is a motor row; a limit overrides it, locked or one-sided, with bounce
      able to strengthen the correction. */
  method RowScalars(limot: RotationalLimitMotor, body0: RigidBody, body1: RigidBody,
                    fps: real, ax1: Vec3, cfm0: real, error0: real, lower0: real, upper0: real)
    returns (cfm: real, error: real, lower: real, upper: real)
    requires NeedApplyTorques(limot.Value())
    ensures var rv := MotorRow(limot.Value(), fps, JointVelocity(body0, body1, ax1));
            cfm == 0.0 && error == rv.error && lower == rv.lower && upper == rv.upper
  {
    cfm, error, lower, upper := cfm0, error0, lower0, upper0;
    var powered := limot.enableMotor;
    var limit := limot.currentLimit;
    if limit != 0 && limot.loLimit == limot.hiLimit {
      powered := false;
    }
    if powered {
      cfm := 0.0;
      if limit == 0 {
        error := limot.targetVelocity;
        lower := -limot.maxMotorForce;
        upper := limot.maxMotorForce;
      }
    }
    if limit != 0 {
      var k := fps * limot.erp;
      error := -k * limot.currentLimitError;
      cfm := 0.0;
      if limot.loLimit == limot.hiLimit {
        lower := -Infinity;
        upper := Infinity;
      } else {
        if limit == 1 {
          lower := 0.0;
          upper := Infinity;
        } else {
          lower := -Infinity;
          upper := 0.0;
        }
        if limot.bounce > 0.0 {
          var vel := Dot(body0.angularVelocity, ax1);
          vel := vel - Dot(body1.angularVelocity, ax1);
          if limit == 1 {
            if vel < 0.0 {
              var newc := -limot.bounce * vel;
              if newc > error {
                error := newc;
              }
            }
          } else {
            if vel > 0.0 {
              var newc := -limot.bounce * vel;
              if newc < error {
                error := newc;
              }
            }
          }
        }
      }
    }
  }

  /** The three rows of a 3x3 block written through row pointers with
      stride `s`: row `r` of `m` in entries `r*s .. r*s+2` of `x`. */
  predicate BlockIn(x: seq<real>, s: int, m: Mat3)
  {
    0 <= s && 2 * s + 3 <= |x| &&
    x[0] == m.r0.x && x[1] == m.r0.y && x[2] == m.r0.z &&
    x[s] == m.r1.x && x[s + 1] == m.r1.y && x[s + 2] == m.r1.z &&
    x[2 * s] == m.r2.x && x[2 * s + 1] == m.r2.y && x[2 * s + 2] == m.r2.z
  }

  /** A block survives writes confined to entries from `lo` on. */
  lemma BlockKept(x: seq<real>, y: seq<real>, s: int, m: Mat3, lo: int, hi: int)
    requires BlockIn(x, s, m) && 2 * s + 3 <= lo && SameOutside(x, y, lo, hi)
    ensures BlockIn(y, s, m)
  {
  }

  /** Entry `k` lies in the 3x3 block at the start of a buffer with row
      stride `s`. */
  predicate InBlock(k: int, s: int)
  {
    0 <= k < 3 || s <= k < s + 3 || 2 * s <= k < 2 * s + 3
  }

  /** Every entry of `a` outside the leading 3x3 block kept its value. */
  twostate predicate SameOutsideBlock(a: array<real>, s: int)
    reads a
  {
    forall k | 0 <= k < a.Length && !InBlock(k, s) :: a[k] == old(a[k])
  }

  /** btVector3::getSkewSymmetricMatrix writing its three rows through the
      pointers `a`, `a + s` and `a + 2s`: the cross-product matrix of `v`. */
  method WriteSkewSymmetric(a: array<real>, s: int, v: Vec3)
    requires s >= 3 && 2 * s + 3 <= a.Length
    modifies a
    ensures BlockIn(a[..], s, SkewSymmetric(v))
    ensures SameOutsideBlock(a, s)
  {
    a[0], a[1], a[2] := 0.0, -v.z, v.y;
    a[s], a[s + 1], a[s + 2] := v.z, 0.0, -v.x;
    a[2 * s], a[2 * s + 1], a[2 * s + 2] := -v.y, v.x, 0.0;
  }
}
