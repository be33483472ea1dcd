/** `SimpleMotor`: a motor whose effort is the command at its joint, clamped
    to the torque limit when asked, plus viscous and dry friction. */
module Motors {
  import opened Common
  import ForceLaws

  /** The options `SimpleMotor` reads. */
  datatype MotorOptions = MotorOptions(
    enableTorqueLimit: bool,
    enableFriction: bool,
    frictionViscousPositive: real,
    frictionViscousNegative: real,
    frictionDryPositive: real,
    frictionDryNegative: real,
    frictionDrySlope: real)

  /** The friction options `setOptions` accepts: every coefficient is
      non-positive and the dry-friction slope non-negative. */
  predicate FrictionAdmissible(o: MotorOptions)
  {
    && o.frictionViscousPositive <= 0.0
    && o.frictionViscousNegative <= 0.0
    && o.frictionDryPositive <= 0.0
    && o.frictionDryNegative <= 0.0
    && o.frictionDrySlope >= 0.0
  }

  /** Viscous plus dry friction at velocity `v`: `viscous * v + dry *
      tanh(slope * v)`. */
  function Drag(viscous: real, dry: real, slope: real, v: real, th: real -> real): real
  {
    viscous * v + dry * th(slope * v)
  }

  /** The friction added at joint velocity `vMotor`: the "positive"
      coefficients for a strictly positive velocity, the "negative" ones
      otherwise. */
  function FrictionTerm(o: MotorOptions, vMotor: real, th: real -> real): real
  {
    if vMotor > 0.0 then Drag(o.frictionViscousPositive, o.frictionDryPositive, o.frictionDrySlope, vMotor, th)
    else Drag(o.frictionViscousNegative, o.frictionDryNegative, o.frictionDrySlope, vMotor, th)
  }

  /** Non-positive coefficients and a non-negative slope make the drag
      oppose the velocity, and vanish at rest. */
  lemma DragOpposesVelocity(viscous: real, dry: real, slope: real, v: real, th: real -> real)
    requires TanhLike(th) && viscous <= 0.0 && dry <= 0.0 && slope >= 0.0
    ensures v > 0.0 ==> Drag(viscous, dry, slope, v, th) <= 0.0
    ensures v < 0.0 ==> Drag(viscous, dry, slope, v, th) >= 0.0
    ensures v == 0.0 ==> Drag(viscous, dry, slope, v, th) == 0.0
    ensures Drag(viscous, dry, slope, v, th) * v <= 0.0
  {
    var s := slope * v;
    var t := th(s);
    TanhSign(th, s);
    var f := viscous * v + dry * t;
    if v > 0.0 {
      ForceLaws.MulNonNeg(slope, v);
      ForceLaws.MulNonNeg(-viscous, v);
      ForceLaws.MulNonNeg(-dry, t);
      ForceLaws.MulNonNeg(-f, v);
    } else if v < 0.0 {
      ForceLaws.MulNonNeg(slope, -v);
      assert s == -(slope * -v);
      ForceLaws.MulNonNeg(-viscous, -v);
      ForceLaws.MulNonNeg(-dry, -t);
      ForceLaws.MulNonNeg(f, -v);
    } else {
      assert s == 0.0;
    }
  }

  /** With admissible coefficients friction never drives the joint: it is
      at most zero for a positive velocity, at least zero for a negative
      one, and zero at rest. */
  lemma FrictionOpposesVelocity(o: MotorOptions, vMotor: real, th: real -> real)
    requires TanhLike(th) && FrictionAdmissible(o)
    ensures vMotor > 0.0 ==> FrictionTerm(o, vMotor, th) <= 0.0
    ensures vMotor < 0.0 ==> FrictionTerm(o, vMotor, th) >= 0.0
    ensures vMotor == 0.0 ==> FrictionTerm(o, vMotor, th) == 0.0
    ensures FrictionTerm(o, vMotor, th) * vMotor <= 0.0
  {
    if vMotor > 0.0 {
      DragOpposesVelocity(o.frictionViscousPositive, o.frictionDryPositive, o.frictionDrySlope, vMotor, th);
    } else {
      DragOpposesVelocity(o.frictionViscousNegative, o.frictionDryNegative, o.frictionDrySlope, vMotor, th);
    }
  }

  /** The effort `computeEffort` produces from the command `command` and the
      velocity `vMotor` at the motor's joint. */
  function MotorEffort(o: MotorOptions, torqueLimit: real, command: real, vMotor: real, th: real -> real): (r: real)
    ensures !o.enableTorqueLimit && !o.enableFriction ==> r == command
    ensures o.enableTorqueLimit && !o.enableFriction && torqueLimit >= 0.0 ==> -torqueLimit <= r <= torqueLimit
    ensures !o.enableFriction && (!o.enableTorqueLimit || -torqueLimit <= command <= torqueLimit) ==> r == command
  {
    var limited := if o.enableTorqueLimit then Clamp(command, -torqueLimit, torqueLimit) else command;
    if o.enableFriction then limited + FrictionTerm(o, vMotor, th) else limited
  }

  /** With friction enabled and admissible, the effort moves from the
      (clamped) command against the joint's motion. */
  lemma EffortDissipates(o: MotorOptions, torqueLimit: real, command: real, vMotor: real, th: real -> real)
    requires TanhLike(th) && FrictionAdmissible(o) && o.enableFriction
    ensures var limited := if o.enableTorqueLimit then Clamp(command, -torqueLimit, torqueLimit) else command;
            (MotorEffort(o, torqueLimit, command, vMotor, th) - limited) * vMotor <= 0.0
  {
    FrictionOpposesVelocity(o, vMotor, th);
  }

  /** Friction is added after the clamp, so the effort can leave
      [-limit, limit]: a command at the lower bound with a viscous drag
      against a positive velocity ends below it. */
  lemma FrictionCanExceedLimit(th: real -> real)
    requires TanhLike(th)
    ensures var o := MotorOptions(true, true, -1.0, -1.0, 0.0, 0.0, 0.0);
            MotorEffort(o, 1.0, -2.0, 1.0, th) == -2.0 < -1.0
  {
  }

  class SimpleMotor {
    var isInitialized: bool
    var options: MotorOptions
    /** The limit `getTorqueLimit()` of the motor. */
    var torqueLimit: real
    /** `getJointVelocityIdx()`. */
    var jointVelocityIdx: nat
    /** The motor's slot `data()` in the shared data holder. */
    var effort: real

    /** The options are those `setOptions` last accepted. */
    ghost predicate Valid()
      reads this
    {
      FrictionAdmissible(options)
    }

    /** `setOptions(motorOptions)`: the base motor's own `setOptions` runs
        first, its result being `baseCode`; when it succeeds every friction
        option is checked, any violation giving ERROR_BAD_INPUT; the options
        are stored only on success. */
    method SetOptions(o: MotorOptions, baseCode: ResultCode) returns (code: ResultCode)
      modifies this`options
      ensures old(Valid()) || code == Success ==> Valid()
      ensures code == (if baseCode != Success then baseCode
                       else if FrictionAdmissible(o) then Success
                       else ErrorBadInput)
      ensures options == if code == Success then o else old(options)
    {
      code := baseCode;
      if code == Success {
        if o.frictionViscousPositive > 0.0 {
          code := ErrorBadInput;
        }
        if o.frictionViscousNegative > 0.0 {
          code := ErrorBadInput;
        }
        if o.frictionDryPositive > 0.0 {
          code := ErrorBadInput;
        }
        if o.frictionDryNegative > 0.0 {
          code := ErrorBadInput;
        }
        if o.frictionDrySlope < 0.0 {
          code := ErrorBadInput;
        }
      }
      if code == Success {
        options := o;
      }
    }

    /** `computeEffort(t, q, v, a, u)`: ERROR_INIT_FAILED on an
        uninitialised motor; otherwise the effort is the command at the
        motor's joint velocity index, clamped if enabled, plus friction if
        enabled. */
    method ComputeEffort(v: seq<real>, u: seq<real>, th: real -> real) returns (code: ResultCode)
      requires isInitialized ==> jointVelocityIdx < |u| && jointVelocityIdx < |v|
      modifies this`effort
      ensures !isInitialized ==> code == ErrorInitFailed && effort == old(effort)
      ensures isInitialized ==> code == Success
      ensures isInitialized ==>
                effort == MotorEffort(options, torqueLimit, u[jointVelocityIdx], v[jointVelocityIdx], th)
    {
      if !isInitialized {
        return ErrorInitFailed;
      }
      effort := u[jointVelocityIdx];
      if options.enableTorqueLimit {
        effort := Clamp(effort, -torqueLimit, torqueLimit);
      }
      if options.enableFriction {
        var vMotor := v[jointVelocityIdx];
        var slope := options.frictionDrySlope;
        if vMotor > 0.0 {
          effort := effort + Drag(options.frictionViscousPositive, options.frictionDryPositive, slope, vMotor, th);
        } else {
          effort := effort + Drag(options.frictionViscousNegative, options.frictionDryNegative, slope, vMotor, th);
        }
      }
      code := Success;
    }
  }
}
