/** The scalar force laws of the engine: the ground contact law of
    `computeContactDynamics` and the joint soft limits of
    `computeInternalDynamics`.  The hyperbolic tangent that blends each law
    near its boundary is a parameter `th` with the properties of `TanhLike`. */
module ForceLaws {
  import opened Common
  import opened EngineOptions

  // ---------------------------------------------------------------------
  // Contact law
  // ---------------------------------------------------------------------

  /** Penetration depth of a contact point: the first-order projection of its
      height above the ground onto the ground normal (negative under ground). */
  function Depth(pos: Vec3, ground: GroundSample): real
  {
    (pos.z - ground.height) * ground.normal.z
  }

  /** Magnitude of the normal reaction for a penetration `depth < 0` and a
      normal velocity `vDepth`: a spring, plus a damper that acts only while
      the point is moving further into the ground. */
  function NormalForce(depth: real, vDepth: real, c: ContactOptions): (r: real)
    ensures vDepth < 0.0 ==> r == -c.damping * vDepth - c.stiffness * depth
    ensures vDepth >= 0.0 ==> r == -c.stiffness * depth
  {
    var damped := if vDepth < 0.0 then 0.0 - c.damping * vDepth else 0.0;
    damped - c.stiffness * depth
  }

  /** With non-negative gains the normal reaction of a penetrating point pushes out. */
  lemma NormalForceRepulsive(depth: real, vDepth: real, c: ContactOptions)
    requires depth < 0.0 && c.stiffness >= 0.0 && c.damping >= 0.0
    ensures NormalForce(depth, vDepth, c) >= 0.0
    ensures c.stiffness > 0.0 ==> NormalForce(depth, vDepth, c) > 0.0
  {
    MulNonNeg(c.stiffness, -depth);
    if vDepth < 0.0 {
      MulNonNeg(c.damping, -vDepth);
    }
    if c.stiffness > 0.0 {
      MulPos(c.stiffness, -depth);
    }
  }

  lemma MulNonNeg(a: real, b: real)
    requires a >= 0.0 && b >= 0.0
    ensures a * b >= 0.0
  {
  }

  lemma MulPos(a: real, b: real)
    requires a > 0.0 && b > 0.0
    ensures a * b > 0.0
  {
  }

  /** The sign of a factor follows from the sign of its product with a positive number. */
  lemma SignFromProduct(x: real, b: real)
    requires b > 0.0
    ensures x * b >= 0.0 ==> x >= 0.0
    ensures x * b > 0.0 ==> x > 0.0
  {
    if x < 0.0 {
      MulPos(-x, b);
    } else if x == 0.0 {
      assert x * b == 0.0;
    }
  }

  /** The linear ramp between dry and viscous friction. */
  function FrictionRamp(vNorm: real, c: ContactOptions): real
    requires c.dryFrictionVelEps != 0.0
  {
    -2.0 * (c.frictionDry - c.frictionViscous) * (vNorm / c.dryFrictionVelEps)
      + 3.0 * c.frictionDry - 2.0 * c.frictionViscous
  }

  /** Friction coefficient as a function of the tangential speed `vNorm`:
      proportional to the speed below `dryFrictionVelEps`, a ramp on
      [eps, 1.5 eps), and the viscous coefficient above. */
  function FrictionCoefficient(vNorm: real, c: ContactOptions): (r: real)
    requires vNorm >= 0.0
    ensures vNorm < c.dryFrictionVelEps ==>
              c.dryFrictionVelEps > 0.0 && r * c.dryFrictionVelEps == c.frictionDry * vNorm
    ensures vNorm >= 1.5 * c.dryFrictionVelEps && vNorm >= c.dryFrictionVelEps ==>
              r == c.frictionViscous
    ensures c.dryFrictionVelEps <= vNorm < 1.5 * c.dryFrictionVelEps ==>
              r == c.frictionDry + (c.frictionViscous - c.frictionDry)
                                   * (2.0 * (vNorm / c.dryFrictionVelEps - 1.0))
    ensures c.dryFrictionVelEps <= vNorm < 1.5 * c.dryFrictionVelEps ==>
              Min(c.frictionDry, c.frictionViscous) <= r <= Max(c.frictionDry, c.frictionViscous)
  {
    var eps := c.dryFrictionVelEps;
    if vNorm >= eps then
      if vNorm < 1.5 * eps then
        RampBetween(vNorm, c);
        FrictionRamp(vNorm, c)
      else c.frictionViscous
    else c.frictionDry * (vNorm / eps)
  }

  /** The ramp is the interpolation `dry + (viscous - dry) * s` with
      `s = 2 (vNorm / eps - 1)` running over [0, 1) on the ramp. */
  lemma RampBetween(vNorm: real, c: ContactOptions)
    requires c.dryFrictionVelEps <= vNorm < 1.5 * c.dryFrictionVelEps
    ensures c.dryFrictionVelEps > 0.0
    ensures 0.0 <= 2.0 * (vNorm / c.dryFrictionVelEps - 1.0) < 1.0
    ensures FrictionRamp(vNorm, c) == c.frictionDry + (c.frictionViscous - c.frictionDry)
                                      * (2.0 * (vNorm / c.dryFrictionVelEps - 1.0))
    ensures Min(c.frictionDry, c.frictionViscous) <= FrictionRamp(vNorm, c)
              <= Max(c.frictionDry, c.frictionViscous)
  {
    var eps := c.dryFrictionVelEps;
    var s := 2.0 * (vNorm / eps - 1.0);
    assert vNorm / eps * eps == vNorm;
    SignFromProduct(vNorm / eps - 1.0, eps);
    SignFromProduct(1.5 - vNorm / eps, eps);
    assert 1.0 <= vNorm / eps < 1.5;
    assert 0.0 <= s < 1.0;
    var d := c.frictionDry;
    var w := c.frictionViscous;
    assert FrictionRamp(vNorm, c) == d + (w - d) * s;
    if d <= w {
      MulNonNeg(w - d, s);
      MulNonNeg(w - d, 1.0 - s);
    } else {
      MulNonNeg(d - w, s);
      MulNonNeg(d - w, 1.0 - s);
    }
  }

  /** The friction law is continuous: the proportional part reaches
      `frictionDry` where the ramp starts, and the ramp reaches
      `frictionViscous` where the constant part starts. */
  lemma FrictionContinuous(c: ContactOptions)
    requires c.dryFrictionVelEps > 0.0
    ensures FrictionCoefficient(c.dryFrictionVelEps, c) == c.frictionDry
    ensures FrictionRamp(1.5 * c.dryFrictionVelEps, c) == c.frictionViscous
    ensures FrictionCoefficient(1.5 * c.dryFrictionVelEps, c) == c.frictionViscous
  {
    var eps := c.dryFrictionVelEps;
    assert eps / eps == 1.0;
    assert (1.5 * eps) / eps == 1.5;
  }

  /** Tangential part of the contact point velocity. */
  function Tangential(vFrame: Vec3, normal: Vec3): Vec3
  {
    vFrame.Add(normal.Scale(-vFrame.Dot(normal)))
  }

  /** `n` is the Euclidean norm of `v`. */
  predicate IsNorm(n: real, v: Vec3)
  {
    n >= 0.0 && n * n == v.Dot(v)
  }

  /** The contact force before blending, for a penetrating point:
      the normal reaction along the normal, minus friction along the
      tangential velocity. */
  function UnblendedContactForce(depth: real, vFrame: Vec3, normal: Vec3, vNorm: real,
                                 c: ContactOptions): (r: Vec3)
    requires IsNorm(vNorm, Tangential(vFrame, normal))
  {
    var fN := NormalForce(depth, vFrame.Dot(normal), c);
    var mu := FrictionCoefficient(vNorm, c);
    normal.Scale(fN).Add(Tangential(vFrame, normal).Scale(-(mu * fN)))
  }

  /** `computeContactDynamics`, in world coordinates.  The ground normal is
      taken as already normalised; the tangential speed `vNorm` is the
      Euclidean norm of the tangential velocity, passed in because the
      square root is not computed here. */
  function ContactForce(pos: Vec3, ground: GroundSample, vFrame: Vec3, vNorm: real,
                        c: ContactOptions, th: real -> real): (r: Vec3)
    requires IsNorm(vNorm, Tangential(vFrame, ground.normal))
    ensures Depth(pos, ground) >= 0.0 ==> r == ZeroVec3
    ensures Depth(pos, ground) < 0.0 && c.transitionEps <= EPS ==>
              r == UnblendedContactForce(Depth(pos, ground), vFrame, ground.normal, vNorm, c)
  {
    var depth := Depth(pos, ground);
    if depth < 0.0 then
      var f := UnblendedContactForce(depth, vFrame, ground.normal, vNorm, c);
      if c.transitionEps > EPS then f.Scale(th(2.0 * (-depth / c.transitionEps)))
      else f
    else ZeroVec3
  }

  /** Blending scales the contact force by a factor strictly between 0 and 1. */
  lemma ContactBlendingShrinks(pos: Vec3, ground: GroundSample, vFrame: Vec3, vNorm: real,
                               c: ContactOptions, th: real -> real)
    requires TanhLike(th) && IsNorm(vNorm, Tangential(vFrame, ground.normal))
    requires Depth(pos, ground) < 0.0 && c.transitionEps > EPS
    ensures exists k: real :: 0.0 < k < 1.0 &&
              ContactForce(pos, ground, vFrame, vNorm, c, th)
                == UnblendedContactForce(Depth(pos, ground), vFrame, ground.normal, vNorm, c).Scale(k)
  {
    var depth := Depth(pos, ground);
    var b := -depth / c.transitionEps;
    assert b * c.transitionEps == -depth;
    SignFromProduct(b, c.transitionEps);
    TanhSign(th, 2.0 * b);
    var k := th(2.0 * b);
    assert ContactForce(pos, ground, vFrame, vNorm, c, th)
             == UnblendedContactForce(depth, vFrame, ground.normal, vNorm, c).Scale(k);
  }

  // ---------------------------------------------------------------------
  // Joint soft limits
  // ---------------------------------------------------------------------

  /** Blends a limit force by `tanh(2 error / eps)` when blending is enabled. */
  function Blend(force: real, error: real, j: JointOptions, th: real -> real): real
  {
    if j.boundTransitionEps > EPS then force * th(2.0 * (error / j.boundTransitionEps))
    else force
  }

  /** The position-limit force of one degree of freedom before blending:
      a spring beyond the bound plus a damper against motion away from it. */
  function PositionLimitRaw(q: real, v: real, qMin: real, qMax: real, j: JointOptions): (r: (real, real))
    ensures qMin <= q <= qMax ==> r == (0.0, 0.0)
    ensures q > qMax ==> r.1 == q - qMax
    ensures q <= qMax && q < qMin ==> r.1 == qMin - q
  {
    if q > qMax then
      (-j.boundStiffness * (q - qMax) + -j.boundDamping * Max(v, 0.0), q - qMax)
    else if q < qMin then
      (j.boundStiffness * (qMin - q) + -j.boundDamping * Min(v, 0.0), qMin - q)
    else (0.0, 0.0)
  }

  /** The contribution of one degree of freedom to the internal force
      through its position limit: blended, then clamped to +/-1e5. */
  function PositionLimitForce(q: real, v: real, qMin: real, qMax: real, j: JointOptions,
                              th: real -> real): (r: real)
    ensures -LIMIT_FORCE_CEILING <= r <= LIMIT_FORCE_CEILING
    ensures qMin <= q <= qMax ==> r == 0.0
  {
    var raw := PositionLimitRaw(q, v, qMin, qMax, j);
    Clamp(Blend(raw.0, raw.1, j, th), -LIMIT_FORCE_CEILING, LIMIT_FORCE_CEILING)
  }

  /** Beyond the upper bound the limit force pulls back down; below the lower
      bound it pushes back up (for non-negative stiffness and damping). */
  lemma PositionLimitRestoring(q: real, v: real, qMin: real, qMax: real, j: JointOptions,
                               th: real -> real)
    requires TanhLike(th)
    requires j.boundStiffness >= 0.0 && j.boundDamping >= 0.0 && j.boundTransitionEps >= 0.0
    ensures q > qMax ==> PositionLimitForce(q, v, qMin, qMax, j, th) <= 0.0
    ensures q <= qMax && q < qMin ==> PositionLimitForce(q, v, qMin, qMax, j, th) >= 0.0
  {
    var raw := PositionLimitRaw(q, v, qMin, qMax, j);
    if q > qMax {
      MulNonNeg(j.boundStiffness, q - qMax);
      MulNonNeg(j.boundDamping, Max(v, 0.0));
      assert raw.0 <= 0.0;
      BlendKeepsSign(raw.0, raw.1, j, th);
    } else if q < qMin {
      MulNonNeg(j.boundStiffness, qMin - q);
      MulNonNeg(j.boundDamping, -Min(v, 0.0));
      assert raw.0 >= 0.0;
      BlendKeepsSign(raw.0, raw.1, j, th);
    }
  }

  /** Blending with a positive error never flips the sign of a force. */
  lemma BlendKeepsSign(force: real, error: real, j: JointOptions, th: real -> real)
    requires TanhLike(th) && error > 0.0 && j.boundTransitionEps >= 0.0
    ensures force <= 0.0 ==> Blend(force, error, j, th) <= 0.0
    ensures force >= 0.0 ==> Blend(force, error, j, th) >= 0.0
  {
    if j.boundTransitionEps > EPS {
      var b := error / j.boundTransitionEps;
      assert b * j.boundTransitionEps == error;
      SignFromProduct(b, j.boundTransitionEps);
      TanhSign(th, 2.0 * b);
      var k := th(2.0 * b);
      if force <= 0.0 {
        MulNonNeg(-force, k);
      } else {
        MulNonNeg(force, k);
      }
    }
  }

  /** The velocity-limit force of one degree of freedom before blending:
      a damper on the excess over the symmetric bound `vMax`. */
  function VelocityLimitRaw(v: real, vMax: real, j: JointOptions): (r: (real, real))
    ensures -vMax <= v <= vMax ==> r == (0.0, 0.0)
    ensures v > vMax ==> r.1 == v - vMax
    ensures v <= vMax && v < -vMax ==> r.1 == -vMax - v
  {
    if v > vMax then (-j.boundDamping * (v - vMax), v - vMax)
    else if v < -vMax then (j.boundDamping * (-vMax - v), -vMax - v)
    else (0.0, 0.0)
  }

  /** The contribution of one degree of freedom through its velocity limit. */
  function VelocityLimitForce(v: real, vMax: real, j: JointOptions, th: real -> real): (r: real)
    ensures -LIMIT_FORCE_CEILING <= r <= LIMIT_FORCE_CEILING
    ensures -vMax <= v <= vMax ==> r == 0.0
  {
    var raw := VelocityLimitRaw(v, vMax, j);
    Clamp(Blend(raw.0, raw.1, j, th), -LIMIT_FORCE_CEILING, LIMIT_FORCE_CEILING)
  }

  /** The velocity-limit force opposes the excess velocity. */
  lemma VelocityLimitRestoring(v: real, vMax: real, j: JointOptions, th: real -> real)
    requires TanhLike(th) && j.boundDamping >= 0.0 && j.boundTransitionEps >= 0.0
    ensures v > vMax ==> VelocityLimitForce(v, vMax, j, th) <= 0.0
    ensures v <= vMax && v < -vMax ==> VelocityLimitForce(v, vMax, j, th) >= 0.0
  {
    var raw := VelocityLimitRaw(v, vMax, j);
    if v > vMax {
      MulNonNeg(j.boundDamping, v - vMax);
      assert raw.0 <= 0.0 && raw.1 > 0.0;
      BlendKeepsSign(raw.0, raw.1, j, th);
    } else if v < -vMax {
      MulNonNeg(j.boundDamping, -vMax - v);
      assert raw.0 >= 0.0 && raw.1 > 0.0;
      BlendKeepsSign(raw.0, raw.1, j, th);
    }
  }
}
