/** Assembly of the generalized force vector: the motor torques added to the
    internal force at each motor's velocity index (`computeSystemDynamics`,
    and the same loop in `start`), and the joint-limit forces that
    `computeInternalDynamics` adds degree of freedom by degree of freedom.
    Both are scatter-adds into a vector of size nv. */
module GeneralizedForce {
  import opened Common
  import opened EngineOptions
  import opened ForceLaws

  /** The vector `base` after `base[targets[i]] += values[i]` for every `i`, in order. */
  function ScatterAdd(base: seq<real>, targets: seq<nat>, values: seq<real>): (r: seq<real>)
    requires |targets| == |values|
    requires forall i :: 0 <= i < |targets| ==> targets[i] < |base|
    ensures |r| == |base|
    decreases |targets|
  {
    if |targets| == 0 then base
    else
      var n := |targets| - 1;
      var prev := ScatterAdd(base, targets[..n], values[..n]);
      prev[targets[n] := prev[targets[n]] + values[n]]
  }

  /** The total of the values aimed at entry `k`. */
  function AddedAt(k: nat, targets: seq<nat>, values: seq<real>): real
    requires |targets| == |values|
    decreases |targets|
  {
    if |targets| == 0 then 0.0
    else
      var n := |targets| - 1;
      AddedAt(k, targets[..n], values[..n]) + (if targets[n] == k then values[n] else 0.0)
  }

  /** Entry `k` of a scatter-add is the base entry plus everything aimed at it,
      whatever the order of the updates. */
  lemma {:induction false} ScatterAddAt(base: seq<real>, targets: seq<nat>, values: seq<real>, k: nat)
    requires |targets| == |values|
    requires forall i :: 0 <= i < |targets| ==> targets[i] < |base|
    requires k < |base|
    ensures ScatterAdd(base, targets, values)[k] == base[k] + AddedAt(k, targets, values)
    decreases |targets|
  {
    if |targets| > 0 {
      var n := |targets| - 1;
      ScatterAddAt(base, targets[..n], values[..n], k);
    }
  }

  /** Nothing is added at an entry where no value is aimed, or where every
      value aimed at it is zero. */
  lemma {:induction false} AddedAtZero(k: nat, targets: seq<nat>, values: seq<real>)
    requires |targets| == |values|
    requires forall i :: 0 <= i < |targets| && targets[i] == k ==> values[i] == 0.0
    ensures AddedAt(k, targets, values) == 0.0
    decreases |targets|
  {
    if |targets| > 0 {
      var n := |targets| - 1;
      AddedAtZero(k, targets[..n], values[..n]);
    }
  }

  /** When exactly one value is aimed at entry `k`, that value is what is added. */
  lemma {:induction false} AddedAtSingle(k: nat, targets: seq<nat>, values: seq<real>, j: nat)
    requires |targets| == |values| && j < |targets| && targets[j] == k
    requires forall i :: 0 <= i < |targets| && i != j ==> targets[i] != k
    ensures AddedAt(k, targets, values) == values[j]
    decreases |targets|
  {
    var n := |targets| - 1;
    if j == n {
      AddedAtZero(k, targets[..n], values[..n]);
    } else {
      AddedAtSingle(k, targets[..n], values[..n], j);
    }
  }

  /** One more update extends a scatter-add by one entry. */
  lemma ScatterAddSnoc(base: seq<real>, targets: seq<nat>, values: seq<real>, t: nat, v: real)
    requires |targets| == |values| && t < |base|
    requires forall i :: 0 <= i < |targets| ==> targets[i] < |base|
    ensures var prev := ScatterAdd(base, targets, values);
            ScatterAdd(base, targets + [t], values + [v]) == prev[t := prev[t] + v]
  {
    assert (targets + [t])[..|targets|] == targets;
    assert (values + [v])[..|values|] == values;
  }

  /** Adding the first `n + 1` contributions is adding the first `n`, then
      contribution `n`. */
  lemma {:induction false} ScatterAddPrefixStep(base: seq<real>, targets: seq<nat>, values: seq<real>, n: nat)
    requires |targets| == |values| && n < |targets|
    requires forall i :: 0 <= i < |targets| ==> targets[i] < |base|
    ensures var prev := ScatterAdd(base, targets[..n], values[..n]);
            ScatterAdd(base, targets[..n + 1], values[..n + 1]) == prev[targets[n] := prev[targets[n]] + values[n]]
  {
    assert targets[..n + 1][..n] == targets[..n];
    assert values[..n + 1][..n] == values[..n];
  }

  // ---------------------------------------------------------------------
  // Motor torques
  // ---------------------------------------------------------------------

  /** What the assembly needs of a motor: its index in the motor torque
      vector and the velocity index of the joint it drives. */
  datatype MotorRef = MotorRef(idx: nat, velocityIdx: nat)

  function MotorTargets(motors: seq<MotorRef>): (r: seq<nat>)
    ensures |r| == |motors| && forall i :: 0 <= i < |motors| ==> r[i] == motors[i].velocityIdx
  {
    seq(|motors|, i requires 0 <= i < |motors| => motors[i].velocityIdx)
  }

  function MotorValues(motors: seq<MotorRef>, uMotor: seq<real>): (r: seq<real>)
    requires forall i :: 0 <= i < |motors| ==> motors[i].idx < |uMotor|
    ensures |r| == |motors| && forall i :: 0 <= i < |motors| ==> r[i] == uMotor[motors[i].idx]
  {
    seq(|motors|, i requires 0 <= i < |motors| => uMotor[motors[i].idx])
  }

  /** `u = uInternal; u[motor.velocityIdx] += uMotor[motor.idx]` for every motor. */
  method AssembleTorque(uInternal: seq<real>, motors: seq<MotorRef>, uMotor: seq<real>)
    returns (u: seq<real>)
    requires forall i :: 0 <= i < |motors| ==> motors[i].idx < |uMotor|
    requires forall i :: 0 <= i < |motors| ==> motors[i].velocityIdx < |uInternal|
    ensures u == ScatterAdd(uInternal, MotorTargets(motors), MotorValues(motors, uMotor))
    ensures |u| == |uInternal|
    ensures forall k :: 0 <= k < |u| ==>
              u[k] == uInternal[k] + AddedAt(k, MotorTargets(motors), MotorValues(motors, uMotor))
  {
    var targets := MotorTargets(motors);
    var values := MotorValues(motors, uMotor);
    u := uInternal;
    var i := 0;
    while i < |motors|
      invariant 0 <= i <= |motors|
      invariant u == ScatterAdd(uInternal, targets[..i], values[..i])
    {
      var m := motors[i];
      assert targets[..i + 1] == targets[..i] + [targets[i]];
      assert values[..i + 1] == values[..i] + [values[i]];
      ScatterAddSnoc(uInternal, targets[..i], values[..i], targets[i], values[i]);
      u := u[m.velocityIdx := u[m.velocityIdx] + uMotor[m.idx]];
      i := i + 1;
    }
    assert targets[..i] == targets && values[..i] == values;
    forall k | 0 <= k < |u|
      ensures u[k] == uInternal[k] + AddedAt(k, targets, values)
    {
      ScatterAddAt(uInternal, targets, values, k);
    }
  }

  /** A velocity index that no motor drives keeps its internal force, and one
      driven by a single motor receives exactly that motor's torque. */
  lemma MotorTorqueAt(uInternal: seq<real>, motors: seq<MotorRef>, uMotor: seq<real>, k: nat)
    requires forall i :: 0 <= i < |motors| ==> motors[i].idx < |uMotor|
    requires forall i :: 0 <= i < |motors| ==> motors[i].velocityIdx < |uInternal|
    requires k < |uInternal|
    ensures var u := ScatterAdd(uInternal, MotorTargets(motors), MotorValues(motors, uMotor));
            (forall i :: 0 <= i < |motors| ==> motors[i].velocityIdx != k) ==> u[k] == uInternal[k]
    ensures var u := ScatterAdd(uInternal, MotorTargets(motors), MotorValues(motors, uMotor));
            forall j :: 0 <= j < |motors| && motors[j].velocityIdx == k &&
                        (forall i :: 0 <= i < |motors| && i != j ==> motors[i].velocityIdx != k) ==>
                          u[k] == uInternal[k] + uMotor[motors[j].idx]
  {
    var targets := MotorTargets(motors);
    var values := MotorValues(motors, uMotor);
    ScatterAddAt(uInternal, targets, values, k);
    if forall i :: 0 <= i < |motors| ==> motors[i].velocityIdx != k {
      AddedAtZero(k, targets, values);
    }
    forall j | 0 <= j < |motors| && motors[j].velocityIdx == k &&
               (forall i :: 0 <= i < |motors| && i != j ==> motors[i].velocityIdx != k)
      ensures AddedAt(k, targets, values) == uMotor[motors[j].idx]
    {
      AddedAtSingle(k, targets, values, j);
    }
  }

  // ---------------------------------------------------------------------
  // Joint limits
  // ---------------------------------------------------------------------

  /** What the limit loops need of a rigid joint: where its coordinates start
      in q and in v, and how many it has (`nq`, also used for v). */
  datatype JointRef = JointRef(idxQ: nat, idxV: nat, nq: nat)

  /** One degree of freedom: its position and velocity indices. */
  datatype Dof = Dof(posIdx: nat, velIdx: nat)

  function JointDofs(jt: JointRef): (r: seq<Dof>)
    ensures |r| == jt.nq
    ensures forall d :: 0 <= d < jt.nq ==> r[d] == Dof(jt.idxQ + d, jt.idxV + d)
  {
    seq(jt.nq, d requires 0 <= d => Dof(jt.idxQ + d, jt.idxV + d))
  }

  /** The degrees of freedom of the joints, joint by joint; the position of a
      degree of freedom in this list is the `jointIdxOffset` of the source. */
  function Dofs(joints: seq<JointRef>): seq<Dof>
    decreases |joints|
  {
    if |joints| == 0 then [] else Dofs(joints[..|joints| - 1]) + JointDofs(joints[|joints| - 1])
  }

  /** The list of a prefix of the joints is a prefix of the list of all of them. */
  lemma {:induction false} DofsPrefix(joints: seq<JointRef>, i: nat)
    requires i <= |joints|
    ensures |Dofs(joints[..i])| <= |Dofs(joints)|
    ensures Dofs(joints)[..|Dofs(joints[..i])|] == Dofs(joints[..i])
    decreases |joints|
  {
    if i < |joints| {
      var n := |joints| - 1;
      assert joints[..n][..i] == joints[..i];
      DofsPrefix(joints[..n], i);
    } else {
      assert joints[..i] == joints;
    }
  }

  function DofTargets(dofs: seq<Dof>): (r: seq<nat>)
    ensures |r| == |dofs| && forall k :: 0 <= k < |dofs| ==> r[k] == dofs[k].velIdx
  {
    seq(|dofs|, k requires 0 <= k < |dofs| => dofs[k].velIdx)
  }

  /** The force each degree of freedom contributes, from its rank in the list
      (which selects its limit) and its indices. */
  function DofValues(dofs: seq<Dof>, force: (nat, Dof) -> real): (r: seq<real>)
    ensures |r| == |dofs| && forall k :: 0 <= k < |dofs| ==> r[k] == force(k, dofs[k])
  {
    seq(|dofs|, k requires 0 <= k < |dofs| => force(k, dofs[k]))
  }

  /** Degree of freedom `j` of joint `i` sits in the list right after the
      degrees of freedom of the joints before `i`. */
  lemma DofAt(joints: seq<JointRef>, i: nat, j: nat)
    requires i < |joints| && j < joints[i].nq
    ensures |Dofs(joints[..i])| + j < |Dofs(joints)|
    ensures Dofs(joints)[|Dofs(joints[..i])| + j] == Dof(joints[i].idxQ + j, joints[i].idxV + j)
  {
    DofsPrefix(joints, i + 1);
    assert joints[..i + 1][..i] == joints[..i];
    var pre := Dofs(joints[..i + 1]);
    assert pre == Dofs(joints[..i]) + JointDofs(joints[i]);
    var off := |Dofs(joints[..i])| + j;
    assert Dofs(joints)[..|pre|][off] == pre[off];
  }

  /** The degrees of freedom of the first `i + 1` joints are those of the first
      `i` followed by those of joint `i`. */
  lemma DofsCount(joints: seq<JointRef>, i: nat)
    requires i < |joints|
    ensures |Dofs(joints[..i + 1])| == |Dofs(joints[..i])| + joints[i].nq
    ensures |Dofs(joints[..i + 1])| <= |Dofs(joints)|
  {
    DofsPrefix(joints, i + 1);
    assert joints[..i + 1][..i] == joints[..i];
  }

  /** Joint `i` owns the ranks right after those of the joints before it,
      holding its own velocity indices and forces. */
  lemma JointBlock(joints: seq<JointRef>, i: nat, force: (nat, Dof) -> real)
    requires i < |joints|
    ensures var all := Dofs(joints);
            var offset := |Dofs(joints[..i])|;
            && |Dofs(joints[..i + 1])| == offset + joints[i].nq <= |all|
            && forall k :: offset <= k < offset + joints[i].nq ==>
                 DofTargets(all)[k] == joints[i].idxV + (k - offset) &&
                 DofValues(all, force)[k] == force(k, Dof(joints[i].idxQ + (k - offset), joints[i].idxV + (k - offset)))
  {
    var all := Dofs(joints);
    var offset := |Dofs(joints[..i])|;
    DofsCount(joints, i);
    forall k | offset <= k < offset + joints[i].nq
      ensures DofTargets(all)[k] == joints[i].idxV + (k - offset)
      ensures DofValues(all, force)[k] == force(k, Dof(joints[i].idxQ + (k - offset), joints[i].idxV + (k - offset)))
    {
      DofAt(joints, i, k - offset);
    }
  }

  /** The nested loop of `computeInternalDynamics`: for every rigid joint and
      every one of its degrees of freedom, add the force of that degree of
      freedom at its velocity index, counting degrees of freedom as it goes. */
  method AddLimitForces(u: seq<real>, joints: seq<JointRef>, force: (nat, Dof) -> real)
    returns (r: seq<real>)
    requires forall k :: 0 <= k < |Dofs(joints)| ==> Dofs(joints)[k].velIdx < |u|
    ensures r == ScatterAdd(u, DofTargets(Dofs(joints)), DofValues(Dofs(joints), force))
  {
    var all := Dofs(joints);
    var targets := DofTargets(all);
    var values := DofValues(all, force);
    r := u;
    var offset := 0;
    var i := 0;
    while i < |joints|
      invariant 0 <= i <= |joints|
      invariant offset == |Dofs(joints[..i])| <= |all|
      invariant r == ScatterAdd(u, targets[..offset], values[..offset])
    {
      JointBlock(joints, i, force);
      r, offset := AddJointForces(r, u, targets, values, joints[i], offset, force);
      i := i + 1;
    }
    assert joints[..i] == joints;
    assert targets[..offset] == targets && values[..offset] == values;
  }

  /** The inner loop over the degrees of freedom of one joint, which occupy
      ranks `offset0` to `offset0 + jt.nq - 1` of the list. */
  method AddJointForces(r0: seq<real>, u: seq<real>, targets: seq<nat>, values: seq<real>,
                        jt: JointRef, offset0: nat, force: (nat, Dof) -> real)
    returns (r: seq<real>, offset: nat)
    requires |targets| == |values| && offset0 + jt.nq <= |targets|
    requires forall k :: 0 <= k < |targets| ==> targets[k] < |u|
    requires forall k :: offset0 <= k < offset0 + jt.nq ==>
               targets[k] == jt.idxV + (k - offset0) &&
               values[k] == force(k, Dof(jt.idxQ + (k - offset0), jt.idxV + (k - offset0)))
    requires r0 == ScatterAdd(u, targets[..offset0], values[..offset0])
    ensures offset == offset0 + jt.nq
    ensures r == ScatterAdd(u, targets[..offset], values[..offset])
  {
    r, offset := r0, offset0;
    var j := 0;
    while j < jt.nq
      invariant 0 <= j <= jt.nq && offset == offset0 + j
      invariant r == ScatterAdd(u, targets[..offset], values[..offset])
    {
      ScatterAddPrefixStep(u, targets, values, offset);
      var target := jt.idxV + j;
      var f := force(offset, Dof(jt.idxQ + j, jt.idxV + j));
      assert target == targets[offset] && f == values[offset];
      r := r[target := r[target] + f];
      offset := offset + 1;
      j := j + 1;
    }
  }

  /** The position-limit force of every degree of freedom, by rank and indices. */
  function PositionForces(q: seq<real>, v: seq<real>, lim: JointLimits, jo: JointOptions,
                          th: real -> real): (nat, Dof) -> real
  {
    (k: nat, d: Dof) => PositionLimitAt(q, v, lim.positionMin, lim.positionMax, jo, th, k, d)
  }

  /** The velocity-limit force of every degree of freedom, by rank and indices. */
  function VelocityForces(v: seq<real>, lim: JointLimits, jo: JointOptions,
                          th: real -> real): (nat, Dof) -> real
  {
    (k: nat, d: Dof) => VelocityLimitAt(v, lim.velocityMax, jo, th, k, d)
  }

  /** The force of one degree of freedom through its position limit, with the
      limits taken from the position of the degree of freedom in the list. */
  function PositionLimitAt(q: seq<real>, v: seq<real>, qMin: seq<real>, qMax: seq<real>,
                           jo: JointOptions, th: real -> real, k: nat, d: Dof): real
  {
    if d.posIdx < |q| && d.velIdx < |v| && k < |qMin| && k < |qMax| then
      PositionLimitForce(q[d.posIdx], v[d.velIdx], qMin[k], qMax[k], jo, th)
    else 0.0
  }

  /** The force of one degree of freedom through its velocity limit. */
  function VelocityLimitAt(v: seq<real>, vMax: seq<real>, jo: JointOptions, th: real -> real,
                           k: nat, d: Dof): real
  {
    if d.velIdx < |v| && k < |vMax| then VelocityLimitForce(v[d.velIdx], vMax[k], jo, th) else 0.0
  }

  /** Limits and switches of the rigid joints that `computeInternalDynamics` reads. */
  datatype JointLimits = JointLimits(
    joints: seq<JointRef>,
    positionMin: seq<real>,
    positionMax: seq<real>,
    velocityMax: seq<real>,
    enablePositionLimit: bool,
    enableVelocityLimit: bool)

  /** The indices of the rigid joints are within q and v, and there is one
      limit per degree of freedom. */
  predicate LimitsFit(lim: JointLimits, nq: nat, nv: nat)
  {
    && (forall k :: 0 <= k < |Dofs(lim.joints)| ==>
          Dofs(lim.joints)[k].posIdx < nq && Dofs(lim.joints)[k].velIdx < nv)
    && |lim.positionMin| == |Dofs(lim.joints)| == |lim.positionMax|
    && |lim.velocityMax| == |Dofs(lim.joints)|
  }

  /** `computeInternalDynamics` without the flexibility term: the user's
      internal force `uUser`, then the position-limit and velocity-limit
      contributions when enabled. */
  method InternalDynamics(uUser: seq<real>, q: seq<real>, v: seq<real>, lim: JointLimits,
                          jo: JointOptions, th: real -> real)
    returns (u: seq<real>)
    requires |uUser| == |v|
    requires LimitsFit(lim, |q|, |v|)
    ensures |u| == |uUser|
    ensures var dofs := Dofs(lim.joints);
            var pos := ScatterAdd(uUser, DofTargets(dofs), DofValues(dofs, PositionForces(q, v, lim, jo, th)));
            var withPos := if lim.enablePositionLimit then pos else uUser;
            u == if lim.enableVelocityLimit
                 then ScatterAdd(withPos, DofTargets(dofs), DofValues(dofs, VelocityForces(v, lim, jo, th)))
                 else withPos
  {
    u := uUser;
    if lim.enablePositionLimit {
      u := AddLimitForces(u, lim.joints, PositionForces(q, v, lim, jo, th));
    }
    if lim.enableVelocityLimit {
      u := AddLimitForces(u, lim.joints, VelocityForces(v, lim, jo, th));
    }
  }

  /** A velocity index whose degrees of freedom are all within their position
      limits receives no position-limit force, and every position-limit
      contribution lies within +/-1e5. */
  lemma PositionLimitsAt(uUser: seq<real>, q: seq<real>, v: seq<real>, lim: JointLimits,
                         jo: JointOptions, th: real -> real, k: nat)
    requires |uUser| == |v| && LimitsFit(lim, |q|, |v|) && k < |v|
    ensures var dofs := Dofs(lim.joints);
            var values := DofValues(dofs, PositionForces(q, v, lim, jo, th));
            && (forall i :: 0 <= i < |values| ==> -LIMIT_FORCE_CEILING <= values[i] <= LIMIT_FORCE_CEILING)
            && ((forall i :: 0 <= i < |dofs| && dofs[i].velIdx == k ==>
                   lim.positionMin[i] <= q[dofs[i].posIdx] <= lim.positionMax[i]) ==>
                ScatterAdd(uUser, DofTargets(dofs), values)[k] == uUser[k])
  {
    var dofs := Dofs(lim.joints);
    var values := DofValues(dofs, PositionForces(q, v, lim, jo, th));
    var targets := DofTargets(dofs);
    ScatterAddAt(uUser, targets, values, k);
    if forall i :: 0 <= i < |dofs| && dofs[i].velIdx == k ==>
         lim.positionMin[i] <= q[dofs[i].posIdx] <= lim.positionMax[i] {
      AddedAtZero(k, targets, values);
    }
  }
}
