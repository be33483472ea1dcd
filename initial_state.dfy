/** The initial state of `Engine::start`: a state given for the rigid model
    ("theoretical") is spread over the flexible model's coordinates, every
    flexible joint starts at the identity rotation, and all else is zero. */
module InitialState {

  /** Where the rigid model's coordinates sit in the (possibly flexible)
      model: `nq`, `nv` of the model, whether it has a free-flyer, the
      position and velocity index of every rigid coordinate after the
      free-flyer, and `idx_q` of every flexible joint. */
  datatype StateLayout = StateLayout(
    nq: nat, nv: nat, hasFreeflyer: bool, flexible: bool,
    rigidPositionIdx: seq<nat>, rigidVelocityIdx: seq<nat>, flexibleIdxQ: seq<nat>)
  {
    /** Size of the free-flyer's position (7) and velocity (6) blocks. */
    function PosHead(): nat { if hasFreeflyer then 7 else 0 }
    function VelHead(): nat { if hasFreeflyer then 6 else 0 }

    /** `pncModelRigidOrig_.nq + pncModelRigidOrig_.nv`. */
    function RigidNx(): nat { PosHead() + |rigidPositionIdx| + VelHead() + |rigidVelocityIdx| }

    function Nx(): nat { nq + nv }

    /** Offsets in the rigid state of its four blocks. */
    function RigidPosOffset(): nat { PosHead() }
    function RigidVelHeadOffset(): nat { PosHead() + |rigidPositionIdx| }
    function RigidVelOffset(): nat { PosHead() + |rigidPositionIdx| + VelHead() }
  }

  /** What the model guarantees of its index tables: every rigid coordinate
      lies after the free-flyer block and inside the model, no two share an
      index, the quaternion slot `idx_q + 3` of a flexible joint is a
      position that no rigid coordinate uses, and a model without
      flexibility is its own rigid model. */
  predicate WellFormed(l: StateLayout)
  {
    && (l.hasFreeflyer ==> l.nq >= 7 && l.nv >= 6)
    && (forall i :: 0 <= i < |l.rigidPositionIdx| ==>
          l.PosHead() <= l.rigidPositionIdx[i] < l.nq)
    && (forall i, j :: 0 <= i < j < |l.rigidPositionIdx| ==>
          l.rigidPositionIdx[i] != l.rigidPositionIdx[j])
    && (forall i :: 0 <= i < |l.rigidVelocityIdx| ==>
          l.VelHead() <= l.rigidVelocityIdx[i] < l.nv)
    && (forall i, j :: 0 <= i < j < |l.rigidVelocityIdx| ==>
          l.rigidVelocityIdx[i] != l.rigidVelocityIdx[j])
    && (forall j :: 0 <= j < |l.flexibleIdxQ| ==>
          l.PosHead() <= l.flexibleIdxQ[j] + 3 < l.nq)
    && (forall j, i :: 0 <= j < |l.flexibleIdxQ| && 0 <= i < |l.rigidPositionIdx| ==>
          l.flexibleIdxQ[j] + 3 != l.rigidPositionIdx[i])
    && (!l.flexible ==> l.RigidNx() == l.Nx())
  }

  /** Every rigid coordinate of `xRigid` sits at its place in `x0`. */
  predicate Spread(x0: seq<real>, xRigid: seq<real>, l: StateLayout)
    requires WellFormed(l) && |x0| == l.Nx() && |xRigid| == l.RigidNx()
  {
    && (forall k :: 0 <= k < l.PosHead() ==> x0[k] == xRigid[k])
    && (forall i :: 0 <= i < |l.rigidPositionIdx| ==>
          x0[l.rigidPositionIdx[i]] == xRigid[l.RigidPosOffset() + i])
    && (forall k :: l.nq <= k < l.nq + l.VelHead() ==>
          x0[k] == xRigid[l.RigidVelHeadOffset() + (k - l.nq)])
    && (forall i :: 0 <= i < |l.rigidVelocityIdx| ==>
          x0[l.nq + l.rigidVelocityIdx[i]] == xRigid[l.RigidVelOffset() + i])
  }

  /** The indices `off + idx[i]`. */
  function Shifted(off: nat, idx: seq<nat>): set<nat>
  {
    set i | 0 <= i < |idx| :: off + idx[i]
  }

  /** The entries of the flexible state that receive a value: the free-flyer
      blocks, the rigid coordinates and the quaternion slots of the
      flexible joints. */
  predicate IsTarget(l: StateLayout, k: nat)
  {
    || k < l.PosHead() || k in Shifted(0, l.rigidPositionIdx)
    || (l.nq <= k < l.nq + l.VelHead()) || k in Shifted(l.nq, l.rigidVelocityIdx)
    || k in Shifted(3, l.flexibleIdxQ)
  }

  /** The rigid state read back out of a flexible one. */
  function RigidState(x0: seq<real>, l: StateLayout): (r: seq<real>)
    requires WellFormed(l) && |x0| == l.Nx()
    ensures |r| == l.RigidNx()
  {
    seq(l.RigidNx(), k requires 0 <= k < l.RigidNx() => RigidEntry(x0, l, k))
  }

  /** Entry `k` of the rigid state, from the block it falls in. */
  function RigidEntry(x0: seq<real>, l: StateLayout, k: nat): real
    requires WellFormed(l) && |x0| == l.Nx() && k < l.RigidNx()
  {
    var a, b, c := l.PosHead(), l.RigidVelHeadOffset(), l.RigidVelOffset();
    if k < a then x0[k]
    else if k < b then x0[l.rigidPositionIdx[k - a]]
    else if k < c then x0[l.nq + (k - b)]
    else x0[l.nq + l.rigidVelocityIdx[k - c]]
  }

  /** Reading the rigid state back from a spread state gives the original. */
  lemma RigidStateOfSpread(x0: seq<real>, xRigid: seq<real>, l: StateLayout)
    requires WellFormed(l) && |x0| == l.Nx() && |xRigid| == l.RigidNx()
    requires Spread(x0, xRigid, l)
    ensures RigidState(x0, l) == xRigid
  {
    forall k | 0 <= k < |xRigid| ensures RigidState(x0, l)[k] == xRigid[k] {
      RigidStateAt(x0, xRigid, l, k);
    }
  }

  /** One entry of `RigidStateOfSpread`. */
  lemma RigidStateAt(x0: seq<real>, xRigid: seq<real>, l: StateLayout, k: nat)
    requires WellFormed(l) && |x0| == l.Nx() && |xRigid| == l.RigidNx()
    requires Spread(x0, xRigid, l) && k < |xRigid|
    ensures RigidEntry(x0, l, k) == xRigid[k]
  {
    var a, b, c := l.PosHead(), l.RigidVelHeadOffset(), l.RigidVelOffset();
    if a <= k < b {
      var i := k - a;
      assert x0[l.rigidPositionIdx[i]] == xRigid[a + i];
    } else if b <= k < c {
      var m := l.nq + (k - b);
      assert x0[m] == xRigid[b + (m - l.nq)];
    } else if c <= k {
      var i := k - c;
      assert x0[l.nq + l.rigidVelocityIdx[i]] == xRigid[c + i];
    }
  }

  /** The initial state `x0` of `start`: the rigid state spread over the
      flexible model when `isStateTheoretical` and the model is flexible,
      `xInit` itself otherwise. */
  method InitialStateOf(xInit: seq<real>, l: StateLayout, isStateTheoretical: bool) returns (x0: seq<real>)
    requires WellFormed(l)
    requires |xInit| == if isStateTheoretical then l.RigidNx() else l.Nx()
    ensures |x0| == l.Nx()
    ensures !(isStateTheoretical && l.flexible) ==> x0 == xInit
    ensures isStateTheoretical && l.flexible ==>
              && Spread(x0, xInit, l)
              && RigidState(x0, l) == xInit
              && (forall j :: 0 <= j < |l.flexibleIdxQ| ==> x0[l.flexibleIdxQ[j] + 3] == 1.0)
              && (forall k :: 0 <= k < l.Nx() && !IsTarget(l, k) ==> x0[k] == 0.0)
  {
    if isStateTheoretical && l.flexible {
      x0 := SpreadRigidState(xInit, l);
      RigidStateOfSpread(x0, xInit, l);
    } else {
      x0 := xInit;
    }
  }

  /** `x0.segment(dst, n) = src.segment(srcOff, n)`. */
  method CopyBlock(a0: seq<real>, dst: nat, src: seq<real>, srcOff: nat, n: nat) returns (a: seq<real>)
    requires dst + n <= |a0| && srcOff + n <= |src|
    ensures |a| == |a0|
    ensures forall k :: dst <= k < dst + n ==> a[k] == src[srcOff + (k - dst)]
    ensures forall k :: 0 <= k < |a| && !(dst <= k < dst + n) ==> a[k] == a0[k]
  {
    a := a0;
    for m := 0 to n
      invariant |a| == |a0|
      invariant forall k :: dst <= k < dst + m ==> a[k] == src[srcOff + (k - dst)]
      invariant forall k :: 0 <= k < |a| && !(dst <= k < dst + m) ==> a[k] == a0[k]
    {
      a := a[dst + m := src[srcOff + m]];
    }
  }

  /** `x0[off + idx[i]] = src[srcOff + i]` for every i, distinct targets. */
  method Scatter(a0: seq<real>, off: nat, idx: seq<nat>, src: seq<real>, srcOff: nat) returns (a: seq<real>)
    requires forall i :: 0 <= i < |idx| ==> off + idx[i] < |a0|
    requires forall i, j :: 0 <= i < j < |idx| ==> idx[i] != idx[j]
    requires srcOff + |idx| <= |src|
    ensures |a| == |a0|
    ensures forall i :: 0 <= i < |idx| ==> a[off + idx[i]] == src[srcOff + i]
    ensures forall k :: 0 <= k < |a| && k !in Shifted(off, idx) ==> a[k] == a0[k]
  {
    a := a0;
    for m := 0 to |idx|
      invariant |a| == |a0|
      invariant forall i :: 0 <= i < m ==> a[off + idx[i]] == src[srcOff + i]
      invariant forall k :: 0 <= k < |a| && k !in Shifted(off, idx[..m]) ==> a[k] == a0[k]
    {
      a := a[off + idx[m] := src[srcOff + m]];
      assert idx[..m + 1] == idx[..m] + [idx[m]];
    }
    assert idx[..|idx|] == idx;
  }

  /** `x0[idx_q + 3] = 1.0` for every flexible joint: the real part of its
      quaternion, the identity rotation. */
  method SetQuaternionsIdentity(a0: seq<real>, idxQ: seq<nat>) returns (a: seq<real>)
    requires forall j :: 0 <= j < |idxQ| ==> idxQ[j] + 3 < |a0|
    ensures |a| == |a0|
    ensures forall j :: 0 <= j < |idxQ| ==> a[idxQ[j] + 3] == 1.0
    ensures forall k :: 0 <= k < |a| && k !in Shifted(3, idxQ) ==> a[k] == a0[k]
  {
    a := a0;
    for m := 0 to |idxQ|
      invariant |a| == |a0|
      invariant forall j :: 0 <= j < m ==> a[idxQ[j] + 3] == 1.0
      invariant forall k :: 0 <= k < |a| && k !in Shifted(3, idxQ[..m]) ==> a[k] == a0[k]
    {
      a := a[idxQ[m] + 3 := 1.0];
      assert idxQ[..m + 1] == idxQ[..m] + [idxQ[m]];
    }
    assert idxQ[..|idxQ|] == idxQ;
  }

  /** The flexible branch of the initial state, written block by block into
      a zero vector. */
  method SpreadRigidState(xInit: seq<real>, l: StateLayout) returns (x0: seq<real>)
    requires WellFormed(l) && |xInit| == l.RigidNx()
    ensures |x0| == l.Nx()
    ensures Spread(x0, xInit, l)
    ensures forall j :: 0 <= j < |l.flexibleIdxQ| ==> x0[l.flexibleIdxQ[j] + 3] == 1.0
    ensures forall k :: 0 <= k < l.Nx() && !IsTarget(l, k) ==> x0[k] == 0.0
  {
    var zero := seq(l.Nx(), _ => 0.0);
    var s2 := SpreadPositions(zero, xInit, l);
    var s4 := SpreadVelocities(s2, xInit, l);
    x0 := SetQuaternionsIdentity(s4, l.flexibleIdxQ);
    PosHeadKept(l, xInit, s2, s4, x0);
    RigidPositionsKept(l, xInit, s2, s4, x0);
    VelHeadKept(l, xInit, s4, x0);
    RigidVelocitiesKept(l, xInit, s4, x0);
    UntouchedStayZero(l, s2, s4, x0);
  }

  /** The position half: the free-flyer block, then the rigid positions. */
  method SpreadPositions(a0: seq<real>, xInit: seq<real>, l: StateLayout) returns (a: seq<real>)
    requires l.PosHead() <= |a0| && |xInit| == l.RigidNx()
    requires forall i :: 0 <= i < |l.rigidPositionIdx| ==> l.PosHead() <= l.rigidPositionIdx[i] < |a0|
    requires forall i, j :: 0 <= i < j < |l.rigidPositionIdx| ==> l.rigidPositionIdx[i] != l.rigidPositionIdx[j]
    ensures |a| == |a0|
    ensures forall k :: 0 <= k < l.PosHead() ==> a[k] == xInit[k]
    ensures forall i :: 0 <= i < |l.rigidPositionIdx| ==>
              a[l.rigidPositionIdx[i]] == xInit[l.RigidPosOffset() + i]
    ensures forall k :: l.PosHead() <= k < |a| && k !in Shifted(0, l.rigidPositionIdx) ==> a[k] == a0[k]
  {
    a := CopyBlock(a0, 0, xInit, 0, l.PosHead());
    a := Scatter(a, 0, l.rigidPositionIdx, xInit, l.RigidPosOffset());
  }

  /** The velocity half: the free-flyer block, then the rigid velocities. */
  method SpreadVelocities(a0: seq<real>, xInit: seq<real>, l: StateLayout) returns (a: seq<real>)
    requires l.nq + l.VelHead() <= |a0| && |xInit| == l.RigidNx()
    requires forall i :: 0 <= i < |l.rigidVelocityIdx| ==> l.VelHead() <= l.rigidVelocityIdx[i] && l.nq + l.rigidVelocityIdx[i] < |a0|
    requires forall i, j :: 0 <= i < j < |l.rigidVelocityIdx| ==> l.rigidVelocityIdx[i] != l.rigidVelocityIdx[j]
    ensures |a| == |a0|
    ensures forall k :: l.nq <= k < l.nq + l.VelHead() ==>
              a[k] == xInit[l.RigidVelHeadOffset() + (k - l.nq)]
    ensures forall i :: 0 <= i < |l.rigidVelocityIdx| ==>
              a[l.nq + l.rigidVelocityIdx[i]] == xInit[l.RigidVelOffset() + i]
    ensures forall k :: 0 <= k < |a| && !(l.nq <= k < l.nq + l.VelHead()) && k !in Shifted(l.nq, l.rigidVelocityIdx) ==>
              a[k] == a0[k]
  {
    a := CopyBlock(a0, l.nq, xInit, l.RigidVelHeadOffset(), l.VelHead());
    a := Scatter(a, l.nq, l.rigidVelocityIdx, xInit, l.RigidVelOffset());
  }

  /** The position blocks survive the velocity writes, which land in the
      velocity half, and the quaternion slots, which no rigid position uses. */
  lemma PosHeadKept(l: StateLayout, xInit: seq<real>, s2: seq<real>, s4: seq<real>, x0: seq<real>)
    requires WellFormed(l) && |xInit| == l.RigidNx()
    requires |s2| == |s4| == |x0| == l.Nx()
    requires forall k :: 0 <= k < l.PosHead() ==> s2[k] == xInit[k]
    requires forall k :: 0 <= k < |s4| && !(l.nq <= k < l.nq + l.VelHead()) && k !in Shifted(l.nq, l.rigidVelocityIdx) ==>
               s4[k] == s2[k]
    requires forall k :: 0 <= k < |x0| && k !in Shifted(3, l.flexibleIdxQ) ==> x0[k] == s4[k]
    ensures forall k :: 0 <= k < l.PosHead() ==> x0[k] == xInit[k]
  {
    forall k | 0 <= k < l.PosHead() ensures x0[k] == xInit[k] {
      assert k !in Shifted(3, l.flexibleIdxQ);
      assert k !in Shifted(l.nq, l.rigidVelocityIdx);
    }
  }

  lemma RigidPositionsKept(l: StateLayout, xInit: seq<real>, s2: seq<real>, s4: seq<real>, x0: seq<real>)
    requires WellFormed(l) && |xInit| == l.RigidNx()
    requires |s2| == |s4| == |x0| == l.Nx()
    requires forall i :: 0 <= i < |l.rigidPositionIdx| ==>
               s2[l.rigidPositionIdx[i]] == xInit[l.RigidPosOffset() + i]
    requires forall k :: 0 <= k < |s4| && !(l.nq <= k < l.nq + l.VelHead()) && k !in Shifted(l.nq, l.rigidVelocityIdx) ==>
               s4[k] == s2[k]
    requires forall k :: 0 <= k < |x0| && k !in Shifted(3, l.flexibleIdxQ) ==> x0[k] == s4[k]
    ensures forall i :: 0 <= i < |l.rigidPositionIdx| ==>
              x0[l.rigidPositionIdx[i]] == xInit[l.RigidPosOffset() + i]
  {
    forall i | 0 <= i < |l.rigidPositionIdx| ensures x0[l.rigidPositionIdx[i]] == xInit[l.RigidPosOffset() + i] {
      var p := l.rigidPositionIdx[i];
      assert p !in Shifted(3, l.flexibleIdxQ);
      assert p < l.nq;
      assert p !in Shifted(l.nq, l.rigidVelocityIdx);
    }
  }

  /** The velocity blocks survive the quaternion writes, which are positions. */
  lemma VelHeadKept(l: StateLayout, xInit: seq<real>, s4: seq<real>, x0: seq<real>)
    requires WellFormed(l) && |xInit| == l.RigidNx()
    requires |s4| == |x0| == l.Nx()
    requires forall k :: l.nq <= k < l.nq + l.VelHead() ==>
               s4[k] == xInit[l.RigidVelHeadOffset() + (k - l.nq)]
    requires forall k :: 0 <= k < |x0| && k !in Shifted(3, l.flexibleIdxQ) ==> x0[k] == s4[k]
    ensures forall k :: l.nq <= k < l.nq + l.VelHead() ==>
              x0[k] == xInit[l.RigidVelHeadOffset() + (k - l.nq)]
  {
    forall k | l.nq <= k < l.nq + l.VelHead() ensures x0[k] == xInit[l.RigidVelHeadOffset() + (k - l.nq)] {
      assert k !in Shifted(3, l.flexibleIdxQ);
    }
  }

  lemma RigidVelocitiesKept(l: StateLayout, xInit: seq<real>, s4: seq<real>, x0: seq<real>)
    requires WellFormed(l) && |xInit| == l.RigidNx()
    requires |s4| == |x0| == l.Nx()
    requires forall i :: 0 <= i < |l.rigidVelocityIdx| ==>
               s4[l.nq + l.rigidVelocityIdx[i]] == xInit[l.RigidVelOffset() + i]
    requires forall k :: 0 <= k < |x0| && k !in Shifted(3, l.flexibleIdxQ) ==> x0[k] == s4[k]
    ensures forall i :: 0 <= i < |l.rigidVelocityIdx| ==>
              x0[l.nq + l.rigidVelocityIdx[i]] == xInit[l.RigidVelOffset() + i]
  {
    forall i | 0 <= i < |l.rigidVelocityIdx| ensures x0[l.nq + l.rigidVelocityIdx[i]] == xInit[l.RigidVelOffset() + i] {
      assert l.nq + l.rigidVelocityIdx[i] !in Shifted(3, l.flexibleIdxQ);
    }
  }

  /** An entry no write targets keeps the zero it started with. */
  lemma UntouchedStayZero(l: StateLayout, s2: seq<real>, s4: seq<real>, x0: seq<real>)
    requires WellFormed(l)
    requires |s2| == |s4| == |x0| == l.Nx()
    requires forall k :: l.PosHead() <= k < |s2| && k !in Shifted(0, l.rigidPositionIdx) ==> s2[k] == 0.0
    requires forall k :: 0 <= k < |s4| && !(l.nq <= k < l.nq + l.VelHead()) && k !in Shifted(l.nq, l.rigidVelocityIdx) ==>
               s4[k] == s2[k]
    requires forall k :: 0 <= k < |x0| && k !in Shifted(3, l.flexibleIdxQ) ==> x0[k] == s4[k]
    ensures forall k :: 0 <= k < l.Nx() && !IsTarget(l, k) ==> x0[k] == 0.0
  {
  }
}
