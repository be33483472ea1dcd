/** `FunctorConstraint`: a kinematic constraint whose jacobian and drift are
    computed by two user functions writing into buffers the constraint owns.
    The buffers are sized when the constraint is attached to a model and
    are handed back to the functions, uncleared, on every evaluation. */
module Constraints {
  import opened Common

  /** A dense matrix, row by row. */
  type Matrix = seq<seq<real>>

  /** `matrixN_t::Zero(rows, cols)`. */
  function ZeroMatrix(rows: nat, cols: nat): (r: Matrix)
    ensures |r| == rows && forall i :: 0 <= i < rows ==> r[i] == Zeros(cols)
  {
    seq(rows, _ => Zeros(cols))
  }

  /** A matrix of `rows` rows of `cols` entries each. */
  predicate HasShape(m: Matrix, rows: nat, cols: nat)
  {
    |m| == rows && forall i :: 0 <= i < rows ==> |m[i]| == cols
  }

  /** A zero matrix has the shape it was asked for, and only that one. */
  lemma ZeroMatrixShape(rows: nat, cols: nat, rows': nat, cols': nat)
    ensures HasShape(ZeroMatrix(rows, cols), rows', cols') <==> rows' == rows && (rows == 0 || cols' == cols)
  {
    if rows > 0 && rows' == rows && HasShape(ZeroMatrix(rows, cols), rows', cols') {
      assert |ZeroMatrix(rows, cols)[0]| == cols;
    }
  }

  /** The user's jacobian function: given `q` and the current buffer, the new
      buffer contents. */
  type JacobianFunctor = (seq<real>, Matrix) -> Matrix

  /** The user's drift function: given `q`, `v` and the current buffer, the
      new buffer contents. */
  type DriftFunctor = (seq<real>, seq<real>, seq<real>) -> seq<real>

  /** What the constraint reads of the model it is attached to. */
  datatype ConstraintModel = ConstraintModel(nv: nat)

  class FunctorConstraint {
    const jacobianFunctor: JacobianFunctor
    const driftFunctor: DriftFunctor
    var constraintSize: nat
    var isAttached: bool
    var model: Option<ConstraintModel>
    var jacobian: Matrix
    var drift: seq<real>

    /** An attached constraint knows its model. */
    ghost predicate Valid()
      reads this
    {
      isAttached ==> model.Some?
    }

    /** The buffers are zero, of size `constraintSize` x nv and `constraintSize`. */
    ghost predicate Cleared()
      reads this
      requires Valid() && model.Some?
    {
      jacobian == ZeroMatrix(constraintSize, model.value.nv) && drift == Zeros(constraintSize)
    }

    /** The constructor stores the two functions and the size; the constraint
        starts detached, with no model and empty buffers. */
    constructor (jacobianFct: JacobianFunctor, driftFct: DriftFunctor, size: nat)
      ensures Valid() && !isAttached && model == None
      ensures jacobianFunctor == jacobianFct && driftFunctor == driftFct && constraintSize == size
      ensures jacobian == [] && drift == []
    {
      jacobianFunctor, driftFunctor := jacobianFct, driftFct;
      constraintSize := size;
      isAttached, model := false, None;
      jacobian, drift := [], [];
    }

    /** `setConstraintSize`: the size is always recorded; the buffers are
        reallocated as zeros of the new size only while attached. */
    method SetConstraintSize(size: nat)
      requires Valid()
      modifies this`constraintSize, this`jacobian, this`drift
      ensures Valid() && constraintSize == size
      ensures isAttached ==> Cleared()
      ensures !isAttached ==> jacobian == old(jacobian) && drift == old(drift)
    {
      constraintSize := size;
      if isAttached {
        jacobian := ZeroMatrix(constraintSize, model.value.nv);
        drift := Zeros(constraintSize);
      }
    }

    /** `getJacobian(q)`: while attached the user function rewrites the
        buffer from its previous contents; detached, the buffer is returned
        as it is. */
    method GetJacobian(q: seq<real>) returns (r: Matrix)
      modifies this`jacobian
      ensures jacobian == (if isAttached then jacobianFunctor(q, old(jacobian)) else old(jacobian))
      ensures r == jacobian
    {
      if isAttached {
        jacobian := jacobianFunctor(q, jacobian);
      }
      r := jacobian;
    }

    /** `getDrift(q, v)`: as `getJacobian`, for the drift buffer. */
    method GetDrift(q: seq<real>, v: seq<real>) returns (r: seq<real>)
      modifies this`drift
      ensures drift == (if isAttached then driftFunctor(q, v, old(drift)) else old(drift))
      ensures r == drift
    {
      if isAttached {
        drift := driftFunctor(q, v, drift);
      }
      r := drift;
    }

    /** `attach(model)`: a second attach is ERROR_GENERIC and changes nothing;
        otherwise the model is recorded, the buffers are sized and zeroed,
        and the constraint is attached. */
    method Attach(m: ConstraintModel) returns (code: ResultCode)
      requires Valid()
      modifies this`model, this`jacobian, this`drift, this`isAttached
      ensures Valid()
      ensures old(isAttached) ==> code == ErrorGeneric && isAttached
      ensures old(isAttached) ==> model == old(model) && jacobian == old(jacobian) && drift == old(drift)
      ensures !old(isAttached) ==> code == Success && isAttached && model == Some(m) && Cleared()
    {
      if isAttached {
        return ErrorGeneric;
      }
      model := Some(m);
      code := RefreshProxies();
      if code == Success {
        isAttached := true;
      }
    }

    /** `refreshProxies`: the buffers become zeros of size `constraintSize` x
        nv and `constraintSize`; it cannot fail. */
    method RefreshProxies() returns (code: ResultCode)
      requires model.Some?
      modifies this`jacobian, this`drift
      ensures code == Success
      ensures jacobian == ZeroMatrix(constraintSize, model.value.nv) && drift == Zeros(constraintSize)
      ensures HasShape(jacobian, constraintSize, model.value.nv) && |drift| == constraintSize
    {
      jacobian := ZeroMatrix(constraintSize, model.value.nv);
      drift := Zeros(constraintSize);
      code := Success;
    }
  }
}
