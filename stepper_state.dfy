/** `stepperState_t`: the integrator's state buffers, their initialisation,
    the views `q`, `v`, `qDot`, `a` into them, and the two integrators that
    advance them (`explicit_euler`, and Runge-Kutta as an oracle). */
module Stepper {
  import opened Common

  /** The sizes `stepperState_t::initialize` reads off the model. */
  datatype ModelDims = ModelDims(nq: nat, nv: nat, nJoints: nat, nMotors: nat)
  {
    function Nx(): nat { nq + nv }
  }

  /** The system dynamics `dxdt = f(t, x)` (`computeSystemDynamics`); its
      result has the size of the state. */
  type SystemDynamics = f: (real, seq<real>) -> seq<real> | forall t, x :: |f(t, x)| == |x|
    witness (t: real, x: seq<real>) => x

  /** Pinocchio's `computePositionDerivative(q, v)`; its result has the size of `q`. */
  type PositionDerivative = f: (seq<real>, seq<real>) -> seq<real> | forall q, v :: |f(q, v)| == |q|
    witness (q: seq<real>, v: seq<real>) => q

  /** One attempt of an adaptive integrator: either the step is accepted with a
      new state and derivative, or it is rejected; either way a step size for
      the next attempt is proposed. */
  datatype Trial = Accepted(x: seq<real>, dxdt: seq<real>, dtNext: real) | Rejected(dtNext: real)

  /** The shape of a trial from `x`, `dxdt` with step `dt`: the proposed step
      is positive, a rejection proposes a shorter one, and an accepted state
      keeps the sizes. */
  predicate WellFormedTrial(r: Trial, x: seq<real>, dxdt: seq<real>, dt: real)
  {
    && r.dtNext > 0.0
    && (r.Rejected? && dt > 0.0 ==> r.dtNext < dt)
    && (r.Accepted? ==> |r.x| == |x| && |r.dxdt| == |dxdt|)
  }

  /** Boost.odeint's controlled Dormand-Prince `try_step(x, dxdt, t, dt)`, as an oracle. */
  type RungeKuttaOracle = f: (seq<real>, seq<real>, real, real) -> Trial |
    forall x, d, t, dt :: WellFormedTrial(f(x, d, t, dt), x, d, dt)
    witness (x: seq<real>, d: seq<real>, t: real, dt: real) => Rejected(if dt > 0.0 then dt / 2.0 else 1.0)

  /** The integrator selected by `odeSolver`. */
  datatype OdeStepper = RungeKuttaDopri5(tryStep: RungeKuttaOracle) | ExplicitEuler

  /** `explicit_euler::order()`. */
  const EXPLICIT_EULER_ORDER: nat := 1

  /** `x + dt * d`, entry by entry. */
  function AddScaled(x: seq<real>, dt: real, d: seq<real>): (r: seq<real>)
    requires |x| == |d|
    ensures |r| == |x| && forall i :: 0 <= i < |x| ==> r[i] == x[i] + dt * d[i]
  {
    seq(|x|, i requires 0 <= i < |x| => x[i] + dt * d[i])
  }

  /** A value copy of the state (`stepperStateLast_ = stepperState_`). */
  datatype Snapshot = Snapshot(
    iter: nat, t: real, dt: real, x: seq<real>, dxdt: seq<real>,
    u: seq<real>, uCommand: seq<real>, uMotor: seq<real>, uInternal: seq<real>,
    fExternal: seq<SpatialForce>)

  const EmptySnapshot: Snapshot := Snapshot(0, 0.0, 0.0, [], [], [], [], [], [], [])

  class StepperState {
    var iter: nat
    var t: real
    var dt: real
    /** The Kahan compensation term; over the reals it stays 0. */
    var tErr: real
    var x: seq<real>
    var dxdt: seq<real>
    var u: seq<real>
    var uCommand: seq<real>
    var uMotor: seq<real>
    var uInternal: seq<real>
    var fExternal: seq<SpatialForce>
    var nx: nat
    var nq: nat
    var nv: nat
    var isInitialized: bool

    /** Buffer sizes agree with the recorded dimensions once initialised. */
    ghost predicate Valid()
      reads this
    {
      && tErr == 0.0
      && (isInitialized ==>
            && nx == nq + nv && |x| == nx && |dxdt| == nx
            && |u| == nv && |uInternal| == nv && |uCommand| == |uMotor|)
    }

    /** The default constructor: everything zero or empty, not initialised. */
    constructor ()
      ensures Valid() && !isInitialized
      ensures iter == 0 && t == 0.0 && dt == 0.0 && x == [] && dxdt == []
      ensures nx == 0 && nq == 0 && nv == 0
    {
      iter, t, dt, tErr := 0, 0.0, 0.0, 0.0;
      x, dxdt, u, uCommand, uMotor, uInternal := [], [], [], [], [], [];
      fExternal := [];
      nx, nq, nv := 0, 0, 0;
      isInitialized := false;
    }

    /** `initialize(model, xInit, dt_init)`: counters and time reset, the state
        copied, every other buffer zero of its size except the position part
        of the derivative, which is `computePositionDerivative(q, v)`. */
    method Initialize(dims: ModelDims, xInit: seq<real>, dtInit: real, positionDerivative: PositionDerivative)
      requires Valid()
      requires |xInit| == dims.Nx()
      modifies this
      ensures Valid() && isInitialized
      ensures nx == dims.Nx() && nq == dims.nq && nv == dims.nv
      ensures iter == 0 && t == 0.0 && dt == dtInit && x == xInit
      ensures dxdt == positionDerivative(xInit[..dims.nq], xInit[dims.nq..]) + Zeros(dims.nv)
      ensures u == Zeros(dims.nv) && uInternal == Zeros(dims.nv)
      ensures uCommand == Zeros(dims.nMotors) && uMotor == Zeros(dims.nMotors)
      ensures fExternal == ZeroForces(dims.nJoints)
    {
      var qDot := positionDerivative(xInit[..dims.nq], xInit[dims.nq..]);
      ClearInputs(dims);
      LoadState(dims, xInit, dtInit, qDot + Zeros(dims.nv));
      isInitialized := true;
    }

    /** The sizes, counters, time and state of `initialize`. */
    method LoadState(dims: ModelDims, xInit: seq<real>, dtInit: real, dxdtInit: seq<real>)
      modifies this`nx, this`nq, this`nv, this`iter, this`t, this`dt, this`tErr, this`x, this`dxdt
      ensures nx == dims.Nx() && nq == dims.nq && nv == dims.nv && tErr == 0.0
      ensures iter == 0 && t == 0.0 && dt == dtInit && x == xInit && dxdt == dxdtInit
    {
      nx, nq, nv := dims.Nx(), dims.nq, dims.nv;
      iter, t, dt, tErr := 0, 0.0, dtInit, 0.0;
      x, dxdt := xInit, dxdtInit;
    }

    /** The force and command buffers of `initialize`, zero of their sizes. */
    method ClearInputs(dims: ModelDims)
      modifies this`u, this`uInternal, this`uCommand, this`uMotor, this`fExternal
      ensures u == Zeros(dims.nv) && uInternal == Zeros(dims.nv)
      ensures uCommand == Zeros(dims.nMotors) && uMotor == Zeros(dims.nMotors)
      ensures fExternal == ZeroForces(dims.nJoints)
    {
      fExternal := ZeroForces(dims.nJoints);
      uInternal, u := Zeros(dims.nv), Zeros(dims.nv);
      uCommand, uMotor := Zeros(dims.nMotors), Zeros(dims.nMotors);
    }

    /** `initialize(model)`: the zero state with the minimal step. */
    method InitializeZero(dims: ModelDims, positionDerivative: PositionDerivative)
      requires Valid()
      modifies this
      ensures Valid() && isInitialized
      ensures nx == dims.Nx() && nq == dims.nq && nv == dims.nv
      ensures iter == 0 && t == 0.0 && dt == MIN_SIMULATION_TIMESTEP && x == Zeros(dims.Nx())
      ensures u == Zeros(dims.nv) && uInternal == Zeros(dims.nv)
      ensures uCommand == Zeros(dims.nMotors) && uMotor == Zeros(dims.nMotors)
      ensures fExternal == ZeroForces(dims.nJoints)
    {
      Initialize(dims, Zeros(dims.Nx()), MIN_SIMULATION_TIMESTEP, positionDerivative);
    }

    /** The view `q()`: the first nq entries of x. */
    function Q(): seq<real>
      reads this
      requires Valid() && isInitialized
    {
      x[..nq]
    }

    /** The view `v()`: the last nv entries of x. */
    function V(): seq<real>
      reads this
      requires Valid() && isInitialized
    {
      x[nq..]
    }

    /** The view `qDot()`: the first nq entries of dxdt. */
    function QDot(): seq<real>
      reads this
      requires Valid() && isInitialized
    {
      dxdt[..nq]
    }

    /** The view `a()`: the last nv entries of dxdt. */
    function A(): seq<real>
      reads this
      requires Valid() && isInitialized
    {
      dxdt[nq..]
    }

    /** The views split the buffers: `q` then `v` is x, `qDot` then `a` is dxdt. */
    lemma ViewsSplitBuffers()
      requires Valid() && isInitialized
      ensures |Q()| == nq && |V()| == nv && Q() + V() == x
      ensures |QDot()| == nq && |A()| == nv && QDot() + A() == dxdt
    {
    }

    /** Writing through the view `a()` changes the tail of dxdt and nothing else. */
    method SetA(a: seq<real>)
      requires Valid() && isInitialized && |a| == nv
      modifies this`dxdt
      ensures Valid()
      ensures dxdt == old(dxdt[..nq]) + a
      ensures QDot() == old(QDot()) && A() == a
    {
      dxdt := dxdt[..nq] + a;
    }

    /** A value copy of the whole state. */
    function Snap(): Snapshot
      reads this
    {
      Snapshot(iter, t, dt, x, dxdt, u, uCommand, uMotor, uInternal, fExternal)
    }

    /** `explicit_euler::try_step`: advance time, evaluate the dynamics at the
        new time and the old state, then move the state along that derivative.
        It never rejects a step. */
    method EulerTryStep(system: SystemDynamics, tIn: real, h: real) returns (tOut: real)
      requires Valid() && isInitialized
      modifies this`x, this`dxdt
      ensures Valid()
      ensures tOut == tIn + h
      ensures dxdt == system(tIn + h, old(x))
      ensures x == AddScaled(old(x), h, dxdt)
    {
      tOut := tIn + h;
      dxdt := system(tOut, x);
      x := AddScaled(x, h, dxdt);
    }

    /** One attempt of the selected integrator from `tIn` with step `h`: on
        success time advances by `h`; on failure nothing changes but the
        proposed step.  The returned step is the one to try next. */
    method TryStep(stepper: OdeStepper, system: SystemDynamics, tIn: real, h: real)
      returns (accepted: bool, tOut: real, hNext: real)
      requires Valid() && isInitialized
      modifies this`x, this`dxdt
      ensures Valid()
      ensures accepted ==> tOut == tIn + h
      ensures !accepted ==> tOut == tIn && x == old(x) && dxdt == old(dxdt)
      ensures stepper.ExplicitEuler? ==> accepted && hNext == h
      ensures stepper.RungeKuttaDopri5? ==> hNext > 0.0
      ensures !accepted && h > 0.0 ==> hNext < h
      ensures stepper.ExplicitEuler? ==>
                dxdt == system(tIn + h, old(x)) && x == AddScaled(old(x), h, dxdt)
      ensures stepper.RungeKuttaDopri5? ==>
                var r := stepper.tryStep(old(x), old(dxdt), tIn, h);
                && hNext == r.dtNext && (accepted <==> r.Accepted?)
                && (r.Accepted? ==> x == r.x && dxdt == r.dxdt)
    {
      match stepper
      case ExplicitEuler =>
        tOut := EulerTryStep(system, tIn, h);
        accepted, hNext := true, h;
      case RungeKuttaDopri5(oracle) =>
        var trial := oracle(x, dxdt, tIn, h);
        hNext := trial.dtNext;
        if trial.Accepted? {
          x, dxdt := trial.x, trial.dxdt;
          accepted, tOut := true, tIn + h;
        } else {
          accepted, tOut := false, tIn;
        }
    }
  }
}
