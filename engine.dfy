/** The simulation engine's session logic: option commit, the model lock
    (`start`, `stop`, `reset`), the force registries, and the integration
    loops of `step` and `simulate` with the ODE stepper as an oracle. */
module SimulationEngine {
  import opened Common
  import opened EngineOptions
  import opened ImpulseRegistry
  import opened Scheduling
  import opened Stepper
  import opened InitialState

  /** What the engine reads of its model: whether it is initialised, the
      state layout of the (possibly flexible) model, the joint and motor
      counts, and Pinocchio's position derivative. */
  datatype ModelInfo = ModelInfo(
    isInitialized: bool, layout: StateLayout, nJoints: nat, nMotors: nat,
    positionDerivative: PositionDerivative)
  {
    function Dims(): ModelDims { ModelDims(layout.nq, layout.nv, nJoints, nMotors) }
  }

  /** The controller's `computeCommand(t, q, v, u)`: it fills the zeroed
      command buffer, whose size it keeps. */
  type CommandLaw = f: (real, seq<real>, seq<real>, seq<real>) -> seq<real> |
    forall t, q, v, u :: |f(t, q, v, u)| == |u|
    witness (t: real, q: seq<real>, v: seq<real>, u: seq<real>) => u

  /** A registered force profile: the frame name, its index (looked up at
      `start`) and the user's force functor of `(t, x)`. */
  datatype ForceProfile = ForceProfile(frameName: string, frameIdx: int, force: (real, seq<real>) -> Vec3)

  /** The duration below which `simulate` refuses to run. */
  const MIN_SIMULATION_DURATION: real := 5e-3

  /** Whether the state since `(iter0, x0, last0)` follows the rule for
      `stepperStateLast_`: with no accepted step since then, the iteration
      count, the state and the snapshot are as they were; otherwise the
      snapshot holds the last accepted iteration and state. */
  ghost predicate Tracks(s: StepperState, last: Snapshot, iter0: nat, x0: seq<real>, last0: Snapshot)
    reads s
  {
    || (s.iter == iter0 && s.x == x0 && last == last0)
    || (s.iter > iter0 && last.iter == s.iter && last.x == s.x)
  }

  /** The code `start` returns: a wrong state size wins over an
      uninitialised engine; past both checks, the lock's answer. */
  function StartCode(isInitialized: bool, sizeOk: bool, lockCode: ResultCode): (r: ResultCode)
    ensures !sizeOk ==> r == ErrorBadInput
    ensures sizeOk && !isInitialized ==> r == ErrorInitFailed
    ensures sizeOk && isInitialized ==> r == lockCode
  {
    if !sizeOk then ErrorBadInput else if !isInitialized then ErrorInitFailed else lockCode
  }

  /** The initial step size of `start`: the breakpoint period when it is
      discrete, otherwise `dtMax`. */
  function InitialStepSize(period: real, dtMax: real): (r: real)
    ensures r == period || r == dtMax
    ensures r > MIN_SIMULATION_TIMESTEP || r == dtMax
    ensures r >= Min(period, dtMax)
  {
    if period > MIN_SIMULATION_TIMESTEP then period else dtMax
  }

  /** The length check of `start`: a theoretical state has the rigid
      model's size, any other the current model's. */
  predicate InitialSizeOk(xInit: seq<real>, l: StateLayout, isStateTheoretical: bool)
  {
    |xInit| == if isStateTheoretical then l.RigidNx() else l.Nx()
  }

  class Engine {
    var isInitialized: bool
    /** `lockModel_` is held: a simulation is running. */
    var locked: bool
    var isTelemetryConfigured: bool
    var options: Options
    var stepperUpdatePeriod: real
    var impulses: seq<Impulse>
    /** `forceImpulseNextIt_` as an index into `impulses`. */
    var cursor: nat
    var profiles: seq<ForceProfile>
    var model: ModelInfo
    var callback: (real, seq<real>) -> bool
    var stepper: OdeStepper
    var state: StepperState
    /** `stepperStateLast_`. */
    var last: Snapshot

    ghost predicate Valid()
      reads this, state
    {
      && state.Valid()
      && StepBounds(options)
      && !TooShortPeriod(stepperUpdatePeriod)
      && Sorted(impulses) && cursor <= |impulses|
      && (isInitialized ==>
            && model.isInitialized && WellFormed(model.layout) && state.isInitialized
            && state.nq == model.layout.nq && state.nv == model.layout.nv)
      && (locked ==> isInitialized)
    }

    /** The constructor: default options (which pass every check), no model,
      a callback that always continues, empty registries. */
    constructor ()
      ensures Valid()
      ensures !isInitialized && !locked && !isTelemetryConfigured
      ensures options == DefaultOptions() && stepperUpdatePeriod == 0.0
      ensures impulses == [] && cursor == 0 && profiles == []
    {
      DefaultOptionsAdmissible();
      isInitialized, locked, isTelemetryConfigured := false, false, false;
      options := DefaultOptions();
      stepperUpdatePeriod := BreakpointPeriod(0.0, 0.0);
      impulses, cursor, profiles := [], 0, [];
      model := ModelInfo(false, StateLayout(0, 0, false, false, [], [], []), 0, 0,
                         (q: seq<real>, v: seq<real>) => q);
      callback := (t: real, x: seq<real>) => true;
      stepper := RungeKuttaDopri5((x: seq<real>, d: seq<real>, t: real, dt: real) =>
                   Rejected(if dt > 0.0 then dt / 2.0 else 1.0));
      state := new StepperState();
      last := EmptySnapshot;
    }

    /** `setOptions`: refused while running; otherwise every check in order,
        the breakpoint period written before the gravity check, and the
        options committed only when all checks pass. */
    method SetOptions(o: Options) returns (code: ResultCode)
      requires Valid()
      modifies this`options, this`stepperUpdatePeriod
      ensures Valid()
      ensures locked ==> code == ErrorGeneric
      ensures !locked ==> code == Validate(o)
      ensures code == Success <==> !locked && Admissible(o)
      ensures options == if code == Success then o else old(options)
      ensures stepperUpdatePeriod ==
                if !locked && CheckBeforePeriod(o) == Success
                then BreakpointPeriod(o.stepper.sensorsUpdatePeriod, o.stepper.controllerUpdatePeriod)
                else old(stepperUpdatePeriod)
    {
      if locked {
        return ErrorGeneric;
      }
      code := CheckBeforePeriod(o);
      if code != Success {
        return;
      }
      stepperUpdatePeriod := BreakpointPeriod(o.stepper.sensorsUpdatePeriod, o.stepper.controllerUpdatePeriod);
      if |o.world.gravity| != 6 {
        return ErrorBadInput;
      }
      options := o;
    }

    /** `initialize(model, controller, callback)`: an uninitialised model is
        refused before anything changes; the stepper state is rebuilt for the
        model before the controller is checked; on success the options are
        re-applied and the engine is initialised. */
    method Initialize(m: ModelInfo, controllerInitialized: bool, callbackFct: (real, seq<real>) -> bool)
      returns (code: ResultCode)
      requires Valid()
      requires m.isInitialized ==> WellFormed(m.layout)
      modifies this`model, this`callback, this`isInitialized, this`options, this`stepperUpdatePeriod, state
      ensures Valid()
      ensures !m.isInitialized ==> code == ErrorInitFailed && model == old(model) && unchanged(state)
      ensures m.isInitialized && !controllerInitialized ==> code == ErrorInitFailed && isInitialized == old(isInitialized)
      ensures m.isInitialized && controllerInitialized ==> code == Success && isInitialized && callback == callbackFct
      ensures m.isInitialized ==> model == m && state.isInitialized && state.x == Zeros(m.Dims().Nx())
      ensures locked == old(locked) && options == old(options)
      ensures impulses == old(impulses) && cursor == old(cursor) && profiles == old(profiles)
    {
      if !m.isInitialized {
        return ErrorInitFailed;
      }
      BindModel(m);
      if !controllerInitialized {
        return ErrorInitFailed;
      }
      callback := callbackFct;
      ReapplyOptions();
      isInitialized := true;
      code := Success;
    }

    /** `setOptions(getOptions())`: the current options are committed again,
        which leaves them as they are (the breakpoint period may be recomputed). */
    method ReapplyOptions()
      requires Valid()
      modifies this`options, this`stepperUpdatePeriod
      ensures Valid() && options == old(options)
    {
      var _ := SetOptions(options);
    }

    /** The model is recorded and the stepper state rebuilt to its zero
        state, whether or not the controller then turns out to be ready. */
    method BindModel(m: ModelInfo)
      requires Valid() && m.isInitialized && WellFormed(m.layout)
      modifies this`model, state
      ensures Valid()
      ensures model == m && state.isInitialized && state.x == Zeros(m.Dims().Nx())
      ensures state.nq == m.layout.nq && state.nv == m.layout.nv
    {
      model := m;
      state.InitializeZero(m.Dims(), m.positionDerivative);
    }

    /** `registerForceImpulse`: refused while running; otherwise stored under
        its start time, replacing an impulse with the same start time; the
        cursor keeps designating the same entry. */
    method RegisterForceImpulse(frameName: string, t: real, dt: real, F: Vec3) returns (code: ResultCode)
      requires Valid()
      modifies this`impulses, this`cursor
      ensures Valid()
      ensures code == (if locked then ErrorGeneric else Success)
      ensures locked ==> impulses == old(impulses) && cursor == old(cursor)
      ensures !locked ==> Lookup(impulses, t) == Some(Impulse(t, frameName, dt, F))
      ensures !locked ==> forall key :: key != t ==> Lookup(impulses, key) == Lookup(old(impulses), key)
      ensures !locked ==> |impulses| == if HasKey(old(impulses), t) then |old(impulses)| else |old(impulses)| + 1
      ensures !locked ==> cursor == CursorAfterInsert(old(impulses), old(cursor), t)
      ensures !locked && old(cursor) == |old(impulses)| ==> cursor == |impulses|
      ensures !locked && old(cursor) < |old(impulses)| ==>
                cursor < |impulses| && impulses[cursor].t == old(impulses)[old(cursor)].t
      ensures !locked && old(cursor) < |old(impulses)| && old(impulses)[old(cursor)].t != t ==>
                impulses[cursor] == old(impulses)[old(cursor)]
    {
      if locked {
        return ErrorGeneric;
      }
      var e := Impulse(t, frameName, dt, F);
      forall key | key != t
        ensures Lookup(Insert(impulses, e), key) == Lookup(impulses, key)
      {
        InsertIsMapUpdate(impulses, e, key);
      }
      InsertIsMapUpdate(impulses, e, t);
      CursorFollowsEntry(impulses, cursor, e);
      cursor := CursorAfterInsert(impulses, cursor, t);
      impulses := Insert(impulses, e);
      code := Success;
    }

    /** `registerForceProfile`: refused while running; otherwise appended. */
    method RegisterForceProfile(frameName: string, force: (real, seq<real>) -> Vec3) returns (code: ResultCode)
      requires Valid()
      modifies this`profiles
      ensures Valid()
      ensures code == (if locked then ErrorGeneric else Success)
      ensures profiles == if locked then old(profiles) else old(profiles) + [ForceProfile(frameName, 0, force)]
    {
      if locked {
        return ErrorGeneric;
      }
      profiles := profiles + [ForceProfile(frameName, 0, force)];
      code := Success;
    }

    /** `stop`: releases the lock and the telemetry configuration when
        running, and does nothing otherwise (so stopping twice is stopping once). */
    method Stop()
      requires Valid()
      modifies this`locked, this`isTelemetryConfigured
      ensures Valid() && !locked
      ensures !old(locked) ==> isTelemetryConfigured == old(isTelemetryConfigured)
      ensures old(locked) ==> !isTelemetryConfigured
    {
      if locked {
        locked := false;
        isTelemetryConfigured := false;
      }
    }

    /** `reset(resetRandomNumbers, resetDynamicForceRegister)`: optionally
        empties both force registries and rewinds the cursor, then stops. */
    method Reset(resetDynamicForceRegister: bool)
      requires Valid()
      modifies this`impulses, this`cursor, this`profiles, this`locked, this`isTelemetryConfigured
      ensures Valid() && !locked
      ensures resetDynamicForceRegister ==> impulses == [] && cursor == 0 && profiles == []
      ensures !resetDynamicForceRegister ==>
                impulses == old(impulses) && cursor == old(cursor) && profiles == old(profiles)
    {
      if resetDynamicForceRegister {
        impulses, cursor, profiles := [], 0, [];
      }
      Stop();
    }

    /** `start(xInit, isStateTheoretical, ..)`: the initialisation check, then
        the size check (whose code wins); then a reset, the model lock
        (`lockCode` is what `getLock` answers), and the launch. */
    method Start(xInit: seq<real>, isStateTheoretical: bool, resetDynamicForceRegister: bool,
                 lockCode: ResultCode, tryStep: RungeKuttaOracle) returns (code: ResultCode)
      requires Valid()
      modifies this`impulses, this`cursor, this`profiles, this`locked, this`isTelemetryConfigured,
               this`stepper, this`last, state
      ensures Valid()
      ensures code == StartCode(isInitialized, InitialSizeOk(xInit, model.layout, isStateTheoretical), lockCode)
      ensures code != Success && (!isInitialized || !InitialSizeOk(xInit, model.layout, isStateTheoretical)) ==>
                && locked == old(locked) && impulses == old(impulses) && cursor == old(cursor)
                && profiles == old(profiles) && unchanged(state)
      ensures code != Success && isInitialized && InitialSizeOk(xInit, model.layout, isStateTheoretical) ==>
                !locked
      ensures code == Success ==>
                && (resetDynamicForceRegister ==> impulses == [] && profiles == [])
                && (!resetDynamicForceRegister ==> impulses == old(impulses) && profiles == old(profiles))
                && Launched(xInit, isStateTheoretical, tryStep)
    {
      code := Success;
      if !isInitialized {
        code := ErrorInitFailed;
      }
      if !InitialSizeOk(xInit, model.layout, isStateTheoretical) {
        code := ErrorBadInput;
      }
      if code != Success {
        return;
      }
      Reset(resetDynamicForceRegister);
      code := lockCode;
      if code != Success {
        return;
      }
      Launch(xInit, isStateTheoretical, tryStep);
    }

    /** The state right after a successful `start`: locked, the cursor on the
        first impulse, the integrator of the options, the initial state at
        time 0 with the initial step, and its snapshot. */
    ghost predicate Launched(xInit: seq<real>, isStateTheoretical: bool, tryStep: RungeKuttaOracle)
      reads this, state
      requires Valid()
    {
      && locked && cursor == 0
      && state.iter == 0 && state.t == 0.0
      && state.dt == InitialStepSize(stepperUpdatePeriod, options.stepper.dtMax)
      && (!(isStateTheoretical && model.layout.flexible) ==> state.x == xInit)
      && (isStateTheoretical && model.layout.flexible ==> RigidState(state.x, model.layout) == xInit)
      && stepper == (if options.stepper.odeSolver == RUNGE_KUTTA_DOPRI5
                     then RungeKuttaDopri5(tryStep) else ExplicitEuler)
      && last == state.Snap()
    }

    /** The part of `start` after the lock is taken. */
    method Launch(xInit: seq<real>, isStateTheoretical: bool, tryStep: RungeKuttaOracle)
      requires Valid() && isInitialized && InitialSizeOk(xInit, model.layout, isStateTheoretical)
      modifies this`locked, this`cursor, this`stepper, this`last, state
      ensures Valid()
      ensures Launched(xInit, isStateTheoretical, tryStep)
    {
      var x0 := StartingState(xInit, isStateTheoretical);
      locked := true;
      cursor := 0;
      stepper := if options.stepper.odeSolver == RUNGE_KUTTA_DOPRI5
                 then RungeKuttaDopri5(tryStep) else ExplicitEuler;
      var dt := InitialStepSize(stepperUpdatePeriod, options.stepper.dtMax);
      state.Initialize(model.Dims(), x0, dt, model.positionDerivative);
      last := state.Snap();
    }

    /** The initial state of `start` for the current model: what
        `InitialStateOf` promises that the launched state is checked against. */
    method StartingState(xInit: seq<real>, isStateTheoretical: bool) returns (x0: seq<real>)
      requires Valid() && isInitialized && InitialSizeOk(xInit, model.layout, isStateTheoretical)
      ensures |x0| == model.layout.Nx()
      ensures !(isStateTheoretical && model.layout.flexible) ==> x0 == xInit
      ensures isStateTheoretical && model.layout.flexible ==> RigidState(x0, model.layout) == xInit
    {
      x0 := InitialStateOf(xInit, model.layout, isStateTheoretical);
    }

    /** The controller update at the top of an outer iteration of `step`:
        a fresh command, and for an adaptive integrator a fresh derivative. */
    method ControllerUpdate(t: real, command: CommandLaw, system: SystemDynamics)
      requires Valid() && isInitialized
      modifies state`uCommand, state`dxdt
      ensures Valid()
      ensures state.uCommand == command(t, state.Q(), state.V(), Zeros(|old(state.uCommand)|))
      ensures options.stepper.odeSolver != EXPLICIT_EULER ==> state.dxdt == system(t, state.x)
      ensures options.stepper.odeSolver == EXPLICIT_EULER ==> state.dxdt == old(state.dxdt)
    {
      state.uCommand := command(t, state.Q(), state.V(), Zeros(|state.uCommand|));
      if options.stepper.odeSolver != EXPLICIT_EULER {
        state.dxdt := system(t, state.x);
      }
    }

    /** One attempt of the integrator with the current step `state.dt`; on
        acceptance time and iteration count advance and the snapshot is taken. */
    method Attempt(t0: real, system: SystemDynamics, ghost iter0: nat, ghost x0: seq<real>, ghost last0: Snapshot)
      returns (accepted: bool, t: real)
      requires Valid() && isInitialized && t0 == state.t
      requires Tracks(state, last, iter0, x0, last0)
      modifies state`x, state`dxdt, state`t, state`iter, state`dt, this`last
      ensures Valid() && t == state.t
      ensures Tracks(state, last, iter0, x0, last0)
      ensures state.iter == old(state.iter) + (if accepted then 1 else 0)
      ensures accepted ==> t == t0 + old(state.dt)
      ensures !accepted ==> t == t0 && state.x == old(state.x) && last == old(last)
      ensures stepper.ExplicitEuler? ==> accepted && state.dt == old(state.dt)
      ensures !accepted && old(state.dt) > 0.0 ==> 0.0 < state.dt < old(state.dt)
      ensures stepper.RungeKuttaDopri5? ==> state.dt > 0.0
      ensures stepper.ExplicitEuler? ==>
                && state.dxdt == system(t0 + old(state.dt), old(state.x))
                && state.x == AddScaled(old(state.x), old(state.dt), state.dxdt)
      ensures stepper.RungeKuttaDopri5? ==>
                var r := stepper.tryStep(old(state.x), old(state.dxdt), t0, old(state.dt));
                && state.dt == r.dtNext && (accepted <==> r.Accepted?)
                && (r.Accepted? ==> state.x == r.x && state.dxdt == r.dxdt)
    {
      var tOut, hNext;
      accepted, tOut, hNext := state.TryStep(stepper, system, t0, state.dt);
      state.dt := hNext;
      t := tOut;
      if accepted {
        state.t := t;
        state.iter := state.iter + 1;
        last := state.Snap();
      }
    }

    /** The discrete case of `step`: sub-steps of at most `dtMax`, never past
        the breakpoint `tNext`, until within EPS of it (or out of fuel). */
    method IntegrateToBreakpoint(t0: real, tNext: real, system: SystemDynamics, fuel: nat,
                                 ghost iter0: nat, ghost x0: seq<real>, ghost last0: Snapshot)
      returns (t: real, fuelLeft: nat)
      requires Valid() && isInitialized && t0 == state.t && state.dt > 0.0
      requires Tracks(state, last, iter0, x0, last0)
      modifies state`x, state`dxdt, state`t, state`iter, state`dt, this`last
      ensures Valid() && t == state.t && state.dt > 0.0
      ensures Tracks(state, last, iter0, x0, last0)
      ensures state.iter >= old(state.iter)
      ensures t == t0 || t0 < t <= tNext
      ensures fuelLeft <= fuel
      ensures fuelLeft > 0 ==> tNext - t <= EPS
      ensures tNext - t0 <= EPS ==> t == t0 && fuelLeft == fuel && state.iter == old(state.iter)
    {
      t, fuelLeft := t0, fuel;
      while tNext - t > EPS && fuelLeft > 0
        invariant Valid() && t == state.t && state.dt > 0.0
        invariant Tracks(state, last, iter0, x0, last0)
        invariant state.iter >= old(state.iter)
        invariant t == t0 || t0 < t <= tNext
        invariant fuelLeft <= fuel
        invariant tNext - t0 <= EPS ==> t == t0 && fuelLeft == fuel && state.iter == old(state.iter)
        decreases fuelLeft
      {
        fuelLeft := fuelLeft - 1;
        state.dt := SubStep(state.dt, t, tNext, options.stepper.dtMax);
        var accepted;
        accepted, t := Attempt(t, system, iter0, x0, last0);
      }
    }

    /** The continuous case of `step`: attempts with the current step until
        one is accepted (or out of fuel). */
    method IntegrateOneStep(t0: real, system: SystemDynamics, fuel: nat,
                            ghost iter0: nat, ghost x0: seq<real>, ghost last0: Snapshot)
      returns (t: real, fuelLeft: nat)
      requires Valid() && isInitialized && t0 == state.t
      requires Tracks(state, last, iter0, x0, last0)
      modifies state`x, state`dxdt, state`t, state`iter, state`dt, this`last
      ensures Valid() && t == state.t
      ensures Tracks(state, last, iter0, x0, last0)
      ensures state.iter >= old(state.iter)
      ensures old(state.dt) > 0.0 ==> t == t0 || t0 < t <= t0 + old(state.dt)
      ensures fuelLeft <= fuel
      ensures fuelLeft > 0 ==> state.iter == old(state.iter) + 1
    {
      t, fuelLeft := t0, fuel;
      var accepted := false;
      ghost var dt0 := state.dt;
      while !accepted && fuelLeft > 0
        invariant Valid() && t == state.t
        invariant Tracks(state, last, iter0, x0, last0)
        invariant state.iter == old(state.iter) + (if accepted then 1 else 0)
        invariant !accepted ==> t == t0
        invariant dt0 > 0.0 ==> !accepted ==> 0.0 < state.dt <= dt0
        invariant dt0 > 0.0 ==> t == t0 || t0 < t <= t0 + dt0
        invariant fuelLeft <= fuel
        decreases fuelLeft
      {
        fuelLeft := fuelLeft - 1;
        accepted, t := Attempt(t, system, iter0, x0, last0);
      }
      if !accepted {
        fuelLeft := 0;
      }
    }

    /** One iteration of the outer loop of `step`: the controller update when
        due, the impulse look-ahead (the cursor moves past a closed window),
        the step floor DEFAULT_SIMULATION_TIMESTEP, then integration to the
        next breakpoint (discrete case) or one accepted step (continuous case). */
    method OuterIteration(t0: real, tEnd: real, system: SystemDynamics, command: CommandLaw, fuel: nat,
                          ghost iter0: nat, ghost x0: seq<real>, ghost last0: Snapshot)
      returns (t: real, fuelLeft: nat)
      requires Valid() && isInitialized && t0 == state.t
      requires Tracks(state, last, iter0, x0, last0)
      modifies this`cursor, this`last, state`x, state`dxdt, state`t, state`iter, state`dt, state`uCommand
      ensures Valid() && t == state.t
      ensures Tracks(state, last, iter0, x0, last0)
      ensures state.iter >= old(state.iter)
      ensures old(cursor) <= cursor <= old(cursor) + 1
      ensures fuelLeft <= fuel
    {
      if stepperUpdatePeriod > MIN_SIMULATION_TIMESTEP && options.stepper.controllerUpdatePeriod > EPS
         && UpdateDue(t0, options.stepper.controllerUpdatePeriod) {
        ControllerUpdate(t0, command, system);
      }
      var next := NextImpulse(impulses, cursor, t0, tEnd);
      cursor := next.0;
      state.dt := Max(state.dt, DEFAULT_SIMULATION_TIMESTEP);
      if stepperUpdatePeriod > EPS {
        var tNext := t0 + BreakpointGap(t0, tEnd, stepperUpdatePeriod, next.1);
        t, fuelLeft := IntegrateToBreakpoint(t0, tNext, system, fuel, iter0, x0, last0);
      } else {
        state.dt := ContinuousStep(state.dt, options.stepper.dtMax, t0, tEnd, next.1);
        t, fuelLeft := IntegrateOneStep(t0, system, fuel, iter0, x0, last0);
      }
    }

    /** `step(stepSize)`: the entry checks (lock, then initialisation, whose
        code wins; then a step size strictly between EPS and
        MIN_SIMULATION_TIMESTEP), the default step size, and the outer loop
        over breakpoints up to `tEnd`.  The dynamics and the controller are
        parameters; `fuel` bounds the number of loop iterations, and running
        out of it is reported as ERROR_GENERIC. */
    method Step(stepSize: real, system: SystemDynamics, command: CommandLaw, fuel: nat) returns (code: ResultCode)
      requires Valid()
      modifies this`cursor, this`last, state`x, state`dxdt, state`t, state`iter, state`dt, state`uCommand
      ensures Valid()
      ensures !isInitialized ==> code == ErrorInitFailed
      ensures isInitialized && !locked ==> code == ErrorGeneric
      ensures locked && TooShortPeriod(stepSize) ==> code == ErrorBadInput
      ensures !locked || TooShortPeriod(stepSize) ==>
                unchanged(state) && cursor == old(cursor) && last == old(last)
      ensures code == Success ==> state.t == old(state.t) + ResolveStepSize(stepSize, options)
      ensures code == Success || code == ErrorGeneric || code == ErrorBadInput || code == ErrorInitFailed
      ensures state.iter >= old(state.iter) && cursor >= old(cursor)
      ensures Tracks(state, last, old(state.iter), old(state.x), old(last))
    {
      code := Success;
      if !locked {
        code := ErrorGeneric;
      }
      if !isInitialized {
        code := ErrorInitFailed;
      }
      if code != Success {
        return;
      }
      if TooShortPeriod(stepSize) {
        return ErrorBadInput;
      }
      code := Advance(ResolveStepSize(stepSize, options), system, command, fuel);
    }

    /** The outer loop of `step` over breakpoints up to `state.t + h`; running
        out of fuel is ERROR_GENERIC, otherwise time lands exactly on the end. */
    method Advance(h: real, system: SystemDynamics, command: CommandLaw, fuel: nat) returns (code: ResultCode)
      requires Valid() && isInitialized
      modifies this`cursor, this`last, state`x, state`dxdt, state`t, state`iter, state`dt, state`uCommand
      ensures Valid()
      ensures code == Success || code == ErrorGeneric
      ensures code == Success ==> state.t == old(state.t) + h
      ensures state.iter >= old(state.iter) && cursor >= old(cursor)
      ensures Tracks(state, last, old(state.iter), old(state.x), old(last))
    {
      var tEnd := state.t + h;
      var t := state.t;
      var fuelLeft := fuel;
      ghost var iter0, x0, last0 := state.iter, state.x, last;
      while tEnd - t > EPS && fuelLeft > 0
        invariant Valid() && t == state.t
        invariant Tracks(state, last, iter0, x0, last0)
        invariant state.iter >= iter0 && cursor >= old(cursor)
        invariant fuelLeft <= fuel
        decreases fuelLeft
      {
        t, fuelLeft := OuterIteration(t, tEnd, system, command, fuelLeft - 1, iter0, x0, last0);
      }
      if tEnd - t > EPS {
        return ErrorGeneric;
      }
      SnapTime(tEnd);
      code := Success;
    }

    /** The final `stepperState_.t = tEnd` of `step`, which absorbs the
        remainder below EPS. */
    method SnapTime(tEnd: real)
      requires Valid()
      modifies state`t
      ensures Valid() && state.t == tEnd
    {
      state.t := tEnd;
    }

    /** `simulate(tEnd, xInit, isStateTheoretical)`: the entry checks (the
        duration check's code wins), `start`, then steps of one breakpoint
        period (or `dtMax`) until the end time is within
        MIN_SIMULATION_TIMESTEP, the callback declines, or `iterMax`
        accepted steps were taken; it always ends stopped. */
    method Simulate(tEnd: real, xInit: seq<real>, isStateTheoretical: bool, lockCode: ResultCode,
                    tryStep: RungeKuttaOracle, system: SystemDynamics, command: CommandLaw, stepFuel: nat)
      returns (code: ResultCode)
      requires Valid()
      modifies this`impulses, this`cursor, this`profiles, this`locked, this`isTelemetryConfigured,
               this`stepper, this`last, state
      ensures Valid() && !locked
      ensures tEnd < MIN_SIMULATION_DURATION ==> code == ErrorBadInput
      ensures tEnd >= MIN_SIMULATION_DURATION && !old(isInitialized) ==> code == ErrorInitFailed
      ensures code == Success ==>
                || tEnd - state.t < MIN_SIMULATION_TIMESTEP
                || !callback(state.t, state.x)
                || (options.stepper.iterMax > 0 && last.iter >= options.stepper.iterMax)
    {
      code := Success;
      if !isInitialized {
        code := ErrorInitFailed;
      }
      if tEnd < MIN_SIMULATION_DURATION {
        code := ErrorBadInput;
      }
      if code == Success {
        code := Start(xInit, isStateTheoretical, false, lockCode, tryStep);
      }
      if code == Success {
        code := RunSteps(tEnd, system, command, stepFuel);
      }
      Stop();
    }

    /** The loop of `simulate`: steps of one breakpoint period (or `dtMax`)
        while the end time is farther than MIN_SIMULATION_TIMESTEP, the
        callback agrees and fewer than `iterMax` steps were taken; a failed
        step ends it with that step's code. */
    method RunSteps(tEnd: real, system: SystemDynamics, command: CommandLaw, stepFuel: nat)
      returns (code: ResultCode)
      requires Valid()
      modifies this`cursor, this`last, state`x, state`dxdt, state`t, state`iter, state`dt, state`uCommand
      ensures Valid()
      ensures code == Success ==>
                || tEnd - state.t < MIN_SIMULATION_TIMESTEP
                || !callback(state.t, state.x)
                || (options.stepper.iterMax > 0 && last.iter >= options.stepper.iterMax)
    {
      code := Success;
      while code == Success
        invariant Valid()
        decreases (if code == Success then 1 else 0), StepsLeft(tEnd, state.t)
      {
        if tEnd - state.t < MIN_SIMULATION_TIMESTEP {
          break;
        } else if !callback(state.t, state.x) {
          break;
        } else if options.stepper.iterMax > 0 && last.iter >= options.stepper.iterMax {
          break;
        }
        var stepSize := SimulateStepSize(stepperUpdatePeriod, options.stepper.dtMax, state.t, tEnd);
        ghost var t0 := state.t;
        code := Step(stepSize, system, command, stepFuel);
        if code == Success {
          StepAdvances(stepSize, options);
          StepsLeftDecrease(tEnd, t0, state.t);
        }
      }
    }
  }

  /** A bound on the number of steps of at least EPS that fit before `tEnd`. */
  function StepsLeft(tEnd: real, t: real): nat
  {
    if t < tEnd then ((tEnd - t) / EPS).Floor as nat + 1 else 0
  }

  /** A step size `step` accepts advances time by at least EPS. */
  lemma StepAdvances(stepSize: real, o: Options)
    requires StepBounds(o) && !TooShortPeriod(stepSize)
    ensures ResolveStepSize(stepSize, o) >= EPS
  {
  }

  /** Advancing by at least EPS lowers the bound on the steps left. */
  lemma StepsLeftDecrease(tEnd: real, t0: real, t1: real)
    requires t0 < tEnd && t1 >= t0 + EPS
    ensures StepsLeft(tEnd, t1) < StepsLeft(tEnd, t0)
  {
    if t1 < tEnd {
      var a, b := (tEnd - t0) / EPS, (tEnd - t1) / EPS;
      assert b <= a - 1.0;
      assert b.Floor <= (a - 1.0).Floor;
    }
  }

  /** The look-ahead moves the cursor by at most one entry per outer
      iteration, so disjoint impulses whose windows all closed before the
      simulation started leave it lagging: at `t = 0` it returns a breakpoint
      behind `t`, and the continuous step towards it is negative. */
  lemma ImpulseLookAheadLags()
    ensures var es := [Impulse(-3.0, "a", 0.5, ZeroVec3), Impulse(-2.0, "b", 0.5, ZeroVec3),
                       Impulse(-1.0, "c", 0.1, ZeroVec3)];
            && Sorted(es) && Disjoint(es)
            && NextImpulse(es, 0, 0.0, 1.0) == (1, -1.0)
            && ContinuousStep(1e-3, 1e-3, 0.0, 1.0, -1.0) == -1.0
  {
  }
}
