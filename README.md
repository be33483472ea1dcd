# jiminy engine core, modelled in Dafny

This project models the discrete logic of the jiminy robot simulator's engine.
It covers the session life cycle of `Engine` (options, model lock, `start`,
`step`, `simulate`, `stop`, `reset`), the impulse- and profile-force
registries, and the scheduling arithmetic that cuts a step into breakpoints
and sub-steps. It also covers the initial-state remap from the rigid to the
flexible model, and the assembly of the generalized force from the internal
dynamics, the joint soft limits and the motor torques. Finally it covers the
scalar force laws (ground contact, joint limits, `SimpleMotor` friction), the
telemetry registration of `AbstractController`, the life cycle of
`FunctorConstraint`, and the per-system records of `System.cc`.

Every quantity is a mathematical `real`. The hyperbolic tangent is a
parameter `th` that is only assumed to be odd, zero at zero, and strictly
between 0 and 1 for positive arguments (`Common.TanhLike`). The
Dormand-Prince controlled stepper is an oracle: given the state it accepts a
step or rejects it with a smaller step. The system dynamics, the position
derivative, the controller command and the user callbacks are all function
parameters. The explicit Euler stepper (order 1) is modelled concretely.

Modules, one per concern of the source:

- `Common`: result codes, the constants, `Clamp`, and the tanh abstraction.
- `EngineOptions`: the options, their defaults, the checks of
  `setOptions`, `stepperUpdatePeriod_`, and the default step size.
- `ForceLaws`: the contact law and the joint-limit laws.
- `Motors`: `SimpleMotor`.
- `GeneralizedForce`: the torque assembly and the joint-limit loops.
- `ImpulseRegistry`: `forcesImpulse_` as an ordered map, with the cursor
  `forceImpulseNextIt_` as a position in it.
- `Scheduling`: the breakpoint and sub-step arithmetic of `step` and `simulate`.
- `Stepper`: `stepperState_t`.
- `InitialState`: the remap in `start`.
- `SimulationEngine`: the `Engine` class.
- `Controller`: `AbstractController`.
- `Constraints`: `FunctorConstraint`.
- `Systems`: the records of `System.cc`.

Properties worth noting:

- `setOptions` succeeds exactly when every check holds. It commits nothing
  otherwise, but it does write the breakpoint period before the gravity
  check (`SimulationEngine.Engine.SetOptions`).
- The default options pass every check
  (`EngineOptions.DefaultOptionsAdmissible`).
- Under admissible options the breakpoint period is the shorter update
  period, and the longer period is a multiple of it
  (`EngineOptions.BreakpointDividesPeriods`).
- A successful `step` ends exactly at `t` plus the resolved step size
  (`EngineOptions.ResolveStepSize`): a `stepSize` below EPS is replaced by
  the controller period, the sensor period or `dtMax`.
- Time, the iteration count and the last-state snapshot change only on
  accepted attempts (`SimulationEngine.Engine.Attempt`, whose invariant
  `SimulationEngine.Tracks` carries the count and the snapshot through the
  loops).
- Registering an impulse is a map update, and the impulse cursor keeps
  designating the same entry.
- Overlapping impulse windows make the look-ahead of `step` return a
  breakpoint at the current time (`ImpulseRegistry.OverlapStallsLookAhead`),
  where the breakpoint gap and the continuous step are zero
  (`Scheduling.BreakpointAtNowStalls`) and integration does not move
  (`SimulationEngine.Engine.IntegrateToBreakpoint`).
  With disjoint windows it never does as long as the entry under the
  advanced cursor still has an open window (`ImpulseRegistry.NextImpulseAhead`).
  That hypothesis can fail: the cursor moves by at most one entry per outer
  iteration, so impulses that all ended before the start leave it lagging
  behind `t` (`SimulationEngine.ImpulseLookAheadLags`).
- On the cursor alone, the window test of `computeExternalForces` agrees with
  the window test over the whole registry when the windows are disjoint and
  the cursor is up to date (`ImpulseRegistry.ActiveImpulseIsWindow`).
- The friction law is continuous.
- Joint-limit forces restore and stay within ±1e5.
- Motor friction opposes the velocity. Because it is added after the clamp,
  the effort can leave the torque limit (`Motors.FrictionCanExceedLimit`).
- A batch registration of telemetry variables keeps the names registered
  before the first duplicate.

## Model

| member | source | states |
|---|---|---|
| Common.Clamp | core/src/Engine.cc:1471 | the clamped value lies in [lo, hi] when lo <= hi, is `x` itself when `x` is already inside, and is always one of x, lo, hi |
| Common.TanhSign | core/src/Engine.cc:1401-1406 | under the tanh assumptions, tanh has the sign of its argument and magnitude below 1 |
| Common.Zeros | core/include/jiminy/core/Engine.h:109 | `vectorN_t::Zero(n)` has length n and every entry 0 |
| Common.ZeroForces | core/include/jiminy/core/Engine.h:112-113 | one zero spatial force per joint |
| EngineOptions.FmodRange | core/src/Engine.cc:960-964 | `std::fmod` of a non-negative by a positive number lies in [0, b) and equals the floored remainder |
| EngineOptions.FmodOfMultiple | core/src/Engine.cc:960-964 | a whole multiple of b has remainder 0 |
| EngineOptions.CheckBeforePeriod | core/src/Engine.cc:931-996 | the checks before the breakpoint period only ever answer SUCCESS or ERROR_BAD_INPUT |
| EngineOptions.Validate | core/src/Engine.cc:931-1019 | the code is SUCCESS exactly when the options are admissible (dtMax in [1e-6, 5e-3], a known solver, no period in (EPS, 1e-6), periods multiples of each other, non-negative eps values, 6 gravity entries) and ERROR_BAD_INPUT otherwise |
| EngineOptions.DefaultOptionsAdmissible | core/include/jiminy/core/Engine.h:188-358 | the default options pass every check, with dtMax 1e-3 and iterMax 100000 |
| EngineOptions.BreakpointPeriod | core/src/Engine.cc:999-1010 | the period is one of the two update periods, no longer than either discrete (>= 1e-6) one, and itself discrete when either is |
| EngineOptions.BreakpointDividesPeriods | core/src/Engine.cc:950-1010 | under admissible options with both periods discrete, the breakpoint period is the shorter and the longer is a multiple of it within EPS |
| EngineOptions.LongerIsNearMultiple | core/src/Engine.cc:960-964 | of two discrete periods that pass the multiple test, the longer is the near-multiple of the shorter |
| EngineOptions.MultiplePeriodsAccepted | core/src/Engine.cc:960-964 | periods p and k*p never fail the multiple test |
| EngineOptions.ResolveStepSize | core/src/Engine.cc:531-560 | a step size of at least EPS is kept; a smaller one becomes a default of at least 1e-6; any size that `step` accepts resolves to at least EPS |
| ForceLaws.NormalForce | core/src/Engine.cc:1366-1371 | the normal reaction is the stiffness term, plus the damping term only when the normal velocity is negative |
| ForceLaws.NormalForceRepulsive | core/src/Engine.cc:1366-1371 | for a penetrating point with non-negative gains the normal reaction is non-negative, and positive with positive stiffness |
| ForceLaws.FrictionCoefficient | core/src/Engine.cc:1378-1396 | the coefficient is frictionDry*v/eps below eps; on [eps, 1.5 eps) it is the linear interpolation frictionDry + (frictionViscous - frictionDry)*2(v/eps - 1), between the two coefficients; frictionViscous from 1.5 eps upward |
| ForceLaws.RampBetween | core/src/Engine.cc:1381-1386 | on the ramp the coefficient is the interpolation between frictionDry and frictionViscous at a parameter in [0, 1), so it lies between them |
| ForceLaws.FrictionContinuous | core/src/Engine.cc:1378-1396 | the law is continuous: frictionDry at eps from both sides and frictionViscous at 1.5 eps |
| ForceLaws.ContactForce | core/src/Engine.cc:1337-1414 | for a tangential speed that is the norm of the tangential velocity: a point at or above the ground gets a zero force; without blending a penetrating point gets the normal reaction along the normal minus friction along the tangential velocity |
| ForceLaws.ContactBlendingShrinks | core/src/Engine.cc:1401-1406 | with blending enabled the force is the unblended force scaled by a factor strictly between 0 and 1 |
| ForceLaws.PositionLimitRaw | core/src/Engine.cc:1449-1462 | inside the limits force and error are 0; above or below, the error is the distance to the crossed bound |
| ForceLaws.PositionLimitForce | core/src/Engine.cc:1449-1471 | the contribution lies in [-1e5, 1e5] and is 0 inside the limits |
| ForceLaws.PositionLimitRestoring | core/src/Engine.cc:1451-1471 | with non-negative gains the contribution is <= 0 above the upper limit and >= 0 below the lower one |
| ForceLaws.BlendKeepsSign | core/src/Engine.cc:1464-1469 | blending with a positive error never flips the sign of a force |
| ForceLaws.VelocityLimitRaw | core/src/Engine.cc:1498-1509 | inside [-vMax, vMax] force and error are 0; beyond, the error is the excess velocity |
| ForceLaws.VelocityLimitForce | core/src/Engine.cc:1498-1518 | the contribution lies in [-1e5, 1e5] and is 0 inside the velocity limit |
| ForceLaws.VelocityLimitRestoring | core/src/Engine.cc:1500-1518 | with non-negative damping the contribution opposes the excess velocity |
| Motors.DragOpposesVelocity | core/src/BasicMotors.cc:96-102 | viscous plus dry drag with non-positive coefficients and a non-negative slope opposes the velocity and is zero at rest |
| Motors.FrictionOpposesVelocity | core/src/BasicMotors.cc:91-104 | with admissible options the friction term is <= 0 for positive velocity, >= 0 for negative, 0 at rest |
| Motors.MotorEffort | core/src/BasicMotors.cc:82-104 | without limit or friction the effort is the command; with only the limit it lies in [-limit, limit]; a command within the limit passes unchanged |
| Motors.EffortDissipates | core/src/BasicMotors.cc:91-104 | with friction enabled the effort moves from the clamped command against the joint velocity |
| Motors.FrictionCanExceedLimit | core/src/BasicMotors.cc:85-104 | a command at the lower limit plus viscous drag ends below the limit: friction is added after the clamp |
| Motors.SimpleMotor.SetOptions | core/src/BasicMotors.cc:24-67 | the base code is passed on; otherwise ERROR_BAD_INPUT exactly when a friction coefficient is positive or the slope negative; options stored only on success |
| Motors.SimpleMotor.ComputeEffort | core/src/BasicMotors.cc:69-107 | an uninitialised motor gives ERROR_INIT_FAILED and keeps its effort; otherwise SUCCESS with the effort of `MotorEffort` at the joint's velocity index |
| GeneralizedForce.ScatterAdd | core/src/Engine.cc:1300-1306 | adding values at target indices keeps the vector's length |
| GeneralizedForce.ScatterAddAt | core/src/Engine.cc:1300-1306 | each entry is its base value plus everything aimed at it |
| GeneralizedForce.AddedAtZero | core/src/Engine.cc:1300-1306 | an entry at which only zeros (or nothing) are aimed receives nothing |
| GeneralizedForce.AddedAtSingle | core/src/Engine.cc:1300-1306 | an entry targeted by exactly one value receives that value |
| GeneralizedForce.AssembleTorque | core/src/Engine.cc:1300-1306 | `u` is `uInternal` with each motor's torque added at its joint velocity index, entry by entry |
| GeneralizedForce.MotorTorqueAt | core/src/Engine.cc:395-401 | a velocity index driven by no motor keeps its internal force; one driven by exactly one motor gets that motor's torque added |
| GeneralizedForce.AddLimitForces | core/src/Engine.cc:1436-1475 | the nested joint/degree-of-freedom loop adds each degree's force at its velocity index, ranks counted across joints |
| GeneralizedForce.AddJointForces | core/src/Engine.cc:1442-1474 | the inner loop over one joint's degrees of freedom extends the running sum by that joint's block |
| GeneralizedForce.InternalDynamics | core/src/Engine.cc:1416-1523 | the internal force is the user's, plus the position-limit forces when enabled, plus the velocity-limit forces when enabled |
| GeneralizedForce.PositionLimitsAt | core/src/Engine.cc:1442-1474 | every position-limit contribution lies in [-1e5, 1e5], and a velocity index whose coordinates are within limits receives none |
| ImpulseRegistry.Rank | core/src/Engine.cc:894 | the insertion point of a key in the ordered map: every earlier key is smaller, every later key not smaller |
| ImpulseRegistry.KeyAtRank | core/src/Engine.cc:894 | a key is present exactly when it sits at its rank |
| ImpulseRegistry.Lookup | core/src/Engine.cc:894 | a lookup finds an entry exactly when the key is present, and that entry carries the key |
| ImpulseRegistry.LookupUnique | core/src/Engine.cc:894 | the entry found under a key is the one at any index holding that key |
| ImpulseRegistry.InsertElements | core/src/Engine.cc:894 | after `map[t] = e` the entries are `e` and every old entry with another key |
| ImpulseRegistry.InsertIsMapUpdate | core/src/Engine.cc:894 | insertion keeps the map ordered, stores `e` under its key (replacing any entry there), and leaves every other key's lookup unchanged |
| ImpulseRegistry.InsertSorted | core/src/Engine.cc:894 | insertion keeps the keys strictly increasing |
| ImpulseRegistry.LookupAfterInsert | core/src/Engine.cc:894 | keys other than the inserted one are looked up as before |
| ImpulseRegistry.CursorFollowsEntry | core/src/Engine.cc:894 | after an insertion the cursor designates the same entry as before (or the end) |
| ImpulseRegistry.ActiveImpulse | core/src/Engine.cc:845-858 | an impulse applies exactly while start <= t <= start + duration, and only the one under the cursor |
| ImpulseRegistry.NextImpulse | core/src/Engine.cc:636-661 | the cursor moves forward by at most one, exactly when the current window has closed; the breakpoint is tEnd, the next start ahead of t, or the start after a window already open |
| ImpulseRegistry.NextImpulseAhead | core/src/Engine.cc:636-661 | with disjoint windows, and an open window under the advanced cursor, the breakpoint is tEnd or lies strictly ahead of t |
| ImpulseRegistry.DisjointChain | core/src/Engine.cc:636-661 | with disjoint windows of non-negative length every window ends before every later entry starts |
| ImpulseRegistry.ActiveImpulseIsWindow | core/src/Engine.cc:845-858 | with disjoint windows, every entry before the cursor closed and the cursor's window open, an impulse is active at t exactly when t lies in some entry's window, and the active one is that entry |
| ImpulseRegistry.OverlapStallsLookAhead | core/src/Engine.cc:636-661 | with two overlapping windows the look-ahead from t = 0 gives the breakpoint 0.5, and at t = 0.5 it gives 0.5 again with the cursor unmoved: a breakpoint at, not ahead of, the current time |
| Scheduling.UpdateGap | core/src/Engine.cc:673 | the time to the next multiple of the period lies in (0, period] |
| Scheduling.UpdateDueAtMultiples | core/src/Engine.cc:613-619 | a discrete update is due at every whole multiple of the period |
| Scheduling.BreakpointGap | core/src/Engine.cc:673-695 | the next breakpoint never passes tEnd; it is tEnd itself or at least EPS before it; otherwise it is no later than the next impulse, and no later than the next update when that is at least 1e-6 away, or than the update one period later when it is closer |
| Scheduling.BreakpointAtNowStalls | core/src/Engine.cc:673-695 | an impulse breakpoint at the current time makes both the discrete breakpoint gap and the continuous step zero |
| Scheduling.BreakpointReachesUpdate | core/src/Engine.cc:673-695 | without impulses the breakpoint is tEnd or the next update time |
| Scheduling.SubStep | core/src/Engine.cc:702-706 | a sub-step is positive and never passes the breakpoint; it is the full remainder or leaves at least 1e-12 and is bounded by dt and dtMax |
| Scheduling.ContinuousStep | core/src/Engine.cc:744-747 | the continuous step is the minimum of dt, dtMax, the time to tEnd and to the next impulse |
| Scheduling.ContinuousStepPositive | core/src/Engine.cc:744-747 | with all bounds ahead of t the continuous step is positive |
| Scheduling.SimulateStepSize | core/src/Engine.cc:484-492 | `simulate` asks for the breakpoint period (or dtMax when it is 0), cut at the time left |
| Stepper.AddScaled | core/include/jiminy/core/Engine.h:61 | `x + dt * dxdt` entry by entry |
| Stepper.StepperState.constructor | core/include/jiminy/core/Engine.h:69-87 | every counter zero, every buffer empty, not initialised |
| Stepper.StepperState.Initialize | core/include/jiminy/core/Engine.h:94-121 | sizes from the model; iter 0, t 0, dt the given step, x the given state; dxdt the position derivative then zeros; u, uInternal zero of nv; uCommand, uMotor zero of the motor count; one zero force per joint |
| Stepper.StepperState.InitializeZero | core/include/jiminy/core/Engine.h:89-92 | the zero state with dt = 1e-6, buffers as in `Initialize` |
| Stepper.StepperState.ViewsSplitBuffers | core/include/jiminy/core/Engine.h:128-146 | `q()` then `v()` is x, `qDot()` then `a()` is dxdt, of lengths nq and nv |
| Stepper.StepperState.SetA | core/include/jiminy/core/Engine.h:143-146 | writing through `a()` replaces the tail of dxdt and leaves `qDot()` as it was |
| Stepper.StepperState.EulerTryStep | core/include/jiminy/core/Engine.h:53-63 | time advances by h; dxdt is the dynamics at the new time and the old state; x becomes old x + h * dxdt |
| Stepper.StepperState.TryStep | core/src/Engine.cc:708-712 | an accepted attempt advances time by h; a rejected one changes neither time, x nor dxdt and proposes a smaller positive step; Euler always accepts, keeps h and gives dxdt = f(t + h, x) and x + h dxdt; Dormand-Prince accepts exactly when the integrator's trial does, taking its x, dxdt and next step |
| InitialState.RigidState | core/src/Engine.cc:297-320 | reading the rigid state back out of a flexible one gives the rigid model's size |
| InitialState.RigidStateOfSpread | core/src/Engine.cc:297-320 | a state built by the remap reads back to the original rigid state |
| InitialState.InitialStateOf | core/src/Engine.cc:291-329 | the initial state has the model's size; it is xInit unless the state is theoretical and the model flexible, in which case it reads back to xInit |
| InitialState.CopyBlock | core/src/Engine.cc:299 | a block copy writes the block and leaves every other entry |
| InitialState.Scatter | core/src/Engine.cc:300-303 | each indexed entry receives its source value and every other entry is left |
| InitialState.SetQuaternionsIdentity | core/src/Engine.cc:321-324 | the real part of every flexible joint's quaternion is 1 and nothing else changes |
| InitialState.SpreadRigidState | core/src/Engine.cc:292-325 | every rigid coordinate sits at its mapped index, every flexible quaternion's real part is 1, and every other entry is 0 |
| SimulationEngine.StartCode | core/src/Engine.cc:260-281 | a wrong state size is ERROR_BAD_INPUT and wins over ERROR_INIT_FAILED; past both checks the lock decides |
| SimulationEngine.InitialStepSize | core/src/Engine.cc:351-359 | the first step is the breakpoint period when it exceeds 1e-6, else dtMax |
| SimulationEngine.Engine.constructor | core/src/Engine.cc:32-72 | default options, breakpoint period 0, no model, empty registries, not locked |
| SimulationEngine.Engine.SetOptions | core/src/Engine.cc:920-1028 | ERROR_GENERIC while locked; otherwise the code of `Validate`; options committed only on success; breakpoint period recomputed once the early checks pass, even if gravity then fails |
| SimulationEngine.Engine.Initialize | core/src/Engine.cc:76-105 | an uninitialised model is refused before anything changes; the stepper state is rebuilt for the model even when the controller is then refused; on success the callback is stored and the engine initialised |
| SimulationEngine.Engine.RegisterForceImpulse | core/src/Engine.cc:881-897 | ERROR_GENERIC and nothing changed while locked; otherwise the impulse is stored under its start time, replacing one with the same start, every other key unchanged, and the cursor is `CursorAfterInsert`: the end stays the end, and an entry keeps being designated (the same entry unless its key was replaced) |
| SimulationEngine.Engine.RegisterForceProfile | core/src/Engine.cc:899-913 | ERROR_GENERIC and nothing changed while locked; otherwise the profile is appended |
| SimulationEngine.Engine.Stop | core/src/Engine.cc:794-809 | releases the lock and the telemetry configuration when locked, does nothing otherwise |
| SimulationEngine.Engine.Reset | core/src/Engine.cc:223-251 | optionally empties both registries and rewinds the cursor, then stops |
| SimulationEngine.Engine.Start | core/src/Engine.cc:253-426 | the code of `StartCode`; on a failed entry check nothing changes; on success locked, cursor 0, the solver of the options, t 0, iter 0, the first step, the remapped initial state and its snapshot |
| SimulationEngine.Engine.ControllerUpdate | core/src/Engine.cc:613-632 | the command is recomputed from a zero buffer; dxdt is re-evaluated except with explicit Euler |
| SimulationEngine.Engine.Attempt | core/src/Engine.cc:708-738 | an accepted attempt advances t by dt and iter by one and snapshots the state; a rejected one leaves t, x and the snapshot; the new x, dxdt and step are those of the selected integrator (the Euler update, or the trial of the Dormand-Prince integrator) |
| SimulationEngine.Engine.IntegrateToBreakpoint | core/src/Engine.cc:698-739 | time never passes the breakpoint, and ends within EPS of it unless fuel runs out; a breakpoint within EPS of the start leaves time, fuel and the iteration count unchanged |
| SimulationEngine.Engine.IntegrateOneStep | core/src/Engine.cc:744-773 | attempts until one is accepted (unless fuel runs out), so exactly one accepted attempt when fuel is left, advancing time by at most the initial step |
| SimulationEngine.Engine.OuterIteration | core/src/Engine.cc:594-775 | one outer iteration moves the cursor forward by at most one and never lowers iter |
| SimulationEngine.Engine.Step | core/src/Engine.cc:503-792 | ERROR_GENERIC without the lock, overridden by ERROR_INIT_FAILED; ERROR_BAD_INPUT for a size in (EPS, 1e-6), changing nothing; on success t is exactly the old t plus the resolved step size; the cursor never moves back |
| SimulationEngine.Engine.Advance | core/src/Engine.cc:594-781 | on success time lands exactly on the end time |
| SimulationEngine.Engine.Simulate | core/src/Engine.cc:428-501 | ERROR_BAD_INPUT for tEnd < 5e-3, winning over ERROR_INIT_FAILED; ends unlocked; on success the end time is within 1e-6, the callback declined, or iterMax steps were taken |
| SimulationEngine.Engine.RunSteps | core/src/Engine.cc:453-494 | the loop stops only when the end time is within 1e-6, the callback declines, iterMax is reached, or a step fails |
| SimulationEngine.StepAdvances | core/src/Engine.cc:531-560 | every step size `step` accepts advances time by at least EPS |
| SimulationEngine.StepsLeftDecrease | core/src/Engine.cc:453-494 | each successful step lowers the bound on the remaining steps, so the loop of `simulate` terminates |
| SimulationEngine.ImpulseLookAheadLags | core/src/Engine.cc:636-661 | disjoint impulses that all ended before t = 0 make the look-ahead return a breakpoint behind t, and the continuous step towards it (lines 744-747) is negative |
| Controller.FirstDuplicate | core/src/AbstractController.cc:137-150 | the first batch name already present among the existing names or the earlier batch names |
| Controller.BatchSucceedsIffFresh | core/src/AbstractController.cc:137-152 | a batch is registered in full exactly when its names are new and pairwise distinct, and the names then stay distinct |
| Controller.FirstFailure | core/src/AbstractController.cc:94-109 | the code of a registration sequence is SUCCESS exactly when every step succeeds, else one of the failures |
| Controller.AbstractController.constructor | core/src/AbstractController.cc:10-21 | no model, not initialised, not configured, empty registries |
| Controller.AbstractController.Initialize | core/src/AbstractController.cc:23-66 | ERROR_INIT_FAILED for an uninitialised model, nothing changed; a throwing callback gives ERROR_GENERIC and clears the flag; a wrong command or internal size gives ERROR_BAD_INPUT with the flag set; the command's own code is passed on |
| Controller.AbstractController.SetOptions | core/src/AbstractController.cc:207-211 | the telemetry switch is the one given |
| Controller.AbstractController.RemoveEntries | core/src/AbstractController.cc:185-189 | both registries are empty |
| Controller.AbstractController.Reset | core/src/AbstractController.cc:68-77 | the configuration flag is always cleared; entries are removed only when asked |
| Controller.AbstractController.RegisterVariable | core/src/AbstractController.cc:157-183 | ERROR_INIT_FAILED once configured; ERROR_BAD_INPUT for a name already present; otherwise appended |
| Controller.AbstractController.RegisterVariables | core/src/AbstractController.cc:125-155 | ERROR_INIT_FAILED once configured, registering nothing; otherwise the names before the first duplicate are appended in order, and the code is ERROR_BAD_INPUT exactly when a duplicate exists |
| Controller.AbstractController.ConfigureTelemetry | core/src/AbstractController.cc:79-123 | ERROR_INIT_FAILED when uninitialised or without a telemetry object; the first failing registration otherwise; configured exactly when it was already, or everything registered |
| Controller.AbstractController.UpdateTelemetry | core/src/AbstractController.cc:191-200 | when configured, one update per variable in registration order, with the value at its address; none otherwise |
| Controller.RegisterAll | core/src/AbstractController.cc:94-109 | a registration loop returns the incoming failure, or else the first failure of the sender's answers |
| Controller.FirstFailureAppend | core/src/AbstractController.cc:94-109 | the variables' loop followed by the constants' loop fails with the first failure of the two in order |
| Constraints.ZeroMatrix | core/src/robot/FunctorConstraint.cc:31 | `matrixN_t::Zero(rows, cols)`: rows rows of zeros |
| Constraints.ZeroMatrixShape | core/src/robot/FunctorConstraint.cc:31 | a zero matrix has exactly the shape it was asked for |
| Constraints.FunctorConstraint.constructor | core/src/robot/FunctorConstraint.cc:9-18 | stores both functors and the size; not attached, no model, empty buffers |
| Constraints.FunctorConstraint.SetConstraintSize | core/src/robot/FunctorConstraint.cc:25-34 | the size is always recorded; the buffers are zeroed to the new size only when attached |
| Constraints.FunctorConstraint.GetJacobian | core/src/robot/FunctorConstraint.cc:36-43 | while attached the functor rewrites the buffer from its previous contents; otherwise it is returned unchanged |
| Constraints.FunctorConstraint.GetDrift | core/src/robot/FunctorConstraint.cc:45-53 | as `GetJacobian`, for the drift |
| Constraints.FunctorConstraint.Attach | core/src/robot/FunctorConstraint.cc:55-70 | a second attach is ERROR_GENERIC and changes nothing; the first succeeds, records the model and zeroes the buffers |
| Constraints.FunctorConstraint.RefreshProxies | core/src/robot/FunctorConstraint.cc:72-77 | always SUCCESS; jacobian zero of size x nv, drift zero of size |
| Systems.ForceProfile.constructor | core/src/engine/System.cc:15-23 | stores its arguments unchanged |
| Systems.ForceImpulse.constructor | core/src/engine/System.cc:29-41 | stores its arguments unchanged |
| Systems.ForceCoupling.constructor | core/src/engine/System.cc:47-67 | stores its arguments unchanged |
| Systems.SystemHolder.constructor | core/src/engine/System.cc:73-83 | stores its arguments unchanged |
| Systems.SystemHolder.Default | core/src/engine/System.cc:85-95 | empty name, no robot, no controller, a callback that always answers false |
| Systems.InitialContents | core/src/engine/System.cc:123-132 | q neutral; v, a, u, uInternal zero of nv; uCommand, uMotor zero of the motor count; one zero force per joint; initialised |
| Systems.SystemState.constructor | core/src/engine/System.cc:101-113 | every buffer empty, not initialised |
| Systems.SystemState.Initialize | core/src/engine/System.cc:115-135 | ERROR_INIT_FAILED for an uninitialised robot, nothing changed; otherwise SUCCESS with the initial contents |
| Systems.SystemState.MoveFrom | core/src/engine/System.cc:195-196 | a state takes every field of the other |
| Systems.SystemDataHolder.constructor | core/src/engine/System.cc:146-162 | no lock, empty registers and names, two fresh uninitialised states |
| Systems.SystemDataHolder.Move | core/src/engine/System.cc:164-180 | every field is taken from the other holder, whose lock is released; the states are copied into fresh objects |
| Systems.SystemDataHolder.MoveAssign | core/src/engine/System.cc:182-198 | every field is taken from the other holder, whose lock is released |

## Left out

- The rigid-body kernel: forward kinematics, `aba`, `rnea`, `kineticEnergy`, the frame-to-joint wrench transform and the quaternion-log flexibility term. They are spatial algebra of a foreign library. `computeSystemDynamics` is a function parameter `f(t, x)`, fixed for a whole `step`.
- `Stepper.SystemDynamics`: the source's dynamics also read the command `uCommand`, the time and acceleration of the last accepted state, and the impulse cursor. A function of `(t, x)` fixed for the whole `step` does not capture this. So the command that `SimulationEngine.Engine.ControllerUpdate` writes does not reach the integration, and the delayed use of the last accepted state is not modelled.
- The Dormand-Prince controlled stepper is an oracle. Its tolerances are not modelled.
- `failed_step_checker` is left out. The source calls it after every rejected attempt in both retry loops of `step` (Engine.cc:737 and 771) and resets it on every accepted one. After 500 consecutive rejections (the Boost.Odeint default) it throws `step_adjustment_error`. Nothing in the engine catches that exception, so it leaves `step`. It also leaves `simulate` before `simulate` calls `stop()`, and the model lock stays held. The model bounds its loops with `fuel` instead and reports running out as ERROR_GENERIC. So the `!locked` that `SimulationEngine.Engine.Simulate` ensures on every path holds only in the model, not when the source's checker throws. Only the loop over accepted steps is unbounded in the source. A run of accepted zero-length steps resets the checker each time and never ends. This happens with overlapping impulse windows, where the look-ahead returns the current time and integration stops moving (`ImpulseRegistry.OverlapStallsLookAhead`, `Scheduling.BreakpointAtNowStalls`).
- `SimulationEngine.Engine.Simulate`: its `!locked` on every path does not cover the source's exit through the uncaught `step_adjustment_error`, which leaves the lock held.
- The Kahan compensation of time is left out: over the reals `t_err` stays 0.
- The NaN self-comparison at the entry of `step` only applies to floating point and is left out.
- The normalisation of the ground normal is left out: the ground sample's normal is taken as given.
- `tanh` is a parameter with the properties of `Common.TanhLike`.
- Telemetry and log I/O of the engine (`configureTelemetry`, `updateTelemetry`, the recorder, and the log writers and parsers) are left out. The controller's registration bookkeeping is modelled, with the telemetry sender's answers as parameters.
- Sensor updates (`setSensorsData`) are left out. So are the controller's and motors' own computations (`computeCommand`, `internalDynamics`, `computeMotorsTorques`), which are parameters, and `Model::getLock`, which is a result code parameter.
- The random generators reset by the constructor and by `reset` are left out.
- `start`'s lookup of each profile's frame index, its gravity and rotor-inertia propagation, and its evaluation of the initial dynamics are left out, except the torque assembly, which `GeneralizedForce.AssembleTorque` models.
- The force of a profile in `computeExternalForces` is left out. So is the contact force's conversion to the parent joint frame.
- The 32-bit unsigned counters and sizes of the source are modelled as unbounded naturals.
- `Systems.SystemDataHolder.Move` and `Systems.SystemDataHolder.MoveAssign` do not model the contents of the moved-from holder. The source moves every field, which empties the moved-from vectors and state buffers, at least on move construction. The model takes the values and releases only the moved-from lock. It leaves the other registers and the two states of the moved-from holder as they were.
- Impulses whose windows ended before the simulation started are not characterised further. The look-ahead lags behind them (`SimulationEngine.ImpulseLookAheadLags`), and the continuous branch then asks the integrator for a negative step. The Dormand-Prince oracle's answer to that step is not modelled.
- `SimulationEngine.Engine.Reset` does not model `model_->reset()` or `controller_->reset()`. The engine holds no robot or controller object, so the controller's telemetry flag is not cleared. On an engine that was never initialised the source also dereferences a null `model_` there. `Start` inherits these gaps through its call to `reset`.
- `ForceLaws.ContactForce` takes the tangential speed as a parameter instead of computing a square root. `ForceLaws.IsNorm` ties it to the tangential velocity.
- `SimulationEngine.Engine.Start`: when the engine is not initialised, the source reads the sizes of a null model before it reports ERROR_INIT_FAILED. The model compares against an empty layout instead.
- `ImpulseRegistry.NextImpulse`: after moving the cursor past the last entry the source reads the start time of the end of the map, which is undefined behaviour. The model reads nothing there.
- `SimulationEngine.Engine.Valid` keeps only the step-size part of the admissible options (`StepBounds`) as an invariant. The other checks are stated by `SetOptions`.
- The header files `AbstractController.h`, `AbstractMotor.h` and `AbstractConstraint.h` are not part of this model. The base `AbstractMotor::setOptions` is a result code parameter of `Motors.SimpleMotor.SetOptions`.
