/** The engine options, their defaults, and the checks `Engine::setOptions`
    runs before it commits a new option set. */
module EngineOptions {
  import opened Common

  datatype TelemetryOptions = TelemetryOptions(
    enableConfiguration: bool,
    enableVelocity: bool,
    enableAcceleration: bool,
    enableTorque: bool,
    enableEnergy: bool)

  datatype StepperOptions = StepperOptions(
    verbose: bool,
    randomSeed: nat,
    odeSolver: string,
    tolAbs: real,
    tolRel: real,
    dtMax: real,
    iterMax: int,
    sensorsUpdatePeriod: real,
    controllerUpdatePeriod: real,
    logInternalStepperSteps: bool)

  /** Height of the ground and its normal under a given position. */
  datatype GroundSample = GroundSample(height: real, normal: Vec3)

  datatype WorldOptions = WorldOptions(
    gravity: seq<real>,
    groundProfile: Vec3 -> GroundSample)

  datatype JointOptions = JointOptions(
    boundStiffness: real,
    boundDamping: real,
    boundTransitionEps: real)

  datatype ContactOptions = ContactOptions(
    frictionViscous: real,
    frictionDry: real,
    dryFrictionVelEps: real,
    stiffness: real,
    damping: real,
    transitionEps: real)

  datatype Options = Options(
    telemetry: TelemetryOptions,
    stepper: StepperOptions,
    world: WorldOptions,
    joints: JointOptions,
    contacts: ContactOptions)

  const RUNGE_KUTTA_DOPRI5: string := "runge_kutta_dopri5"
  const EXPLICIT_EULER: string := "explicit_euler"

  function DefaultTelemetryOptions(): TelemetryOptions
  {
    TelemetryOptions(true, true, true, true, true)
  }

  function DefaultStepperOptions(): StepperOptions
  {
    StepperOptions(false, 0, RUNGE_KUTTA_DOPRI5, 1e-5, 1e-4, 1e-3, 100000, 0.0, 0.0, false)
  }

  function DefaultWorldOptions(): WorldOptions
  {
    WorldOptions([0.0, 0.0, -9.81, 0.0, 0.0, 0.0], _ => GroundSample(0.0, Vec3(0.0, 0.0, 1.0)))
  }

  function DefaultJointOptions(): JointOptions
  {
    JointOptions(1e5, 1e4, 1e-2)
  }

  function DefaultContactOptions(): ContactOptions
  {
    ContactOptions(0.8, 1.0, 1e-2, 1e6, 2e3, 1e-3)
  }

  function DefaultOptions(): Options
  {
    Options(DefaultTelemetryOptions(), DefaultStepperOptions(), DefaultWorldOptions(),
            DefaultJointOptions(), DefaultContactOptions())
  }

  /** Truncation toward zero, as C++ converts a quotient to an integer. */
  function Trunc(x: real): int
  {
    if x >= 0.0 then x.Floor else -((-x).Floor)
  }

  /** `std::fmod`: the remainder of `a / b` whose quotient is truncated toward zero. */
  function Fmod(a: real, b: real): real
    requires b != 0.0
  {
    a - (Trunc(a / b) as real) * b
  }

  lemma FmodRange(a: real, b: real)
    requires a >= 0.0 && b > 0.0
    ensures 0.0 <= Fmod(a, b) < b
    ensures Fmod(a, b) == a - (a / b).Floor as real * b
  {
    var f := a / b;
    assert f * b == a;
    MulPositive(-f, b);
    assert (-f) * b == -(f * b);
    assert f >= 0.0;
    var n := f.Floor as real;
    assert Trunc(f) as real == n;
    assert Fmod(a, b) == a - n * b;
    var r := f - n;
    assert 0.0 <= r < 1.0;
    assert r * b == f * b - n * b;
    MulPositive(r, b);
    MulPositive(1.0 - r, b);
    assert (1.0 - r) * b == b - r * b;
    assert Fmod(a, b) == r * b;
    assert 0.0 <= r * b < b;
  }

  /** The sign of a product with a positive factor. */
  lemma MulPositive(x: real, b: real)
    requires b > 0.0
    ensures x >= 0.0 ==> x * b >= 0.0
    ensures x > 0.0 ==> x * b > 0.0
  {
  }

  lemma FmodOfMultiple(k: nat, b: real)
    requires b > 0.0
    ensures Fmod(k as real * b, b) == 0.0
  {
    assert (k as real * b) / b == k as real;
  }

  /** A period `p` is a whole multiple of period `q`, up to EPS, as the source
      tests it: the remainder is within EPS of 0 or of `q`. */
  predicate NearMultiple(p: real, q: real)
    requires q != 0.0
  {
    Min(Fmod(p, q), q - Fmod(p, q)) <= EPS
  }

  /** Both update periods are discrete and neither is a multiple of the other. */
  predicate PeriodsMismatch(sensors: real, controller: real)
  {
    && sensors > EPS && controller > EPS
    && !NearMultiple(controller, sensors)
    && !NearMultiple(sensors, controller)
  }

  /** A non-zero period shorter than the minimum simulation step. */
  predicate TooShortPeriod(p: real)
  {
    EPS < p < MIN_SIMULATION_TIMESTEP
  }

  /** The requirements on step sizes: `dtMax` within its bounds and neither
      update period too short. */
  predicate StepBounds(o: Options)
  {
    && MIN_SIMULATION_TIMESTEP <= o.stepper.dtMax <= MAX_SIMULATION_TIMESTEP
    && !TooShortPeriod(o.stepper.sensorsUpdatePeriod)
    && !TooShortPeriod(o.stepper.controllerUpdatePeriod)
  }

  /** Every requirement that `setOptions` checks, as one conjunction. */
  ghost predicate Admissible(o: Options)
  {
    && StepBounds(o)
    && (o.stepper.odeSolver == RUNGE_KUTTA_DOPRI5 || o.stepper.odeSolver == EXPLICIT_EULER)
    && !PeriodsMismatch(o.stepper.sensorsUpdatePeriod, o.stepper.controllerUpdatePeriod)
    && o.contacts.dryFrictionVelEps >= 0.0
    && o.contacts.transitionEps >= 0.0
    && o.joints.boundTransitionEps >= 0.0
    && |o.world.gravity| == 6
  }

  /** The checks `setOptions` runs before it computes the breakpoint period,
      in the source's order; the first failing one decides the code. */
  function CheckBeforePeriod(o: Options): (r: ResultCode)
    ensures r == Success || r == ErrorBadInput
  {
    var s := o.stepper;
    if MAX_SIMULATION_TIMESTEP < s.dtMax || s.dtMax < MIN_SIMULATION_TIMESTEP then ErrorBadInput
    else if s.odeSolver != RUNGE_KUTTA_DOPRI5 && s.odeSolver != EXPLICIT_EULER then ErrorBadInput
    else if TooShortPeriod(s.sensorsUpdatePeriod) || TooShortPeriod(s.controllerUpdatePeriod) then ErrorBadInput
    else if PeriodsMismatch(s.sensorsUpdatePeriod, s.controllerUpdatePeriod) then ErrorBadInput
    else if o.contacts.dryFrictionVelEps < 0.0 then ErrorBadInput
    else if o.contacts.transitionEps < 0.0 then ErrorBadInput
    else if o.joints.boundTransitionEps < 0.0 then ErrorBadInput
    else Success
  }

  /** The code `setOptions` returns when the engine is not running: the
      gravity size is checked last, after the breakpoint period. */
  function Validate(o: Options): (r: ResultCode)
    ensures r == Success <==> Admissible(o)
    ensures r != Success ==> r == ErrorBadInput
    ensures r == Success ==> CheckBeforePeriod(o) == Success
  {
    var pre := CheckBeforePeriod(o);
    if pre != Success then pre
    else if |o.world.gravity| != 6 then ErrorBadInput
    else Success
  }

  /** The default options pass every check, which the engine's constructor relies on. */
  lemma DefaultOptionsAdmissible()
    ensures Validate(DefaultOptions()) == Success
    ensures DefaultOptions().stepper.dtMax == 1e-3
    ensures DefaultOptions().stepper.iterMax == 100000
  {
  }

  /** `stepperUpdatePeriod_`: the period of the discrete breakpoints. */
  function BreakpointPeriod(sensors: real, controller: real): (r: real)
    ensures r == sensors || r == controller
    ensures sensors >= MIN_SIMULATION_TIMESTEP ==> r <= sensors
    ensures controller >= MIN_SIMULATION_TIMESTEP ==> r <= controller
    ensures sensors >= MIN_SIMULATION_TIMESTEP || controller >= MIN_SIMULATION_TIMESTEP ==>
              r >= MIN_SIMULATION_TIMESTEP
  {
    if sensors < MIN_SIMULATION_TIMESTEP then controller
    else if controller < MIN_SIMULATION_TIMESTEP then sensors
    else Min(sensors, controller)
  }

  /** Under admissible options with both periods discrete, the breakpoint
      period is the shorter one and the longer one is a multiple of it. */
  lemma BreakpointDividesPeriods(o: Options)
    requires Admissible(o)
    requires o.stepper.sensorsUpdatePeriod >= MIN_SIMULATION_TIMESTEP
    requires o.stepper.controllerUpdatePeriod >= MIN_SIMULATION_TIMESTEP
    ensures var s := o.stepper.sensorsUpdatePeriod;
            var c := o.stepper.controllerUpdatePeriod;
            var p := BreakpointPeriod(s, c);
            p == Min(s, c) && NearMultiple(Max(s, c), p)
  {
    var s := o.stepper.sensorsUpdatePeriod;
    var c := o.stepper.controllerUpdatePeriod;
    if s <= c {
      LongerIsNearMultiple(s, c);
    } else {
      LongerIsNearMultiple(c, s);
    }
  }

  /** If a shorter period `p` and a longer one `q` pass the mismatch test,
      then `q` is a multiple of `p` within EPS. */
  lemma LongerIsNearMultiple(p: real, q: real)
    requires MIN_SIMULATION_TIMESTEP <= p <= q
    requires NearMultiple(q, p) || NearMultiple(p, q)
    ensures NearMultiple(q, p)
  {
    if p == q {
      FmodOfMultiple(1, p);
    } else if !NearMultiple(q, p) {
      FmodBelow(p, q);
      assert q - p <= EPS;
      FmodBetween(q, p);
    }
  }

  /** A dividend smaller than the divisor is its own remainder. */
  lemma FmodBelow(a: real, b: real)
    requires 0.0 <= a < b
    ensures Fmod(a, b) == a
  {
    FmodRange(a, b);
    var f := a / b;
    assert f * b == a;
    MulPositive(-f, b);
    assert (-f) * b == -(f * b);
    MulPositive(f - 1.0, b);
    assert (f - 1.0) * b == f * b - b;
    assert 0.0 <= f < 1.0;
    assert f.Floor == 0;
  }

  /** A dividend between one and two divisors leaves the excess as remainder. */
  lemma FmodBetween(a: real, b: real)
    requires 0.0 < b <= a < 2.0 * b
    ensures Fmod(a, b) == a - b
  {
    FmodRange(a, b);
    var f := a / b;
    assert f * b == a;
    MulPositive(1.0 - f, b);
    assert (1.0 - f) * b == b - f * b;
    MulPositive(f - 2.0, b);
    assert (f - 2.0) * b == f * b - 2.0 * b;
    assert 1.0 <= f < 2.0;
    assert f.Floor == 1;
  }

  /** A period that is a whole multiple of the other never triggers the
      mismatch rejection. */
  lemma MultiplePeriodsAccepted(p: real, k: nat)
    requires p > EPS && k >= 1
    ensures !PeriodsMismatch(p, k as real * p)
    ensures !PeriodsMismatch(k as real * p, p)
  {
    FmodOfMultiple(k, p);
  }

  /** The step `step` integrates over when it is given `stepSize`: a size
      below EPS means the controller period if discrete, else the sensor
      period if discrete, else `dtMax`. */
  function ResolveStepSize(stepSize: real, o: Options): (r: real)
    ensures stepSize >= EPS ==> r == stepSize
    ensures StepBounds(o) && stepSize < EPS ==> MIN_SIMULATION_TIMESTEP <= r
    ensures StepBounds(o) && !TooShortPeriod(stepSize) ==> r >= EPS
  {
    if stepSize < EPS then
      if o.stepper.controllerUpdatePeriod > EPS then o.stepper.controllerUpdatePeriod
      else if o.stepper.sensorsUpdatePeriod > EPS then o.stepper.sensorsUpdatePeriod
      else o.stepper.dtMax
    else stepSize
  }
}
