/** Shared vocabulary of the engine model: result codes, numeric constants,
    small vectors, the clamp used by the force laws, and the abstraction of
    the hyperbolic tangent that blends forces near a boundary. */
module Common {

  /** The engine's `result_t`: every fallible operation returns one of these. */
  datatype ResultCode = Success | ErrorGeneric | ErrorBadInput | ErrorInitFailed
  {
    /** The integer value of the enumerator in the source. */
    function Value(): int
    {
      match this
      case Success => 1
      case ErrorGeneric => -1
      case ErrorBadInput => -2
      case ErrorInitFailed => -3
    }
  }

  datatype Option<+T> = None | Some(value: T)

  /** Machine epsilon of a 64-bit float, 2^-52, written out exactly. */
  const EPS: real := 1.0 / 4503599627370496.0
  /** Smallest step the inner sub-step loop leaves as a remainder. */
  const MIN_STEPPER_TIMESTEP: real := 1e-12
  /** Smallest simulation step and discrete update period. */
  const MIN_SIMULATION_TIMESTEP: real := 1e-6
  /** Step size the stepper falls back to after a breakpoint shrank it. */
  const DEFAULT_SIMULATION_TIMESTEP: real := 1e-3
  /** Largest admissible `dtMax`. */
  const MAX_SIMULATION_TIMESTEP: real := 5e-3
  /** Ceiling of every joint-limit contribution. */
  const LIMIT_FORCE_CEILING: real := 1e5

  function Min(a: real, b: real): real { if a <= b then a else b }
  function Max(a: real, b: real): real { if a >= b then a else b }

  /** The engine utility `clamp(x, lo, hi)`: `min(hi, max(lo, x))`. */
  function Clamp(x: real, lo: real, hi: real): (r: real)
    ensures lo <= hi ==> lo <= r <= hi
    ensures lo <= x <= hi ==> r == x
    ensures r == x || r == lo || r == hi
  {
    Min(hi, Max(lo, x))
  }

  /** The properties of `std::tanh` the model relies on.  The function itself
      is a parameter of every law that uses it. */
  ghost predicate TanhLike(th: real -> real)
  {
    && th(0.0) == 0.0
    && (forall x: real {:trigger th(x)} :: x > 0.0 ==> 0.0 < th(x) < 1.0)
    && (forall x: real {:trigger th(-x)} :: th(-x) == -th(x))
  }

  lemma TanhSign(th: real -> real, x: real)
    requires TanhLike(th)
    ensures x > 0.0 ==> 0.0 < th(x) < 1.0
    ensures x < 0.0 ==> -1.0 < th(x) < 0.0
    ensures x == 0.0 ==> th(x) == 0.0
  {
    if x < 0.0 {
      assert th(-x) == -th(x);
      assert 0.0 < th(-x) < 1.0;
    }
  }

  /** A vector of three reals (a linear force, a velocity, a position). */
  datatype Vec3 = Vec3(x: real, y: real, z: real)
  {
    function Scale(k: real): Vec3 { Vec3(k * x, k * y, k * z) }
    function Add(o: Vec3): Vec3 { Vec3(x + o.x, y + o.y, z + o.z) }
    function Dot(o: Vec3): real { x * o.x + y * o.y + z * o.z }
  }

  const ZeroVec3: Vec3 := Vec3(0.0, 0.0, 0.0)

  /** A 6D spatial force (`pinocchio::Force`): linear and angular parts. */
  datatype SpatialForce = SpatialForce(linear: Vec3, angular: Vec3)

  const ZeroForce: SpatialForce := SpatialForce(ZeroVec3, ZeroVec3)

  /** `vectorN_t::Zero(n)`. */
  function Zeros(n: nat): (r: seq<real>)
    ensures |r| == n && forall i :: 0 <= i < n ==> r[i] == 0.0
  {
    seq(n, _ => 0.0)
  }

  /** `forceVector_t(n, Force::Zero())`. */
  function ZeroForces(n: nat): (r: seq<SpatialForce>)
    ensures |r| == n && forall i :: 0 <= i < n ==> r[i] == ZeroForce
  {
    seq(n, _ => ZeroForce)
  }

  predicate AllZero(s: seq<real>)
  {
    forall i :: 0 <= i < |s| ==> s[i] == 0.0
  }
}
