/** The time arithmetic of `Engine::step` and `Engine::simulate`: when a
    discrete sensor or controller update is due, where the next breakpoint
    of the integrator lies, and how long each integrator sub-step may be. */
module Scheduling {
  import opened Common
  import opened EngineOptions

  /** Time left until the next multiple of `period` after `t`. */
  function UpdateGap(t: real, period: real): (r: real)
    requires period > 0.0
    ensures t >= 0.0 ==> 0.0 < r <= period
  {
    var gap := period - Fmod(t, period);
    if t >= 0.0 then (FmodRange(t, period); gap) else gap
  }

  /** A discrete update happens at `t` when `t` lies within
      MIN_SIMULATION_TIMESTEP of a multiple of `period`, on either side. */
  predicate UpdateDue(t: real, period: real)
    requires period > 0.0
  {
    var gap := UpdateGap(t, period);
    gap < MIN_SIMULATION_TIMESTEP || period - gap < MIN_SIMULATION_TIMESTEP
  }

  /** At every whole multiple of the period an update is due. */
  lemma UpdateDueAtMultiples(k: nat, period: real)
    requires period > 0.0
    ensures UpdateDue(k as real * period, period)
  {
    FmodOfMultiple(k, period);
  }

  /** The length of the next integration interval in the discrete case: up to
      the next update (skipping one that is too close), the next impulse,
      or exactly to `tEnd` when that is within EPS. */
  function BreakpointGap(t: real, tEnd: real, period: real, tImpulse: real): (r: real)
    requires period > 0.0
    ensures r <= tEnd - t
    ensures r == tEnd - t || r <= tEnd - t - EPS
    ensures r == tEnd - t || r <= tImpulse - t
    ensures UpdateGap(t, period) >= MIN_SIMULATION_TIMESTEP ==>
              r == tEnd - t || r <= UpdateGap(t, period)
    ensures UpdateGap(t, period) < MIN_SIMULATION_TIMESTEP ==>
              r == tEnd - t || r <= UpdateGap(t, period) + period
  {
    var gap := UpdateGap(t, period);
    var dt := if gap < MIN_SIMULATION_TIMESTEP then Min(gap + period, tImpulse - t)
              else Min(gap, tImpulse - t);
    if tEnd - t - EPS < dt then tEnd - t else dt
  }

  /** With no impulse before `tEnd`, the breakpoint never falls short of the
      next due update (or the end of the step). */
  lemma BreakpointReachesUpdate(t: real, tEnd: real, period: real)
    requires period > 0.0 && t >= 0.0
    ensures var r := BreakpointGap(t, tEnd, period, tEnd);
            r == tEnd - t ||
            (UpdateGap(t, period) >= MIN_SIMULATION_TIMESTEP && r == UpdateGap(t, period)) ||
            (UpdateGap(t, period) < MIN_SIMULATION_TIMESTEP && r == UpdateGap(t, period) + period)
  {
  }

  /** An impulse breakpoint at the current time `t` (look-ahead that is not
      ahead) leaves no room to integrate: the discrete breakpoint and the
      continuous step are both zero, so `t` does not move. */
  lemma BreakpointAtNowStalls(t: real, tEnd: real, period: real, dt: real, dtMax: real)
    requires period > 0.0 && t >= 0.0 && tEnd - t > EPS && dt > 0.0 && dtMax > 0.0
    ensures BreakpointGap(t, tEnd, period, t) == 0.0
    ensures ContinuousStep(dt, dtMax, t, tEnd, t) == 0.0
  {
  }

  /** The size of one integrator sub-step towards the breakpoint `tNext`:
      the current step, capped by the distance to `tNext` and by `dtMax`,
      and stretched to land exactly on `tNext` when it would leave less
      than MIN_STEPPER_TIMESTEP. */
  function SubStep(dt: real, t: real, tNext: real, dtMax: real): (r: real)
    requires dt > 0.0 && dtMax > 0.0 && tNext - t > EPS
    ensures 0.0 < r <= tNext - t
    ensures r == tNext - t || (r <= dt && r <= dtMax && tNext - (t + r) >= MIN_STEPPER_TIMESTEP)
  {
    var d := Min(Min(dt, tNext - t), dtMax);
    if tNext - (t + d) < MIN_STEPPER_TIMESTEP then tNext - t else d
  }

  /** The step size in the continuous case: never beyond `dtMax`, `tEnd` or
      the next impulse. */
  function ContinuousStep(dt: real, dtMax: real, t: real, tEnd: real, tImpulse: real): (r: real)
    ensures r <= dt && r <= dtMax && r <= tEnd - t && r <= tImpulse - t
    ensures r == dt || r == dtMax || r == tEnd - t || r == tImpulse - t
  {
    Min(Min(Min(dt, dtMax), tEnd - t), tImpulse - t)
  }

  /** With a positive step, a positive `dtMax`, and an impulse breakpoint
      strictly ahead, the continuous step is positive. */
  lemma ContinuousStepPositive(dt: real, dtMax: real, t: real, tEnd: real, tImpulse: real)
    requires dt > 0.0 && dtMax > 0.0 && tEnd > t && tImpulse > t
    ensures ContinuousStep(dt, dtMax, t, tEnd, tImpulse) > 0.0
  {
  }

  /** The step `simulate` asks of `step`: the breakpoint period when it is
      positive, otherwise `dtMax`, and never beyond `tEnd`. */
  function SimulateStepSize(period: real, dtMax: real, t: real, tEnd: real): (r: real)
    ensures r <= tEnd - t
    ensures period > 0.0 ==> r <= period && (r == period || r == tEnd - t)
    ensures period <= 0.0 ==> r <= dtMax && (r == dtMax || r == tEnd - t)
  {
    if period > 0.0 then Min(period, tEnd - t) else Min(dtMax, tEnd - t)
  }
}
