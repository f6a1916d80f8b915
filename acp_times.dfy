/**
 * brevets/acp_times.py: opening and closing times of a brevet control.
 *
 * Both Python functions are chains of independent `if` statements that
 * assign the locals `total_time` and `open_time_min` / `close_time_min`;
 * a local no branch assigned is unbound, and reading it raises. Here each
 * stage of the chain is a `var` of type Option<...>, the later stage
 * overwriting the earlier one exactly where the Python assigns again, and
 * an unbound local at the final shift becomes Err(NoSpeedBand).
 */
module AcpTimes {
  import opened Rounding
  import opened Timestamps

  datatype Option<T> = None | Some(value: T)

  /** The Python raises UnboundLocalError: no branch assigned total_time. */
  datatype CalcError = NoSpeedBand

  datatype Result<T> = Ok(value: T) | Err(error: CalcError)

  /** The pair (total_time, *_time_min) once both locals are bound. */
  datatype Elapsed = Elapsed(hours: real, minutes: int)

  /**
   * total_time together with round((total_time - int(total_time)) * 60),
   * the step repeated in every band branch.
   */
  function SplitHours(t: real): (e: Elapsed)
    ensures e.hours == t
    ensures 0 <= e.minutes <= 60 || t < 0.0
    ensures 60 * Trunc(t) + e.minutes == RoundHalfEven(60.0 * t)
  {
    SplitIsRounding(t);
    Elapsed(t, RoundHalfEven((t - Trunc(t) as real) * 60.0))
  }

  /**
   * shift(hours=+int(total_time)) followed by shift(minutes=+minutes),
   * the last two statements of both functions.
   */
  function ShiftBy(start: Instant, e: Elapsed): (r: Instant)
    ensures r.offsetMinutes == start.offsetMinutes
    ensures r.minutes == start.minutes + (60 * Trunc(e.hours) + e.minutes) as real
  {
    Shift(Shift(start, (60 * Trunc(e.hours)) as real), e.minutes as real)
  }

  // ---------------------------------------------------------------- open

  /**
   * The value open_time leaves in total_time: the maximum-speed band
   * formulas, or None (unbound) outside 0..1300 km.
   */
  function OpenHours(d: real): (t: Option<real>)
    ensures t.Some? <==> 0.0 <= d <= 1300.0
    ensures t.Some? ==> d / 34.0 <= t.value <= d / 26.0
  {
    if 0.0 <= d <= 200.0 then
      Some(d / 34.0)
    else if 200.0 < d <= 400.0 then
      Some(200.0 / 34.0 + (d - 200.0) / 32.0)
    else if 400.0 < d <= 600.0 then
      Some(200.0 / 34.0 + 200.0 / 32.0 + (d - 400.0) / 30.0)
    else if 600.0 < d <= 1000.0 then
      Some(200.0 / 34.0 + 200.0 / 32.0 + 200.0 / 30.0 + (d - 600.0) / 28.0)
    else if 1000.0 < d <= 1300.0 then
      Some(200.0 / 34.0 + 200.0 / 32.0 + 200.0 / 30.0 + 400.0 / 28.0 + (d - 1000.0) / 26.0)
    else
      None
  }

  /**
   * open_time(control_dist_km, brevet_dist_km, brevet_start_time).
   * brevetKm is accepted and ignored, as in the Python.
   */
  function OpenTime(controlKm: real, brevetKm: real, start: Instant): (r: Result<Instant>)
    ensures r.Ok? <==> 0.0 <= controlKm <= 1300.0
    ensures r.Ok? ==> r.value.offsetMinutes == start.offsetMinutes
    ensures r.Ok? ==> r.value.minutes >= start.minutes
  {
    match OpenHours(controlKm)
    case None => Err(NoSpeedBand)
    case Some(t) => Ok(ShiftBy(start, SplitHours(t)))
  }

  // --------------------------------------------------------------- close

  /** Lines 71-72: a control at or past the brevet distance counts as at the brevet distance. */
  function ClampedKm(controlKm: real, brevetKm: real): (d: real)
    ensures d <= controlKm && d <= brevetKm
    ensures d == controlKm || d == brevetKm
  {
    if controlKm >= brevetKm then brevetKm else controlKm
  }

  /**
   * Lines 74-84: the minimum-speed band formulas, or None when no band
   * branch fires (distance 0 or below, or beyond 1300 km).
   */
  function CloseBandHours(d: real): (t: Option<real>)
    ensures t.Some? <==> 0.0 < d <= 1300.0
    ensures t.Some? ==> d / 15.0 <= t.value <= d / 11.428
  {
    if 0.0 < d <= 600.0 then
      Some(d / 15.0)
    else if 600.0 < d <= 1000.0 then
      Some(600.0 / 15.0 + (d - 600.0) / 11.428)
    else if 1000.0 < d <= 1300.0 then
      Some(600.0 / 15.0 + 400.0 / 11.428 + (d - 1000.0) / 13.333)
    else
      None
  }

  /**
   * close_time(control_dist_km, brevet_dist_km, brevet_start_time), its
   * statements in their source order.
   */
  function CloseTime(controlKm: real, brevetKm: real, start: Instant): (r: Result<Instant>)
    ensures r.Ok? ==> r.value.offsetMinutes == start.offsetMinutes
    ensures r.Err? <==> ClampedKm(controlKm, brevetKm) > 1300.0
  {
    // lines 66-68: the 0 km default of 1h00
    var atStart := if controlKm == 0.0 then Some(Elapsed(1.0, 0)) else None;
    // lines 71-72: the parameter is reassigned
    var d := ClampedKm(controlKm, brevetKm);
    // lines 74-84: the band formulas overwrite when one applies
    var banded := match CloseBandHours(d)
      case Some(t) => Some(SplitHours(t))
      case None => atStart;
    // lines 88-90: control_dist_km == brevet_dist_km == 200
    var fixed200 := if d == brevetKm && brevetKm == 200.0 then Some(Elapsed(13.0, 30)) else banded;
    // lines 93-95: the early return for the first 60 km
    if d < 60.0 then
      Ok(Shift(start, (d / 20.0 + 1.0) * 60.0))
    else
      // lines 98-100: control_dist_km == brevet_dist_km == 400
      var fixed400 := if d == brevetKm && brevetKm == 400.0 then Some(Elapsed(15.0, 0)) else fixed200;
      // lines 103-104
      match fixed400
      case None => Err(NoSpeedBand)
      case Some(e) => Ok(ShiftBy(start, e))
  }
}
