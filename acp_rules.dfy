/**
 * Reference definitions for the two calculators and the lemmas tying
 * acp_times.py's statement chains to them.
 *
 * The reference for opening is the speed table walked by the accumulator,
 * with the elapsed minutes rounded once. The reference for closing is an
 * explicit first-match-wins rule list over the clamped distance; the 0 km
 * default of the Python has no rule of its own, because it never decides
 * a result.
 */
module AcpRules {
  import opened Rounding
  import opened Timestamps
  import opened SpeedTable
  import opened AcpTimes

  // ---------------------------------------------------------------- open

  /** The inline branch formulas of open_time are the opening speed table. */
  lemma OpenHoursFollowTable(d: real)
    requires 0.0 <= d <= MaxKm
    ensures OpenHours(d) == Some(AccumulatedHours(OpenBands, d))
  {
    OpenBandsUnrolled(d);
  }

  /** Whatever the hours, open_time shifts the start by them rounded to minutes. */
  lemma OpenTimeOfHours(controlKm: real, brevetKm: real, start: Instant, t: real)
    requires OpenHours(controlKm) == Some(t)
    ensures OpenTime(controlKm, brevetKm, start) == Ok(Shift(start, RoundHalfEven(60.0 * t) as real))
  {
  }

  /**
   * open_time is the start shifted by the table's elapsed time, rounded
   * to whole minutes, for 0..1300 km, and fails outside that range.
   */
  lemma OpenTimeFollowsTable(controlKm: real, brevetKm: real, start: Instant)
    ensures ValidBands(OpenBands)
    ensures OpenTime(controlKm, brevetKm, start)
      == if 0.0 <= controlKm <= MaxKm
         then Ok(Shift(start, RoundedMinutes(OpenBands, controlKm) as real))
         else Err(NoSpeedBand)
  {
    TablesWellFormed();
    if 0.0 <= controlKm <= MaxKm {
      OpenHoursFollowTable(controlKm);
      OpenTimeOfHours(controlKm, brevetKm, start, AccumulatedHours(OpenBands, controlKm));
    }
  }

  /** The brevet distance plays no part in an opening time (there is no clamp). */
  lemma OpenIgnoresBrevet(controlKm: real, b1: real, b2: real, start: Instant)
    ensures OpenTime(controlKm, b1, start) == OpenTime(controlKm, b2, start)
  {
  }

  /**
   * Between two distances the opening elapsed time grows by at least the
   * gap at 34 km/h and at most the gap at 26 km/h, so it is continuous,
   * also at the band edges 200, 400, 600 and 1000 km.
   */
  lemma OpenHoursBetween(d1: real, d2: real)
    requires 0.0 <= d1 <= d2 <= MaxKm
    ensures (d2 - d1) / 34.0 <= OpenHours(d2).value - OpenHours(d1).value <= (d2 - d1) / 26.0
  {
  }

  /** A control further along never opens earlier. */
  lemma OpenMonotone(d1: real, d2: real, brevetKm: real, start: Instant)
    requires 0.0 <= d1 <= d2 <= MaxKm
    ensures OpenTime(d1, brevetKm, start).value.minutes <= OpenTime(d2, brevetKm, start).value.minutes
  {
    OpenTimeFollowsTable(d1, brevetKm, start);
    OpenTimeFollowsTable(d2, brevetKm, start);
    RoundedMinutesMonotone(OpenBands, d1, d2);
  }

  // --------------------------------------------------------------- close

  /** The inline branch formulas of close_time are the closing speed table. */
  lemma CloseBandHoursFollowTable(d: real)
    requires 0.0 < d <= MaxKm
    ensures CloseBandHours(d) == Some(AccumulatedHours(CloseBands, d))
  {
    CloseBandsUnrolled(d);
  }

  /** The closing table takes between d/15 and d/11.428 hours to d. */
  lemma CloseTableBounds(d: real)
    requires 0.0 < d <= MaxKm
    ensures ValidBands(CloseBands)
    ensures d / 15.0 <= AccumulatedHours(CloseBands, d) <= d / 11.428
  {
    TablesWellFormed();
    CloseBandHoursFollowTable(d);
  }

  /** The rule that decides a closing time, in order of precedence. */
  datatype CloseRule =
    | FirstSixtyKm   // clamped distance under 60 km: 60 min + 3 min/km
    | Fixed200       // the 200 km brevet's finish: 13h30
    | Fixed400       // the 400 km brevet's finish: 15h00
    | Banded         // the minimum-speed table
    | BeyondTable    // no band covers the distance

  /** First match wins, over the distance clamped to the brevet distance. */
  function CloseRuleFor(controlKm: real, brevetKm: real): (rule: CloseRule)
    ensures rule == FirstSixtyKm <==> ClampedKm(controlKm, brevetKm) < 60.0
    ensures rule == Fixed200 ==> brevetKm == 200.0 && controlKm >= 200.0
    ensures rule == Fixed400 ==> brevetKm == 400.0 && controlKm >= 400.0
    ensures rule == BeyondTable <==> ClampedKm(controlKm, brevetKm) > MaxKm
  {
    var d := ClampedKm(controlKm, brevetKm);
    if d < 60.0 then FirstSixtyKm
    else if d == brevetKm && brevetKm == 200.0 then Fixed200
    else if d == brevetKm && brevetKm == 400.0 then Fixed400
    else if d <= MaxKm then Banded
    else BeyondTable
  }

  /** Elapsed minutes from the start to the closing of a control, by rule. */
  function CloseElapsedMinutes(controlKm: real, brevetKm: real): (r: Result<real>)
    ensures r.Err? <==> ClampedKm(controlKm, brevetKm) > MaxKm
  {
    var d := ClampedKm(controlKm, brevetKm);
    TablesWellFormed();
    match CloseRuleFor(controlKm, brevetKm)
    case FirstSixtyKm => Ok(60.0 + 3.0 * d)
    case Fixed200 => Ok(13.0 * 60.0 + 30.0)
    case Fixed400 => Ok(15.0 * 60.0)
    case Banded => Ok(RoundedMinutes(CloseBands, d) as real)
    case BeyondTable => Err(NoSpeedBand)
  }

  /** Whatever the band hours, the band path of close_time shifts the start by them rounded to minutes. */
  lemma CloseTimeOfHours(controlKm: real, brevetKm: real, start: Instant, t: real)
    requires CloseBandHours(ClampedKm(controlKm, brevetKm)) == Some(t)
    requires CloseRuleFor(controlKm, brevetKm) == Banded
    ensures CloseTime(controlKm, brevetKm, start) == Ok(Shift(start, RoundHalfEven(60.0 * t) as real))
  {
  }

  /**
   * close_time's chain of overwriting `if` statements and its early return
   * compute exactly the first-match-wins rule list.
   */
  lemma CloseTimeFollowsRules(controlKm: real, brevetKm: real, start: Instant)
    ensures CloseTime(controlKm, brevetKm, start)
      == match CloseElapsedMinutes(controlKm, brevetKm)
         case Ok(m) => Ok(Shift(start, m))
         case Err(e) => Err(e)
  {
    var d := ClampedKm(controlKm, brevetKm);
    if CloseRuleFor(controlKm, brevetKm) == Banded {
      TablesWellFormed();
      CloseBandHoursFollowTable(d);
      CloseTimeOfHours(controlKm, brevetKm, start, AccumulatedHours(CloseBands, d));
    }
  }

  /** Past the finish, the closing elapsed time is the finish's. */
  lemma CloseElapsedClamp(controlKm: real, brevetKm: real)
    requires controlKm >= brevetKm
    ensures CloseElapsedMinutes(controlKm, brevetKm) == CloseElapsedMinutes(brevetKm, brevetKm)
  {
  }

  /** Clamp law: every control at or past the finish closes when the finish does. */
  lemma CloseClampLaw(controlKm: real, brevetKm: real, start: Instant)
    requires controlKm >= brevetKm
    ensures CloseTime(controlKm, brevetKm, start) == CloseTime(brevetKm, brevetKm, start)
  {
    CloseTimeFollowsRules(controlKm, brevetKm, start);
    CloseTimeFollowsRules(brevetKm, brevetKm, start);
    CloseElapsedClamp(controlKm, brevetKm);
  }

  /** Under 60 km (after clamping) the close is 60 min plus 3 min per km, whatever else holds. */
  lemma CloseFirstSixtyKm(controlKm: real, brevetKm: real, start: Instant)
    requires ClampedKm(controlKm, brevetKm) < 60.0
    ensures CloseTime(controlKm, brevetKm, start)
      == Ok(Shift(start, 60.0 + 3.0 * ClampedKm(controlKm, brevetKm)))
  {
  }

  /** A control on the start line closes one hour after the start, for every brevet. */
  lemma CloseAtStart(brevetKm: real, start: Instant)
    requires brevetKm >= 0.0
    ensures CloseTime(0.0, brevetKm, start) == Ok(Shift(start, 60.0))
  {
    CloseFirstSixtyKm(0.0, brevetKm, start);
  }

  /** The 200 km brevet's finish, and anything past it, closes at 13h30. */
  lemma CloseFixed200(controlKm: real, start: Instant)
    requires controlKm >= 200.0
    ensures CloseTime(controlKm, 200.0, start) == Ok(Shift(start, 810.0))
  {
    CloseTimeFollowsRules(controlKm, 200.0, start);
  }

  /** The 400 km brevet's finish, and anything past it, closes at 15h00. */
  lemma CloseFixed400(controlKm: real, start: Instant)
    requires controlKm >= 400.0
    ensures CloseTime(controlKm, 400.0, start) == Ok(Shift(start, 900.0))
  {
    CloseTimeFollowsRules(controlKm, 400.0, start);
  }

  /**
   * Away from the first 60 km, the overrides and the table's end, the
   * close is the start plus the closing table's time rounded to minutes.
   */
  lemma CloseBanded(controlKm: real, brevetKm: real, start: Instant)
    requires 60.0 <= ClampedKm(controlKm, brevetKm) <= MaxKm
    requires !(brevetKm == 200.0 && controlKm >= 200.0)
    requires !(brevetKm == 400.0 && controlKm >= 400.0)
    ensures ValidBands(CloseBands)
    ensures CloseTime(controlKm, brevetKm, start)
      == Ok(Shift(start, RoundedMinutes(CloseBands, ClampedKm(controlKm, brevetKm)) as real))
  {
    TablesWellFormed();
    CloseTimeFollowsRules(controlKm, brevetKm, start);
  }

  /** Beyond the first 60 km a control closes at least four hours after the start. */
  lemma CloseElapsedAtLeast240(controlKm: real, brevetKm: real)
    requires 60.0 <= ClampedKm(controlKm, brevetKm) <= MaxKm
    ensures CloseElapsedMinutes(controlKm, brevetKm).value >= 240.0
  {
    var c := ClampedKm(controlKm, brevetKm);
    if CloseRuleFor(controlKm, brevetKm) == Banded {
      CloseTableBounds(c);
      RoundedMinutesAtLeast(CloseBands, c, 240);
    }
  }

  /** A control never closes sooner than an hour after the start. */
  lemma CloseAtLeastAnHour(controlKm: real, brevetKm: real, start: Instant)
    requires controlKm >= 0.0 && brevetKm >= 0.0
    requires ClampedKm(controlKm, brevetKm) <= MaxKm
    ensures CloseTime(controlKm, brevetKm, start).value.minutes >= start.minutes + 60.0
  {
    CloseTimeFollowsRules(controlKm, brevetKm, start);
    if ClampedKm(controlKm, brevetKm) >= 60.0 {
      CloseElapsedAtLeast240(controlKm, brevetKm);
    }
  }

  /** The closing table's elapsed time is at least the opening table's. */
  lemma CloseHoursCoverOpenHours(d: real)
    requires 0.0 < d <= MaxKm
    ensures OpenHours(d).value <= CloseBandHours(d).value
  {
  }

  /** Closing elapsed minutes never decrease with distance, except at the 400 km brevet. */
  lemma CloseElapsedMonotone(d1: real, d2: real, brevetKm: real)
    requires d1 <= d2
    requires brevetKm != 400.0
    requires ClampedKm(d2, brevetKm) <= MaxKm
    ensures CloseElapsedMinutes(d1, brevetKm).value <= CloseElapsedMinutes(d2, brevetKm).value
  {
    var c1, c2 := ClampedKm(d1, brevetKm), ClampedKm(d2, brevetKm);
    assert c1 <= c2;
    match CloseRuleFor(d1, brevetKm)
    case FirstSixtyKm =>
      if c2 >= 60.0 {
        CloseElapsedAtLeast240(d2, brevetKm);
      }
    case Banded =>
      CloseTableBounds(c1);
      if CloseRuleFor(d2, brevetKm) == Banded {
        RoundedMinutesMonotone(CloseBands, c1, c2);
      } else {
        RoundedMinutesAtMost(CloseBands, c1, 800);
      }
    case Fixed200 =>
    case Fixed400 =>
    case BeyondTable =>
  }

  /** Closing times never decrease as the control moves out, except at the 400 km brevet. */
  lemma CloseMonotone(d1: real, d2: real, brevetKm: real, start: Instant)
    requires d1 <= d2
    requires brevetKm != 400.0
    requires ClampedKm(d2, brevetKm) <= MaxKm
    ensures CloseTime(d1, brevetKm, start).value.minutes <= CloseTime(d2, brevetKm, start).value.minutes
  {
    CloseTimeFollowsRules(d1, brevetKm, start);
    CloseTimeFollowsRules(d2, brevetKm, start);
    CloseElapsedMonotone(d1, d2, brevetKm);
  }

  // ------------------------------------------------------- open vs close

  /** Up to the finish, opening elapsed minutes are at most closing elapsed minutes. */
  lemma OpenElapsedNotAfterClose(d: real, brevetKm: real)
    requires 0.0 <= d <= brevetKm
    requires d <= MaxKm
    ensures ValidBands(OpenBands)
    ensures RoundedMinutes(OpenBands, d) as real <= CloseElapsedMinutes(d, brevetKm).value
  {
    TablesWellFormed();
    OpenHoursFollowTable(d);
    match CloseRuleFor(d, brevetKm)
    case FirstSixtyKm =>
      assert 60.0 * AccumulatedHours(OpenBands, d) <= 60.0 + 3.0 * d - 0.5;
    case Fixed200 =>
      RoundedMinutesAtMost(OpenBands, d, 810);
    case Fixed400 =>
      RoundedMinutesAtMost(OpenBands, d, 900);
    case Banded =>
      CloseBandHoursFollowTable(d);
      CloseHoursCoverOpenHours(d);
      RoundHalfEvenMonotone(60.0 * AccumulatedHours(OpenBands, d), 60.0 * AccumulatedHours(CloseBands, d));
    case BeyondTable =>
  }

  /** A control inside the brevet never opens after it closes. */
  lemma OpenNotAfterClose(controlKm: real, brevetKm: real, start: Instant)
    requires 0.0 <= controlKm <= brevetKm
    requires controlKm <= MaxKm
    ensures OpenTime(controlKm, brevetKm, start).value.minutes
         <= CloseTime(controlKm, brevetKm, start).value.minutes
  {
    OpenTimeFollowsTable(controlKm, brevetKm, start);
    CloseTimeFollowsRules(controlKm, brevetKm, start);
    OpenElapsedNotAfterClose(controlKm, brevetKm);
  }

  /** For an official brevet distance, opening 20% past the finish is no later than the finish's close. */
  lemma OpenElapsedPastFinishBound(brevetKm: real)
    requires brevetKm == 200.0 || brevetKm == 300.0 || brevetKm == 400.0 || brevetKm == 600.0 || brevetKm == 1000.0
    ensures ValidBands(OpenBands)
    ensures RoundedMinutes(OpenBands, 1.2 * brevetKm) as real <= CloseElapsedMinutes(brevetKm, brevetKm).value
  {
    TablesWellFormed();
    var far := 1.2 * brevetKm;
    OpenHoursFollowTable(far);
    var bound :=
      if brevetKm == 200.0 then 810
      else if brevetKm == 300.0 then 1200
      else if brevetKm == 400.0 then 900
      else if brevetKm == 600.0 then 2400
      else 4500;
    RoundedMinutesAtMost(OpenBands, far, bound);
    if brevetKm != 200.0 && brevetKm != 400.0 {
      CloseBandHoursFollowTable(brevetKm);
      RoundedMinutesAtLeast(CloseBands, brevetKm, bound);
    }
  }

  /**
   * For the official brevet distances, a control up to 20% past the finish
   * still never opens after it closes, although it closes with the finish.
   */
  lemma OpenNotAfterClosePastFinish(controlKm: real, brevetKm: real, start: Instant)
    requires brevetKm == 200.0 || brevetKm == 300.0 || brevetKm == 400.0 || brevetKm == 600.0 || brevetKm == 1000.0
    requires brevetKm <= controlKm <= 1.2 * brevetKm
    ensures OpenTime(controlKm, brevetKm, start).value.minutes
         <= CloseTime(controlKm, brevetKm, start).value.minutes
  {
    OpenTimeFollowsTable(controlKm, brevetKm, start);
    CloseTimeFollowsRules(controlKm, brevetKm, start);
    RoundedMinutesMonotone(OpenBands, controlKm, 1.2 * brevetKm);
    OpenElapsedPastFinishBound(brevetKm);
    CloseElapsedClamp(controlKm, brevetKm);
  }

  /** Far enough past a short brevet's finish, a control opens after it closes. */
  lemma OpenAfterCloseFarPastFinish(start: Instant)
    ensures OpenTime(1300.0, 200.0, start).value.minutes
          > CloseTime(1300.0, 200.0, start).value.minutes
  {
    CloseFixed200(1300.0, start);
    OpenTimeOfHours(1300.0, 200.0, start, OpenHours(1300.0).value);
    RoundHalfEvenAtLeast(60.0 * OpenHours(1300.0).value, 2677);
  }

  /** At the 400 km brevet the finish closes before the control just ahead of it. */
  lemma CloseNotMonotoneAt400(start: Instant)
    ensures CloseTime(399.0, 400.0, start).value.minutes
          > CloseTime(400.0, 400.0, start).value.minutes
  {
    CloseFixed400(400.0, start);
    CloseTimeOfHours(399.0, 400.0, start, 399.0 / 15.0);
    RoundHalfEvenOfInt(1596);
    assert 60.0 * (399.0 / 15.0) == 1596.0;
  }
}
