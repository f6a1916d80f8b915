/**
 * Timestamps as the calculators see them: an absolute instant, counted in
 * minutes from the Unix epoch (1970-01-01T00:00 UTC), together with the
 * fixed UTC offset the start time was given in. Minutes are real because
 * the sub-60 km closing rule can shift by a fraction of a minute.
 */
module Timestamps {

  datatype Instant = Instant(minutes: real, offsetMinutes: int)

  /** Arrow's shift(minutes = m): move the instant, keep the offset. */
  function Shift(t: Instant, m: real): (r: Instant)
    ensures r.offsetMinutes == t.offsetMinutes
    ensures r.minutes - t.minutes == m
  {
    Instant(t.minutes + m, t.offsetMinutes)
  }

  /** Two shifts in a row are one shift by the sum. */
  lemma ShiftShift(t: Instant, a: real, b: real)
    ensures Shift(Shift(t, a), b) == Shift(t, a + b)
  {
  }

  /**
   * Days from 1970-01-01 to the given proleptic Gregorian date, for years
   * from 1 on. Used only to write concrete timestamps the way a test does.
   */
  function DaysFromCivil(year: nat, month: nat, day: nat): int
    requires year >= 1 && 1 <= month <= 12 && 1 <= day <= 31
  {
    var y := if month <= 2 then year - 1 else year;
    var era := y / 400;
    var yoe := y - era * 400;
    var mp := (month + 9) % 12;
    var doy := (153 * mp + 2) / 5 + day - 1;
    var doe := yoe * 365 + yoe / 4 - yoe / 100 + doy;
    era * 146097 + doe - 719468
  }

  /** The instant written YYYY-MM-DDTHH:mm in UTC (Arrow's default zone). */
  function At(year: nat, month: nat, day: nat, hour: nat, minute: nat): Instant
    requires year >= 1 && 1 <= month <= 12 && 1 <= day <= 31 && hour < 24 && minute < 60
  {
    Instant((DaysFromCivil(year, month, day) * 1440 + hour * 60 + minute) as real, 0)
  }
}
