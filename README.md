# ACP brevet control times, modelled in Dafny

This project models the calculator at the heart of a brevet control-time
web service. The calculator gives the opening and closing time of each
control (checkpoint) on an ACP-sanctioned long-distance cycling event, in
the style of RUSA's published ACP control-time rules. It has two operations:

- `open_time(control_dist_km, brevet_dist_km, start)` sums the hours needed
  to ride to the control at the maximum speeds. The speeds are 34, 32, 30,
  28 and 26 km/h over the bands 0-200, 200-400, 400-600, 600-1000 and
  1000-1300 km. The result is the start shifted by the whole hours and the
  rounded minutes. The brevet distance is ignored.
- `close_time(...)` does the same with the minimum speeds. These are 15 km/h
  up to 600 km, 11.428 km/h up to 1000 km and 13.333 km/h up to 1300 km.
  On top of that come a chain of rules. A control at or past the finish is
  clamped to the brevet distance. The first 60 km close after 60 minutes
  plus 3 minutes per km. The finish of a 200 km brevet closes at 13h30, and
  the finish of a 400 km brevet at 15h00.

Files:

- `rounding.dfy` (module `Rounding`) holds Python's `int()` (truncation),
  Python's `round()` (half to even), and the lemma that splitting hours
  into whole hours and rounded minutes equals rounding the total minutes.
- `timestamps.dfy` (module `Timestamps`) holds an instant as a real count
  of minutes plus a fixed UTC offset. `Shift` is Arrow's `shift`. `At`
  writes the timestamps of the test cases.
- `speed_table.dfy` (module `SpeedTable`) holds the two speed tables as
  data and the accumulator that walks them.
- `acp_times.py` is modelled by `acp_times.dfy` (module `AcpTimes`). Both
  functions keep their statement order. Each reassigned local is one stage
  of an Option value. A local that no branch assigned is `Err(NoSpeedBand)`.
- `acp_rules.dfy` (module `AcpRules`) holds the reference definitions. Opening
  is the table, rounded once. Closing is a first-match-wins rule list. The
  module proves the source's chains equal to them, and proves the
  properties built on that.
- `acp_scenarios.dfy` (module `AcpScenarios`) holds the cases of the test file.

Where the code departs from the published ACP rules or from what one might
expect, the model follows the code:

- The 400 km finish closes at 15h00, though the published ACP table gives
  27h00. As a result a 400 km brevet's finish closes before the control
  1 km ahead of it (`AcpRules.CloseNotMonotoneAt400`).
  `AcpRules.CloseMonotone` proves closing times non-decreasing for every
  other brevet distance.
- A control does not always open before it closes. It holds up to the
  finish (`AcpRules.OpenNotAfterClose`). It also holds up to 20% past the finish
  for the official distances (`AcpRules.OpenNotAfterClosePastFinish`).
  Far past a short brevet it fails: at 1300 km on a 200 km brevet the
  control opens at +44h37 and closes at +13h30
  (`AcpRules.OpenAfterCloseFarPastFinish`).
- On negative distances `open_time` fails (no band applies). `close_time`
  does not: the clamped distance falls into the sub-60 km formula. `AcpTimes.CloseTime` is defined for every
  distance, as the code is.
- The 0 km default in `close_time` (lines 66-68) never decides a result,
  because the sub-60 km rule always returns first. The rule list in
  `AcpRules.CloseElapsedMinutes` has no such rule, and
  `AcpRules.CloseTimeFollowsRules` proves the two agree.
- The sub-60 km rule shifts by a fraction of a minute when the distance is
  not a multiple of 1/3 km. Arrow keeps the seconds, so the model keeps
  real minutes. Only the rendering to `YYYY-MM-DDTHH:mm` drops them.

## Model

| member | source | states |
|---|---|---|
| `Rounding.Trunc` | brevets/acp_times.py:48 | `int()` truncates toward zero: the result is within one of x, on x's side of zero |
| `Rounding.RoundHalfEven` | brevets/acp_times.py:31 | `round()` gives an integer within 1/2 of x, and the even one on a tie |
| `Rounding.RoundHalfEvenUnique` | brevets/acp_times.py:31 | the nearest-with-even-ties property determines the rounded value |
| `Rounding.RoundHalfEvenMonotone` | brevets/acp_times.py:31 | rounding preserves order |
| `Rounding.RoundHalfEvenShiftEven` | brevets/acp_times.py:31 | adding an even integer commutes with rounding |
| `Rounding.SplitIsRounding` | brevets/acp_times.py:31-49 | whole hours `int(T)` plus `round(frac*60)` minutes equal `round(60*T)` minutes |
| `Timestamps.Shift` | brevets/acp_times.py:48-49 | shifting moves the instant by exactly the given minutes and keeps the UTC offset |
| `Timestamps.ShiftShift` | brevets/acp_times.py:48-49 | shifting by hours and then by minutes is one shift by their sum |
| `SpeedTable.TablesWellFormed` | brevets/acp_times.py:29-84 | both speed tables have positive speeds and are contiguous from 0 to 1300 km |
| `SpeedTable.Covered` | brevets/acp_times.py:33-46 | the part of a band ridden to reach d: none before it, all of it past it, d minus its start inside it |
| `SpeedTable.AccumulatedHours` | brevets/acp_times.py:29-47 | elapsed hours over a table are never negative |
| `SpeedTable.AccumulatedMonotone` | brevets/acp_times.py:29-47 | riding further through a table never takes less time |
| `SpeedTable.RoundedMinutes` | brevets/acp_times.py:29-49 | a table's elapsed time rounded to whole minutes is never negative |
| `SpeedTable.RoundedMinutesMonotone` | brevets/acp_times.py:29-49 | rounded elapsed minutes never decrease with distance |
| `SpeedTable.RoundedMinutesAtMost` | brevets/acp_times.py:29-49 | an elapsed time of at most n minutes rounds to at most n |
| `SpeedTable.RoundedMinutesAtLeast` | brevets/acp_times.py:29-49 | an elapsed time of at least n minutes rounds to at least n |
| `AcpTimes.SplitHours` | brevets/acp_times.py:31 | the minutes part lies in 0..60 and, with the whole hours, equals `round(60*T)` |
| `AcpTimes.ShiftBy` | brevets/acp_times.py:48-49 | the result lies `60*int(T) + minutes` after the start, in the start's offset |
| `AcpTimes.OpenHours` | brevets/acp_times.py:29-47 | `total_time` is bound exactly for 0 <= d <= 1300, and lies between d/34 and d/26 |
| `AcpTimes.OpenTime` | brevets/acp_times.py:17-50 | succeeds exactly for 0 <= d <= 1300, keeps the offset, and never precedes the start |
| `AcpTimes.ClampedKm` | brevets/acp_times.py:71-72 | the clamped distance is the smaller of control and brevet distance |
| `AcpTimes.CloseBandHours` | brevets/acp_times.py:74-84 | a band fires exactly for 0 < d <= 1300, giving between d/15 and d/11.428 hours |
| `AcpTimes.CloseTime` | brevets/acp_times.py:53-105 | keeps the offset, and fails exactly when the clamped distance exceeds 1300 km |
| `AcpRules.OpenHoursFollowTable` | brevets/acp_times.py:29-47 | the inline opening formulas equal the opening speed table's accumulated hours |
| `AcpRules.OpenTimeOfHours` | brevets/acp_times.py:31-49 | whatever hours T the bands give, open is start + `round(60*T)` minutes |
| `AcpRules.OpenTimeFollowsTable` | brevets/acp_times.py:29-50 | open is start + `round(60*T)` minutes with T from the opening table on 0..1300 km, and an error elsewhere |
| `AcpRules.OpenIgnoresBrevet` | brevets/acp_times.py:17-50 | the brevet distance does not affect the opening time |
| `AcpRules.OpenHoursBetween` | brevets/acp_times.py:29-47 | opening hours grow by between gap/34 and gap/26, so they are continuous at 200, 400, 600, 1000 km |
| `AcpRules.OpenMonotone` | brevets/acp_times.py:29-49 | a control further along never opens earlier |
| `AcpRules.CloseBandHoursFollowTable` | brevets/acp_times.py:74-84 | the inline closing formulas equal the closing speed table's accumulated hours |
| `AcpRules.CloseTableBounds` | brevets/acp_times.py:74-84 | the closing table takes between d/15 and d/11.428 hours to reach d |
| `AcpRules.CloseRuleFor` | brevets/acp_times.py:66-100 | the sub-60 rule applies exactly below 60 km clamped, the 200/400 overrides only at or past those finishes, and no band exactly beyond 1300 km |
| `AcpRules.CloseElapsedMinutes` | brevets/acp_times.py:66-104 | the rule list fails exactly when the clamped distance exceeds 1300 km |
| `AcpRules.CloseTimeOfHours` | brevets/acp_times.py:74-104 | when the band rule decides, close is start + `round(60*T)` minutes for the band hours T |
| `AcpRules.CloseTimeFollowsRules` | brevets/acp_times.py:66-105 | the overwriting statement chain with its early return equals the first-match-wins rule list |
| `AcpRules.CloseElapsedClamp` | brevets/acp_times.py:71-72 | past the finish the closing elapsed time is the finish's |
| `AcpRules.CloseClampLaw` | brevets/acp_times.py:71-72 | a control at or past the finish closes exactly when the finish does |
| `AcpRules.CloseFirstSixtyKm` | brevets/acp_times.py:93-95 | below 60 km clamped, close is start + 60 + 3*d minutes, overriding every other rule |
| `AcpRules.CloseAtStart` | brevets/acp_times.py:66-95 | a control at 0 km closes one hour after the start for every non-negative brevet distance |
| `AcpRules.CloseFixed200` | brevets/acp_times.py:88-90 | on a 200 km brevet every control at or past 200 km closes at start + 13h30 |
| `AcpRules.CloseFixed400` | brevets/acp_times.py:98-100 | on a 400 km brevet every control at or past 400 km closes at start + 15h00 |
| `AcpRules.CloseBanded` | brevets/acp_times.py:74-104 | otherwise close is start + `round(60*T)` minutes with T from the closing table |
| `AcpRules.CloseElapsedAtLeast240` | brevets/acp_times.py:74-100 | beyond the first 60 km a control closes at least four hours after the start |
| `AcpRules.CloseAtLeastAnHour` | brevets/acp_times.py:66-104 | for non-negative distances a control closes no sooner than one hour after the start |
| `AcpRules.CloseHoursCoverOpenHours` | brevets/acp_times.py:29-84 | the closing table's hours are at least the opening table's at every distance |
| `AcpRules.CloseElapsedMonotone` | brevets/acp_times.py:71-100 | except on a 400 km brevet, closing elapsed minutes never decrease with distance |
| `AcpRules.CloseMonotone` | brevets/acp_times.py:71-104 | except on a 400 km brevet, a control further along never closes earlier |
| `AcpRules.OpenElapsedNotAfterClose` | brevets/acp_times.py:29-100 | up to the finish, opening elapsed minutes are at most closing elapsed minutes |
| `AcpRules.OpenNotAfterClose` | brevets/acp_times.py:17-105 | a control up to the finish never opens after it closes |
| `AcpRules.OpenElapsedPastFinishBound` | brevets/acp_times.py:29-100 | for 200/300/400/600/1000 km brevets, opening at 120% of the distance is no later than the finish's close |
| `AcpRules.OpenNotAfterClosePastFinish` | brevets/acp_times.py:17-105 | for 200/300/400/600/1000 km brevets, a control up to 20% past the finish never opens after it closes |
| `AcpRules.OpenAfterCloseFarPastFinish` | brevets/acp_times.py:71-90 | a control at 1300 km on a 200 km brevet opens after it closes |
| `AcpRules.CloseNotMonotoneAt400` | brevets/acp_times.py:97-100 | a 400 km finish closes before the control at 399 km |
| `AcpScenarios.ScenarioStartLine` | brevets/tests/test_acp_times.py:15-18 | 0 km opens at 00:00 and closes at 01:00 |
| `AcpScenarios.ScenarioFinish200` | brevets/tests/test_acp_times.py:20-23 | 200 km on a 200 km brevet opens at 05:53 and closes at 13:30 |
| `AcpScenarios.ScenarioPastFinish600` | brevets/tests/test_acp_times.py:30-33 | 620 km on a 600 km brevet opens at 19:31 and closes at 16:00 the next day |
| `AcpScenarios.ScenarioGeneral` | brevets/tests/test_acp_times.py:35-42 | 60, 120 and 175 km open at 01:46, 03:32 and 05:09, and close at 04:00, 08:00 and 11:40 |
| `AcpScenarios.ScenarioNewYear` | brevets/tests/test_acp_times.py:25-28 | 100 km from 2021-12-31T21:00 opens at 23:56 and closes at 03:40 on 2022-01-01 |

## Left out

- Arrow's calendar and its `YYYY-MM-DDTHH:mm` formatting are not modelled. An instant is a real minute count plus a UTC offset. `Timestamps.At` converts a calendar date to a day count, for the test timestamps only.
- Binary floating point is not modelled: the model computes with exact reals. CPython floats could round the other way at an exact .5 minute, and near such points they can differ from the exact result.
- Only the failure is modelled when `total_time` is unbound, not Python's exception type. It is `Err(NoSpeedBand)`, and the caller's handling of it is not part of this model.
- brevets/flask_brevets.py is not part of this model. It holds the Flask routes, request parsing, the calls to the REST API, environment variables and logging, and it only calls the two functions and formats their results.
- api/resources/brevets.py and brevets/tests/test_mongo_func.py are not part of this model. They cover MongoDB persistence through a `Brevet` model class and a `mongo_file` module, neither of which is modelled.
- The brevet distance is not checked against the official set (200, 300, 400, 600, 1000 km). The code does not check it either, so the model accepts any real.
