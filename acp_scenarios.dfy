/**
 * The concrete cases of brevets/tests/test_acp_times.py, each stated on
 * timestamps written as the test writes them (UTC, YYYY-MM-DDTHH:mm).
 */
module AcpScenarios {
  import opened Rounding
  import opened Timestamps
  import opened AcpTimes
  import opened AcpRules

  /** A control on the start line opens at the start and closes an hour later. */
  lemma ScenarioStartLine()
    ensures OpenTime(0.0, 200.0, At(2021, 1, 1, 0, 0)) == Ok(At(2021, 1, 1, 0, 0))
    ensures CloseTime(0.0, 200.0, At(2021, 1, 1, 0, 0)) == Ok(At(2021, 1, 1, 1, 0))
  {
    RoundHalfEvenOfInt(0);
  }

  /** The finish of a 200 km brevet: opens 05:53, closes 13:30. */
  lemma ScenarioFinish200()
    ensures OpenTime(200.0, 200.0, At(2021, 1, 1, 0, 0)) == Ok(At(2021, 1, 1, 5, 53))
    ensures CloseTime(200.0, 200.0, At(2021, 1, 1, 0, 0)) == Ok(At(2021, 1, 1, 13, 30))
  {
    RoundHalfEvenUnique(60.0 * (200.0 / 34.0), 353);
  }

  /** A control 20 km past a 600 km finish: opens 19:31 at its own distance, closes 40h after start. */
  lemma ScenarioPastFinish600()
    ensures OpenTime(620.0, 600.0, At(2021, 1, 1, 0, 0)) == Ok(At(2021, 1, 1, 19, 31))
    ensures CloseTime(620.0, 600.0, At(2021, 1, 1, 0, 0)) == Ok(At(2021, 1, 2, 16, 0))
  {
    RoundHalfEvenUnique(60.0 * (200.0 / 34.0 + 200.0 / 32.0 + 200.0 / 30.0 + 20.0 / 28.0), 1171);
    RoundHalfEvenOfInt(2400);
    assert 60.0 * (600.0 / 15.0) == 2400.0;
  }

  /** Controls at 60, 120 and 175 km of a 200 km brevet. */
  lemma ScenarioGeneral()
    ensures OpenTime(60.0, 200.0, At(2021, 1, 1, 0, 0)) == Ok(At(2021, 1, 1, 1, 46))
    ensures CloseTime(60.0, 200.0, At(2021, 1, 1, 0, 0)) == Ok(At(2021, 1, 1, 4, 0))
    ensures OpenTime(120.0, 200.0, At(2021, 1, 1, 0, 0)) == Ok(At(2021, 1, 1, 3, 32))
    ensures CloseTime(120.0, 200.0, At(2021, 1, 1, 0, 0)) == Ok(At(2021, 1, 1, 8, 0))
    ensures OpenTime(175.0, 200.0, At(2021, 1, 1, 0, 0)) == Ok(At(2021, 1, 1, 5, 9))
    ensures CloseTime(175.0, 200.0, At(2021, 1, 1, 0, 0)) == Ok(At(2021, 1, 1, 11, 40))
  {
    RoundHalfEvenUnique(60.0 * (60.0 / 34.0), 106);
    RoundHalfEvenUnique(60.0 * (120.0 / 34.0), 212);
    RoundHalfEvenUnique(60.0 * (175.0 / 34.0), 309);
    RoundHalfEvenOfInt(240);
    RoundHalfEvenOfInt(480);
    RoundHalfEvenOfInt(700);
    assert 60.0 * (60.0 / 15.0) == 240.0;
    assert 60.0 * (120.0 / 15.0) == 480.0;
    assert 60.0 * (175.0 / 15.0) == 700.0;
  }

  /** Across midnight and the year end: 100 km from 2021-12-31T21:00. */
  lemma ScenarioNewYear()
    ensures OpenTime(100.0, 200.0, At(2021, 12, 31, 21, 0)) == Ok(At(2021, 12, 31, 23, 56))
    ensures CloseTime(100.0, 200.0, At(2021, 12, 31, 21, 0)) == Ok(At(2022, 1, 1, 3, 40))
  {
    RoundHalfEvenUnique(60.0 * (100.0 / 34.0), 176);
    RoundHalfEvenOfInt(400);
    assert 60.0 * (100.0 / 15.0) == 400.0;
  }
}
