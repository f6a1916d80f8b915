/**
 * The ACP speed table as data: contiguous distance bands, each with the
 * speed that applies inside it, and the elapsed-time accumulator that walks
 * the bands up to a distance. acp_times.py writes both tables out inline as
 * branch formulas; this module is the table those formulas are checked
 * against.
 */
module SpeedTable {
  import opened Rounding

  /** Distances (lowerKm, upperKm] are ridden at speedKmh. */
  datatype Band = Band(lowerKm: real, upperKm: real, speedKmh: real)

  predicate ValidBand(b: Band)
  {
    b.lowerKm <= b.upperKm && b.speedKmh > 0.0
  }

  predicate ValidBands(bands: seq<Band>)
  {
    forall i :: 0 <= i < |bands| ==> ValidBand(bands[i])
  }

  /** The bands start at 0 km, follow each other without gap or overlap and end at endKm. */
  predicate Contiguous(bands: seq<Band>, endKm: real)
  {
    && |bands| > 0
    && bands[0].lowerKm == 0.0
    && bands[|bands| - 1].upperKm == endKm
    && forall i :: 0 <= i < |bands| - 1 ==> bands[i].upperKm == bands[i + 1].lowerKm
  }

  /** Maximum speeds, used for opening times (acp_times.py lines 29-47). */
  const OpenBands: seq<Band> := [
    Band(0.0, 200.0, 34.0),
    Band(200.0, 400.0, 32.0),
    Band(400.0, 600.0, 30.0),
    Band(600.0, 1000.0, 28.0),
    Band(1000.0, 1300.0, 26.0)
  ]

  /** Minimum speeds, used for closing times (acp_times.py lines 74-84). */
  const CloseBands: seq<Band> := [
    Band(0.0, 600.0, 15.0),
    Band(600.0, 1000.0, 11.428),
    Band(1000.0, 1300.0, 13.333)
  ]

  /** The table's ceiling: no band covers a distance beyond it. */
  const MaxKm: real := 1300.0

  lemma TablesWellFormed()
    ensures ValidBands(OpenBands) && Contiguous(OpenBands, MaxKm)
    ensures ValidBands(CloseBands) && Contiguous(CloseBands, MaxKm)
  {
  }

  /** How many kilometres of band b lie on the way from 0 to d. */
  function Covered(b: Band, d: real): (km: real)
    requires ValidBand(b)
    ensures 0.0 <= km <= b.upperKm - b.lowerKm
    ensures b.lowerKm <= d <= b.upperKm ==> km == d - b.lowerKm
    ensures d <= b.lowerKm ==> km == 0.0
    ensures d >= b.upperKm ==> km == b.upperKm - b.lowerKm
  {
    if d <= b.lowerKm then 0.0
    else if d >= b.upperKm then b.upperKm - b.lowerKm
    else d - b.lowerKm
  }

  /** Elapsed hours to ride distance d through the bands: sum of covered length over speed. */
  function AccumulatedHours(bands: seq<Band>, d: real): (h: real)
    requires ValidBands(bands)
    ensures h >= 0.0
    decreases |bands|
  {
    if bands == [] then 0.0
    else Covered(bands[0], d) / bands[0].speedKmh + AccumulatedHours(bands[1..], d)
  }

  /** Riding further never takes less time. */
  lemma {:induction false} AccumulatedMonotone(bands: seq<Band>, d1: real, d2: real)
    requires ValidBands(bands)
    requires d1 <= d2
    ensures AccumulatedHours(bands, d1) <= AccumulatedHours(bands, d2)
    decreases |bands|
  {
    if bands != [] {
      var b := bands[0];
      var c1, c2 := Covered(b, d1), Covered(b, d2);
      assert c1 <= c2;
      assert c1 / b.speedKmh <= c2 / b.speedKmh by {
        assert c2 / b.speedKmh - c1 / b.speedKmh == (c2 - c1) / b.speedKmh;
      }
      AccumulatedMonotone(bands[1..], d1, d2);
    }
  }

  /** Elapsed time through the bands, rounded half-to-even to whole minutes. */
  function RoundedMinutes(bands: seq<Band>, d: real): (m: int)
    requires ValidBands(bands)
    ensures m >= 0
  {
    RoundHalfEven(60.0 * AccumulatedHours(bands, d))
  }

  /** Rounded minutes never decrease with distance either. */
  lemma RoundedMinutesMonotone(bands: seq<Band>, d1: real, d2: real)
    requires ValidBands(bands)
    requires d1 <= d2
    ensures RoundedMinutes(bands, d1) <= RoundedMinutes(bands, d2)
  {
    AccumulatedMonotone(bands, d1, d2);
    RoundHalfEvenMonotone(60.0 * AccumulatedHours(bands, d1), 60.0 * AccumulatedHours(bands, d2));
  }

  /** An elapsed time of at most n minutes rounds to at most n. */
  lemma RoundedMinutesAtMost(bands: seq<Band>, d: real, n: int)
    requires ValidBands(bands)
    requires 60.0 * AccumulatedHours(bands, d) <= n as real
    ensures RoundedMinutes(bands, d) <= n
  {
    RoundHalfEvenAtMost(60.0 * AccumulatedHours(bands, d), n);
  }

  /** An elapsed time of at least n minutes rounds to at least n. */
  lemma RoundedMinutesAtLeast(bands: seq<Band>, d: real, n: int)
    requires ValidBands(bands)
    requires n as real <= 60.0 * AccumulatedHours(bands, d)
    ensures n <= RoundedMinutes(bands, d)
  {
    RoundHalfEvenAtLeast(60.0 * AccumulatedHours(bands, d), n);
  }

  /** AccumulatedHours over the opening table, unrolled band by band. */
  lemma OpenBandsUnrolled(d: real)
    ensures AccumulatedHours(OpenBands, d)
      == Covered(OpenBands[0], d) / 34.0 + Covered(OpenBands[1], d) / 32.0
       + Covered(OpenBands[2], d) / 30.0 + Covered(OpenBands[3], d) / 28.0
       + Covered(OpenBands[4], d) / 26.0
  {
  }

  /** AccumulatedHours over the closing table, unrolled band by band. */
  lemma CloseBandsUnrolled(d: real)
    ensures AccumulatedHours(CloseBands, d)
      == Covered(CloseBands[0], d) / 15.0 + Covered(CloseBands[1], d) / 11.428
       + Covered(CloseBands[2], d) / 13.333
  {
  }
}
