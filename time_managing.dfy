/** Julian-date arithmetic on UNIX timestamps (sat_tracker/time_managing.py).
    Timestamps and dates are exact reals here; the source computes them in
    IEEE doubles. */
module TimeManaging {

  /** Seconds in a day. */
  const SecondsPerDay: real := 86400.0

  /** The Julian date of the UNIX epoch, 1970-01-01 00:00 UTC. */
  const UnixEpochJulian: real := 2440587.5

  /** The Julian date of J2000.0, 2000-01-01 12:00 UTC. */
  const J2000Julian: real := 2451545.0

  /** `julian_date(epoch)`. */
  function JulianDate(epoch: real): real {
    epoch / SecondsPerDay + UnixEpochJulian
  }

  /** `julian_date_J2000(epoch)`, which recomputes the Julian date inline
      and subtracts 2451545. */
  function JulianDateJ2000(epoch: real): (d: real)
    ensures d == JulianDate(epoch) - J2000Julian
  {
    var jd := epoch / 86400.0 + 2440587.5;
    jd - 2451545.0
  }

  /** `np.fix`: rounding toward zero. */
  function Fix(x: real): (n: int)
    ensures x >= 0.0 ==> n as real <= x < n as real + 1.0
    ensures x < 0.0 ==> n as real - 1.0 < x <= n as real
  {
    if x >= 0.0 then x.Floor else -((-x).Floor)
  }

  /** `day_fraction(unix)`. */
  function DayFraction(unix: real): real {
    var julian := JulianDate(unix);
    julian - Fix(julian - 0.5) as real - 0.5
  }

  /** `julian_fractions(unix)`: the Julian date of the preceding noon-based
      day boundary and the fraction of a day since it. */
  function JulianFractions(unix: real): (r: (real, real)) {
    (Fix(JulianDate(unix) - 0.5) as real + 0.5, DayFraction(unix))
  }

  /** The Julian date advances by one per 86400 s of UNIX time, and starts
      at 2440587.5 at the UNIX epoch. */
  lemma JulianDateLinear(u: real, v: real)
    ensures JulianDate(v) - JulianDate(u) == (v - u) / 86400.0
    ensures JulianDate(0.0) == 2440587.5
  {
  }

  /** J2000.0 is day 0 of `julian_date_J2000`, at UNIX time 946728000
      (2000-01-01 12:00 UTC). */
  lemma J2000Origin()
    ensures JulianDateJ2000(946728000.0) == 0.0
    ensures JulianDate(946728000.0) == J2000Julian
  {
  }

  /** The two parts of `julian_fractions` add back to the Julian date, and
      the first is a half-integer. */
  lemma JulianFractionsSum(unix: real)
    ensures var (julian, fraction) := JulianFractions(unix);
            julian + fraction == JulianDate(unix)
            && (julian - 0.5).Floor as real == julian - 0.5
  {
  }

  /** From Julian date 0.5 on, the day fraction lies in [0, 1); before it
      `np.fix` rounds up and the fraction lies in (-1, 0]. */
  lemma DayFractionRange(unix: real)
    ensures JulianDate(unix) >= 0.5 ==> 0.0 <= DayFraction(unix) < 1.0
    ensures JulianDate(unix) < 0.5 ==> -1.0 < DayFraction(unix) <= 0.0
  {
  }

  /** The fraction is 0 at UTC midnight of the UNIX epoch and 0.5 at the
      following noon. */
  lemma DayFractionExamples()
    ensures DayFraction(0.0) == 0.0
    ensures DayFraction(43200.0) == 0.5
  {
    assert JulianDate(0.0) - 0.5 == 2440587.0;
    assert JulianDate(43200.0) - 0.5 == 2440587.5;
  }

  /** Where the Julian date is at least 0.5, a day later the fraction is
      the same. */
  lemma DayFractionPeriodic(unix: real)
    requires JulianDate(unix) >= 0.5
    ensures DayFraction(unix + 86400.0) == DayFraction(unix)
  {
    var x := JulianDate(unix) - 0.5;
    assert JulianDate(unix + 86400.0) - 0.5 == x + 1.0;
    assert Fix(x + 1.0) == Fix(x) + 1;
  }
}
