/**
 * Time scales (jephem.astro.spacetime.Time): the TAI - UTC table and the
 * UTC <-> TT conversions, dates being Julian days.
 */
module Time {

  /** The fixed TT - TAI offset, in seconds. */
  const OFFSET: real := 32.184
  const SECONDS_PER_DAY: real := 86400.0

  /** calcMjd: the modified Julian day. */
  function Mjd(jd: real): (r: real)
    ensures r + 2400000.5 == jd
  {
    jd - 2400000.5
  }

  /**
   * calcDeltaT: TAI - UTC in seconds for a UTC Julian day. Every threshold is a
   * strict `>`: leap seconds from 1972, linear segments from 1961, a parabola
   * from 1670, and 0 before.
   */
  function DeltaT(utc: real): real
  {
    if utc > 2452640.5 then 33.0
    else if utc > 2451179.5 then 32.0
    else if utc > 2450630.5 then 31.0
    else if utc > 2450083.5 then 30.0
    else if utc > 2449534.5 then 29.0
    else if utc > 2449169.5 then 28.0
    else if utc > 2448804.5 then 27.0
    else if utc > 2448257.5 then 26.0
    else if utc > 2447892.5 then 25.0
    else if utc > 2447161.5 then 24.0
    else if utc > 2446247.5 then 23.0
    else if utc > 2445516.5 then 22.0
    else if utc > 2445151.5 then 21.0
    else if utc > 2444786.5 then 20.0
    else if utc > 2444239.5 then 19.0
    else if utc > 2443874.5 then 18.0
    else if utc > 2443509.5 then 17.0
    else if utc > 2443144.5 then 16.0
    else if utc > 2442778.5 then 15.0
    else if utc > 2442413.5 then 14.0
    else if utc > 2442048.5 then 13.0
    else if utc > 2441683.5 then 12.0
    else if utc > 2441499.5 then 11.0
    else if utc > 2441317.5 then 10.0
    else if utc > 2439887.5 then 4.2131700 + (Mjd(utc) - 39126.0) * 0.002592
    else if utc > 2439126.5 then 4.3131700 + (Mjd(utc) - 39126.0) * 0.002592
    else if utc > 2439004.5 then 3.8401300 + (Mjd(utc) - 38761.0) * 0.001296
    else if utc > 2438942.5 then 3.7401300 + (Mjd(utc) - 38761.0) * 0.001296
    else if utc > 2438820.5 then 3.6401300 + (Mjd(utc) - 38761.0) * 0.001296
    else if utc > 2438761.5 then 3.5401300 + (Mjd(utc) - 38761.0) * 0.001296
    else if utc > 2438639.5 then 3.4401300 + (Mjd(utc) - 38761.0) * 0.001296
    else if utc > 2438486.5 then 3.3401300 + (Mjd(utc) - 38761.0) * 0.001296
    else if utc > 2438395.5 then 3.2401300 + (Mjd(utc) - 38761.0) * 0.001296
    else if utc > 2438334.5 then 1.9458580 + (Mjd(utc) - 37665.0) * 0.0011232
    else if utc > 2437665.5 then 1.8458580 + (Mjd(utc) - 37665.0) * 0.0011232
    else if utc > 2437512.5 then 1.3728180 + (Mjd(utc) - 37300.0) * 0.001296
    else if utc > 2437300.5 then 1.4228180 + (Mjd(utc) - 37300.0) * 0.001296
    else if utc > 2331196.5 then
      var y := (utc - 2382149.0) / 100.0;
      -15.0 + Parabola(y)
    else 0.0
  }

  /** The 1670-1961 term 32.5 y^2. */
  function Parabola(y: real): (r: real)
    ensures r >= 0.0
  {
    NonNegativeSquare(y);
    32.5 * y * y
  }

  lemma NonNegativeSquare(y: real)
    ensures y * y >= 0.0
  {
    if y < 0.0 {
      assert y * y == (-y) * (-y);
    }
  }

  /** getTT: TT = UTC + 32.184 s + (TAI - UTC), in days. */
  function TT(utc: real): (r: real)
    ensures (r - utc) * SECONDS_PER_DAY == OFFSET + DeltaT(utc)
  {
    utc + (OFFSET + DeltaT(utc)) / SECONDS_PER_DAY
  }

  /** getUTC: the same table evaluated at the TT argument. */
  function UTC(tt: real): (r: real)
    ensures (tt - r) * SECONDS_PER_DAY == OFFSET + DeltaT(tt)
  {
    tt - (OFFSET + DeltaT(tt)) / SECONDS_PER_DAY
  }

  /** The table is 33 s after 2003 January 1 and 0 up to 1670 July 1. */
  lemma DeltaTEnds(utc: real)
    ensures utc > 2452640.5 ==> DeltaT(utc) == 33.0
    ensures utc <= 2331196.5 ==> DeltaT(utc) == 0.0
  {
  }

  /** From 1972 on, TAI - UTC is a whole number of seconds between 10 and 33. */
  lemma LeapSecondsWhole(utc: real)
    requires utc > 2441317.5
    ensures 10.0 <= DeltaT(utc) <= 33.0
    ensures DeltaT(utc) == DeltaT(utc).Floor as real
  {
  }

  /** From 1972 on, TAI - UTC never decreases. */
  lemma LeapSecondsMonotone(x: real, y: real)
    requires 2441317.5 < x <= y
    ensures DeltaT(x) <= DeltaT(y)
  {
  }

  /** Thresholds are strict: a date on a breakpoint takes the earlier segment's value. */
  lemma BreakpointsTakeEarlierValue()
    ensures DeltaT(2452640.5) == 32.0
    ensures DeltaT(2451179.5) == 31.0
    ensures DeltaT(2441317.5) == 4.2131700 + (Mjd(2441317.5) - 39126.0) * 0.002592
    ensures DeltaT(2437300.5) == -15.0 + Parabola((2437300.5 - 2382149.0) / 100.0)
  {
  }

  /** Between 1670 and 1961 the table follows the parabola -15 + 32.5 ((utc - 2382149) / 100)^2. */
  lemma ParabolicSegment(utc: real)
    requires 2331196.5 < utc <= 2437300.5
    ensures DeltaT(utc) == -15.0 + 32.5 * ((utc - 2382149.0) / 100.0) * ((utc - 2382149.0) / 100.0)
    ensures DeltaT(utc) >= -15.0
  {
  }

  /** TAI - UTC never falls below -15 s, so TT is always later than UTC. */
  lemma TTIsLater(utc: real)
    ensures DeltaT(utc) >= -15.0
    ensures TT(utc) > utc
  {
  }

  /** getUTC undoes getTT whenever the table has the same value at the UTC and the TT dates. */
  lemma UTCOfTT(utc: real)
    requires DeltaT(TT(utc)) == DeltaT(utc)
    ensures UTC(TT(utc)) == utc
  {
  }

  /** After the last leap second in the table the two conversions are exact inverses. */
  lemma {:induction false} UTCOfTTRecent(utc: real)
    requires utc > 2452640.5
    ensures UTC(TT(utc)) == utc
  {
    TTIsLater(utc);
    UTCOfTT(utc);
  }

  /**
   * getUTC is not an exact inverse of getTT: a UTC date one second before the
   * 2003 leap-second threshold maps to a TT date past it, and back to one
   * second earlier than it started.
   */
  lemma {:induction false} UTCOfTTAcrossLeapSecond()
    ensures UTC(TT(2452640.5 - 1.0 / 86400.0)) == 2452640.5 - 2.0 / 86400.0
  {
    var x := 2452640.5 - 1.0 / 86400.0;
    assert DeltaT(x) == 32.0;
    assert TT(x) == x + 64.184 / 86400.0;
    assert DeltaT(TT(x)) == 33.0;
  }
}
