/**
 * Precession and nutation quantities (jephem.astro.MeanTrue): the polynomial
 * series of Simon et al. (Astron. Astrophys. 282, 663, 1994) in the time from a
 * fixed epoch, with the "1992 IERS planetary masses" corrections the source
 * adds to them, memoised in a 14-slot table, and the three rotation matrices
 * built from them.
 */
module MeanTrues {
  import opened Wrappers
  import opened MathLib
  import Constants

  const JD2000: real := 2451545.0
  const DAYS_PER_MILLENIUM: real := 365250.0
  /** tig.maths.Maths.ARCSEC_TO_RAD, taken as pi / (180 * 3600). */
  const ARCSEC_TO_RAD: real := Constants.PI / 648000.0

  /** An angle in arc seconds, converted to radians. */
  function Radians(arcsec: real): (r: real)
    ensures arcsec == 0.0 ==> r == 0.0
  {
    arcsec * ARCSEC_TO_RAD
  }

  const NB_QTIES: int := 14
  const QTY_SS_A: int := 0
  const QTY_SC_A: int := 1
  const QTY_PI_A: int := 2
  const QTY_BIG_PI_A: int := 3
  const QTY_P_A: int := 4
  const QTY_THETA_A: int := 5
  const QTY_ZETA_A: int := 6
  const QTY_Z_A: int := 7
  const QTY_EPSILON_A: int := 8
  const QTY_OMEGA_A: int := 9
  const QTY_PSI_A: int := 10
  const QTY_CHI_A: int := 11
  const QTY_DELTA_PSI: int := 12
  const QTY_DELTA_EPSILON: int := 13

  /**
   * The time powers: t1..t6 of the date counted from the fixed epoch, and
   * T1..T5 of the fixed epoch counted from J2000, both in Julian millennia.
   */
  datatype Powers = Powers(
    t1: real, t2: real, t3: real, t4: real, t5: real, t6: real,
    T1: real, T2: real, T3: real, T4: real, T5: real)

  /** The T powers are all zero. */
  predicate AtJ2000Origin(p: Powers)
  {
    p.T1 == 0.0 && p.T2 == 0.0 && p.T3 == 0.0 && p.T4 == 0.0 && p.T5 == 0.0
  }

  /**
   * The constructor's powers. When the fixed epoch is J2000 the T fields are
   * never assigned and keep Java's default 0.
   */
  function PowersOf(date: real, fixedEpoch: real): (p: Powers)
    ensures p.t1 * DAYS_PER_MILLENIUM == date - fixedEpoch
    ensures fixedEpoch == JD2000 ==> AtJ2000Origin(p)
    ensures fixedEpoch != JD2000 ==> p.T1 * DAYS_PER_MILLENIUM == fixedEpoch - JD2000
  {
    var t1 := (date - fixedEpoch) / DAYS_PER_MILLENIUM;
    var t2 := t1 * t1;
    var t3 := t2 * t1;
    var t4 := t3 * t1;
    var t5 := t4 * t1;
    var t6 := t5 * t1;
    if fixedEpoch == JD2000 then
      Powers(t1, t2, t3, t4, t5, t6, 0.0, 0.0, 0.0, 0.0, 0.0)
    else
      var T1 := (fixedEpoch - JD2000) / DAYS_PER_MILLENIUM;
      var T2 := T1 * T1;
      var T3 := T2 * T1;
      var T4 := T3 * T1;
      var T5 := T4 * T1;
      Powers(t1, t2, t3, t4, t5, t6, T1, T2, T3, T4, T5)
  }

  /** The short series used when the fixed epoch is J2000 (corrections included). */
  function ShortSeries(k: int, p: Powers): real
    requires 0 <= k < 12
  {
    var t1, t2, t3, t4, t5, t6 := p.t1, p.t2, p.t3, p.t4, p.t5, p.t6;
    match k
    case 0 => 41.9971*t1 + 19.3971*t2 - 0.2235*t3 - 0.0104*t4 + 0.0002*t5
              - 0.0010*t1
    case 1 => - 468.0927*t1 + 5.1043*t2 + 0.5223*t3 - 0.0057*t4 - 0.0001*t5
              - 0.0029*t1
    case 2 => 469.9729*t1 - 3.3505*t2 - 0.1237*t3 + 0.0003*t4
              + 0.0027*t1
    case 3 => 629543.433 - 8679.270*t1 + 15.342*t2 + 0.005*t3 - 0.037*t4 - 0.001*t5
              + 0.555 + 0.052*t1
    case 4 => 50288.200*t1 + 111.2022*t2 + 0.0773*t3 - 0.2353*t4 - 0.0018*t5 + 0.0002*t6
              + 0.0011*t2
    case 5 => 20042.0207*t1 - 42.6566*t2 - 41.8238*t3 - 0.0731*t4 - 0.0127*t5 + 0.0004*t6
              - 0.0009*t1 - 0.0002*t2
    case 6 => 23060.9097*t1 + 30.2226*t2 + 18.0183*t3 - 0.0583*t4 - 0.0285*t5 - 0.0002*t6
              + 0.0002*t1 + 0.0002*t2
    case 7 => 23060.9097*t1 + 109.5270*t2 + 18.2667*t3 - 0.2821*t4 - 0.0301*t5 - 0.0001*t6
              + 0.0002*t1 + 0.0010*t2
    case 8 => 84381.412 - 468.0927*t1 - 0.0152*t2 + 1.9989*t3 - 0.0051*t4 - 0.0025*t5
              - 0.0029*t1
    case 9 => 84381.412 + 5.1294*t2 - 7.7276*t3 - 0.0048*t4 + 0.0333*t5 - 0.0003*t6
    case 10 => 50385.0672*t1 - 107.2374*t2 - 1.1424*t3 + 1.3279*t4 - 0.0094*t5 - 0.0035*t6
               - 0.0023*t1 - 0.0007*t2
    case 11 => 105.5794*t1 - 238.1379*t2 - 1.2117*t3 + 1.7024*t4 - 0.0077*t5 - 0.0040*t6
               - 0.0025*t1 - 0.0017*t2
  }

  /** The general series, for any fixed epoch (corrections included). */
  function GeneralSeries(k: int, p: Powers): real
    requires 0 <= k < 12
  {
    var t1, t2, t3, t4, t5, t6 := p.t1, p.t2, p.t3, p.t4, p.t5, p.t6;
    var T1, T2, T3, T4, T5 := p.T1, p.T2, p.T3, p.T4, p.T5;
    match k
    case 0 =>
      ( (41.9971 - 75.3286*T1 + 0.3179*T2 + 0.3178*T3 + 0.0007*T4 - 0.0004*T5)*t1
      + (19.3971 + 0.5740*T1 - 0.2541*T2 - 0.0005*T3 + 0.0006*T4)*t2
      + (-0.2235 + 0.0859*T1 + 0.0033*T2 - 0.0003*T3)*t3
      + (-0.0104 - 0.0004*T1 + 0.0002*T2)*t4
      + 0.0002*t5
      + (-0.0010 - 0.0008*T1)*t1 )
    case 1 =>
      ( (-468.0927 - 0.0305*T1 + 5.9967*T2 - 0.0205*T3 - 0.0125*T4 - 0.0002*T5)*t1
      + (5.1043 - 3.1633*T1 - 0.0326*T2 + 0.0138*T3 - 0.0002*T4)*t2
      + (0.5223 + 0.0318*T1 - 0.0066*T2 - 0.0004*T3)*t3
      + (-0.0057 + 0.0019*T1 - 0.0001*T2)*t4
      + (-0.0001)*t5
      + (-0.0029 + 0.0002*T1)*t1 )
    case 2 =>
      ( (469.9729 - 6.7011*T1 + 0.0448*T2 - 0.0019*T3 - 0.0001*T4)*t1
      + (-3.3505 + 0.0448*T1 - 0.0028*T2 - 0.0002*T3 + 0.0001*T4)*t2
      + (-0.1237 - 0.0004*T1 - 0.0002*T2 + 0.0001*T3)*t3
      + (0.0003 - 0.0001*T1 + 0.0001*T2)*t4
      + 0.0027*t1 )
    case 3 =>
      ( (629543.433 + 32929.659*T1 + 95.352*T2 - 0.005*T3 - 0.459*T4 - 0.010*T5)
      + (-8679.270 - 15.851*T1 - 0.113*T2 - 0.448*T3 - 0.019*T4)*t1
      + (15.342 - 0.019*T1 - 0.432*T2 - 0.023*T3)*t2
      + (0.005 - 0.208*T1 - 0.015*T2)*t3
      + (-0.037 - 0.005*T1)*t4
      + (-0.001)*t5
      + 0.555 + 0.104*T1 + 0.052*t1 )
    case 4 =>
      ( (50288.200 + 222.4045*T1 + 0.2095*T2 - 0.9408*T3 - 0.0090*T4 + 0.0010*T5)*t1
      + (111.2022 + 0.2095*T1 - 1.4111*T2 - 0.0180*T3 + 0.0026*T4)*t2
      + (0.0773 - 0.9410*T1 - 0.0180*T2 + 0.0035*T3)*t3
      + (-0.2353 - 0.0090*T1 + 0.0026*T2)*t4
      + (-0.0018 + 0.0010*T1)*t5
      + 0.0002*t6
      + 0.0019*t1*T1 + 0.0011*t2 )
    case 5 =>
      ( (20042.0207 - 85.3131*T1 - 0.2111*T2 + 0.3642*T3 + 0.0008*T4 - 0.0005*T5)*t1
      + (-42.6566 - 0.2111*T1 + 0.5463*T2 + 0.0017*T3 - 0.0012*T4)*t2
      + (-41.8238 + 0.0359*T1 + 0.0027*T2 - 0.0001*T3)*t3
      + (-0.0731 + 0.0019*T1 + 0.0009*T2)*t4
      + (-0.0127 + 0.0011*T1)*t5
      + 0.0004*t6
      + (-0.0009 - 0.0006*T1)*t1 - 0.0002*t2 )
    case 6 =>
      ( (23060.9097 + 139.7495*T1 - 0.0038*T2 - 0.5918*T3 - 0.0037*T4 + 0.0007*T5)*t1
      + (30.2226 - 0.2523*T1 - 0.3840*T2 - 0.0014*T3 + 0.0007*T4)*t2
      + (18.0183 - 0.1326*T1 + 0.0006*T2 + 0.0005*T3)*t3
      + (-0.0583 - 0.0001*T1 + 0.0007*T2)*t4
      + (-0.0285)*t5
      + (-0.0002)*t6
      + (0.0002 + 0.0013*T1)*t1 + 0.0002*t2 )
    case 7 =>
      ( (23060.9097 + 139.7495*T1 - 0.0038*T2 - 0.5918*T3 - 0.0037*T4 + 0.0007*T5)*t1
      + (109.5270 + 0.2446*T1 - 1.3913*T2 - 0.0134*T3 + 0.0026*T4)*t2
      + (18.2667 - 1.1400*T1 - 0.0173*T2 + 0.0044*T3)*t3
      + (-0.2821 - 0.0093*T1 + 0.0032*T2)*t4
      + (-0.0301 + 0.0006*T1)*t5
      + (-0.0001)*t6
      + (0.0002 + 0.0013*T1)*t1 + 0.0010*t2 )
    case 8 =>
      ( (84381.412 - 468.0927*T1 - 0.0152*T2 + 1.9989*T3 - 0.0051*T4 - 0.0025*T5)
      + (-468.0927 - 0.0305*T1 + 5.9967*T2 - 0.0205*T3 - 0.0125*T4 - 0.0002*T5)*t1
      + (-0.0152 + 5.9967*T1 - 0.0308*T2 - 0.0250*T3 - 0.0006*T4)*t2
      + (1.9989 - 0.0205*T1 - 0.0250*T2 - 0.0008*T3)*t3
      + (-0.0051 - 0.0125*T1 - 0.0006*T2)*t4
      + (-0.0025 - 0.0002*T1)*t5
      - 0.0029*T1 + (-0.0029 + 0.0002*T1)*t1 )
    case 9 =>
      ( (84381.412 - 468.0927*T1 - 0.0152*T2 + 1.9989*T3 - 0.0051*T4 - 0.0025*T5)
      + (5.1294 - 9.1954*T1 + 0.0298*T2 + 0.0389*T3 + 0.0002*T4)*t2
      + (-7.7276 + 0.0235*T1 + 0.0987*T2 - 0.0001*T3)*t3
      + (-0.0048 + 0.0954*T1 - 0.0007*T2)*t4
      + (0.0333 - 0.0009*T1)*t5
      + (-0.0003)*t6
      - 0.0029*T1 )
    case 10 =>
      ( (50385.0672 + 49.2595*T1 - 0.1344*T2 - 0.2115*T3 + 0.0017*T4 + 0.0003*T5)*t1
      + (-107.2374 - 1.0919*T1 + 1.3673*T2 + 0.0137*T3 - 0.0028*T4)*t2
      + (-1.1424 + 2.6425*T1 + 0.0087*T2 - 0.0111*T3)*t3
      + (1.3279 - 0.0110*T1 - 0.0170*T2)*t4
      + (-0.0094 - 0.0123*T1)*t5
      + (-0.0035)*t6
      + (-0.0023 + 0.0002*T1)*t1 - 0.0007*t2 )
    case 11 =>
      ( (105.5794 - 188.8214*T1 - 0.1888*T2 + 0.7950*T3 + 0.0101*T4 - 0.0009*T5)*t1
      + (-238.1379 - 1.0910*T1 + 3.0291*T2 + 0.0290*T3 - 0.0059*T4)*t2
      + (-1.2117 + 3.9055*T1 + 0.0229*T2 - 0.0159*T3)*t3
      + (1.7024 - 0.0038*T1 - 0.0214*T2)*t4
      + (-0.0077 - 0.0145*T1)*t5
      + (-0.0040)*t6
      + (-0.0025 - 0.0017*T1)*t1 - 0.0017*t2 )
  }

  /** The "1992 IERS planetary masses" correction terms of the general series. */
  function Correction(k: int, p: Powers): real
    requires 0 <= k < 12
  {
    var t1, t2, T1 := p.t1, p.t2, p.T1;
    match k
    case 0 => (-0.0010 - 0.0008*T1)*t1
    case 1 => (-0.0029 + 0.0002*T1)*t1
    case 2 => 0.0027*t1
    case 3 => 0.555 + 0.104*T1 + 0.052*t1
    case 4 => 0.0019*t1*T1 + 0.0011*t2
    case 5 => (-0.0009 - 0.0006*T1)*t1 - 0.0002*t2
    case 6 => (0.0002 + 0.0013*T1)*t1 + 0.0002*t2
    case 7 => (0.0002 + 0.0013*T1)*t1 + 0.0010*t2
    case 8 => - 0.0029*T1 + (-0.0029 + 0.0002*T1)*t1
    case 9 => - 0.0029*T1
    case 10 => (-0.0023 + 0.0002*T1)*t1 - 0.0007*t2
    case 11 => (-0.0025 - 0.0017*T1)*t1 - 0.0017*t2
  }

  /**
   * The value getQuantity stores for quantity k, in arc seconds: the short or
   * general series for the twelve precession quantities, and 0 for the two
   * nutation quantities, because the nutation series writes its results into
   * by-value parameters that are then discarded.
   */
  function Quantity(k: int, p: Powers, fix2000: bool): real
    requires 0 <= k < NB_QTIES
  {
    if k < 12 then (if fix2000 then ShortSeries(k, p) else GeneralSeries(k, p))
    else 0.0
  }

  /** With all T powers zero, the short series is the general series. */
  lemma ShortIsGeneralAtJ2000(k: int, p: Powers)
    requires 0 <= k < 12
    requires AtJ2000Origin(p)
    ensures ShortSeries(k, p) == GeneralSeries(k, p)
  {
  }

  /**
   * The J2000 shortcut changes no value: whatever the fixed epoch, the stored
   * quantity is the general series at the constructor's powers.
   */
  lemma ShortcutIsTransparent(k: int, date: real, fixedEpoch: real)
    requires 0 <= k < 12
    ensures Quantity(k, PowersOf(date, fixedEpoch), fixedEpoch == JD2000)
         == GeneralSeries(k, PowersOf(date, fixedEpoch))
  {
    if fixedEpoch == JD2000 {
      ShortIsGeneralAtJ2000(k, PowersOf(date, fixedEpoch));
    }
  }

  /**
   * When the date is the fixed epoch, the precession angles theta_a, zeta_a
   * and z_a vanish and epsilon_a equals omega_a.
   */
  lemma DateAtFixedEpoch(epoch: real)
    ensures var p, fix := PowersOf(epoch, epoch), epoch == JD2000;
      && Quantity(QTY_THETA_A, p, fix) == 0.0
      && Quantity(QTY_ZETA_A, p, fix) == 0.0
      && Quantity(QTY_Z_A, p, fix) == 0.0
      && Quantity(QTY_EPSILON_A, p, fix) == Quantity(QTY_OMEGA_A, p, fix)
  {
    var p := PowersOf(epoch, epoch);
    assert p.t1 == 0.0;
  }

  /** At date = fixed epoch = J2000, epsilon_a = omega_a = 84381.412 arc seconds. */
  lemma ObliquityAtJ2000()
    ensures var p := PowersOf(JD2000, JD2000);
      && Quantity(QTY_EPSILON_A, p, true) == 84381.412
      && Quantity(QTY_OMEGA_A, p, true) == 84381.412
  {
  }

  /** The date and fixed epoch of the reference table at MeanTrue.java:559-580. */
  const REF_DATE: real := 2351545.0
  const REF_FIXED_EPOCH: real := 2251545.0

  /** The reference table: the printed value and half a unit of its last digit. */
  function ReferenceValue(k: int): (real, real)
    requires 0 <= k < 12
  {
    match k
    case 0 => (24.2221, 0.00005)
    case 1 => (-127.1375, 0.00005)
    case 2 => (129.4244, 0.00005)
    case 3 => (609167.960, 0.0005)
    case 4 => (13743.1821, 0.00005)
    case 5 => (5495.9267, 0.00005)
    case 6 => (6295.4465, 0.00005)
    case 7 => (6301.3632, 0.00005)
    case 8 => (84509.5266, 0.00005)
    case 9 => (84637.9961, 0.00005)
    case 10 => (13779.2847, 0.00005)
    case 11 => (39.3656, 0.00005)
  }

  predicate WithinPrintedPrecision(k: int, x: real)
    requires 0 <= k < 12
  {
    var (v, tol) := ReferenceValue(k);
    v - tol <= x <= v + tol
  }

  /**
   * The reference table is reproduced to its printed precision by the series
   * WITHOUT the correction terms.
   */
  lemma ReferenceTableIsUncorrected(k: int)
    requires 0 <= k < 12
    ensures var p := PowersOf(REF_DATE, REF_FIXED_EPOCH);
      WithinPrintedPrecision(k, GeneralSeries(k, p) - Correction(k, p))
  {
    var p := PowersOf(REF_DATE, REF_FIXED_EPOCH);
    assert p == Powers(400.0/1461.0, 160000.0/2134521.0, 64000000.0/3118535181.0,
      25600000000.0/4556179899441.0, 10240000000000.0/6656578833083301.0,
      4096000000000000.0/9725261675134702761.0,
      -800.0/1461.0, 640000.0/2134521.0, -512000000.0/3118535181.0,
      409600000000.0/4556179899441.0, -327680000000000.0/6656578833083301.0);
  }

  /**
   * With the corrections, as the source computes it, PI_a lies half an arc
   * second away from the reference table, a thousand times its printed
   * precision.
   */
  lemma CorrectedValuesLeaveTheTable()
    ensures var p := PowersOf(REF_DATE, REF_FIXED_EPOCH);
      && !WithinPrintedPrecision(QTY_BIG_PI_A, GeneralSeries(QTY_BIG_PI_A, p))
      && !WithinPrintedPrecision(QTY_EPSILON_A, GeneralSeries(QTY_EPSILON_A, p))
  {
    var p := PowersOf(REF_DATE, REF_FIXED_EPOCH);
    assert p == Powers(400.0/1461.0, 160000.0/2134521.0, 64000000.0/3118535181.0,
      25600000000.0/4556179899441.0, 10240000000000.0/6656578833083301.0,
      4096000000000000.0/9725261675134702761.0,
      -800.0/1461.0, 640000.0/2134521.0, -512000000.0/3118535181.0,
      409600000000.0/4556179899441.0, -327680000000000.0/6656578833083301.0);
  }

  /**
   * The equatorial precession matrix (getEqPrecessionMatrix) for the angles
   * theta_a, zeta_a and z_a in radians.
   */
  function PrecessionMatrix(m: Lib, theta: real, zeta: real, z: real): Mat3
  {
    var cZZeta, sZZeta := m.cos(z + zeta), m.sin(z + zeta);
    var cZ, sZ := m.cos(z), m.sin(z);
    var cZeta, sZeta := m.cos(zeta), m.sin(zeta);
    var cTheta, sTheta := m.cos(theta), m.sin(theta);
    var s2Theta2 := m.sin(theta / 2.0) * m.sin(theta / 2.0);
    Mat3(cZZeta - 2.0*s2Theta2*cZ*cZeta, -sZZeta + 2.0*s2Theta2*cZ*sZeta, -cZ*sTheta,
         sZZeta - 2.0*s2Theta2*sZ*cZeta, cZZeta + 2.0*s2Theta2*sZ*sZeta, -sZ*sTheta,
         cZeta*sTheta, -sZeta*sTheta, cTheta)
  }

  /**
   * The equatorial nutation matrix (getEqNutationMatrix) for deltaPsi,
   * deltaEpsilon and epsilon_a in radians.
   */
  function NutationMatrix(m: Lib, deltaPsi: real, deltaEpsilon: real, epsilon: real): Mat3
  {
    var epsilonP := epsilon + deltaEpsilon;
    var se, ce := m.sin(epsilon), m.cos(epsilon);
    var sep, cep := m.sin(epsilonP), m.cos(epsilonP);
    var sde, cde := m.sin(deltaEpsilon), m.cos(deltaEpsilon);
    var sdp, cdp := m.sin(deltaPsi), m.cos(deltaPsi);
    var s2dp2 := m.sin(deltaPsi / 2.0) * m.sin(deltaPsi / 2.0);
    Mat3(cdp, -sdp*ce, -sdp*se,
         cep*sdp, cde - 2.0*s2dp2*ce*cep, -sde - 2.0*s2dp2*se*cep,
         sep*sdp, sde - 2.0*s2dp2*ce*sep, cde - 2.0*s2dp2*se*sep)
  }

  /**
   * The true-equator-to-ecliptic matrix (getTrueEqToEcMatrix): a rotation
   * about the first axis by epsilon_a + deltaEpsilon, taken as given, that
   * is in arc seconds.
   */
  function TrueEqToEcMatrix(m: Lib, deltaEpsilon: real, epsilon: real): Mat3
  {
    var epsilonP := epsilon + deltaEpsilon;
    Mat3(1.0, 0.0, 0.0,
         0.0, m.cos(epsilonP), m.sin(epsilonP),
         0.0, -m.sin(epsilonP), m.cos(epsilonP))
  }

  /** With all three angles zero the precession matrix is the identity. */
  lemma PrecessionAtZero(m: Lib)
    requires Sound(m)
    ensures PrecessionMatrix(m, 0.0, 0.0, 0.0) == IDENTITY
  {
  }

  /** With zero nutation angles the nutation matrix is the identity, whatever epsilon_a. */
  lemma NutationAtZero(m: Lib, epsilon: real)
    requires Sound(m)
    ensures NutationMatrix(m, 0.0, 0.0, epsilon) == IDENTITY
  {
  }

  /**
   * The ecliptic matrix fixes the first axis and its lower 2x2 block is a
   * rotation: orthonormal rows and determinant 1.
   */
  lemma TrueEqToEcIsRotation(m: Lib, deltaEpsilon: real, epsilon: real)
    requires Sound(m)
    ensures var r := TrueEqToEcMatrix(m, deltaEpsilon, epsilon);
      && r.m00 == 1.0 && r.m01 == 0.0 && r.m02 == 0.0
      && r.m10 == 0.0 && r.m20 == 0.0
      && r.m11 * r.m11 + r.m12 * r.m12 == 1.0
      && r.m21 * r.m21 + r.m22 * r.m22 == 1.0
      && r.m11 * r.m21 + r.m12 * r.m22 == 0.0
      && r.m11 * r.m22 - r.m12 * r.m21 == 1.0
  {
    var e := epsilon + deltaEpsilon;
    assert m.sin(e) * m.sin(e) + m.cos(e) * m.cos(e) == 1.0;
  }

  /** A MeanTrue object: the time powers and the memo table of quantities. */
  class MeanTrue {
    const date: real
    const powers: Powers
    const fix2000: bool
    const qties: array<real>
    const qtyFlags: array<bool>

    /**
     * Every flagged slot holds its quantity, and the two nutation flags are
     * always set together.
     */
    ghost predicate Valid()
      reads this, qties, qtyFlags
    {
      && qties.Length == NB_QTIES
      && qtyFlags.Length == NB_QTIES
      && (forall k :: 0 <= k < NB_QTIES && qtyFlags[k] ==> qties[k] == Quantity(k, powers, fix2000))
      && qtyFlags[QTY_DELTA_PSI] == qtyFlags[QTY_DELTA_EPSILON]
    }

    constructor(date: real, fixedEpoch: real)
      ensures Valid()
      ensures this.date == date
      ensures powers == PowersOf(date, fixedEpoch)
      ensures fix2000 <==> fixedEpoch == JD2000
      ensures forall k :: 0 <= k < NB_QTIES ==> !qtyFlags[k]
      ensures fresh(qties) && fresh(qtyFlags)
    {
      this.date := date;
      powers := PowersOf(date, fixedEpoch);
      fix2000 := fixedEpoch == JD2000;
      qties := new real[NB_QTIES](_ => 0.0);
      qtyFlags := new bool[NB_QTIES](_ => false);
    }

    /**
     * getQuantity: the quantity of the given index in arc seconds, computed
     * on the first request and served from the table afterwards.
     */
    method GetQuantity(index: int) returns (r: Result<real>)
      requires Valid()
      modifies qties, qtyFlags
      ensures Valid()
      ensures !(0 <= index < NB_QTIES) ==> r == Err(IllegalArgument)
      ensures 0 <= index < NB_QTIES ==> r == Ok(Quantity(index, powers, fix2000)) && qtyFlags[index]
      ensures !(0 <= index < NB_QTIES) || old(qtyFlags[index]) ==>
        qties[..] == old(qties[..]) && qtyFlags[..] == old(qtyFlags[..])
      ensures 0 <= index < 12 && !old(qtyFlags[index]) ==>
        && qties[..] == old(qties[..])[index := Quantity(index, powers, fix2000)]
        && qtyFlags[..] == old(qtyFlags[..])[index := true]
      ensures 12 <= index < NB_QTIES && !old(qtyFlags[index]) ==>
        && qties[..] == old(qties[..])[QTY_DELTA_PSI := 0.0][QTY_DELTA_EPSILON := 0.0]
        && qtyFlags[..] == old(qtyFlags[..])[QTY_DELTA_PSI := true][QTY_DELTA_EPSILON := true]
    {
      if index < 0 || index > NB_QTIES - 1 {
        return Err(IllegalArgument);
      }
      if qtyFlags[index] {
        return Ok(qties[index]);
      }
      if index < 12 {
        qties[index] := if fix2000 then ShortSeries(index, powers) else GeneralSeries(index, powers);
        qtyFlags[index] := true;
      } else {
        // the nutation series' outputs never reach these variables
        var deltaPsi, deltaEpsilon := 0.0, 0.0;
        qties[QTY_DELTA_PSI] := deltaPsi;
        qties[QTY_DELTA_EPSILON] := deltaEpsilon;
        qtyFlags[QTY_DELTA_PSI] := true;
        qtyFlags[QTY_DELTA_EPSILON] := true;
      }
      return Ok(qties[index]);
    }

    /** getEqPrecessionMatrix: precession from the fixed epoch's mean equator to the date's. */
    method GetEqPrecessionMatrix(m: Lib) returns (r: Mat3)
      requires Valid()
      modifies qties, qtyFlags
      ensures Valid()
      ensures r == PrecessionMatrix(m,
        Radians(Quantity(QTY_THETA_A, powers, fix2000)),
        Radians(Quantity(QTY_ZETA_A, powers, fix2000)),
        Radians(Quantity(QTY_Z_A, powers, fix2000)))
    {
      var theta := GetQuantity(QTY_THETA_A);
      var zeta := GetQuantity(QTY_ZETA_A);
      var z := GetQuantity(QTY_Z_A);
      r := PrecessionMatrix(m, Radians(theta.value), Radians(zeta.value), Radians(z.value));
    }

    /** getEqNutationMatrix: with the nutation quantities at 0, the identity. */
    method GetEqNutationMatrix(m: Lib) returns (r: Mat3)
      requires Valid()
      modifies qties, qtyFlags
      ensures Valid()
      ensures r == NutationMatrix(m, 0.0, 0.0, Radians(Quantity(QTY_EPSILON_A, powers, fix2000)))
      ensures Sound(m) ==> r == IDENTITY
    {
      var deltaPsi := GetQuantity(QTY_DELTA_PSI);
      var deltaEpsilon := GetQuantity(QTY_DELTA_EPSILON);
      var epsilon := GetQuantity(QTY_EPSILON_A);
      r := NutationMatrix(m, Radians(deltaPsi.value), Radians(deltaEpsilon.value),
        Radians(epsilon.value));
      if Sound(m) {
        NutationAtZero(m, Radians(epsilon.value));
      }
    }

    /** getTrueEqToEcMatrix: rotation by epsilon_a + deltaEpsilon, in arc seconds. */
    method GetTrueEqToEcMatrix(m: Lib) returns (r: Mat3)
      requires Valid()
      modifies qties, qtyFlags
      ensures Valid()
      ensures r == TrueEqToEcMatrix(m, 0.0, Quantity(QTY_EPSILON_A, powers, fix2000))
    {
      var deltaEpsilon := GetQuantity(QTY_DELTA_EPSILON);
      var epsilon := GetQuantity(QTY_EPSILON_A);
      r := TrueEqToEcMatrix(m, deltaEpsilon.value, epsilon.value);
    }
  }
}
