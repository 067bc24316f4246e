/**
 * Values of the JEphem constant interfaces (GeneralConstants, SpaceConstants,
 * UnitsConstants, SolarSystemConstants, TimeConstants, AxisConstants,
 * AstroEngine) used as plain enumerations by the rest of the model.
 */
module Constants {

  /**
   * The "not specified" sentinel of tig.GeneralConstants. Its Java value is
   * not part of this model; -1 is used because it differs from every unit,
   * frame, coordinate and coordinate-group code below.
   */
  const NO_SPECIF: int := -1

  // Bodies (SolarSystemConstants)
  const SUN: int := 0
  const MOON: int := 1
  const MERCURY: int := 2
  const VENUS: int := 3
  const EARTH: int := 4
  const MARS: int := 5
  const JUPITER: int := 6
  const SATURN: int := 7
  const URANUS: int := 8
  const NEPTUNE: int := 9
  const PLUTO: int := 10

  // Frames (SpaceConstants)
  const FRAME_THEORY: int := 0
  const FRAME_EC_HELIO_GEOMETRIC: int := 1
  const FRAME_ECLIPTIC: int := 2
  const FRAME_EQUATORIAL: int := 3
  const FRAME_HORIZONTAL_TOPOCENTRIC: int := 5
  const FRAME_GALACTIC: int := 6

  // Coordinate expressions
  const CARTESIAN: int := 0
  const SPHERICAL: int := 1

  // Coordinates
  const COORD_X0: int := 0
  const COORD_X1: int := 1
  const COORD_X2: int := 2
  const COORD_V0: int := 3
  const COORD_V1: int := 4
  const COORD_V2: int := 5

  // Coordinate groups
  const COORDGROUP_XYZ: int := 0
  const COORDGROUP_DELTA_BETA_LAMBDA: int := 1
  const COORDGROUP_RLB: int := 2
  const COORDGROUP_DIST_ALPHA_DELTA: int := 3

  // Unit types (UnitsConstants); a unit code is type * DELTA_BETWEEN_BASES + offset
  const TYPE_DISTANCE: int := 0
  const TYPE_LINEAR_SPEED: int := 1
  const TYPE_ANGULAR: int := 2
  const TYPE_ANGULAR_SPEED: int := 3
  const DELTA_BETWEEN_BASES: int := 100

  const UNIT_AU: int := 0
  const UNIT_KM: int := 1
  const UNIT_M: int := 2
  const UNIT_AU_PER_D: int := 100
  const UNIT_KM_PER_D: int := 101
  const UNIT_KM_PER_HOUR: int := 102
  const UNIT_M_PER_S: int := 103
  const UNIT_ARCSEC: int := 200
  const UNIT_DEG: int := 201
  const UNIT_RAD: int := 202
  const UNIT_ARCSEC_PER_S: int := 300
  const UNIT_DEG_PER_S: int := 301
  const UNIT_ARCSEC_PER_DAY: int := 302
  const UNIT_DEG_PER_DAY: int := 303
  const UNIT_RAD_PER_DAY: int := 304

  // Time frames (TimeConstants)
  const UTC: int := 0
  const TT_TDB: int := 1

  // Astronomical engines (AstroEngine)
  const JEPHEM: string := "JEphem"
  const SWISS_EPHEMERIS: string := "SwissEphemeris"

  /** Math.PI as a real number. */
  const PI: real := 3.141592653589793

  /** Kilometres in one astronomical unit. */
  const KM_PER_AU: real := 149597870.61

  /** Degrees to radians, as Math.toRadians. */
  function ToRadians(deg: real): (r: real)
    ensures r * 180.0 == deg * PI
  {
    deg * PI / 180.0
  }

  /** Radians to degrees, as Math.toDegrees. */
  function ToDegrees(rad: real): (r: real)
    ensures r * PI == rad * 180.0
  {
    rad * 180.0 / PI
  }

  /** Converting to radians and back gives the degree value back. */
  lemma DegreesRadiansRoundTrip(deg: real)
    ensures ToDegrees(ToRadians(deg)) == deg
  {
  }
}
