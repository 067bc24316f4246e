/**
 * The computation pipeline (jephem.astro.AstroContext): a set of bodies at one
 * Julian day, brought from the theories' heliocentric coordinates through
 * light time, the change of centre, the BRS to FK5 rotation, precession,
 * nutation and the ecliptic rotation, and stopped at the requested frame.
 * The theory evaluators (VSOP87, Pluto99, ELP82, Swiss Ephemeris) are
 * parameters of the model.
 */
module AstroContexts {
  import opened Wrappers
  import opened Constants
  import opened MathLib
  import opened Bodies
  import Time
  import Units
  import MeanTrues

  /** SpaceConstants.LIGHT_VELOCITY as written: 299792458, documented as km/s. */
  const LIGHT_VELOCITY: real := 299792458.0
  /** The speed of light in km/s, which the light-time formula divides kilometres by. */
  const LIGHT_VELOCITY_KM_PER_S: real := 299792.458
  const SECONDS_PER_DAY: real := 86400.0

  /** The light time, in days, over rho AU, as AstroContext.java:285-287 writes it. */
  function LightTimeAsWritten(rho: real): real
  {
    rho * KM_PER_AU / LIGHT_VELOCITY / SECONDS_PER_DAY
  }

  /** The light time, in days, over rho AU, with the speed of light in km/s. */
  function LightTime(rho: real): real
  {
    rho * KM_PER_AU / LIGHT_VELOCITY_KM_PER_S / SECONDS_PER_DAY
  }

  /** As written, light crosses one astronomical unit in under a second. */
  lemma LightTimeAsWrittenTooShort()
    ensures LightTimeAsWritten(1.0) * SECONDS_PER_DAY < 1.0
    ensures LightTime(1.0) == 1000.0 * LightTimeAsWritten(1.0)
  {
  }

  /** Corrected, light crosses one astronomical unit in 499 seconds. */
  lemma LightTimeOverOneAu()
    ensures 499.0 < LightTime(1.0) * SECONDS_PER_DAY < 499.01
  {
  }

  /** The light time, as written and corrected, is proportional to the distance. */
  lemma LightTimeLinear(rho: real, k: real)
    ensures LightTimeAsWritten(k * rho) == k * LightTimeAsWritten(rho)
    ensures LightTime(k * rho) == k * LightTime(rho)
  {
  }

  /** Vector3.norm: NaN as soon as one coordinate is NaN. */
  function Norm(m: Lib, v: Vec3): Double
  {
    Sqrt(m, SquaredNorm(v))
  }

  /**
   * The light time over the distance |v|, as a double, with the divisor as
   * written (see LightTimeAsWrittenTooShort).
   */
  function LightDays(m: Lib, v: Vec3): Double
  {
    var rho := Norm(m, v);
    if rho.Some? then Some(LightTimeAsWritten(rho.value)) else None
  }

  /** Vector3.sub and Vector3.negate. */
  function Sub(a: Vec3, b: Vec3): Vec3
  {
    Vec3(Minus(a.x0, b.x0), Minus(a.x1, b.x1), Minus(a.x2, b.x2))
  }

  function Negate(a: Vec3): Vec3
  {
    Vec3(Neg(a.x0), Neg(a.x1), Neg(a.x2))
  }

  const ZERO: Vec3 := Vec3(Some(0.0), Some(0.0), Some(0.0))

  /** The fixed BRS to FK5 rotation of AstroContext.java:248-250. */
  const BRS_FK5: Mat3 := Mat3(
    1.0, 0.000000440360, -0.000000190919,
    -0.000000479966, 0.917482137087, -0.397776982902,
    0.0, 0.397776982902, 0.917482137087)

  /**
   * The theory evaluators, each giving the state it writes into a body of the
   * given index for a Julian day, a precision and the velocity flag, or an
   * AstroException. The Swiss Ephemeris bridge only reports success or failure:
   * what it writes is not part of this model.
   */
  datatype Theories = Theories(
    vsop87: (Double, int, real, bool) -> Result<BodyState>,
    pluto99: (Double, int, real, bool) -> Result<BodyState>,
    elp82: (Double, int, real, bool) -> Result<BodyState>,
    swiss: (real, int, int, real, bool, seq<int>) -> Result<()>)

  /** The planetary theory a body of the given index is evaluated with: Pluto99 for Pluto, VSOP87 otherwise. */
  function Evaluate(th: Theories, jd: Double, index: int, precision: real, velocities: bool): Result<BodyState>
  {
    if index == PLUTO then th.pluto99(jd, index, precision, velocities)
    else th.vsop87(jd, index, precision, velocities)
  }

  /** The static AstroContext._astroEngine: one cell shared by every context, null until set. */
  class EngineSetting {
    var astroEngine: Option<string>

    constructor ()
      ensures astroEngine == None
    {
      astroEngine := None;
    }
  }

  /** The position of the last MOON in the index list, or NO_SPECIF when there is none. */
  function LastMoon(indexes: seq<int>): int
  {
    if |indexes| == 0 then NO_SPECIF
    else if indexes[|indexes| - 1] == MOON then |indexes| - 1
    else LastMoon(indexes[..|indexes| - 1])
  }

  /** LastMoon is NO_SPECIF exactly when no index is MOON, and otherwise the position of the last one. */
  lemma {:induction false} LastMoonIsLast(indexes: seq<int>)
    ensures LastMoon(indexes) == NO_SPECIF <==> MOON !in indexes
    ensures LastMoon(indexes) != NO_SPECIF ==>
      0 <= LastMoon(indexes) < |indexes| && indexes[LastMoon(indexes)] == MOON
    ensures LastMoon(indexes) != NO_SPECIF ==> forall k :: LastMoon(indexes) < k < |indexes| ==> indexes[k] != MOON
  {
    if |indexes| > 0 && indexes[|indexes| - 1] != MOON {
      LastMoonIsLast(indexes[..|indexes| - 1]);
      assert indexes == indexes[..|indexes| - 1] + [indexes[|indexes| - 1]];
    }
  }

  /** Looking at one more index: it is the last MOON if it is one, else the last MOON stays. */
  lemma LastMoonStep(indexes: seq<int>, i: int)
    requires 0 <= i < |indexes|
    ensures LastMoon(indexes[..i + 1]) == if indexes[i] == MOON then i else LastMoon(indexes[..i])
  {
    assert indexes[..i + 1][..i] == indexes[..i];
  }

  /** The steps of calcBodyCoords, in the order they run. */
  datatype Stage =
    | SwissEphemeris
    | MoonTheory
    | Theory
    | HelioRotation
    | LightTimeCorrection
    | Geocentric
    | ToFk5
    | Precession
    | Nutation
    | ToEcliptic
    | Finalize

  /** The frames for which calcBodyCoords finalises and returns. */
  predicate Finalises(frame: int, nBodies: int)
  {
    || frame == FRAME_THEORY
    || (frame == FRAME_EC_HELIO_GEOMETRIC && nBodies > 0)
    || frame == FRAME_EQUATORIAL
    || frame == FRAME_ECLIPTIC
  }

  /**
   * The stages the internal engine runs for a frame when no step fails: the
   * Moon first when one is asked for, the theories, then as far as the frame
   * requires. The heliocentric branch returns inside its loop, so with no
   * body it falls through to the later stages.
   */
  function Plan(frame: int, nBodies: int, withMoon: bool): seq<Stage>
  {
    (if withMoon then [MoonTheory] else []) + [Theory] + RestOfPlan(frame, nBodies)
  }

  /** The stages after the theories. */
  function RestOfPlan(frame: int, nBodies: int): seq<Stage>
  {
    if frame == FRAME_THEORY then [Finalize]
    else if frame == FRAME_EC_HELIO_GEOMETRIC && nBodies > 0 then [HelioRotation, Finalize]
    else ApparentPlan(frame)
  }

  /** The stages from the light-time correction on, up to the frame's return. */
  function ApparentPlan(frame: int): seq<Stage>
  {
    [LightTimeCorrection] + ([Geocentric] + EquatorialPlan(frame))
  }

  /** The stages from the FK5 rotation on, up to the frame's return. */
  function EquatorialPlan(frame: int): seq<Stage>
  {
    [ToFk5, Precession, Nutation]
    + (if frame == FRAME_EQUATORIAL then [Finalize]
       else if frame == FRAME_ECLIPTIC then [ToEcliptic, Finalize]
       else [ToEcliptic])
  }

  /**
   * A plan finalises exactly once when its frame finalises and never
   * otherwise; precession is applied for every frame except the theory and a
   * non-empty heliocentric frame; a frame that does not finalise runs every
   * stage through the ecliptic rotation.
   */
  lemma PlanShape(frame: int, nBodies: int, withMoon: bool)
    ensures var p := Plan(frame, nBodies, withMoon);
      && (Finalises(frame, nBodies) <==> Finalize in p)
      && (Finalize in p ==> p[|p| - 1] == Finalize)
      && (Precession in p <==> !(frame == FRAME_THEORY || (frame == FRAME_EC_HELIO_GEOMETRIC && nBodies > 0)))
      && (!Finalises(frame, nBodies) ==> p[|p| - 1] == ToEcliptic && Nutation in p)
  {
  }

  /**
   * The coordinate expression a body ends with after the expression step of
   * finalizeResults: cartToSphere tags a converted body SPHERICAL, and
   * sphereToCart leaves the SPHERICAL tag as it is.
   */
  function ExpressionAfter(sphereCart: int, coordExpr: int): (e: int)
    ensures e == SPHERICAL <==> coordExpr == SPHERICAL || (sphereCart == SPHERICAL && coordExpr == CARTESIAN)
    ensures e != coordExpr ==> coordExpr == CARTESIAN && e == SPHERICAL
  {
    if sphereCart == SPHERICAL && coordExpr == CARTESIAN then SPHERICAL else coordExpr
  }

  /**
   * The unit step of finalizeResults on one body's values: the position
   * converted to units[0..2] and, with velocities, the velocity converted to
   * units[3..5]; a units array too short for what is read is an index out of
   * bounds.
   */
  function Finalized(pos: Vec3, posUnits: seq<int>, vel: Vec3, velUnits: seq<int>,
                     velocities: bool, units: seq<int>): Result<(Vec3, Vec3)>
  {
    if |units| < 3 then Err(IndexOutOfBounds)
    else
      var cp := Units.Converted(Seq3(pos), posUnits, units[..3]);
      if cp.Err? then Err(cp.error)
      else if !velocities then Ok((VecOf(cp.value), vel))
      else if |units| < 6 then Err(IndexOutOfBounds)
      else
        var cv := Units.Converted(Seq3(vel), velUnits, units[3..6]);
        if cv.Err? then Err(cv.error)
        else Ok((VecOf(cp.value), VecOf(cv.value)))
  }

  /** Every unit of the sequence is either unspecified or a unit of the tables. */
  predicate KnownUnits(units: seq<int>)
  {
    forall i :: 0 <= i < |units| && units[i] != NO_SPECIF ==> Units.IsUnit(units[i])
  }

  /**
   * Asking finalizeResults for the units a body already has leaves its
   * specified coordinates as they are.
   */
  lemma {:induction false} FinalizedInOwnUnits(pos: Vec3, posUnits: seq<int>, vel: Vec3, velUnits: seq<int>,
                                               velocities: bool, units: seq<int>)
    requires |posUnits| == 3 && |velUnits| == 3 && KnownUnits(posUnits) && KnownUnits(velUnits)
    requires AllSpecified(posUnits) && AllSpecified(velUnits)
    requires |units| >= 3 && units[..3] == posUnits
    requires velocities ==> |units| >= 6 && units[3..6] == velUnits
    ensures Finalized(pos, posUnits, vel, velUnits, velocities, units) == Ok((pos, vel))
  {
    Units.ConvertSameUnits(Seq3(pos), posUnits);
    if velocities {
      Units.ConvertSameUnits(Seq3(vel), velUnits);
    }
  }

  /** The position half of the unit step (AstroContext.java:490-495); `units` has at least three entries. */
  method ConvertPosition(b: Body, units: seq<int>) returns (r: Result<()>)
    requires b.Valid() && |units| >= 3
    modifies b, b.coords
    ensures b.Valid() && b.index == old(b.index) && b.frame == old(b.frame)
    ensures b.coordExpr == old(b.coordExpr) && b.ce == old(b.ce)
    ensures b.velUnits == old(b.velUnits) && b.Velocity() == old(b.Velocity())
    ensures var cp := Units.Converted(Seq3(old(b.Position())), old(b.posUnits[..]), units[..3]);
      && (cp.Err? ==> r == Err(cp.error))
      && (cp.Ok? ==> r == Ok(()) && b.Position() == VecOf(cp.value))
    ensures r.Ok? ==> fresh(b.posUnits) && b.posUnits[..] == units[..3]
  {
    var pos := b.Position();
    var coords := new Double[3][pos.x0, pos.x1, pos.x2];
    var target := new int[3][units[0], units[1], units[2]];
    assert target[..] == units[..3];
    var cp := Units.ConvertUnits(coords, b.posUnits, target);
    if cp.Err? {
      return Err(cp.error);
    }
    b.SetPositionCoords(VecOf(cp.value));
    var newUnits := new int[3][units[0], units[1], units[2]];
    assert newUnits[..] == units[..3];
    var _ := b.SetPositionUnits(newUnits);
    return Ok(());
  }

  /** The velocity half of the unit step (AstroContext.java:512-517); `units` has at least six entries. */
  method ConvertVelocity(b: Body, units: seq<int>) returns (r: Result<()>)
    requires b.Valid() && |units| >= 6
    modifies b, b.coords
    ensures b.Valid() && b.index == old(b.index) && b.frame == old(b.frame)
    ensures b.coordExpr == old(b.coordExpr) && b.ce == old(b.ce)
    ensures b.posUnits == old(b.posUnits) && b.Position() == old(b.Position())
    ensures var cv := Units.Converted(Seq3(old(b.Velocity())), old(b.velUnits[..]), units[3..6]);
      && (cv.Err? ==> r == Err(cv.error))
      && (cv.Ok? ==> r == Ok(()) && b.Velocity() == VecOf(cv.value))
    ensures r.Ok? ==> fresh(b.velUnits) && b.velUnits[..] == units[3..6]
  {
    var vel := b.Velocity();
    var coords := new Double[3][vel.x0, vel.x1, vel.x2];
    var target := new int[3][units[3], units[4], units[5]];
    assert target[..] == units[3..6];
    var cv := Units.ConvertUnits(coords, b.velUnits, target);
    if cv.Err? {
      return Err(cv.error);
    }
    b.SetVelocityCoords(VecOf(cv.value));
    var newUnits := new int[3][units[3], units[4], units[5]];
    assert newUnits[..] == units[3..6];
    var _ := b.SetVelocityUnits(newUnits);
    return Ok(());
  }

  /**
   * The unit step of finalizeResults for one body (AstroContext.java:489-518):
   * the converted position and velocity are stored, and new unit arrays
   * copied from `units`.
   */
  method ConvertBody(b: Body, velocities: bool, units: seq<int>) returns (r: Result<()>)
    requires b.Valid()
    modifies b, b.coords
    ensures b.Valid() && b.index == old(b.index) && b.frame == old(b.frame)
    ensures b.coordExpr == old(b.coordExpr) && b.ce == old(b.ce)
    ensures var f := Finalized(old(b.Position()), old(b.posUnits[..]), old(b.Velocity()), old(b.velUnits[..]),
                               velocities, units);
      && (r.Ok? <==> f.Ok?)
      && (r.Err? ==> r.error == f.error)
      && (r.Ok? ==> b.Position() == f.value.0 && b.Velocity() == f.value.1)
    ensures r.Ok? ==> fresh(b.posUnits) && b.posUnits[..] == units[..3]
    ensures r.Ok? && velocities ==> fresh(b.velUnits) && b.velUnits[..] == units[3..6]
    ensures !velocities ==> b.velUnits == old(b.velUnits)
  {
    if |units| < 3 {
      return Err(IndexOutOfBounds);
    }
    r := ConvertPosition(b, units);
    if r.Err? || !velocities {
      return;
    }
    if |units| < 6 {
      return Err(IndexOutOfBounds);
    }
    r := ConvertVelocity(b, units);
  }

  class AstroContext {
    const jd: real
    const bodies: array<Body>
    const moonIndex: int
    const setting: EngineSetting
    const statics: StaticUnits
    /** The body indexes the context was built with; each position keeps its index. */
    ghost const indexes: seq<int>

    ghost function Objs(): set<object>
      reads bodies
    {
      set i | 0 <= i < bodies.Length :: bodies[i]
    }

    ghost function CoordArrays(): set<object>
      reads bodies
    {
      set i | 0 <= i < bodies.Length :: bodies[i].coords
    }

    /**
     * One valid body per index, each at the position of its index, no two
     * positions sharing a body or a coordinate array.
     */
    ghost predicate Valid()
      reads bodies, Objs()
    {
      && statics.Valid()
      && bodies.Length == |indexes|
      && (forall i :: 0 <= i < bodies.Length ==> bodies[i].Valid() && bodies[i].index == indexes[i])
      && (forall i, j :: 0 <= i < j < bodies.Length ==>
            bodies[i] != bodies[j] && bodies[i].coords != bodies[j].coords)
    }

    /**
     * AstroContext(jd, timeFrame, bodyIndexes): a UTC day is converted to TT,
     * one new body per index in order, and the position of the last MOON.
     */
    constructor (jd: real, timeFrame: int, bodyIndexes: array<int>, setting: EngineSetting, statics: StaticUnits)
      requires statics.Valid()
      ensures Valid() && fresh(bodies)
      ensures this.jd == (if timeFrame == UTC then Time.TT(jd) else jd)
      ensures indexes == bodyIndexes[..] && moonIndex == LastMoon(bodyIndexes[..]) && MoonIndexed()
      ensures this.setting == setting && this.statics == statics
      ensures forall i :: 0 <= i < bodies.Length ==>
        && fresh(bodies[i]) && fresh(bodies[i].coords)
        && bodies[i].frame == NO_SPECIF && bodies[i].coordExpr == NO_SPECIF
        && bodies[i].posUnits == statics.noSpecif && bodies[i].velUnits == statics.noSpecif
        && bodies[i].Position() == ZERO && bodies[i].Velocity() == ZERO
    {
      this.jd := if timeFrame == UTC then Time.TT(jd) else jd;
      var made, moon := NewBodies(bodyIndexes[..], statics);
      LastMoonIsLast(bodyIndexes[..]);
      bodies := new Body[|made|](k requires 0 <= k < |made| => made[k]);
      moonIndex := moon;
      indexes := bodyIndexes[..];
      this.setting := setting;
      this.statics := statics;
    }

    /** getBody: the first body with the given index, or null. */
    method GetBody(whichBody: int) returns (r: Option<Body>)
      requires Valid()
      ensures r.None? <==> whichBody !in indexes
      ensures r.Some? ==> exists i :: (0 <= i < bodies.Length && bodies[i] == r.value
        && indexes[i] == whichBody && whichBody !in indexes[..i])
    {
      for i := 0 to bodies.Length
        invariant whichBody !in indexes[..i]
      {
        if bodies[i].index == whichBody {
          return Some(bodies[i]);
        }
        assert indexes[..i + 1] == indexes[..i] + [indexes[i]];
      }
      assert indexes[..bodies.Length] == indexes;
      return None;
    }

    /** The unit arrays the bodies point to, which sphereToCart rewrites in place. */
    ghost function PosUnitArrays(): set<object>
      reads bodies, Objs()
    {
      set i | 0 <= i < bodies.Length :: bodies[i].posUnits
    }

    /** The unit arrays every context shares (UnitsConstants). */
    ghost function StaticArrays(): set<object>
    {
      {statics.noSpecif, statics.auAuAu, statics.audAudAud}
    }

    /** The position the context keeps for the Moon is the last MOON of its indexes. */
    ghost predicate MoonIndexed()
    {
      && moonIndex == LastMoon(indexes)
      && (moonIndex != NO_SPECIF ==> 0 <= moonIndex < |indexes| && indexes[moonIndex] == MOON)
    }

    /** Every body's state, position by position. */
    ghost function States(): (r: seq<BodyState>)
      requires Valid()
      reads bodies, Objs(), CoordArrays(), PosUnitArrays(), set i | 0 <= i < bodies.Length :: bodies[i].velUnits
      ensures |r| == bodies.Length && forall k :: 0 <= k < bodies.Length ==> r[k] == bodies[k].State()
    {
      seq(bodies.Length, k requires 0 <= k < bodies.Length && bodies[k].Valid()
                           reads if 0 <= k < bodies.Length
                                 then {bodies, bodies[k], bodies[k].coords, bodies[k].posUnits, bodies[k].velUnits}
                                 else {bodies}
                           => bodies[k].State())
    }

    /** calcMoonCoord (AstroContext.java:527-536): ELP82 writes into the Moon's body. */
    method MoonStage(th: Theories, precision: real, velocities: bool) returns (r: Result<()>)
      requires Valid() && MoonIndexed() && moonIndex != NO_SPECIF
      modifies bodies[moonIndex], bodies[moonIndex].coords
      ensures Valid()
      ensures r.Ok? <==> th.elp82(Some(jd), MOON, precision, velocities).Ok?
      ensures r.Err? ==> r.error == th.elp82(Some(jd), MOON, precision, velocities).error
      ensures r.Ok? ==> th.elp82(Some(jd), MOON, precision, velocities) == Ok(bodies[moonIndex].State())
      ensures bodies[moonIndex].posUnits == old(bodies[moonIndex].posUnits) || fresh(bodies[moonIndex].posUnits)
    {
      var b := bodies[moonIndex];
      var s := th.elp82(Some(jd), b.index, precision, velocities);
      if s.Err? {
        return Err(s.error);
      }
      b.Load(s.value);
      return Ok(());
    }

    /**
     * The state stage 1 leaves in body b of the given index, which held the
     * body `before`, with velocity `beforeVel` and velocity units
     * `beforeVelUnits`; `geom` is the geometric Earth.
     */
    ghost predicate TheoryOutcome(b: Body, index: int, before: Body, beforeVel: Vec3, beforeVelUnits: array<int>,
                                  th: Theories, geom: Body, precision: real, velocities: bool)
      requires b.Valid() && geom.Valid()
      reads b, b.coords, b.posUnits, b.velUnits, geom, geom.coords, geom.posUnits, geom.velUnits
    {
      if index == SUN then
        && b == before && b.frame == FRAME_THEORY && b.coordExpr == CARTESIAN
        && b.posUnits == statics.auAuAu && b.Position() == ZERO
        && (if velocities then b.velUnits == statics.audAudAud && b.Velocity() == ZERO
            else b.velUnits == beforeVelUnits && b.Velocity() == beforeVel)
      else if index == MOON then
        b == before
      else if index == EARTH then
        && b.State() == geom.State().(ce := None)
        && b.posUnits == geom.posUnits && b.velUnits == geom.velUnits
      else
        b == before && Evaluate(th, Some(jd), index, precision, velocities) == Ok(b.State())
    }

    /** Stage 1 for one body: the Sun zeroed, the Moon kept, the Earth cloned, the rest evaluated. */
    method TheoryFor(i: int, th: Theories, geom: Body, precision: real, velocities: bool)
      returns (r: Result<()>)
      requires Valid() && 0 <= i < bodies.Length
      requires geom.Valid() && geom.index == EARTH && geom !in Objs() && geom.coords !in CoordArrays()
      modifies bodies, bodies[i], bodies[i].coords
      ensures Valid()
      ensures forall k :: 0 <= k < bodies.Length && k != i ==> bodies[k] == old(bodies[k]) && unchanged(bodies[k], bodies[k].coords)
      ensures geom !in Objs() && geom.coords !in CoordArrays()
      ensures Succeeds(bodies[i], old(bodies[i]), {statics.auAuAu, geom.posUnits})
      ensures indexes[i] == MOON ==> bodies[i] == old(bodies[i]) && unchanged(bodies[i], bodies[i].coords)
      ensures r.Err? ==> && indexes[i] != SUN && indexes[i] != MOON && indexes[i] != EARTH
                         && Evaluate(th, Some(jd), indexes[i], precision, velocities) == Err(r.error)
      ensures r.Ok? ==> TheoryOutcome(bodies[i], indexes[i], old(bodies[i]), old(bodies[i].Velocity()),
                                      old(bodies[i].velUnits), th, geom, precision, velocities)
    {
      var b := bodies[i];
      if b.index == SUN {
        SetTheoryOrigin(b, statics, velocities);
      } else if b.index == MOON {
      } else if b.index == EARTH {
        var c := geom.DoClone();
        bodies[i] := c;
      } else {
        var s := Evaluate(th, Some(jd), b.index, precision, velocities);
        if s.Err? {
          return Err(s.error);
        }
        b.Load(s.value);
      }
      return Ok(());
    }

    /**
     * Stage 1 (AstroContext.java:216-239): each body in turn through
     * TheoryFor; the first failing evaluation ends the stage.
     */
    method TheoryStage(th: Theories, geom: Body, precision: real, velocities: bool) returns (r: Result<()>)
      requires Valid()
      requires geom.Valid() && geom.index == EARTH && geom !in Objs() && geom.coords !in CoordArrays()
      modifies bodies, Objs(), CoordArrays()
      ensures Valid()
      ensures geom !in Objs() && geom.coords !in CoordArrays()
      ensures forall k :: 0 <= k < bodies.Length ==> Succeeds(bodies[k], old(bodies[k]), {statics.auAuAu, geom.posUnits})
      ensures r.Ok? ==> forall k :: 0 <= k < bodies.Length ==>
        TheoryOutcome(bodies[k], indexes[k], old(bodies[k]), old(bodies[k].Velocity()), old(bodies[k].velUnits),
                      th, geom, precision, velocities)
      ensures r.Err? ==> exists k :: 0 <= k < bodies.Length && Evaluate(th, Some(jd), indexes[k], precision, velocities) == Err(r.error)
    {
      r := Ok(());
      var i := 0;
      while i < bodies.Length && r.Ok?
        invariant i <= bodies.Length && Valid()
        invariant geom !in Objs() && geom.coords !in CoordArrays()
        invariant forall k :: i <= k < bodies.Length ==> bodies[k] == old(bodies[k]) && unchanged(bodies[k], bodies[k].coords)
        invariant forall k :: 0 <= k < i ==> Succeeds(bodies[k], old(bodies[k]), {statics.auAuAu, geom.posUnits})
        invariant r.Ok? ==> forall k :: 0 <= k < i ==>
          TheoryOutcome(bodies[k], indexes[k], old(bodies[k]), old(bodies[k].Velocity()), old(bodies[k].velUnits),
                        th, geom, precision, velocities)
        invariant r.Err? ==> 0 < i && Evaluate(th, Some(jd), indexes[i - 1], precision, velocities) == Err(r.error)
      {
        r := TheoryFor(i, th, geom, precision, velocities);
        i := i + 1;
      }
    }

    /**
     * The state stage 2 gives the body of the given index, which was in state
     * `was`: the Sun and the Moon untouched, a clone of the apparent Earth
     * (state `appState`) for the Earth, and every planet evaluated again one
     * light time earlier, the light time being taken over its distance to the
     * geometric Earth `posGE`.
     */
    ghost function LightTimeResult(index: int, was: BodyState, appState: BodyState,
                                   th: Theories, posGE: Vec3, m: Lib, precision: real, velocities: bool): Result<BodyState>
    {
      if index == SUN || index == MOON then Ok(was)
      else if index == EARTH then Ok(appState.(ce := None))
      else Evaluate(th, Minus(Some(jd), LightDays(m, Sub(posGE, was.pos))), index, precision, velocities)
    }

    /** Body b holds the state stage 2 gives a body of the given index that was in state `was`. */
    ghost predicate LightTimeDone(b: Body, index: int, was: BodyState, appState: BodyState,
                                  th: Theories, posGE: Vec3, m: Lib, precision: real, velocities: bool)
      requires b.Valid()
      reads b, b.coords, b.posUnits, b.velUnits
    {
      LightTimeResult(index, was, appState, th, posGE, m, precision, velocities) == Ok(b.State())
    }

    /**
     * Body b, at a position that held `before`, is that body or a new one with
     * a new coordinate array, and its position-unit array is the one `before`
     * had, one of the `handed` arrays, or a new one.
     */
    twostate predicate Succeeds(new b: Body, before: Body, handed: set<array<int>>)
      reads b
    {
      && (b == before || (fresh(b) && fresh(b.coords)))
      && (b.posUnits == old(before.posUnits) || b.posUnits in handed || fresh(b.posUnits))
    }

    /** Body b is `before`, with the position-unit array it had and in state `was`. */
    twostate predicate Untouched(new b: Body, before: Body, was: BodyState)
      reads b, b.coords, b.posUnits, b.velUnits
    {
      b == before && b.posUnits == old(before.posUnits) && b.Valid() && b.State() == was
    }

    /** Stage 2 for one body (AstroContext.java:291-315). */
    method LightTimeFor(i: int, th: Theories, app: Body, posGE: Vec3, m: Lib, precision: real, velocities: bool)
      returns (r: Result<()>)
      requires Valid() && 0 <= i < bodies.Length
      requires app.Valid() && app.index == EARTH && app !in Objs() && app.coords !in CoordArrays()
      modifies bodies, bodies[i], bodies[i].coords
      ensures Valid()
      ensures forall k :: 0 <= k < bodies.Length && k != i ==>
        bodies[k] == old(bodies[k]) && unchanged(bodies[k], bodies[k].coords, bodies[k].posUnits, bodies[k].velUnits)
      ensures app !in Objs() && app.coords !in CoordArrays()
      ensures indexes[i] != EARTH ==> bodies[i] == old(bodies[i])
      ensures Succeeds(bodies[i], old(bodies[i]), {app.posUnits})
      ensures r.Err? ==> LightTimeResult(indexes[i], old(bodies[i].State()), app.State(), th, posGE, m, precision, velocities).Err?
      ensures r.Ok? ==> LightTimeDone(bodies[i], indexes[i], old(bodies[i].State()), app.State(), th, posGE, m, precision, velocities)
    {
      var b := bodies[i];
      if b.index == SUN {
        // already at the origin
      } else if b.index == MOON {
        // the Moon's light time is not written
      } else if b.index == EARTH {
        var c := app.DoClone();
        bodies[i] := c;
      } else {
        var dt := LightDays(m, Sub(posGE, b.Position()));
        var s := Evaluate(th, Minus(Some(jd), dt), b.index, precision, velocities);
        if s.Err? {
          return Err(s.error);
        }
        b.Load(s.value);
      }
      return Ok(());
    }

    /**
     * Stage 2 (AstroContext.java:291-316): apparent heliocentric coordinates,
     * body by body from the states `was` the bodies are in; the first failing
     * evaluation ends the stage.
     */
    method LightTimeStage(th: Theories, app: Body, posGE: Vec3, m: Lib, precision: real, velocities: bool,
                          ghost was: seq<BodyState>, ghost appState: BodyState)
      returns (r: Result<()>)
      requires Valid()
      requires app.Valid() && app.index == EARTH && app !in Objs() && app.coords !in CoordArrays()
      requires appState == app.State()
      requires |was| == bodies.Length && forall k :: 0 <= k < bodies.Length ==> was[k] == bodies[k].State()
      modifies bodies, Objs(), CoordArrays()
      ensures Valid()
      ensures app !in Objs() && app.coords !in CoordArrays()
      ensures forall k :: 0 <= k < bodies.Length ==> Succeeds(bodies[k], old(bodies[k]), {app.posUnits})
      ensures r.Ok? <==> forall k :: 0 <= k < bodies.Length ==>
        LightTimeResult(indexes[k], was[k], appState, th, posGE, m, precision, velocities).Ok?
      ensures r.Ok? ==> forall k :: 0 <= k < bodies.Length ==>
        LightTimeDone(bodies[k], indexes[k], was[k], appState, th, posGE, m, precision, velocities)
    {
      r := Ok(());
      var i := 0;
      while i < bodies.Length && r.Ok?
        invariant i <= bodies.Length && Valid()
        invariant app !in Objs() && app.coords !in CoordArrays() && app.State() == appState
        invariant forall k :: i <= k < bodies.Length ==> Untouched(bodies[k], old(bodies[k]), was[k])
        invariant forall k :: 0 <= k < i ==> Succeeds(bodies[k], old(bodies[k]), {app.posUnits})
        invariant r.Ok? ==> forall k :: 0 <= k < i ==>
          LightTimeDone(bodies[k], indexes[k], was[k], appState, th, posGE, m, precision, velocities)
        invariant r.Err? ==> 0 < i && LightTimeResult(indexes[i - 1], was[i - 1], appState, th, posGE, m, precision, velocities).Err?
      {
        r := LightTimeFor(i, th, app, posGE, m, precision, velocities);
        i := i + 1;
      }
    }

    /**
     * The state stage 3 leaves in body b of the given index, which held the
     * body `before` in state `was`: the Sun at minus the apparent Earth
     * (`appPos`, `appVel`), the Moon untouched, and every other body shifted
     * by the geometric Earth (`geomPos`, `geomVel`). The Earth is first
     * replaced by a new body and, the case falling through, that new body
     * receives the shifted coordinates of the old one while keeping its
     * unspecified frame, expression and units.
     */
    ghost predicate GeocentricOutcome(b: Body, index: int, before: Body, was: BodyState,
                                      appPos: Vec3, appVel: Vec3, geomPos: Vec3, geomVel: Vec3, velocities: bool)
      requires b.Valid()
      reads b, b.coords, b.posUnits, b.velUnits
    {
      if index == SUN then
        && b == before
        && b.State() == was.(pos := Negate(appPos), vel := if velocities then Negate(appVel) else was.vel)
      else if index == MOON then
        b == before && b.State() == was
      else if index == EARTH then
        && b.index == EARTH && b.frame == NO_SPECIF && b.coordExpr == NO_SPECIF
        && b.posUnits == statics.noSpecif && b.velUnits == statics.noSpecif && b.ce == None
        && b.Position() == Sub(was.pos, geomPos)
        && b.Velocity() == (if velocities then Sub(was.vel, geomVel) else ZERO)
      else
        && b == before
        && b.State() == was.(pos := Sub(was.pos, geomPos), vel := if velocities then Sub(was.vel, geomVel) else was.vel)
    }

    /**
     * Stage 3 for one body (AstroContext.java:324-343), from the apparent
     * Earth (`appPos`, `appVel`) and the geometric Earth (`geomPos`, `geomVel`).
     */
    method GeocentricFor(i: int, appPos: Vec3, appVel: Vec3, geomPos: Vec3, geomVel: Vec3, velocities: bool)
      requires Valid() && 0 <= i < bodies.Length
      modifies bodies, bodies[i].coords
      ensures Valid()
      ensures forall k :: 0 <= k < bodies.Length && k != i ==> bodies[k] == old(bodies[k]) && unchanged(bodies[k].coords)
      ensures bodies[i] == old(bodies[i]) || (fresh(bodies[i]) && fresh(bodies[i].coords))
      ensures bodies[i].posUnits == old(bodies[i].posUnits) || bodies[i].posUnits == statics.noSpecif
      ensures GeocentricOutcome(bodies[i], indexes[i], old(bodies[i]), old(bodies[i].State()),
                                appPos, appVel, geomPos, geomVel, velocities)
    {
      var b := bodies[i];
      if b.index == SUN {
        SetCoords(b, Negate(appPos), Negate(appVel), velocities);
      } else if b.index == MOON {
        // the Moon's change of centre is not written
      } else {
        var target := b;
        if b.index == EARTH {
          target := new Body.OfIndex(EARTH, statics);
          bodies[i] := target;
        }
        // the EARTH case falls through: target is the new body, b the old one
        SetCoords(target, Sub(b.Position(), geomPos), Sub(b.Velocity(), geomVel), velocities);
      }
    }

    /** Stage 3 (AstroContext.java:323-344): geocentric coordinates, from bodies in states `was`. */
    method GeocentricStage(appPos: Vec3, appVel: Vec3, geomPos: Vec3, geomVel: Vec3, velocities: bool,
                           ghost was: seq<BodyState>)
      requires Valid()
      requires |was| == bodies.Length && forall k :: 0 <= k < bodies.Length ==> was[k] == bodies[k].State()
      modifies bodies, CoordArrays()
      ensures Valid()
      ensures forall k :: 0 <= k < bodies.Length ==> bodies[k] == old(bodies[k]) || (fresh(bodies[k]) && fresh(bodies[k].coords))
      ensures forall k :: 0 <= k < bodies.Length ==> bodies[k].posUnits == old(bodies[k].posUnits) || bodies[k].posUnits == statics.noSpecif
      ensures forall k :: 0 <= k < bodies.Length ==>
        GeocentricOutcome(bodies[k], indexes[k], old(bodies[k]), was[k], appPos, appVel, geomPos, geomVel, velocities)
    {
      for i := 0 to bodies.Length
        invariant Valid()
        invariant forall k :: i <= k < bodies.Length ==> bodies[k] == old(bodies[k]) && bodies[k].State() == was[k]
        invariant forall k :: 0 <= k < i ==> bodies[k] == old(bodies[k]) || (fresh(bodies[k]) && fresh(bodies[k].coords))
        invariant forall k :: 0 <= k < i ==>
          GeocentricOutcome(bodies[k], indexes[k], old(bodies[k]), was[k], appPos, appVel, geomPos, geomVel, velocities)
      {
        GeocentricFor(i, appPos, appVel, geomPos, geomVel, velocities);
      }
    }

    /**
     * The expression step of finalizeResults for one body
     * (AstroContext.java:475-483): the frame is set, then cartToSphere when
     * spherical coordinates are asked of a CARTESIAN body, or sphereToCart
     * when cartesian ones are asked of a SPHERICAL body.
     */
    method ExpressBody(b: Body, frame: int, sphereCart: int, velocities: bool, m: Lib) returns (r: Result<()>)
      requires b.Valid() && statics.Valid()
      modifies b, b.coords, b.posUnits
      ensures b.Valid() && b.index == old(b.index) && b.ce == old(b.ce) && b.frame == frame
      ensures r.Ok? ==> b.coordExpr == ExpressionAfter(sphereCart, old(b.coordExpr))
      ensures b.posUnits == old(b.posUnits) || fresh(b.posUnits)
      ensures !velocities ==> b.velUnits == old(b.velUnits)
      ensures !(sphereCart == SPHERICAL && old(b.coordExpr) == CARTESIAN) &&
              !(sphereCart == CARTESIAN && old(b.coordExpr) == SPHERICAL) ==>
        && r == Ok(()) && b.coordExpr == old(b.coordExpr)
        && b.Position() == old(b.Position()) && b.Velocity() == old(b.Velocity())
        && b.posUnits == old(b.posUnits) && b.posUnits[..] == old(b.posUnits[..]) && b.velUnits == old(b.velUnits)
      ensures r.Ok? && sphereCart == SPHERICAL && old(b.coordExpr) == CARTESIAN ==>
        b.posUnits[1] == UNIT_RAD && b.posUnits[2] == UNIT_RAD
      ensures r.Ok? && sphereCart == CARTESIAN && old(b.coordExpr) == SPHERICAL ==>
        AllSame(b.posUnits[..])
    {
      b.SetFrame(frame);
      r := Ok(());
      if sphereCart == SPHERICAL && b.coordExpr == CARTESIAN {
        r := b.CartToSphere(velocities, m);
        if r.Err? {
          return;
        }
      }
      if sphereCart == CARTESIAN && b.coordExpr == SPHERICAL {
        r := b.SphereToCart(velocities, m, statics);
      }
    }

    /**
     * What finalizeResults leaves in one body that had expression `wasExpr`
     * and velocity units `wasVelUnits`: the requested frame, the expression
     * step's tag, and the requested units.
     */
    ghost predicate BodyFinalised(b: Body, wasExpr: int, wasVelUnits: array<int>,
                              frame: int, sphereCart: int, velocities: bool, units: seq<int>)
      reads if velocities then {b, b.posUnits, b.velUnits} else {b, b.posUnits}
    {
      && b.frame == frame
      && b.coordExpr == ExpressionAfter(sphereCart, wasExpr)
      && |units| >= 3 && b.posUnits[..] == units[..3]
      && (velocities ==> |units| >= 6 && b.velUnits[..] == units[3..6])
      && (!velocities ==> b.velUnits == wasVelUnits)
    }

    /**
     * finalizeResults (AstroContext.java:454-521): every body in turn takes
     * the requested frame, is expressed as requested and converted to the
     * requested units; the first failure ends the loop.
     */
    method FinalizeResults(frame: int, sphereCart: int, velocities: bool, units: seq<int>, m: Lib) returns (r: Result<()>)
      requires Valid()
      modifies Objs(), CoordArrays(), PosUnitArrays()
      ensures Valid()
      ensures forall k :: 0 <= k < bodies.Length ==> bodies[k].index == old(bodies[k].index)
      ensures r.Ok? ==> bodies.Length == 0 || (|units| >= 3 && (velocities ==> |units| >= 6))
      ensures bodies.Length > 0 && (|units| < 3 || (velocities && |units| < 6)) ==> r.Err?
      ensures r.Ok? ==> forall k :: 0 <= k < bodies.Length ==>
        && fresh(bodies[k].posUnits) && (velocities ==> fresh(bodies[k].velUnits))
        && BodyFinalised(bodies[k], old(bodies[k].coordExpr), old(bodies[k].velUnits), frame, sphereCart, velocities, units)
    {
      r := Ok(());
      var i := 0;
      while i < bodies.Length && r.Ok?
        invariant i <= bodies.Length && Valid()
        invariant forall k :: 0 <= k < bodies.Length ==> bodies[k].index == old(bodies[k].index)
        invariant forall k :: i <= k < bodies.Length ==> unchanged(bodies[k])
        invariant r.Ok? && i > 0 ==> |units| >= 3 && (velocities ==> |units| >= 6)
        invariant i == 0 ==> r.Ok?
        invariant r.Ok? ==> forall k :: 0 <= k < i ==>
          && fresh(bodies[k].posUnits) && (velocities ==> fresh(bodies[k].velUnits))
          && BodyFinalised(bodies[k], old(bodies[k].coordExpr), old(bodies[k].velUnits), frame, sphereCart, velocities, units)
      {
        r := FinalizeBody(i, frame, sphereCart, velocities, units, m);
        i := i + 1;
      }
    }

    /** One pass of the finalizeResults loop, on the body at position i. */
    method FinalizeBody(i: int, frame: int, sphereCart: int, velocities: bool, units: seq<int>, m: Lib)
      returns (r: Result<()>)
      requires Valid() && 0 <= i < bodies.Length
      modifies bodies[i], bodies[i].coords, bodies[i].posUnits
      ensures Valid()
      ensures bodies[i].index == old(bodies[i].index)
      ensures r.Ok? ==> |units| >= 3 && (velocities ==> |units| >= 6)
      ensures |units| < 3 || (velocities && |units| < 6) ==> r.Err?
      ensures r.Ok? ==> fresh(bodies[i].posUnits) && (velocities ==> fresh(bodies[i].velUnits))
      ensures r.Ok? ==>
        BodyFinalised(bodies[i], old(bodies[i].coordExpr), old(bodies[i].velUnits), frame, sphereCart, velocities, units)
    {
      var b := bodies[i];
      r := ExpressBody(b, frame, sphereCart, velocities, m);
      if r.Err? {
        return;
      }
      r := ConvertBody(b, velocities, units);
    }

    /**
     * A rotation stage: every body's position, and velocity when asked for,
     * multiplied by M. Stages 4 to 6 skip the body at array POSITION MOON
     * (AstroContext.java:352, 374, 394), not the body whose index is MOON;
     * stage 7 skips none.
     */
    method RotateStage(M: Mat3, m: Lib, velocities: bool, skipMoonPosition: bool)
      requires Valid()
      modifies CoordArrays()
      ensures Valid()
      ensures Objs() == old(Objs()) && CoordArrays() == old(CoordArrays()) && PosUnitArrays() == old(PosUnitArrays())
      ensures forall k :: 0 <= k < bodies.Length ==>
        if skipMoonPosition && k == MOON then
          bodies[k].Position() == old(bodies[k].Position()) && bodies[k].Velocity() == old(bodies[k].Velocity())
        else
          && bodies[k].Position() == m.mulVec(M, old(bodies[k].Position()))
          && bodies[k].Velocity() == (if velocities then m.mulVec(M, old(bodies[k].Velocity())) else old(bodies[k].Velocity()))
    {
      for i := 0 to bodies.Length
        invariant Valid()
        invariant forall k :: i <= k < bodies.Length ==> unchanged(bodies[k].coords)
        invariant forall k :: 0 <= k < i ==>
          if skipMoonPosition && k == MOON then
            bodies[k].Position() == old(bodies[k].Position()) && bodies[k].Velocity() == old(bodies[k].Velocity())
          else
            && bodies[k].Position() == m.mulVec(M, old(bodies[k].Position()))
            && bodies[k].Velocity() == (if velocities then m.mulVec(M, old(bodies[k].Velocity())) else old(bodies[k].Velocity()))
      {
        if skipMoonPosition && i == MOON {
          // the Moon's own transformation is not written
        } else {
          RotateAt(i, M, m, velocities);
        }
      }
    }

    /** The body at position i rotated by M, the other positions untouched. */
    method RotateAt(i: int, M: Mat3, m: Lib, velocities: bool)
      requires Valid() && 0 <= i < bodies.Length
      modifies bodies[i].coords
      ensures Valid()
      ensures forall k :: 0 <= k < bodies.Length && k != i ==> unchanged(bodies[k].coords)
      ensures bodies[i].Position() == m.mulVec(M, old(bodies[i].Position()))
      ensures bodies[i].Velocity() == if velocities then m.mulVec(M, old(bodies[i].Velocity())) else old(bodies[i].Velocity())
    {
      RotateBody(bodies[i], M, m, velocities);
    }

    /** Every body has the requested frame and units (what a successful finalizeResults leaves). */
    ghost predicate AllFinalised(frame: int, velocities: bool, units: seq<int>)
      requires Valid()
      reads bodies, Objs(), PosUnitArrays(), set i | 0 <= i < bodies.Length :: bodies[i].velUnits
    {
      forall k :: 0 <= k < bodies.Length ==>
        && bodies[k].frame == frame
        && |units| >= 3 && bodies[k].posUnits[..] == units[..3]
        && (velocities ==> |units| >= 6 && bodies[k].velUnits[..] == units[3..6])
    }

    /**
     * Stages 2 to 7 of calcBodyCoords (AstroContext.java:277-433), from the
     * geometric Earth `geom`: the apparent Earth one light time earlier, then
     * the light-time correction of every body and the later stages.
     * `trace` lists the stages entered.
     */
    method ApparentStages(frame: int, sphereCart: int, precision: real, velocities: bool, units: seq<int>,
                          th: Theories, m: Lib, geom: Body) returns (r: Result<()>, ghost trace: seq<Stage>)
      requires Valid()
      requires geom.Valid() && geom !in Objs() && geom.coords !in CoordArrays()
      modifies bodies, Objs(), CoordArrays(), PosUnitArrays(), StaticArrays()
      ensures Valid()
      ensures trace <= ApparentPlan(frame)
      ensures r.Ok? ==> trace == ApparentPlan(frame)
      ensures r.Ok? ==> (frame == FRAME_EQUATORIAL || frame == FRAME_ECLIPTIC) && AllFinalised(frame, velocities, units)
      ensures frame != FRAME_EQUATORIAL && frame != FRAME_ECLIPTIC ==> r.Err?
    {
      var posGE := geom.Position();
      var aps := th.vsop87(Minus(Some(jd), LightDays(m, posGE)), EARTH, precision, velocities);
      if aps.Err? {
        return Err(aps.error), [LightTimeCorrection];
      }
      var app := NewBody(EARTH, aps.value, statics);
      r, trace := LightTimeOn(frame, sphereCart, precision, velocities, units, th, m, geom, app);
    }

    /**
     * After a stage that only put new bodies in the array, every body,
     * coordinate array and position-unit array is an old one, a new one, or
     * one of the `handed` position-unit arrays.
     */
    twostate lemma FramesGrew(handed: set<array<int>>)
      requires forall k :: 0 <= k < bodies.Length ==> Succeeds(bodies[k], old(bodies[k]), handed)
      ensures forall o :: o in Objs() ==> o in old(Objs()) || fresh(o)
      ensures forall o :: o in CoordArrays() ==> o in old(CoordArrays()) || fresh(o)
      ensures forall o :: o in PosUnitArrays() ==> o in old(PosUnitArrays()) || o in handed || fresh(o)
    {
    }

    /** Stage 2 with the apparent Earth `app`, then stages 3 to 7. */
    method LightTimeOn(frame: int, sphereCart: int, precision: real, velocities: bool, units: seq<int>,
                       th: Theories, m: Lib, geom: Body, app: Body) returns (r: Result<()>, ghost trace: seq<Stage>)
      requires Valid()
      requires geom.Valid() && geom !in Objs() && geom.coords !in CoordArrays()
      requires app.Valid() && app.index == EARTH && app !in Objs() && app.coords !in CoordArrays() && app != geom
      modifies bodies, Objs(), CoordArrays(), PosUnitArrays(), StaticArrays(), app.posUnits
      ensures Valid()
      ensures trace <= ApparentPlan(frame)
      ensures r.Ok? ==> trace == ApparentPlan(frame)
      ensures r.Ok? ==> (frame == FRAME_EQUATORIAL || frame == FRAME_ECLIPTIC) && AllFinalised(frame, velocities, units)
      ensures frame != FRAME_EQUATORIAL && frame != FRAME_ECLIPTIC ==> r.Err?
    {
      r := LightTimeStage(th, app, geom.Position(), m, precision, velocities, States(), app.State());
      if r.Err? {
        return r, [LightTimeCorrection];
      }
      FramesGrew({app.posUnits});
      ghost var rest;
      r, rest := GeocentricOn(frame, sphereCart, velocities, units, m, geom, app);
      trace := [LightTimeCorrection] + rest;
    }

    /** Stage 3, then stages 4 to 7. */
    method GeocentricOn(frame: int, sphereCart: int, velocities: bool, units: seq<int>, m: Lib,
                        geom: Body, app: Body) returns (r: Result<()>, ghost trace: seq<Stage>)
      requires Valid()
      requires geom.Valid() && geom !in Objs() && geom.coords !in CoordArrays()
      requires app.Valid() && app !in Objs() && app.coords !in CoordArrays()
      modifies bodies, Objs(), CoordArrays(), PosUnitArrays(), StaticArrays()
      ensures Valid()
      ensures trace <= [Geocentric] + EquatorialPlan(frame)
      ensures r.Ok? ==> trace == [Geocentric] + EquatorialPlan(frame)
      ensures r.Ok? ==> (frame == FRAME_EQUATORIAL || frame == FRAME_ECLIPTIC) && AllFinalised(frame, velocities, units)
      ensures frame != FRAME_EQUATORIAL && frame != FRAME_ECLIPTIC ==> r.Err?
    {
      GeocentricStage(app.Position(), app.Velocity(), geom.Position(), geom.Velocity(), velocities, States());
      ghost var rest;
      r, rest := EquatorialStages(frame, sphereCart, velocities, units, m);
      trace := [Geocentric] + rest;
    }

    /**
     * Stages 4 to 6 (AstroContext.java:346-399): the FK5, precession and
     * nutation rotations, each skipping the body at array position MOON.
     */
    method EquatorialRotations(precession: Mat3, nutation: Mat3, m: Lib, velocities: bool)
      requires Valid()
      modifies CoordArrays()
      ensures Valid()
      ensures Objs() == old(Objs()) && CoordArrays() == old(CoordArrays()) && PosUnitArrays() == old(PosUnitArrays())
    {
      RotateStage(BRS_FK5, m, velocities, true);
      RotateStage(precession, m, velocities, true);
      RotateStage(nutation, m, velocities, true);
    }

    /**
     * Stages 4 to 7 (AstroContext.java:346-433): FK5, precession and nutation
     * with the Moon's position skipped, a return at the equatorial frame, then
     * the ecliptic rotation of every position and a return at the ecliptic
     * frame; any other frame ends in an AstroException.
     */
    method EquatorialStages(frame: int, sphereCart: int, velocities: bool, units: seq<int>, m: Lib)
      returns (r: Result<()>, ghost trace: seq<Stage>)
      requires Valid()
      modifies Objs(), CoordArrays(), PosUnitArrays()
      ensures Valid()
      ensures r.Ok? ==> (frame == FRAME_EQUATORIAL || frame == FRAME_ECLIPTIC) && AllFinalised(frame, velocities, units)
      ensures frame != FRAME_EQUATORIAL && frame != FRAME_ECLIPTIC ==> r == Err(AstroFailure)
      ensures trace == EquatorialPlan(frame)
    {
      // MeanTrue only fills its own caches, so its matrices are taken first.
      var precession, nutation, toEcliptic := FrameMatrices(jd, m);
      EquatorialRotations(precession, nutation, m, velocities);
      trace := [ToFk5, Precession, Nutation];
      if frame == FRAME_EQUATORIAL {
        r := FinalizeResults(frame, sphereCart, velocities, units, m);
        return r, trace + [Stage.Finalize];
      }
      r := EclipticStage(toEcliptic, frame, sphereCart, velocities, units, m);
      trace := trace + [ToEcliptic] + (if frame == FRAME_ECLIPTIC then [Stage.Finalize] else []);
    }

    /**
     * Stage 7 (AstroContext.java:410-433): every position turned to the
     * ecliptic, then a return at the ecliptic frame; any other frame ends in
     * an AstroException.
     */
    method EclipticStage(toEcliptic: Mat3, frame: int, sphereCart: int, velocities: bool, units: seq<int>, m: Lib)
      returns (r: Result<()>)
      requires Valid()
      modifies Objs(), CoordArrays(), PosUnitArrays()
      ensures Valid()
      ensures r.Ok? ==> frame == FRAME_ECLIPTIC && AllFinalised(frame, velocities, units)
      ensures frame != FRAME_ECLIPTIC ==> r == Err(AstroFailure)
    {
      RotateStage(toEcliptic, m, velocities, false);
      if frame == FRAME_ECLIPTIC {
        r := FinalizeResults(frame, sphereCart, velocities, units, m);
        return;
      }
      return Err(AstroFailure);
    }

    /**
     * The internal engine's part of calcBodyCoords (AstroContext.java:190-439):
     * the Moon, the geometric Earth and the theories, then the stages the
     * frame asks for, finishing with finalizeResults; a frame none of the
     * branches returns for ends in an AstroException. `trace` lists the
     * stages entered.
     */
    method CalcWithTheories(frame: int, sphereCart: int, precision: real, velocities: bool, units: seq<int>,
                            th: Theories, m: Lib) returns (r: Result<()>, ghost trace: seq<Stage>)
      requires Valid() && MoonIndexed()
      modifies bodies, Objs(), CoordArrays(), PosUnitArrays(), StaticArrays()
      ensures Valid()
      ensures trace <= Plan(frame, bodies.Length, moonIndex != NO_SPECIF)
      ensures r.Ok? ==> trace == Plan(frame, bodies.Length, moonIndex != NO_SPECIF)
      ensures r.Ok? ==> Finalises(frame, bodies.Length) && AllFinalised(frame, velocities, units)
      ensures !Finalises(frame, bodies.Length) ==> r.Err?
    {
      trace := [];
      if moonIndex != NO_SPECIF {
        trace := [MoonTheory];
        r := MoonStage(th, precision, velocities);
        if r.Err? {
          return;
        }
      }
      ghost var rest;
      r, rest := TheoriesOn(frame, sphereCart, precision, velocities, units, th, m);
      trace := trace + rest;
    }

    /** Stage 1 from the geometric Earth, then the stages the frame asks for. */
    method TheoriesOn(frame: int, sphereCart: int, precision: real, velocities: bool, units: seq<int>,
                      th: Theories, m: Lib) returns (r: Result<()>, ghost trace: seq<Stage>)
      requires Valid()
      modifies bodies, Objs(), CoordArrays(), PosUnitArrays(), StaticArrays()
      ensures Valid()
      ensures trace <= [Theory] + RestOfPlan(frame, bodies.Length)
      ensures r.Ok? ==> trace == [Theory] + RestOfPlan(frame, bodies.Length)
      ensures r.Ok? ==> Finalises(frame, bodies.Length) && AllFinalised(frame, velocities, units)
      ensures !Finalises(frame, bodies.Length) ==> r.Err?
    {
      var gs := th.vsop87(Some(jd), EARTH, precision, velocities);
      if gs.Err? {
        return Err(gs.error), [Theory];
      }
      var geom := NewBody(EARTH, gs.value, statics);
      r := TheoryStage(th, geom, precision, velocities);
      if r.Err? {
        return r, [Theory];
      }
      ghost var rest;
      r, rest := AfterTheories(frame, sphereCart, precision, velocities, units, th, m, geom);
      trace := [Theory] + rest;
    }

    /**
     * What follows stage 1 (AstroContext.java:244-433): the theory frame
     * finalises at once; the heliocentric frame rotates the body at position 0
     * and finalises, its loop returning from its first pass; every other frame
     * goes on to the apparent stages.
     */
    method AfterTheories(frame: int, sphereCart: int, precision: real, velocities: bool, units: seq<int>,
                         th: Theories, m: Lib, geom: Body) returns (r: Result<()>, ghost trace: seq<Stage>)
      requires Valid()
      requires geom.Valid() && geom !in Objs() && geom.coords !in CoordArrays()
      modifies bodies, Objs(), CoordArrays(), PosUnitArrays(), StaticArrays()
      ensures Valid()
      ensures trace <= RestOfPlan(frame, bodies.Length)
      ensures r.Ok? ==> trace == RestOfPlan(frame, bodies.Length)
      ensures r.Ok? ==> Finalises(frame, bodies.Length) && AllFinalised(frame, velocities, units)
      ensures !Finalises(frame, bodies.Length) ==> r.Err?
    {
      if frame == FRAME_THEORY {
        r := FinalizeResults(frame, sphereCart, velocities, units, m);
        return r, [Stage.Finalize];
      }
      if frame == FRAME_EC_HELIO_GEOMETRIC && bodies.Length > 0 {
        r := HelioStage(sphereCart, velocities, units, m);
        return r, [HelioRotation, Stage.Finalize];
      }
      r, trace := ApparentStages(frame, sphereCart, precision, velocities, units, th, m, geom);
    }

    /**
     * The heliocentric branch (AstroContext.java:255-268): the body at
     * position 0 turned to the ecliptic FK5 frame, then finalizeResults.
     */
    method HelioStage(sphereCart: int, velocities: bool, units: seq<int>, m: Lib) returns (r: Result<()>)
      requires Valid() && bodies.Length > 0
      modifies Objs(), CoordArrays(), PosUnitArrays()
      ensures Valid()
      ensures r.Ok? ==> AllFinalised(FRAME_EC_HELIO_GEOMETRIC, velocities, units)
    {
      RotateBody(bodies[0], BRS_FK5, m, velocities);
      r := FinalizeResults(FRAME_EC_HELIO_GEOMETRIC, sphereCart, velocities, units, m);
    }

    /**
     * calcBodyCoords (AstroContext.java:170-191): the engine setting is read
     * first, and a setting never written fails the comparison; Swiss
     * Ephemeris takes over the whole computation; any other engine name runs
     * the internal engine. The units list is not checked.
     */
    method CalcBodyCoords(frame: int, sphereCart: int, precision: real, velocities: bool, units: seq<int>,
                          th: Theories, m: Lib) returns (r: Result<()>, ghost trace: seq<Stage>)
      requires Valid() && MoonIndexed()
      modifies bodies, Objs(), CoordArrays(), PosUnitArrays(), StaticArrays()
      ensures Valid()
      ensures setting.astroEngine.None? ==> r == Err(NullReference) && trace == []
      ensures setting.astroEngine == Some(SWISS_EPHEMERIS) ==>
        && r == (if bodies.Length == 0 then Ok(()) else th.swiss(jd, frame, sphereCart, precision, velocities, units))
        && (forall k :: 0 <= k < |trace| ==> trace[k] == SwissEphemeris)
      ensures InternalEngine() ==>
        && trace <= Plan(frame, bodies.Length, moonIndex != NO_SPECIF)
        && (r.Ok? ==> trace == Plan(frame, bodies.Length, moonIndex != NO_SPECIF))
        && (r.Ok? ==> Finalises(frame, bodies.Length) && AllFinalised(frame, velocities, units))
        && (!Finalises(frame, bodies.Length) ==> r.Err?)
    {
      if setting.astroEngine.None? {
        return Err(NullReference), [];
      }
      if setting.astroEngine.value == SWISS_EPHEMERIS {
        r, trace := SwissStage(frame, sphereCart, precision, velocities, units, th);
        return;
      }
      r, trace := CalcWithTheories(frame, sphereCart, precision, velocities, units, th, m);
    }

    /** The engine setting names an engine other than Swiss Ephemeris. */
    predicate InternalEngine()
      reads setting
    {
      setting.astroEngine.Some? && setting.astroEngine.value != SWISS_EPHEMERIS
    }

    /**
     * calcFromSwissEphemeris (AstroContext.java:541-560): one call of the
     * bridge per body, each handed the whole body array; the first failure
     * ends the loop. The bridge being a function of its arguments, the
     * outcome is that of the first call.
     */
    method SwissStage(frame: int, sphereCart: int, precision: real, velocities: bool, units: seq<int>,
                      th: Theories) returns (r: Result<()>, ghost trace: seq<Stage>)
      ensures r == (if bodies.Length == 0 then Ok(()) else th.swiss(jd, frame, sphereCart, precision, velocities, units))
      ensures forall k :: 0 <= k < |trace| ==> trace[k] == SwissEphemeris
      ensures |trace| == (if r.Ok? then bodies.Length else 1)
    {
      r := Ok(());
      trace := [];
      var i := 0;
      while i < bodies.Length && r.Ok?
        invariant 0 <= i <= bodies.Length && |trace| == i
        invariant forall k :: 0 <= k < |trace| ==> trace[k] == SwissEphemeris
        invariant r == (if i == 0 then Ok(()) else th.swiss(jd, frame, sphereCart, precision, velocities, units))
        invariant r.Err? ==> i == 1
      {
        r := th.swiss(jd, frame, sphereCart, precision, velocities, units);
        trace := trace + [SwissEphemeris];
        i := i + 1;
      }
    }

    /**
     * The two-argument calcBodyCoords (AstroContext.java:146-154): spherical
     * coordinates, precision 0 and the default units as written. With
     * velocities asked for, the internal engine fails on the first body, the
     * three-unit list having no velocity units.
     */
    method CalcBodyCoordsDefault(frame: int, velocities: bool, th: Theories, m: Lib)
      returns (r: Result<()>, ghost trace: seq<Stage>)
      requires Valid() && MoonIndexed()
      modifies bodies, Objs(), CoordArrays(), PosUnitArrays(), StaticArrays()
      ensures Valid()
      ensures InternalEngine() && velocities && bodies.Length > 0 ==> r.Err?
      ensures InternalEngine() && r.Ok? ==> forall k :: 0 <= k < bodies.Length ==>
        bodies[k].frame == frame && bodies[k].posUnits[..] == [UNIT_AU, UNIT_DEG, UNIT_DEG]
    {
      r, trace := CalcBodyCoords(frame, SPHERICAL, 0.0, velocities, DefaultUnitsAsWritten(velocities), th, m);
    }

    /**
     * The two-argument calcBodyCoords with the units its documentation
     * gives: velocities, when asked for, come out in AU/d, deg/d and deg/d.
     */
    method CalcBodyCoordsDefaultIntended(frame: int, velocities: bool, th: Theories, m: Lib)
      returns (r: Result<()>, ghost trace: seq<Stage>)
      requires Valid() && MoonIndexed()
      modifies bodies, Objs(), CoordArrays(), PosUnitArrays(), StaticArrays()
      ensures Valid()
      ensures InternalEngine() && r.Ok? ==> forall k :: 0 <= k < bodies.Length ==>
        && bodies[k].frame == frame && bodies[k].posUnits[..] == [UNIT_AU, UNIT_DEG, UNIT_DEG]
        && (velocities ==> bodies[k].velUnits[..] == [UNIT_AU_PER_D, UNIT_DEG_PER_DAY, UNIT_DEG_PER_DAY])
    {
      r, trace := CalcBodyCoords(frame, SPHERICAL, 0.0, velocities, DefaultUnits(velocities), th, m);
    }

    /** setAstroEngine: writes the static setting, seen by every context that shares it. */
    method SetAstroEngine(name: string)
      modifies setting
      ensures setting.astroEngine == Some(name)
    {
      setting.astroEngine := Some(name);
    }
  }

  /**
   * The units list of the two-argument calcBodyCoords as written
   * (AstroContext.java:147-152): the list is long enough for velocity units
   * exactly when velocities are not asked for.
   */
  function DefaultUnitsAsWritten(velocities: bool): (u: seq<int>)
    ensures |u| >= 6 <==> !velocities
    ensures |u| >= 3 && u[..3] == [UNIT_AU, UNIT_DEG, UNIT_DEG]
  {
    if velocities then [UNIT_AU, UNIT_DEG, UNIT_DEG]
    else [UNIT_AU, UNIT_DEG, UNIT_DEG, UNIT_AU_PER_D, UNIT_DEG_PER_DAY, UNIT_DEG_PER_DAY]
  }

  /**
   * The units list the documentation of the two-argument calcBodyCoords
   * gives: AU, deg, deg for positions and, with velocities, AU/d, deg/d,
   * deg/d for them.
   */
  function DefaultUnits(velocities: bool): (u: seq<int>)
    ensures |u| >= 6 <==> velocities
    ensures |u| >= 3 && u[..3] == [UNIT_AU, UNIT_DEG, UNIT_DEG]
    ensures velocities ==> u[3..6] == [UNIT_AU_PER_D, UNIT_DEG_PER_DAY, UNIT_DEG_PER_DAY]
  {
    DefaultUnitsAsWritten(!velocities)
  }

  /**
   * The matrices of stages 5 to 7, from a MeanTrue at day jd with J2000 as
   * its fixed epoch (AstroContext.java:371-372, 392, 418): precession from J2000
   * to the date, nutation (the identity, the nutation quantities being 0),
   * and the true equator to the ecliptic.
   */
  method FrameMatrices(jd: real, m: Lib) returns (precession: Mat3, nutation: Mat3, toEcliptic: Mat3)
    ensures var p := MeanTrues.PowersOf(jd, MeanTrues.JD2000);
      precession == MeanTrues.PrecessionMatrix(m,
        MeanTrues.Radians(MeanTrues.Quantity(MeanTrues.QTY_THETA_A, p, true)),
        MeanTrues.Radians(MeanTrues.Quantity(MeanTrues.QTY_ZETA_A, p, true)),
        MeanTrues.Radians(MeanTrues.Quantity(MeanTrues.QTY_Z_A, p, true)))
    ensures Sound(m) ==> nutation == IDENTITY
    ensures toEcliptic == MeanTrues.TrueEqToEcMatrix(m, 0.0,
      MeanTrues.Quantity(MeanTrues.QTY_EPSILON_A, MeanTrues.PowersOf(jd, MeanTrues.JD2000), true))
  {
    var mt := new MeanTrues.MeanTrue(jd, MeanTrues.JD2000);
    precession := mt.GetEqPrecessionMatrix(m);
    nutation := mt.GetEqNutationMatrix(m);
    toEcliptic := mt.GetTrueEqToEcMatrix(m);
  }

  /** A body as the context builds it: its index, nothing specified, zero coordinates. */
  ghost predicate Blank(b: Body, index: int, statics: StaticUnits)
    reads b, b.coords
  {
    && b.Valid() && b.index == index
    && b.frame == NO_SPECIF && b.coordExpr == NO_SPECIF
    && b.posUnits == statics.noSpecif && b.velUnits == statics.noSpecif
    && b.Position() == ZERO && b.Velocity() == ZERO
  }

  /** The first |made| bodies are blank bodies of the first indexes. */
  ghost predicate AllBlank(made: seq<Body>, indexes: seq<int>, statics: StaticUnits)
    requires |made| <= |indexes|
    reads made, set k | 0 <= k < |made| :: made[k].coords
  {
    forall k :: 0 <= k < |made| ==> Blank(made[k], indexes[k], statics)
  }

  /** No two bodies, and no two coordinate arrays, are the same object. */
  ghost predicate Distinct(made: seq<Body>)
    reads made
  {
    forall k, l :: 0 <= k < l < |made| ==> made[k] != made[l] && made[k].coords != made[l].coords
  }

  lemma AllBlankStep(made: seq<Body>, indexes: seq<int>, statics: StaticUnits, b: Body)
    requires |made| < |indexes| && AllBlank(made, indexes, statics) && Blank(b, indexes[|made|], statics)
    ensures AllBlank(made + [b], indexes, statics)
  {
    assert forall k :: 0 <= k < |made| ==> (made + [b])[k] == made[k];
  }

  lemma DistinctStep(made: seq<Body>, b: Body)
    requires Distinct(made)
    requires forall k :: 0 <= k < |made| ==> made[k] != b && made[k].coords != b.coords
    ensures Distinct(made + [b])
  {
    assert forall k :: 0 <= k < |made| ==> (made + [b])[k] == made[k];
  }

  /**
   * One new blank body per index, in order, and the position of the last
   * MOON among the indexes.
   */
  method NewBodies(bodyIndexes: seq<int>, statics: StaticUnits) returns (made: seq<Body>, moon: int)
    requires statics.Valid()
    ensures |made| == |bodyIndexes| && moon == LastMoon(bodyIndexes)
    ensures forall k :: 0 <= k < |made| ==> fresh(made[k]) && fresh(made[k].coords)
    ensures AllBlank(made, bodyIndexes, statics) && Distinct(made)
  {
    made := [];
    moon := NO_SPECIF;
    for i := 0 to |bodyIndexes|
      invariant |made| == i
      invariant moon == LastMoon(bodyIndexes[..i])
      invariant forall k :: 0 <= k < i ==> fresh(made[k]) && fresh(made[k].coords)
      invariant AllBlank(made, bodyIndexes, statics) && Distinct(made)
    {
      LastMoonStep(bodyIndexes, i);
      made := AppendBlank(made, bodyIndexes, statics);
      if bodyIndexes[i] == MOON {
        moon := i;
      }
    }
    assert bodyIndexes[..|bodyIndexes|] == bodyIndexes;
  }

  /** One more blank body, for the next index. */
  method AppendBlank(made: seq<Body>, indexes: seq<int>, statics: StaticUnits) returns (more: seq<Body>)
    requires statics.Valid() && |made| < |indexes|
    requires AllBlank(made, indexes, statics) && Distinct(made)
    ensures |more| == |made| + 1 && more[..|made|] == made
    ensures fresh(more[|made|]) && fresh(more[|made|].coords)
    ensures AllBlank(more, indexes, statics) && Distinct(more)
  {
    var b := NewBlank(indexes[|made|], statics);
    AllBlankStep(made, indexes, statics, b);
    DistinctStep(made, b);
    more := made + [b];
  }

  /** new Body(index): a body of that index with nothing computed yet. */
  method NewBlank(index: int, statics: StaticUnits) returns (b: Body)
    requires statics.Valid()
    ensures fresh(b) && fresh(b.coords) && Blank(b, index, statics)
  {
    b := new Body.OfIndex(index, statics);
  }

  /** A new body of the given index, put in the state a theory returned. */
  method NewBody(index: int, s: BodyState, statics: StaticUnits) returns (b: Body)
    requires statics.Valid()
    ensures fresh(b) && fresh(b.coords) && fresh(b.posUnits) && fresh(b.velUnits)
    ensures b.Valid() && b.index == index && b.State() == s
  {
    b := new Body.OfIndex(index, statics);
    b.Load(s);
  }

  /**
   * The Sun in stage 1 (AstroContext.java:222-230): theory frame, cartesian,
   * at the origin in AU, and at rest in AU per day when velocities are asked
   * for.
   */
  method SetTheoryOrigin(b: Body, statics: StaticUnits, velocities: bool)
    requires b.Valid() && statics.Valid()
    modifies b, b.coords
    ensures b.Valid() && b.index == old(b.index)
    ensures b.frame == FRAME_THEORY && b.coordExpr == CARTESIAN
    ensures b.posUnits == statics.auAuAu && b.Position() == ZERO
    ensures if velocities then b.velUnits == statics.audAudAud && b.Velocity() == ZERO
            else b.velUnits == old(b.velUnits) && b.Velocity() == old(b.Velocity())
  {
    b.SetFrame(FRAME_THEORY);
    b.SetCoordinateExpression(CARTESIAN);
    var _ := b.SetPositionUnits(statics.auAuAu);
    if velocities {
      var _ := b.SetVelocityUnits(statics.audAudAud);
    }
    b.SetPositionCoords(ZERO);
    if velocities {
      b.SetVelocityCoords(ZERO);
    }
  }

  /** setPositionCoords, then setVelocityCoords when velocities are asked for. */
  method SetCoords(b: Body, pos: Vec3, vel: Vec3, velocities: bool)
    requires b.Valid()
    modifies b.coords
    ensures b.Valid()
    ensures b.Position() == pos
    ensures b.Velocity() == if velocities then vel else old(b.Velocity())
  {
    b.SetPositionCoords(pos);
    if velocities {
      b.SetVelocityCoords(vel);
    }
  }

  /** One body rotated by M: the position, and the velocity when asked for. */
  method RotateBody(b: Body, M: Mat3, m: Lib, velocities: bool)
    requires b.Valid()
    modifies b.coords
    ensures b.Valid()
    ensures b.Position() == m.mulVec(M, old(b.Position()))
    ensures b.Velocity() == if velocities then m.mulVec(M, old(b.Velocity())) else old(b.Velocity())
  {
    var pos := b.Position();
    b.SetPositionCoords(m.mulVec(M, pos));
    if velocities {
      var vel := b.Velocity();
      b.SetVelocityCoords(m.mulVec(M, vel));
    }
  }

  /** Two contexts see the same engine: setting it through one is seen by the other. */
  method EngineIsShared(a: AstroContext, b: AstroContext, name: string)
    requires a.setting == b.setting
    modifies a.setting
    ensures b.setting.astroEngine == Some(name)
  {
    a.SetAstroEngine(name);
  }
}
