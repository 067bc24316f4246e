/**
 * The state of one solar-system body (jephem.astro.Body): six coordinates
 * (three positions, three velocities) held in an array, the frame and the
 * expression (cartesian or spherical) they are given in, and two arrays of
 * three unit codes. The unit arrays are shared by reference, exactly as the
 * Java object shares them.
 */
module Bodies {
  import opened Wrappers
  import opened Constants
  import opened MathLib
  import Units

  /** A ComputationException: which body, which error type, and the TT julian day. */
  datatype ComputationError = ComputationError(bodyIndex: int, errorType: int, jdTT: real)

  /**
   * The static unit arrays the model uses: Body.noSpecifArray and
   * UnitsConstants.UNITGROUP_AU_AU_AU / UNITGROUP_AUD_AUD_AUD. Java arrays are
   * mutable, so only their lengths are invariant.
   */
  class StaticUnits {
    const noSpecif: array<int>
    const auAuAu: array<int>
    const audAudAud: array<int>

    ghost predicate Valid()
    {
      noSpecif.Length == 3 && auAuAu.Length == 3 && audAudAud.Length == 3
    }

    /** Class initialisation. */
    constructor ()
      ensures Valid()
      ensures noSpecif[..] == [NO_SPECIF, NO_SPECIF, NO_SPECIF]
      ensures auAuAu[..] == [UNIT_AU, UNIT_AU, UNIT_AU]
      ensures audAudAud[..] == [UNIT_AU_PER_D, UNIT_AU_PER_D, UNIT_AU_PER_D]
      ensures fresh(noSpecif) && fresh(auAuAu) && fresh(audAudAud)
    {
      noSpecif := new int[3][NO_SPECIF, NO_SPECIF, NO_SPECIF];
      auAuAu := new int[3][UNIT_AU, UNIT_AU, UNIT_AU];
      audAudAud := new int[3][UNIT_AU_PER_D, UNIT_AU_PER_D, UNIT_AU_PER_D];
    }
  }

  /** Three unit codes, as a theory evaluator hands them out. */
  datatype UnitTriple = UnitTriple(u0: int, u1: int, u2: int)

  /** No unit of the sequence is the "not specified" sentinel. */
  predicate AllSpecified(units: seq<int>)
  {
    NO_SPECIF !in units
  }

  /** The three units are the same code. */
  predicate AllSame(units: seq<int>)
    requires |units| == 3
  {
    units[0] == units[1] && units[0] == units[2]
  }

  /** The three components of a vector, as convertUnits takes them. */
  function Seq3(v: Vec3): (s: seq<Double>)
    ensures |s| == 3
  {
    [v.x0, v.x1, v.x2]
  }

  /** The vector of a three-element result of convertUnits. */
  function VecOf(s: seq<Double>): Vec3
    requires |s| == 3
  {
    Vec3(s[0], s[1], s[2])
  }

  // ---------------------------------------------------------------------------
  // Unit handling of the two conversions, on values.
  // ---------------------------------------------------------------------------

  /**
   * sphereToCart's unit step for the positions: IllegalArgument on an
   * unspecified unit, otherwise (rho, theta, phi) converted to
   * {unit 0, RAD, RAD}, with convertUnits' own errors.
   */
  function PositionsInRadians(pos: Vec3, units: seq<int>): (r: Result<Vec3>)
    requires |units| == 3
    ensures r.Err? ==> r.error in {IllegalArgument, IndexOutOfBounds}
    ensures !AllSpecified(units) ==> r == Err(IllegalArgument)
  {
    if !AllSpecified(units) then Err(IllegalArgument)
    else
      var c := Units.Converted(Seq3(pos), units, [units[0], UNIT_RAD, UNIT_RAD]);
      if c.Err? then Err(c.error) else Ok(VecOf(c.value))
  }

  /**
   * sphereToCart's unit step for the velocities: IllegalArgument on an
   * unspecified unit, otherwise converted to {AU_PER_D, RAD_PER_DAY, RAD_PER_DAY}.
   */
  function VelocitiesPerDay(vel: Vec3, units: seq<int>): (r: Result<Vec3>)
    requires |units| == 3
    ensures r.Err? ==> r.error in {IllegalArgument, IndexOutOfBounds}
    ensures !AllSpecified(units) ==> r == Err(IllegalArgument)
  {
    if !AllSpecified(units) then Err(IllegalArgument)
    else
      var c := Units.Converted(Seq3(vel), units, [UNIT_AU_PER_D, UNIT_RAD_PER_DAY, UNIT_RAD_PER_DAY]);
      if c.Err? then Err(c.error) else Ok(VecOf(c.value))
  }

  /** Three values sharing one unit. */
  datatype Common = Common(v: Vec3, unit: int)

  /**
   * cartToSphere's unit step: IllegalArgument on an unspecified unit; three
   * equal units are kept; three different units are converted to `fallback`
   * (KM for positions, M_PER_S for velocities).
   */
  function InCommonUnit(v: Vec3, units: seq<int>, fallback: int): (r: Result<Common>)
    requires |units| == 3
    ensures !AllSpecified(units) ==> r == Err(IllegalArgument)
    ensures AllSpecified(units) && AllSame(units) ==> r == Ok(Common(v, units[0]))
    ensures r.Ok? && !AllSame(units) ==> r.value.unit == fallback
  {
    if !AllSpecified(units) then Err(IllegalArgument)
    else if AllSame(units) then Ok(Common(v, units[0]))
    else
      var c := Units.Converted(Seq3(v), units, [fallback, fallback, fallback]);
      if c.Err? then Err(c.error) else Ok(Common(VecOf(c.value), fallback))
  }

  // ---------------------------------------------------------------------------
  // The trigonometric steps of the two conversions, on Java doubles.
  // ---------------------------------------------------------------------------

  /** sphereToCart, positions: (rho, theta, phi) in radians to (X, Y, Z). */
  function CartesianOfSpherical(m: Lib, p: Vec3): Vec3
  {
    var rho, theta, phi := p.x0, p.x1, p.x2;
    Vec3(Times(Times(rho, Cos(m, phi)), Cos(m, theta)),
         Times(Times(rho, Cos(m, phi)), Sin(m, theta)),
         Times(rho, Sin(m, phi)))
  }

  /** sphereToCart, velocities: the time derivatives of X, Y, Z. */
  function CartesianVelocityOfSpherical(m: Lib, p: Vec3, v: Vec3): Vec3
  {
    var rho, theta, phi := p.x0, p.x1, p.x2;
    var rhoP, thetaP, phiP := v.x0, v.x1, v.x2;
    var cTheta, sTheta, cPhi, sPhi := Cos(m, theta), Sin(m, theta), Cos(m, phi), Sin(m, phi);
    Vec3(Plus(Plus(Times(Times(cPhi, cTheta), rhoP), Times(Times(Times(rho, cPhi), sTheta), thetaP)),
              Times(Times(Times(rho, sPhi), cTheta), phiP)),
         Plus(Minus(Times(Times(cPhi, sTheta), rhoP), Times(Times(Times(rho, cPhi), cTheta), thetaP)),
              Times(Times(Times(rho, sPhi), sTheta), phiP)),
         Minus(Times(sPhi, rhoP), Times(Times(rho, cPhi), phiP)))
  }

  /** X*X + Y*Y + Z*Z. */
  function SquaredNorm(p: Vec3): Double
  {
    Plus(Plus(Times(p.x0, p.x0), Times(p.x1, p.x1)), Times(p.x2, p.x2))
  }

  /** cartToSphere, positions: (X, Y, Z) to (rho, theta, phi) in radians. */
  function SphericalOfCartesian(m: Lib, p: Vec3): Vec3
  {
    var rho := Sqrt(m, SquaredNorm(p));
    Vec3(rho, Atan3(m, p.x1, p.x0), Asin(m, Div(p.x2, rho)))
  }

  /**
   * The switch of cartToSphere that brings a position value into the
   * distance unit of the velocity unit, with the Java fall-through: a
   * position unit outside AU, KM and M falls out of every case unchanged.
   */
  function Aligned(velUnit: int, posUnit: int, x: Double): Double
  {
    var k := Some(KM_PER_AU);
    var m := Some(KM_PER_AU * 1000.0);
    var thousand := Some(1000.0);
    if velUnit == UNIT_AU_PER_D && posUnit == UNIT_AU then x
    else if velUnit == UNIT_AU_PER_D && posUnit == UNIT_KM then Div(x, k)
    else if velUnit == UNIT_AU_PER_D && posUnit == UNIT_M then Div(x, m)
    else if velUnit in {UNIT_AU_PER_D, UNIT_KM_PER_HOUR, UNIT_KM_PER_D} && posUnit == UNIT_KM then x
    else if velUnit in {UNIT_AU_PER_D, UNIT_KM_PER_HOUR, UNIT_KM_PER_D} && posUnit == UNIT_AU then Times(x, k)
    else if velUnit in {UNIT_AU_PER_D, UNIT_KM_PER_HOUR, UNIT_KM_PER_D} && posUnit == UNIT_M then Div(x, thousand)
    else if velUnit in {UNIT_AU_PER_D, UNIT_KM_PER_HOUR, UNIT_KM_PER_D, UNIT_M_PER_S} && posUnit == UNIT_M then x
    else if velUnit in {UNIT_AU_PER_D, UNIT_KM_PER_HOUR, UNIT_KM_PER_D, UNIT_M_PER_S} && posUnit == UNIT_AU then Times(x, m)
    else if velUnit in {UNIT_AU_PER_D, UNIT_KM_PER_HOUR, UNIT_KM_PER_D, UNIT_M_PER_S} && posUnit == UNIT_KM then Times(x, thousand)
    else x
  }

  /** The position brought into the velocity's distance unit, component by component. */
  function AlignedVec(velUnit: int, posUnit: int, p: Vec3): Vec3
  {
    Vec3(Aligned(velUnit, posUnit, p.x0), Aligned(velUnit, posUnit, p.x1), Aligned(velUnit, posUnit, p.x2))
  }

  /**
   * The divisor cartToSphere applies to the three derivatives, chosen by the
   * first velocity unit the body held before the conversion.
   */
  function TimeDivisor(firstVelUnit: int): real
  {
    if firstVelUnit == UNIT_KM_PER_HOUR then 24.0
    else if firstVelUnit == UNIT_M_PER_S then 86400.0
    else 1.0
  }

  /**
   * cartToSphere, velocities: d(rho)/dt, d(theta)/dt and d(phi)/dt from the
   * position p, the same position brought into the velocity's distance unit
   * q, and the velocity v. As in the source, rho2 is taken from p and Z from q.
   */
  function SphericalVelocityOfCartesian(m: Lib, p: Vec3, q: Vec3, v: Vec3, firstVelUnit: int): Vec3
  {
    var X, Y, Z := q.x0, q.x1, q.x2;
    var Xp, Yp, Zp := v.x0, v.x1, v.x2;
    var rho2 := SquaredNorm(p);
    var r2 := Minus(rho2, Times(Z, Z));
    var d := Some(TimeDivisor(firstVelUnit));
    Vec3(Div(Div(Plus(Plus(Times(X, Xp), Times(Y, Yp)), Times(Z, Zp)), Sqrt(m, rho2)), d),
         Div(Div(Minus(Times(Xp, Y), Times(X, Yp)), r2), d),
         Div(Div(Minus(Times(Z, Plus(Times(X, Xp), Times(Y, Yp))), Times(r2, Zp)), Times(rho2, Sqrt(m, r2))), d))
  }

  /** A point on the reference axis (theta = phi = 0) is (rho, 0, 0) in cartesian coordinates. */
  lemma ReferenceAxisToCartesian(m: Lib, rho: real)
    requires Sound(m)
    ensures CartesianOfSpherical(m, Vec3(Some(rho), Some(0.0), Some(0.0))) == Vec3(Some(rho), Some(0.0), Some(0.0))
  {
  }

  /** The state a theory evaluator (VSOP87, Pluto99, ELP82) writes into a body. */
  datatype BodyState = BodyState(
    frame: int, coordExpr: int,
    posUnits: UnitTriple, velUnits: UnitTriple,
    pos: Vec3, vel: Vec3,
    ce: Option<ComputationError>)

  class Body {
    var index: int
    var frame: int
    var coordExpr: int
    var posUnits: array<int>
    var velUnits: array<int>
    var ce: Option<ComputationError>
    const coords: array<Double>

    ghost predicate Valid()
      reads this
    {
      coords.Length == 6 && posUnits.Length == 3 && velUnits.Length == 3
    }

    /** The position coordinates (getPositionCoords). */
    function Position(): (v: Vec3)
      requires Valid()
      reads this, coords
    {
      Vec3(coords[0], coords[1], coords[2])
    }

    /** The velocity coordinates (getVelocityCoords). */
    function Velocity(): (v: Vec3)
      requires Valid()
      reads this, coords
    {
      Vec3(coords[3], coords[4], coords[5])
    }

    /** Everything a theory evaluator writes, read back from the body. */
    function State(): BodyState
      requires Valid()
      reads this, coords, posUnits, velUnits
    {
      BodyState(frame, coordExpr,
        UnitTriple(posUnits[0], posUnits[1], posUnits[2]),
        UnitTriple(velUnits[0], velUnits[1], velUnits[2]),
        Position(), Velocity(), ce)
    }

    /**
     * The complete constructor once its length check has passed; the unit
     * arrays are stored by reference. Create models the check.
     */
    constructor (index: int, frame: int, coordExpr: int, posUnits: array<int>, velUnits: array<int>,
                 x0: Double, x1: Double, x2: Double, v0: Double, v1: Double, v2: Double)
      requires posUnits.Length == 3 && velUnits.Length == 3
      ensures Valid() && fresh(coords)
      ensures this.index == index && this.frame == frame && this.coordExpr == coordExpr
      ensures this.posUnits == posUnits && this.velUnits == velUnits && ce == None
      ensures coords[..] == [x0, x1, x2, v0, v1, v2]
    {
      this.index := index;
      this.frame := frame;
      this.coordExpr := coordExpr;
      this.posUnits := posUnits;
      this.velUnits := velUnits;
      this.ce := None;
      coords := new Double[6][x0, x1, x2, v0, v1, v2];
    }

    /** The complete constructor: IllegalArgument unless both unit arrays have three entries. */
    static method Create(index: int, frame: int, coordExpr: int, posUnits: array<int>, velUnits: array<int>,
                         x0: Double, x1: Double, x2: Double, v0: Double, v1: Double, v2: Double)
      returns (r: Result<Body>)
      ensures r.Ok? <==> posUnits.Length == 3 && velUnits.Length == 3
      ensures r.Err? ==> r.error == IllegalArgument
      ensures r.Ok? ==> var b := r.value;
        && fresh(b) && fresh(b.coords) && b.Valid()
        && b.index == index && b.frame == frame && b.coordExpr == coordExpr
        && b.posUnits == posUnits && b.velUnits == velUnits && b.ce == None
        && b.coords[..] == [x0, x1, x2, v0, v1, v2]
    {
      if posUnits.Length != 3 || velUnits.Length != 3 {
        return Err(IllegalArgument);
      }
      var b := new Body(index, frame, coordExpr, posUnits, velUnits, x0, x1, x2, v0, v1, v2);
      return Ok(b);
    }

    /**
     * Body(index): zero coordinates, frame and expression unspecified, and
     * both unit arrays the one shared static array of NO_SPECIF.
     */
    constructor OfIndex(index: int, statics: StaticUnits)
      requires statics.Valid()
      ensures Valid() && fresh(coords)
      ensures this.index == index && frame == NO_SPECIF && coordExpr == NO_SPECIF && ce == None
      ensures posUnits == statics.noSpecif && velUnits == statics.noSpecif
      ensures coords[..] == [Some(0.0), Some(0.0), Some(0.0), Some(0.0), Some(0.0), Some(0.0)]
    {
      this.index := index;
      frame := NO_SPECIF;
      coordExpr := NO_SPECIF;
      posUnits := statics.noSpecif;
      velUnits := statics.noSpecif;
      ce := None;
      coords := new Double[6](_ => Some(0.0));
    }

    /** getCoord: IllegalArgument for an index outside 0..5. */
    method GetCoord(i: int) returns (r: Result<Double>)
      requires Valid()
      ensures 0 <= i < 6 ==> r == Ok(coords[i])
      ensures !(0 <= i < 6) ==> r == Err(IllegalArgument)
    {
      if i > -1 && i < 6 {
        return Ok(coords[i]);
      }
      return Err(IllegalArgument);
    }

    /** setCoord: changes slot i only; IllegalArgument and no change for an index outside 0..5. */
    method SetCoord(i: int, v: Double) returns (r: Result<()>)
      requires Valid()
      modifies coords
      ensures Valid()
      ensures 0 <= i < 6 ==> r == Ok(()) && coords[..] == old(coords[..])[i := v]
      ensures !(0 <= i < 6) ==> r == Err(IllegalArgument) && coords[..] == old(coords[..])
    {
      if i > -1 && i < 6 {
        coords[i] := v;
        return Ok(());
      }
      return Err(IllegalArgument);
    }

    /** setPositionCoords: slots 0..2 only. */
    method SetPositionCoords(p: Vec3)
      requires Valid()
      modifies coords
      ensures Valid() && Position() == p && Velocity() == old(Velocity())
    {
      coords[0], coords[1], coords[2] := p.x0, p.x1, p.x2;
    }

    /** setVelocityCoords: slots 3..5 only. */
    method SetVelocityCoords(v: Vec3)
      requires Valid()
      modifies coords
      ensures Valid() && Velocity() == v && Position() == old(Position())
    {
      coords[3], coords[4], coords[5] := v.x0, v.x1, v.x2;
    }

    /** setPositionUnits: stores the array by reference; IllegalArgument unless it has three entries. */
    method SetPositionUnits(units: array<int>) returns (r: Result<()>)
      requires Valid()
      modifies this`posUnits
      ensures Valid()
      ensures units.Length == 3 ==> r == Ok(()) && posUnits == units
      ensures units.Length != 3 ==> r == Err(IllegalArgument) && posUnits == old(posUnits)
    {
      if units.Length != 3 {
        return Err(IllegalArgument);
      }
      posUnits := units;
      return Ok(());
    }

    /** setVelocityUnits: stores the array by reference; IllegalArgument unless it has three entries. */
    method SetVelocityUnits(units: array<int>) returns (r: Result<()>)
      requires Valid()
      modifies this`velUnits
      ensures Valid()
      ensures units.Length == 3 ==> r == Ok(()) && velUnits == units
      ensures units.Length != 3 ==> r == Err(IllegalArgument) && velUnits == old(velUnits)
    {
      if units.Length != 3 {
        return Err(IllegalArgument);
      }
      velUnits := units;
      return Ok(());
    }

    method SetFrame(f: int)
      modifies this`frame
      ensures frame == f
    {
      frame := f;
    }

    method SetCoordinateExpression(e: int)
      modifies this`coordExpr
      ensures coordExpr == e
    {
      coordExpr := e;
    }

    /**
     * doClone: a new body with the same index, frame, expression and
     * coordinates, sharing both unit arrays, and without the computation
     * exception.
     */
    method DoClone() returns (b: Body)
      requires Valid()
      ensures fresh(b) && fresh(b.coords) && b.Valid()
      ensures b.index == index && b.frame == frame && b.coordExpr == coordExpr
      ensures b.posUnits == posUnits && b.velUnits == velUnits && b.ce == None
      ensures b.coords[..] == coords[..]
      ensures b.State() == State().(ce := None)
    {
      b := new Body(index, frame, coordExpr, posUnits, velUnits,
                    coords[0], coords[1], coords[2], coords[3], coords[4], coords[5]);
    }

    /** A theory evaluator writing its results into this body; the index is kept. */
    method Load(s: BodyState)
      requires Valid()
      modifies this, coords
      ensures Valid() && index == old(index)
      ensures frame == s.frame && coordExpr == s.coordExpr && ce == s.ce
      ensures fresh(posUnits) && posUnits[..] == [s.posUnits.u0, s.posUnits.u1, s.posUnits.u2]
      ensures fresh(velUnits) && velUnits[..] == [s.velUnits.u0, s.velUnits.u1, s.velUnits.u2]
      ensures Position() == s.pos && Velocity() == s.vel
      ensures State() == s
    {
      frame := s.frame;
      coordExpr := s.coordExpr;
      ce := s.ce;
      posUnits := new int[3][s.posUnits.u0, s.posUnits.u1, s.posUnits.u2];
      velUnits := new int[3][s.velUnits.u0, s.velUnits.u1, s.velUnits.u2];
      coords[0], coords[1], coords[2] := s.pos.x0, s.pos.x1, s.pos.x2;
      coords[3], coords[4], coords[5] := s.vel.x0, s.vel.x1, s.vel.x2;
    }

    /** The position step of sphereToCart, computed from the current state. */
    method RadiansOfPositions() returns (r: Result<Vec3>)
      requires Valid()
      ensures r == PositionsInRadians(Position(), posUnits[..])
    {
      if posUnits[0] == NO_SPECIF || posUnits[1] == NO_SPECIF || posUnits[2] == NO_SPECIF {
        assert posUnits[..][0] == posUnits[0] && posUnits[..][1] == posUnits[1] && posUnits[..][2] == posUnits[2];
        return Err(IllegalArgument);
      }
      assert AllSpecified(posUnits[..]);
      var pos := new Double[3][coords[0], coords[1], coords[2]];
      var target := new int[3][posUnits[0], UNIT_RAD, UNIT_RAD];
      assert pos[..] == Seq3(Position());
      var c := Units.ConvertUnits(pos, posUnits, target);
      if c.Err? {
        return Err(c.error);
      }
      return Ok(VecOf(c.value));
    }

    /** The velocity step of sphereToCart, computed from the current state. */
    method PerDayOfVelocities() returns (r: Result<Vec3>)
      requires Valid()
      ensures r == VelocitiesPerDay(Velocity(), velUnits[..])
    {
      if velUnits[0] == NO_SPECIF || velUnits[1] == NO_SPECIF || velUnits[2] == NO_SPECIF {
        assert velUnits[..][0] == velUnits[0] && velUnits[..][1] == velUnits[1] && velUnits[..][2] == velUnits[2];
        return Err(IllegalArgument);
      }
      assert AllSpecified(velUnits[..]);
      var vel := new Double[3][coords[3], coords[4], coords[5]];
      var target := new int[3][UNIT_AU_PER_D, UNIT_RAD_PER_DAY, UNIT_RAD_PER_DAY];
      assert vel[..] == Seq3(Velocity());
      var c := Units.ConvertUnits(vel, velUnits, target);
      if c.Err? {
        return Err(c.error);
      }
      return Ok(VecOf(c.value));
    }

    /**
     * The unit step of cartToSphere, for the positions (fallback KM) or the
     * velocities (fallback M_PER_S): the three values in their common unit
     * when they share one, else converted to the fallback.
     */
    static method ToCommonUnit(v: Vec3, units: array<int>, fallback: int) returns (r: Result<Common>)
      requires units.Length == 3
      ensures r == InCommonUnit(v, units[..], fallback)
    {
      if units[0] == NO_SPECIF || units[1] == NO_SPECIF || units[2] == NO_SPECIF {
        assert units[..][0] == units[0] && units[..][1] == units[1] && units[..][2] == units[2];
        return Err(IllegalArgument);
      }
      assert AllSpecified(units[..]);
      if units[0] == units[1] && units[0] == units[2] {
        return Ok(Common(v, units[0]));
      }
      var values := new Double[3][v.x0, v.x1, v.x2];
      var target := new int[3][fallback, fallback, fallback];
      assert values[..] == Seq3(v) && target[..] == [fallback, fallback, fallback];
      var c := Units.ConvertUnits(values, units, target);
      if c.Err? {
        return Err(c.error);
      }
      return Ok(Common(VecOf(c.value), fallback));
    }

    /**
     * sphereToCart. Nothing happens unless the expression is SPHERICAL. The
     * positions are converted to radians and rewritten as X, Y, Z, and
     * position units 1 and 2 are overwritten IN PLACE with unit 0, so a
     * velocity array that is the same array sees the change. With velocities,
     * the velocity units must then be fully specified, and on success the body
     * takes the shared AUD_AUD_AUD array. The expression stays SPHERICAL, as
     * written. A failure after the positions were rewritten leaves them
     * rewritten.
     */
    method SphereToCart(velocities: bool, m: Lib, statics: StaticUnits) returns (r: Result<()>)
      requires Valid() && statics.Valid()
      modifies this, coords, posUnits
      ensures Valid()
      ensures index == old(index) && frame == old(frame) && coordExpr == old(coordExpr) && ce == old(ce)
      ensures posUnits == old(posUnits)
      ensures old(coordExpr) != SPHERICAL ==>
        && r == Ok(()) && Position() == old(Position()) && Velocity() == old(Velocity())
        && posUnits[..] == old(posUnits[..]) && velUnits == old(velUnits)
      ensures old(coordExpr) == SPHERICAL ==>
        var rad := PositionsInRadians(old(Position()), old(posUnits[..]));
        var p0 := old(posUnits[0]);
        && (rad.Err? ==>
              && r == Err(rad.error) && Position() == old(Position()) && Velocity() == old(Velocity())
              && posUnits[..] == old(posUnits[..]) && velUnits == old(velUnits))
        && (rad.Ok? ==> Position() == CartesianOfSpherical(m, rad.value) && posUnits[..] == [p0, p0, p0])
        && (rad.Ok? && !velocities ==> r == Ok(()) && Velocity() == old(Velocity()) && velUnits == old(velUnits))
        && (rad.Ok? && velocities ==>
              var seen := if old(velUnits) == old(posUnits) then [p0, p0, p0] else old(velUnits[..]);
              var perDay := VelocitiesPerDay(old(Velocity()), seen);
              && (perDay.Err? ==> r == Err(perDay.error) && Velocity() == old(Velocity()) && velUnits == old(velUnits))
              && (perDay.Ok? ==>
                    && r == Ok(()) && velUnits == statics.audAudAud
                    && Velocity() == CartesianVelocityOfSpherical(m, rad.value, perDay.value)))
    {
      if coordExpr != SPHERICAL {
        return Ok(());
      }
      var rad := RadiansOfPositions();
      if rad.Err? {
        return Err(rad.error);
      }
      ghost var p0, oldVel := posUnits[0], Velocity();
      SetPositionCoords(CartesianOfSpherical(m, rad.value));
      posUnits[1] := posUnits[0];
      posUnits[2] := posUnits[0];
      if velocities {
        var perDay := PerDayOfVelocities();
        if perDay.Err? {
          return Err(perDay.error);
        }
        SetVelocityCoords(CartesianVelocityOfSpherical(m, rad.value, perDay.value));
        velUnits := statics.audAudAud;
      }
      coordExpr := SPHERICAL;
      return Ok(());
    }

    /**
     * cartToSphere. Nothing happens unless the expression is CARTESIAN. The
     * positions are brought into one unit (KM when the three differ) and the
     * body holds (rho, theta, phi) with position units {u, RAD, RAD} in a new
     * array. With velocities, the velocities are brought into one unit
     * (M_PER_S when the three differ; a failure here leaves the new positions
     * and the CARTESIAN tag), the derivatives are divided by 24 or 86400 when
     * the FIRST original velocity unit was km/h or m/s, and the body ends with
     * velocity units {v, RAD_PER_DAY, RAD_PER_DAY} in a new array.
     */
    method CartToSphere(velocities: bool, m: Lib) returns (r: Result<()>)
      requires Valid()
      modifies this, coords
      ensures Valid()
      ensures index == old(index) && frame == old(frame) && ce == old(ce)
      ensures old(coordExpr) != CARTESIAN ==>
        && r == Ok(()) && Position() == old(Position()) && Velocity() == old(Velocity())
        && coordExpr == old(coordExpr) && posUnits == old(posUnits) && velUnits == old(velUnits)
      ensures old(coordExpr) == CARTESIAN ==>
        var cp := InCommonUnit(old(Position()), old(posUnits[..]), UNIT_KM);
        && (cp.Err? ==>
              && r == Err(cp.error) && Position() == old(Position()) && Velocity() == old(Velocity())
              && coordExpr == old(coordExpr) && posUnits == old(posUnits) && velUnits == old(velUnits))
        && (cp.Ok? ==>
              && Position() == SphericalOfCartesian(m, cp.value.v)
              && fresh(posUnits) && posUnits[..] == [cp.value.unit, UNIT_RAD, UNIT_RAD])
        && (cp.Ok? && !velocities ==>
              r == Ok(()) && coordExpr == SPHERICAL && Velocity() == old(Velocity()) && velUnits == old(velUnits))
        && (cp.Ok? && velocities ==>
              var cv := InCommonUnit(old(Velocity()), old(velUnits[..]), UNIT_M_PER_S);
              && (cv.Err? ==>
                    r == Err(cv.error) && coordExpr == old(coordExpr) && Velocity() == old(Velocity()) && velUnits == old(velUnits))
              && (cv.Ok? ==>
                    && r == Ok(()) && coordExpr == SPHERICAL
                    && fresh(velUnits) && velUnits[..] == [cv.value.unit, UNIT_RAD_PER_DAY, UNIT_RAD_PER_DAY]
                    && Velocity() == SphericalVelocityOfCartesian(m, cp.value.v,
                         AlignedVec(cv.value.unit, cp.value.unit, cp.value.v), cv.value.v, old(velUnits[0]))))
    {
      if coordExpr != CARTESIAN {
        return Ok(());
      }
      var cp := PositionsToSphere(m);
      if cp.Err? {
        return Err(cp.error);
      }
      if velocities {
        r := VelocitiesToSphere(m, cp.value.v, cp.value.unit);
        if r.Err? {
          return;
        }
      }
      coordExpr := SPHERICAL;
      return Ok(());
    }

    /**
     * The position half of cartToSphere: the positions in their common unit,
     * rewritten as (rho, theta, phi) with units {u, RAD, RAD} in a new array.
     */
    method PositionsToSphere(m: Lib) returns (r: Result<Common>)
      requires Valid()
      modifies this`posUnits, coords
      ensures Valid() && r == InCommonUnit(old(Position()), old(posUnits[..]), UNIT_KM)
      ensures Velocity() == old(Velocity())
      ensures r.Err? ==> Position() == old(Position()) && posUnits == old(posUnits)
      ensures r.Ok? ==>
        && Position() == SphericalOfCartesian(m, r.value.v)
        && fresh(posUnits) && posUnits[..] == [r.value.unit, UNIT_RAD, UNIT_RAD]
    {
      r := ToCommonUnit(Position(), posUnits, UNIT_KM);
      if r.Err? {
        return;
      }
      posUnits := new int[3][r.value.unit, UNIT_RAD, UNIT_RAD];
      SetPositionCoords(SphericalOfCartesian(m, r.value.v));
    }

    /**
     * The velocity half of cartToSphere, for a body whose position `pos`, in
     * `posUnit`, was just made spherical.
     */
    method VelocitiesToSphere(m: Lib, pos: Vec3, posUnit: int) returns (r: Result<()>)
      requires Valid()
      modifies this`velUnits, coords
      ensures Valid()
      ensures index == old(index) && frame == old(frame) && ce == old(ce) && coordExpr == old(coordExpr)
      ensures posUnits == old(posUnits) && Position() == old(Position())
      ensures var cv := InCommonUnit(old(Velocity()), old(velUnits[..]), UNIT_M_PER_S);
        && (cv.Err? ==> r == Err(cv.error) && Velocity() == old(Velocity()) && velUnits == old(velUnits))
        && (cv.Ok? ==>
              && r == Ok(())
              && fresh(velUnits) && velUnits[..] == [cv.value.unit, UNIT_RAD_PER_DAY, UNIT_RAD_PER_DAY]
              && Velocity() == SphericalVelocityOfCartesian(m, pos, AlignedVec(cv.value.unit, posUnit, pos), cv.value.v,
                                                           old(velUnits[0])))
    {
      var cv := ToCommonUnit(Velocity(), velUnits, UNIT_M_PER_S);
      if cv.Err? {
        return Err(cv.error);
      }
      var vel, velUnit := cv.value.v, cv.value.unit;
      var w := SphericalVelocityOfCartesian(m, pos, AlignedVec(velUnit, posUnit, pos), vel, velUnits[0]);
      velUnits := new int[3][velUnit, UNIT_RAD_PER_DAY, UNIT_RAD_PER_DAY];
      SetVelocityCoords(w);
      return Ok(());
    }
  }
}
