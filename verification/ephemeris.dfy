/**
 * A table of coordinates (jephem.tools.Ephemeris): for every instant, every
 * body and every requested coordinate, the value an AstroContext built for
 * that instant computes, with the computation errors of the bodies collected
 * on the way.
 */
module Ephemerides {
  import opened Wrappers
  import opened Constants
  import opened MathLib
  import opened Bodies
  import opened AstroContexts
  import Space
  import Time

  // Table orientations.
  const INSTANTS_IN_COLUMNS: int := 0
  const INSTANTS_IN_ROWS: int := 1
  // How the instants are labelled.
  const DISPLAY_DATES: int := 0
  const DISPLAY_JDS: int := 1

  /** A body state is in the requested frame and carries the requested units. */
  ghost predicate Finalised(s: BodyState, frame: int, velocities: bool, units: seq<int>)
  {
    && s.frame == frame
    && |units| >= 3 && s.posUnits == UnitTriple(units[0], units[1], units[2])
    && (velocities ==> |units| >= 6 && s.velUnits == UnitTriple(units[3], units[4], units[5]))
  }

  /** The day an AstroContext built for a date in the given time frame works at: UTC dates become TT. */
  function ContextDay(jd: real, timeFrame: int): real
  {
    if timeFrame == UTC then Time.TT(jd) else jd
  }

  /**
   * What one instant of fillData reads from its context once the
   * coordinates are computed: the day the context works at, the body
   * indexes it was built with, and the state of each of its bodies.
   */
  datatype Reading = Reading(jd: real, indexes: seq<int>, states: seq<BodyState>)

  /** The arrays handed to a context are not the static unit arrays of Body. */
  ghost predicate ApartFromStatics(statics: StaticUnits, a: array<int>)
  {
    a != statics.noSpecif && a != statics.auAuAu && a != statics.audAudAud
  }

  /**
   * row is what the getBody calls read from a context built with the body
   * indexes: its b-th state is the state of the first body of index
   * bodyIndexes[b].
   */
  ghost predicate ReadFrom(row: seq<BodyState>, reading: Reading, bodyIndexes: seq<int>)
  {
    && reading.indexes == bodyIndexes
    && |reading.states| == |bodyIndexes| == |row|
    && forall b :: 0 <= b < |row| ==> row[b] == reading.states[FirstPosition(bodyIndexes, bodyIndexes[b])]
  }

  /**
   * One instant of fillData (Ephemeris.java:430-432 and the getBody calls
   * of 433-440): a new context at day jd, the engine written into the
   * shared setting, the coordinates computed, then the state of the first
   * body of each requested index. The context's failure is returned as is.
   * The ghost `reading` is what the context holds at the end.
   */
  method InstantStates(jd: real, timeFrame: int, bodyIndexes: array<int>, engine: string,
                       setting: EngineSetting, statics: StaticUnits,
                       frame: int, sphereCart: int, precision: real, velocities: bool, units: seq<int>,
                       th: Theories, m: Lib)
    returns (r: Result<seq<BodyState>>, ghost reading: Reading, ghost ac: AstroContext)
    requires statics.Valid() && ApartFromStatics(statics, bodyIndexes)
    modifies setting, statics.noSpecif, statics.auAuAu, statics.audAudAud
    ensures setting.astroEngine == Some(engine)
    ensures r.Ok? ==> reading.jd == ContextDay(jd, timeFrame) && ReadFrom(r.value, reading, old(bodyIndexes[..]))
    ensures r.Ok? ==> fresh(ac) && ac.Valid() && ac.setting == setting && reading == Reading(ac.jd, ac.indexes, ac.States())
    ensures r.Ok? && engine != SWISS_EPHEMERIS ==>
      forall b :: 0 <= b < |reading.states| ==> Finalised(reading.states[b], frame, velocities, units)
  {
    var indexes := bodyIndexes[..];
    var context := new AstroContext(jd, timeFrame, bodyIndexes, setting, statics);
    ac := context;
    var outcome := Compute(context, engine, frame, sphereCart, precision, velocities, units, th, m);
    reading := Reading(ac.jd, ac.indexes, []);
    if outcome.Err? {
      return Err(outcome.error), reading, ac;
    }
    var states := ReadStates(context, indexes, engine != SWISS_EPHEMERIS, frame, velocities, units);
    reading := ReadingOf(ac, states, engine != SWISS_EPHEMERIS, frame, velocities, units);
    return Ok(states), reading, ac;
  }

  /** The states read back by getBody, seen against everything the context holds. */
  lemma ReadingOf(ac: AstroContext, states: seq<BodyState>, internal: bool, frame: int, velocities: bool, units: seq<int>)
    returns (reading: Reading)
    requires ac.Valid() && |states| == |ac.indexes|
    requires forall k :: 0 <= k < |states| ==> FirstState(ac, ac.indexes[k], states[k])
    requires internal ==> ac.AllFinalised(frame, velocities, units)
    ensures reading == Reading(ac.jd, ac.indexes, ac.States()) && ReadFrom(states, reading, ac.indexes)
    ensures internal ==> forall b :: 0 <= b < |reading.states| ==> Finalised(reading.states[b], frame, velocities, units)
  {
    reading := Reading(ac.jd, ac.indexes, ac.States());
    forall b | 0 <= b < |states|
      ensures states[b] == reading.states[FirstPosition(ac.indexes, ac.indexes[b])]
    {
      assert FirstState(ac, ac.indexes[b], states[b]);
    }
    if internal {
      forall b | 0 <= b < |reading.states|
        ensures Finalised(reading.states[b], frame, velocities, units)
      {
        assert reading.states[b] == ac.bodies[b].State();
      }
    }
  }

  /** setAstroEngine then calcBodyCoords on a context (Ephemeris.java:431-432). */
  method Compute(ac: AstroContext, engine: string, frame: int, sphereCart: int, precision: real,
                 velocities: bool, units: seq<int>, th: Theories, m: Lib)
    returns (r: Result<()>)
    requires ac.Valid() && ac.MoonIndexed()
    modifies ac.setting, ac.bodies, ac.Objs(), ac.CoordArrays(), ac.PosUnitArrays(), ac.StaticArrays()
    ensures ac.Valid() && ac.setting.astroEngine == Some(engine)
    ensures r.Ok? && engine != SWISS_EPHEMERIS ==> ac.AllFinalised(frame, velocities, units)
  {
    ac.SetAstroEngine(engine);
    ghost var trace;
    r, trace := ac.CalcBodyCoords(frame, sphereCart, precision, velocities, units, th, m);
    assert ac.setting.astroEngine == Some(engine);
  }

  /** The position of the first occurrence of x in s. */
  function FirstPosition(s: seq<int>, x: int): (r: nat)
    requires x in s
    ensures r < |s| && s[r] == x && x !in s[..r]
  {
    if s[0] == x then 0
    else
      var r := FirstPosition(s[1..], x);
      assert s[..r + 1] == [s[0]] + s[1..][..r];
      r + 1
  }

  /** The first occurrence is the only position holding x with no x before it. */
  lemma FirstPositionUnique(s: seq<int>, x: int, i: int)
    requires 0 <= i < |s| && s[i] == x && x !in s[..i]
    ensures FirstPosition(s, x) == i
  {
  }

  /** s is the state of the first body of the context with the given index (getBody). */
  ghost predicate FirstState(ac: AstroContext, index: int, s: BodyState)
    requires ac.Valid() && index in ac.indexes
    reads ac.bodies, ac.Objs(), ac.CoordArrays(), ac.PosUnitArrays(),
          set i | 0 <= i < ac.bodies.Length :: ac.bodies[i].velUnits
  {
    s == ac.bodies[FirstPosition(ac.indexes, index)].State()
  }

  /** The state of the first body of each index, in the order of the indexes. */
  method ReadStates(ac: AstroContext, indexes: seq<int>, ghost internal: bool, ghost frame: int, ghost velocities: bool, ghost units: seq<int>)
    returns (states: seq<BodyState>)
    requires ac.Valid() && indexes == ac.indexes
    requires internal ==> ac.AllFinalised(frame, velocities, units)
    ensures |states| == |indexes|
    ensures forall k :: 0 <= k < |states| ==> FirstState(ac, indexes[k], states[k])
    ensures internal ==> forall k :: 0 <= k < |states| ==> Finalised(states[k], frame, velocities, units)
  {
    states := [];
    for b := 0 to |indexes|
      invariant |states| == b
      invariant forall k :: 0 <= k < b ==> FirstState(ac, indexes[k], states[k])
      invariant internal ==> forall k :: 0 <= k < b ==> Finalised(states[k], frame, velocities, units)
    {
      var state := StateOf(ac, indexes[b], internal, frame, velocities, units);
      states := states + [state];
    }
  }

  /** getBody(index) read back: the state of the first body of that index. */
  method StateOf(ac: AstroContext, index: int, ghost internal: bool, ghost frame: int, ghost velocities: bool, ghost units: seq<int>)
    returns (s: BodyState)
    requires ac.Valid() && index in ac.indexes
    requires internal ==> ac.AllFinalised(frame, velocities, units)
    ensures FirstState(ac, index, s)
    ensures internal ==> Finalised(s, frame, velocities, units)
  {
    var body := ac.GetBody(index);
    if body.None? {
      assert false;
      return BodyState(0, 0, UnitTriple(0, 0, 0), UnitTriple(0, 0, 0), ZERO, ZERO, None);
    }
    ghost var i :| 0 <= i < ac.bodies.Length && ac.bodies[i] == body.value
      && ac.indexes[i] == index && index !in ac.indexes[..i];
    FirstPositionUnique(ac.indexes, index, i);
    s := body.value.State();
  }

  /** Coordinate c (0..2 position, 3..5 velocity) of a state, as Body.getCoord reads it. */
  function Coord(s: BodyState, c: int): Double
    requires 0 <= c < 6
  {
    if c == 0 then s.pos.x0 else if c == 1 then s.pos.x1 else if c == 2 then s.pos.x2
    else if c == 3 then s.vel.x0 else if c == 4 then s.vel.x1 else s.vel.x2
  }

  /** Reading coordinate c of a body's state is reading its coordinate array. */
  lemma CoordOfState(body: Body, c: int)
    requires body.Valid() && 0 <= c < 6
    ensures Coord(body.State(), c) == body.coords[c]
  {
  }

  /** Every requested coordinate index is one getCoord accepts. */
  predicate CoordsValid(coords: seq<int>)
  {
    forall c :: 0 <= c < |coords| ==> 0 <= coords[c] < 6
  }

  /** The computation errors of a row of states, in body order. */
  function RowErrors(row: seq<BodyState>): (r: seq<ComputationError>)
    ensures |r| <= |row|
  {
    if |row| == 0 then []
    else
      var rest := RowErrors(row[..|row| - 1]);
      var last := row[|row| - 1];
      if last.ce.Some? then rest + [last.ce.value] else rest
  }

  /** The errors of a row are exactly the errors its states carry. */
  lemma {:induction false} RowErrorsMembers(row: seq<BodyState>)
    ensures forall e :: e in RowErrors(row) <==> exists b :: 0 <= b < |row| && row[b].ce == Some(e)
  {
    if |row| > 0 {
      var front := row[..|row| - 1];
      RowErrorsMembers(front);
      assert forall b :: 0 <= b < |row| - 1 ==> front[b] == row[b];
    }
  }

  /** One more body appends its error, if any, to those of the bodies before it. */
  lemma RowErrorsStep(row: seq<BodyState>, b: int)
    requires 0 <= b < |row|
    ensures RowErrors(row[..b + 1]) ==
      RowErrors(row[..b]) + (if row[b].ce.Some? then [row[b].ce.value] else [])
  {
    assert row[..b + 1][..b] == row[..b];
  }

  /**
   * The errors fillData collects (Ephemeris.java:438-442): none unless they
   * are to be displayed, else those of every instant in order.
   */
  function CollectedErrors(rows: seq<seq<BodyState>>, display: bool): (r: seq<ComputationError>)
    ensures !display ==> r == []
  {
    if !display || |rows| == 0 then []
    else CollectedErrors(rows[..|rows| - 1], display) + RowErrors(rows[|rows| - 1])
  }

  /** When displayed, the errors collected are exactly those the states of every instant carry. */
  lemma {:induction false} CollectedErrorsMembers(rows: seq<seq<BodyState>>)
    ensures forall e :: e in CollectedErrors(rows, true) <==>
      exists j, b :: 0 <= j < |rows| && 0 <= b < |rows[j]| && rows[j][b].ce == Some(e)
  {
    if |rows| > 0 {
      var front := rows[..|rows| - 1];
      CollectedErrorsMembers(front);
      RowErrorsMembers(rows[|rows| - 1]);
      assert forall j :: 0 <= j < |rows| - 1 ==> front[j] == rows[j];
    }
  }

  /** One more instant appends its errors after those of the earlier instants. */
  lemma {:induction false} CollectedErrorsAppend(rows: seq<seq<BodyState>>, row: seq<BodyState>, display: bool)
    ensures CollectedErrors(rows + [row], display) ==
      CollectedErrors(rows, display) + (if display then RowErrors(row) else [])
  {
    assert (rows + [row])[..|rows|] == rows;
  }

  /**
   * The comparator of getErrorMessages as written (Ephemeris.java:468-484):
   * body index, then error type, then TT Julian day, and 1 whenever the
   * days are not strictly ordered, equal ones included.
   */
  function CompareAsWritten(c1: ComputationError, c2: ComputationError): (r: int)
    ensures r == -1 || r == 1
  {
    if c1.bodyIndex < c2.bodyIndex then -1
    else if c1.bodyIndex > c2.bodyIndex then 1
    else if c1.errorType < c2.errorType then -1
    else if c1.errorType > c2.errorType then 1
    else if c1.jdTT < c2.jdTT then -1
    else 1
  }

  /** The comparator as written ranks an error above itself, so it is not antisymmetric. */
  lemma CompareAsWrittenNotAntisymmetric(c: ComputationError)
    ensures CompareAsWritten(c, c) == 1 && CompareAsWritten(c, c) != -CompareAsWritten(c, c)
  {
  }

  /** The lexicographic order on (body index, error type, TT day) the comparator means. */
  predicate Before(c1: ComputationError, c2: ComputationError)
  {
    || c1.bodyIndex < c2.bodyIndex
    || (c1.bodyIndex == c2.bodyIndex && c1.errorType < c2.errorType)
    || (c1.bodyIndex == c2.bodyIndex && c1.errorType == c2.errorType && c1.jdTT < c2.jdTT)
  }

  /** The comparator with the equal case answered by 0. */
  function Compare(c1: ComputationError, c2: ComputationError): (r: int)
    ensures r == -1 <==> Before(c1, c2)
    ensures r == 1 <==> Before(c2, c1)
    ensures r == 0 <==> c1 == c2
  {
    if c1.bodyIndex < c2.bodyIndex then -1
    else if c1.bodyIndex > c2.bodyIndex then 1
    else if c1.errorType < c2.errorType then -1
    else if c1.errorType > c2.errorType then 1
    else if c1.jdTT < c2.jdTT then -1
    else if c1.jdTT > c2.jdTT then 1
    else 0
  }

  /** The corrected comparator is antisymmetric and transitive: a total order. */
  lemma CompareIsTotalOrder(a: ComputationError, b: ComputationError, c: ComputationError)
    ensures Compare(a, b) == -Compare(b, a)
    ensures Compare(a, b) <= 0 && Compare(b, c) <= 0 ==> Compare(a, c) <= 0
  {
  }

  /** Both comparators agree on distinct errors. */
  lemma CompareAgreesOnDistinct(a: ComputationError, b: ComputationError)
    requires a != b
    ensures CompareAsWritten(a, b) == Compare(a, b)
  {
  }

  /** Ordered by the corrected comparator. */
  predicate Sorted(s: seq<ComputationError>)
  {
    forall i, k :: 0 <= i < k < |s| ==> Compare(s[i], s[k]) <= 0
  }

  /** Inserts an error into an ordered list before the first one that follows it. */
  function Insert(e: ComputationError, s: seq<ComputationError>): (r: seq<ComputationError>)
    requires Sorted(s)
    ensures Sorted(r) && multiset(r) == multiset(s) + multiset{e}
  {
    if |s| == 0 then [e]
    else if Compare(e, s[0]) <= 0 then
      InsertAtHead(e, s);
      [e] + s
    else
      var rest := Insert(e, s[1..]);
      InsertAfterHead(e, s, rest);
      [s[0]] + rest
  }

  /** An error ordered before the head of an ordered list is ordered before all of it. */
  lemma InsertAtHead(e: ComputationError, s: seq<ComputationError>)
    requires Sorted(s) && |s| > 0 && Compare(e, s[0]) <= 0
    ensures Sorted([e] + s)
  {
    forall k | 0 <= k < |s|
      ensures Compare(e, s[k]) <= 0
    {
      CompareIsTotalOrder(e, s[0], s[k]);
    }
  }

  /** The head of an ordered list is ordered before an error that follows it, wherever that lands. */
  lemma InsertAfterHead(e: ComputationError, s: seq<ComputationError>, rest: seq<ComputationError>)
    requires Sorted(s) && |s| > 0 && Compare(e, s[0]) > 0
    requires Sorted(rest) && multiset(rest) == multiset(s[1..]) + multiset{e}
    ensures Sorted([s[0]] + rest) && multiset([s[0]] + rest) == multiset(s) + multiset{e}
  {
    CompareIsTotalOrder(s[0], e, e);
    forall k | 0 <= k < |rest|
      ensures Compare(s[0], rest[k]) <= 0
    {
      assert rest[k] in multiset(rest);
      if rest[k] != e {
        assert rest[k] in multiset(s[1..]);
        var i :| 0 <= i < |s[1..]| && s[1..][i] == rest[k];
        assert s[i + 1] == rest[k];
      }
    }
    assert s == [s[0]] + s[1..];
  }

  /** Collections.sort of the collected errors with the corrected comparator (Ephemeris.java:487). */
  function SortErrors(s: seq<ComputationError>): (r: seq<ComputationError>)
    ensures Sorted(r) && multiset(r) == multiset(s)
  {
    if |s| == 0 then []
    else
      assert s == s[..|s| - 1] + [s[|s| - 1]];
      Insert(s[|s| - 1], SortErrors(s[..|s| - 1]))
  }

  /**
   * The shape of the HTML table getHtmlString lays out (Ephemeris.java:304-336):
   * instants down the rows or across the columns; any other orientation is refused.
   */
  function TableShape(orientation: int, nbJDs: int, nbBodies: int): (r: Result<(int, int)>)
    ensures r.Ok? <==> orientation == INSTANTS_IN_ROWS || orientation == INSTANTS_IN_COLUMNS
    ensures r.Err? ==> r.error == IllegalArgument
    ensures orientation == INSTANTS_IN_ROWS ==> r == Ok((nbJDs, nbBodies))
    ensures orientation == INSTANTS_IN_COLUMNS ==> r == Ok((nbBodies, nbJDs))
  {
    if orientation == INSTANTS_IN_ROWS then Ok((nbJDs, nbBodies))
    else if orientation == INSTANTS_IN_COLUMNS then Ok((nbBodies, nbJDs))
    else Err(IllegalArgument)
  }

  /** Integers.copyFrom: a fresh array holding the same elements. */
  method CopyOf(a: array<int>) returns (b: array<int>)
    ensures fresh(b) && b[..] == a[..]
  {
    b := new int[a.Length];
    for i := 0 to a.Length
      invariant forall k :: 0 <= k < i ==> b[k] == a[k]
    {
      b[i] := a[i];
    }
  }

  class Ephemeris {
    const bodyIndexes: array<int>
    const jds: array<real>
    const timeFrame: int
    const frame: int
    const whichCoords: array<int>
    const coordUnits: array<int>
    const sphereCart: int
    const precision: real
    const astroEngine: string
    const displayErrorMsg: bool
    /** data[j, b, c]: coordinate whichCoords[c] of body bodyIndexes[b] at instant jds[j]. */
    const data: array3<Double>
    var computationExceptions: seq<ComputationError>
    /** The states read back at each instant computed so far. */
    ghost var rows: seq<seq<BodyState>>
    /** What the context of each instant computed so far held once computed. */
    ghost var readings: seq<Reading>
    /** An AstroException stopped the fill. */
    ghost var aborted: bool

    ghost predicate Valid()
      reads this
    {
      && bodyIndexes.Length >= 1 && jds.Length >= 1 && 1 <= whichCoords.Length <= 6
      && data.Length0 == jds.Length && data.Length1 == bodyIndexes.Length
      && data.Length2 == whichCoords.Length
    }

    /**
     * The table holds, for every instant computed, the requested coordinates
     * of the states read back, and 0 for every later instant; row j was read
     * from a context built for jds[j] with the body indexes, state b being
     * that of the first body of index bodyIndexes[b]; the errors collected
     * are those of the instants computed.
     */
    ghost predicate Tabulated()
      requires Valid()
      reads this, data, whichCoords, bodyIndexes, jds
    {
      && |rows| <= jds.Length
      && (forall j :: 0 <= j < |rows| ==> |rows[j]| == bodyIndexes.Length)
      && |readings| == |rows|
      && (forall j :: 0 <= j < |rows| ==>
            readings[j].jd == ContextDay(jds[j], timeFrame) && ReadFrom(rows[j], readings[j], bodyIndexes[..]))
      && (|rows| > 0 ==> CoordsValid(whichCoords[..]))
      && (forall j, b, c :: 0 <= j < |rows| && 0 <= b < bodyIndexes.Length && 0 <= c < whichCoords.Length ==>
            0 <= whichCoords[c] < 6 && data[j, b, c] == Coord(rows[j][b], whichCoords[c]))
      && (forall j, b, c :: |rows| <= j < jds.Length && 0 <= b < bodyIndexes.Length && 0 <= c < whichCoords.Length ==>
            data[j, b, c] == Some(0.0))
      && computationExceptions == CollectedErrors(rows, displayErrorMsg)
    }

    /** Every state read back is in the ephemeris' frame and units. */
    ghost predicate StatesFinalised()
      reads this, whichCoords, coordUnits
    {
      forall j, b :: 0 <= j < |rows| && 0 <= b < |rows[j]| ==>
        Finalised(rows[j][b], frame, Space.ContainsVelocityCoord(whichCoords[..]), coordUnits[..])
    }

    /** The arrays the caller hands over are not the static unit arrays of Body. */
    ghost predicate NotStatic(statics: StaticUnits)
      reads this
    {
      ApartFromStatics(statics, whichCoords) && ApartFromStatics(statics, coordUnits)
      && ApartFromStatics(statics, bodyIndexes)
    }

    /**
     * The field assignments of the constructor (Ephemeris.java:188-202):
     * the body indexes copied, the other arrays kept by reference, and a
     * table of zeros of nbJDs x nbBodies x nbCoords.
     */
    constructor (bodyIndexes: array<int>, jds: array<real>, timeFrame: int, whichCoords: array<int>,
                 coordUnits: array<int>, frame: int, sphereCart: int, precision: real,
                 astroEngine: string, displayErrorMsg: bool)
      requires bodyIndexes.Length >= 1 && jds.Length >= 1 && 1 <= whichCoords.Length <= 6
      ensures Valid() && Tabulated() && rows == [] && readings == [] && !aborted && computationExceptions == []
      ensures fresh(this.bodyIndexes) && this.bodyIndexes[..] == bodyIndexes[..] && fresh(data)
      ensures this.jds == jds && this.whichCoords == whichCoords && this.coordUnits == coordUnits
      ensures this.timeFrame == timeFrame && this.frame == frame && this.sphereCart == sphereCart
      ensures this.precision == precision && this.astroEngine == astroEngine
      ensures this.displayErrorMsg == displayErrorMsg
    {
      var copy := CopyOf(bodyIndexes);
      this.bodyIndexes := copy;
      this.jds := jds;
      this.timeFrame := timeFrame;
      this.frame := frame;
      this.whichCoords := whichCoords;
      this.coordUnits := coordUnits;
      this.sphereCart := sphereCart;
      this.precision := precision;
      this.astroEngine := astroEngine;
      this.displayErrorMsg := displayErrorMsg;
      data := new Double[jds.Length, bodyIndexes.Length, whichCoords.Length]((j, b, c) => Some(0.0));
      computationExceptions := [];
      rows := [];
      readings := [];
      aborted := false;
    }

    /**
     * The constructor (Ephemeris.java:164-206): at least one body, at least
     * one instant and one to six coordinates, or IllegalArgument; then the
     * fields and fillData. An AstroException during the fill leaves a
     * partial table; any other failure of the computation reaches the caller.
     */
    static method Create(bodyIndexes: array<int>, jds: array<real>, timeFrame: int, whichCoords: array<int>,
                         coordUnits: array<int>, frame: int, sphereCart: int, precision: real,
                         astroEngine: string, displayErrorMsg: bool,
                         setting: EngineSetting, statics: StaticUnits, th: Theories, m: Lib)
      returns (r: Result<Ephemeris>)
      requires statics.Valid() && ApartFromStatics(statics, whichCoords) && ApartFromStatics(statics, coordUnits)
      requires ApartFromStatics(statics, bodyIndexes)
      modifies setting, statics.noSpecif, statics.auAuAu, statics.audAudAud
      ensures bodyIndexes.Length < 1 || jds.Length < 1 || whichCoords.Length < 1 || whichCoords.Length > 6 ==>
        r == Err(IllegalArgument)
      ensures !(bodyIndexes.Length < 1 || jds.Length < 1 || whichCoords.Length < 1 || whichCoords.Length > 6) ==>
        setting.astroEngine == Some(astroEngine)
      ensures r.Err? ==> r.error != AstroFailure
      ensures r.Ok? ==> fresh(r.value) && fresh(r.value.bodyIndexes) && fresh(r.value.data)
      ensures r.Ok? ==> (r.value.bodyIndexes[..] == bodyIndexes[..] && r.value.jds == jds
                         && r.value.whichCoords == whichCoords && r.value.coordUnits == coordUnits)
      ensures r.Ok? ==> (r.value.timeFrame == timeFrame && r.value.frame == frame && r.value.sphereCart == sphereCart
                         && r.value.precision == precision && r.value.astroEngine == astroEngine
                         && r.value.displayErrorMsg == displayErrorMsg)
      ensures r.Ok? ==> (r.value.Valid() && r.value.Tabulated() && r.value.StatesFinalisedUnlessSwiss()
                         && (r.value.aborted <==> |r.value.rows| < jds.Length))
    {
      if bodyIndexes.Length < 1 || jds.Length < 1 || whichCoords.Length < 1 || whichCoords.Length > 6 {
        return Err(IllegalArgument);
      }
      var e := new Ephemeris(bodyIndexes, jds, timeFrame, whichCoords, coordUnits, frame, sphereCart,
                             precision, astroEngine, displayErrorMsg);
      var filled := e.FillData(setting, statics, th, m);
      if filled.Err? {
        return Err(filled.error);
      }
      return Ok(e);
    }

    /** With an engine of JEphem's own, every state read back is finalised. */
    ghost predicate StatesFinalisedUnlessSwiss()
      reads this, whichCoords, coordUnits
    {
      astroEngine != SWISS_EPHEMERIS ==> StatesFinalised()
    }

    /**
     * fillData (Ephemeris.java:409-451): velocities are asked for iff a
     * velocity coordinate is requested; instant after instant, a context is
     * computed and its states written into the table. An AstroFailure ends
     * the fill normally, leaving the later instants at 0; any other error,
     * or a coordinate index getCoord refuses, is returned.
     */
    method FillData(setting: EngineSetting, statics: StaticUnits, th: Theories, m: Lib) returns (r: Result<()>)
      requires Valid() && Tabulated() && rows == [] && statics.Valid() && NotStatic(statics)
      modifies this, data, setting, statics.noSpecif, statics.auAuAu, statics.audAudAud
      ensures Valid() && StatesFinalisedUnlessSwiss() && setting.astroEngine == Some(astroEngine)
      ensures r.Err? ==> r.error != AstroFailure
      ensures r.Ok? ==> Tabulated() && (aborted <==> |rows| < jds.Length)
    {
      var velocities := Space.ContainsVelocityCoord(whichCoords[..]);
      aborted := false;
      var j := 0;
      while j < jds.Length
        invariant j == |rows| <= jds.Length
        invariant Valid() && Tabulated() && StatesFinalisedUnlessSwiss() && !aborted
        invariant j > 0 ==> setting.astroEngine == Some(astroEngine)
      {
        ghost var reading;
        var inst;
        inst, reading := ComputeInstant(j, velocities, setting, statics, th, m);
        if inst.Err? {
          if inst.error == AstroFailure {
            aborted := true;
            return Ok(());
          }
          return Err(inst.error);
        }
        r := StoreInstant(j, inst.value, reading);
        if r.Err? {
          return;
        }
        j := j + 1;
      }
      return Ok(());
    }

    /** The context of instant j computed and read back (Ephemeris.java:430-440); the table is untouched. */
    method ComputeInstant(j: int, velocities: bool, setting: EngineSetting, statics: StaticUnits, th: Theories, m: Lib)
      returns (r: Result<seq<BodyState>>, ghost reading: Reading)
      requires Valid() && Tabulated() && StatesFinalisedUnlessSwiss() && statics.Valid() && NotStatic(statics)
      requires 0 <= j < jds.Length && velocities == Space.ContainsVelocityCoord(whichCoords[..])
      modifies setting, statics.noSpecif, statics.auAuAu, statics.audAudAud
      ensures Tabulated() && StatesFinalisedUnlessSwiss() && setting.astroEngine == Some(astroEngine)
      ensures r.Ok? ==> reading.jd == ContextDay(jds[j], timeFrame) && ReadFrom(r.value, reading, bodyIndexes[..])
      ensures r.Ok? && astroEngine != SWISS_EPHEMERIS ==>
        forall b :: 0 <= b < |r.value| ==> Finalised(r.value[b], frame, velocities, coordUnits[..])
    {
      ghost var ac;
      r, reading, ac := InstantStates(jds[j], timeFrame, bodyIndexes, astroEngine, setting, statics, frame,
                         sphereCart, precision, velocities, coordUnits[..], th, m);
    }

    /**
     * The body loop of one instant (Ephemeris.java:433-443) recorded as the
     * next row of the table.
     */
    method StoreInstant(j: int, row: seq<BodyState>, ghost reading: Reading) returns (r: Result<()>)
      requires Valid() && Tabulated() && StatesFinalisedUnlessSwiss()
      requires j == |rows| < jds.Length && |row| == bodyIndexes.Length
      requires reading.jd == ContextDay(jds[j], timeFrame) && ReadFrom(row, reading, bodyIndexes[..])
      requires astroEngine != SWISS_EPHEMERIS ==> forall b :: 0 <= b < |row| ==>
        Finalised(row[b], frame, Space.ContainsVelocityCoord(whichCoords[..]), coordUnits[..])
      modifies this, data
      ensures Valid() && StatesFinalisedUnlessSwiss() && aborted == old(aborted)
      ensures r.Ok? <==> CoordsValid(whichCoords[..])
      ensures r.Err? ==> r.error == IllegalArgument && rows == old(rows)
      ensures r.Ok? ==> rows == old(rows) + [row] && readings == old(readings) + [reading] && Tabulated()
    {
      r := StoreRow(j, row);
      if r.Err? {
        return;
      }
      CollectedErrorsAppend(rows, row, displayErrorMsg);
      rows := rows + [row];
      readings := readings + [reading];
    }

    /**
     * The loop itself: the requested coordinates of each body, then its
     * error when errors are displayed. getCoord refuses an index outside
     * 0..5 with IllegalArgument.
     */
    method StoreRow(j: int, row: seq<BodyState>) returns (r: Result<()>)
      requires Valid() && 0 <= j < jds.Length && |row| == bodyIndexes.Length
      modifies this, data
      ensures rows == old(rows) && readings == old(readings) && aborted == old(aborted)
      ensures r.Ok? <==> CoordsValid(whichCoords[..])
      ensures r.Err? ==> r.error == IllegalArgument
      ensures r.Ok? ==>
        computationExceptions == old(computationExceptions) + (if displayErrorMsg then RowErrors(row) else [])
      ensures r.Ok? ==> forall b, c :: 0 <= b < bodyIndexes.Length && 0 <= c < whichCoords.Length ==>
        0 <= whichCoords[c] < 6 && data[j, b, c] == Coord(row[b], whichCoords[c])
      ensures forall j', b', c ::
        (0 <= j' < jds.Length && 0 <= b' < bodyIndexes.Length && 0 <= c < whichCoords.Length && j' != j)
        ==> data[j', b', c] == old(data[j', b', c])
    {
      ghost var errs := computationExceptions;
      r := Ok(());
      for b := 0 to |row|
        invariant r.Ok?
        invariant computationExceptions == errs + (if displayErrorMsg then RowErrors(row[..b]) else [])
        invariant rows == old(rows) && readings == old(readings) && aborted == old(aborted)
        invariant forall b', c :: 0 <= b' < b && 0 <= c < whichCoords.Length ==>
          0 <= whichCoords[c] < 6 && data[j, b', c] == Coord(row[b'], whichCoords[c])
        invariant forall j', b', c ::
          (0 <= j' < jds.Length && 0 <= b' < bodyIndexes.Length && 0 <= c < whichCoords.Length && j' != j)
          ==> data[j', b', c] == old(data[j', b', c])
      {
        r := StoreBody(j, b, row[b]);
        if r.Err? {
          return;
        }
        RowErrorsStep(row, b);
      }
      assert row[..|row|] == row;
      forall c | 0 <= c < whichCoords.Length
        ensures whichCoords[..][c] == whichCoords[c] && 0 <= whichCoords[c] < 6
      {
        assert data[j, 0, c] == old(data[j, 0, c]) || data[j, 0, c] == Coord(row[0], whichCoords[c]);
      }
    }

    /**
     * One pass of the body loop (Ephemeris.java:434-442): the body's
     * coordinates, then its error when errors are displayed.
     */
    method StoreBody(j: int, b: int, s: BodyState) returns (r: Result<()>)
      requires Valid() && 0 <= j < jds.Length && 0 <= b < bodyIndexes.Length
      modifies this, data
      ensures rows == old(rows) && readings == old(readings) && aborted == old(aborted)
      ensures r.Ok? <==> CoordsValid(whichCoords[..])
      ensures r.Err? ==> r.error == IllegalArgument
      ensures r.Ok? ==> forall c :: 0 <= c < whichCoords.Length ==>
        0 <= whichCoords[c] < 6 && data[j, b, c] == Coord(s, whichCoords[c])
      ensures r.Ok? ==>
        computationExceptions == old(computationExceptions) + (if displayErrorMsg && s.ce.Some? then [s.ce.value] else [])
      ensures forall j', b', c ::
        (0 <= j' < jds.Length && 0 <= b' < bodyIndexes.Length && 0 <= c < whichCoords.Length && (j' != j || b' != b))
        ==> data[j', b', c] == old(data[j', b', c])
    {
      r := StoreCoords(j, b, s);
      if r.Ok? && displayErrorMsg && s.ce.Some? {
        computationExceptions := computationExceptions + [s.ce.value];
      }
    }

    /** The coordinate loop of one body (Ephemeris.java:434-437). */
    method StoreCoords(j: int, b: int, s: BodyState) returns (r: Result<()>)
      requires Valid() && 0 <= j < jds.Length && 0 <= b < bodyIndexes.Length
      modifies data
      ensures r.Ok? <==> CoordsValid(whichCoords[..])
      ensures r.Err? ==> r.error == IllegalArgument
      ensures r.Ok? ==> forall c :: 0 <= c < whichCoords.Length ==> data[j, b, c] == Coord(s, whichCoords[c])
      ensures forall j', b', c ::
        (0 <= j' < jds.Length && 0 <= b' < bodyIndexes.Length && 0 <= c < whichCoords.Length && (j' != j || b' != b))
        ==> data[j', b', c] == old(data[j', b', c])
    {
      var c := 0;
      while c < whichCoords.Length
        invariant 0 <= c <= whichCoords.Length
        invariant forall k :: 0 <= k < c ==> 0 <= whichCoords[k] < 6 && data[j, b, k] == Coord(s, whichCoords[k])
        invariant forall j', b', k ::
          (0 <= j' < jds.Length && 0 <= b' < bodyIndexes.Length && 0 <= k < whichCoords.Length && (j' != j || b' != b))
          ==> data[j', b', k] == old(data[j', b', k])
      {
        if !(0 <= whichCoords[c] < 6) {
          assert whichCoords[..][c] == whichCoords[c];
          return Err(IllegalArgument);
        }
        data[j, b, c] := Coord(s, whichCoords[c]);
        c := c + 1;
      }
      assert forall k :: 0 <= k < whichCoords.Length ==> whichCoords[..][k] == whichCoords[k];
      return Ok(());
    }

    /**
     * The value a table cell shows (Ephemeris.java:364-367): with instants in
     * rows, row j and column b are instant j and body b; with instants in
     * columns the other way round; any other orientation is refused.
     */
    function Cell(orientation: int, iRow: int, iCol: int, iCoord: int): (r: Result<Double>)
      requires Valid()
      reads this, data
      ensures TableShape(orientation, jds.Length, bodyIndexes.Length).Err? ==> r == Err(IllegalArgument)
      ensures r.Ok? <==> (TableShape(orientation, jds.Length, bodyIndexes.Length).Ok?
                          && 0 <= iRow < TableShape(orientation, jds.Length, bodyIndexes.Length).value.0
                          && 0 <= iCol < TableShape(orientation, jds.Length, bodyIndexes.Length).value.1
                          && 0 <= iCoord < whichCoords.Length)
    {
      var shape := TableShape(orientation, jds.Length, bodyIndexes.Length);
      if shape.Err? then Err(shape.error)
      else if !(0 <= iRow < shape.value.0 && 0 <= iCol < shape.value.1 && 0 <= iCoord < whichCoords.Length) then
        Err(IndexOutOfBounds)
      else if orientation == INSTANTS_IN_ROWS then Ok(data[iRow, iCol, iCoord])
      else Ok(data[iCol, iRow, iCoord])
    }

    /** The two orientations show the same table transposed. */
    lemma CellTransposed(iRow: int, iCol: int, iCoord: int)
      requires Valid()
      ensures Cell(INSTANTS_IN_ROWS, iRow, iCol, iCoord) == Cell(INSTANTS_IN_COLUMNS, iCol, iRow, iCoord)
    {
    }

    /** With instants in rows, cell (j, b) shows coordinate c of body b read back at instant j. */
    lemma CellShowsState(j: int, b: int, c: int)
      requires Valid() && Tabulated()
      requires 0 <= j < |rows| && 0 <= b < bodyIndexes.Length && 0 <= c < whichCoords.Length
      ensures Cell(INSTANTS_IN_ROWS, j, b, c) == Ok(Coord(rows[j][b], whichCoords[c]))
    {
    }
  }
}
