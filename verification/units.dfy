/**
 * Unit codes, unit labels and unit conversions (jephem.astro.spacetime.Units).
 * A unit code is `type * 100 + offset`; the offset indexes the label table and
 * the conversion table of its type.
 */
module Units {
  import opened Wrappers
  import opened Constants
  import opened MathLib

  /** Arcseconds to radians and back (tig.maths.Maths). */
  const ARCSEC_TO_RAD: real := PI / 648000.0
  const RAD_TO_ARCSEC: real := 648000.0 / PI

  /** English unit labels, one row per unit type. */
  const UNIT_LABELS: seq<seq<string>> := [
    ["a.u.", "km", "m"],
    ["a.u./d", "km/d", "km/h", "m/s"],
    ["arcsec", "deg", "rad"],
    ["arcsec/s", "deg/s", "arcsec/d", "deg/d", "rad/d"]
  ]

  /**
   * Conversion factors: a value in unit offset `a` of type `t` times
   * CONVERSIONS[t][a][b] is the same quantity in unit offset `b`.
   */
  const DISTANCE_CONVERSIONS: seq<seq<real>> := [
    [1.0, KM_PER_AU, KM_PER_AU * 1000.0],
    [1.0 / KM_PER_AU, 1.0, 1000.0],
    [0.001 / KM_PER_AU, 0.001, 1.0] ]
  const LINEAR_SPEED_CONVERSIONS: seq<seq<real>> := [
    [1.0, KM_PER_AU, KM_PER_AU / 24.0, KM_PER_AU / 86.4],
    [1.0 / KM_PER_AU, 1.0, 1.0 / 24.0, 1.0 / 86.4],
    [24.0 / KM_PER_AU, 24.0, 1.0, 1.0 / 3.6],
    [86.4 / KM_PER_AU, 86.4, 3.6, 1.0] ]
  const ANGULAR_CONVERSIONS: seq<seq<real>> := [
    [1.0, 1.0 / 3600.0, ARCSEC_TO_RAD],
    [3600.0, 1.0, PI / 180.0],
    [RAD_TO_ARCSEC, 180.0 / PI, 1.0] ]
  const ANGULAR_SPEED_CONVERSIONS: seq<seq<real>> := [
    [1.0, 1.0 / 3600.0, 86400.0, 24.0, ARCSEC_TO_RAD * 86400.0],
    [3600.0, 1.0, 3600.0 * 86400.0, 86400.0, PI / 180.0 * 86400.0],
    [1.0 / 86400.0, 1.0 / (3600.0 * 86400.0), 1.0, 1.0 / 3600.0, ARCSEC_TO_RAD],
    [1.0 / 24.0, 1.0 / 86400.0, 3600.0, 1.0, PI / 180.0],
    [RAD_TO_ARCSEC / 86400.0, 180.0 / PI / 86400.0, RAD_TO_ARCSEC, 180.0 / PI, 1.0] ]

  /**
   * Conversion factors: a value in unit offset `a` of type `t` times
   * CONVERSIONS[t][a][b] is the same quantity in unit offset `b`.
   */
  const CONVERSIONS: seq<seq<seq<real>>> :=
    [DISTANCE_CONVERSIONS, LINEAR_SPEED_CONVERSIONS, ANGULAR_CONVERSIONS, ANGULAR_SPEED_CONVERSIONS]

  /** The type of a unit code: floor(unit / 100). */
  function UnitTypeOf(unit: int): (t: int)
    ensures t * DELTA_BETWEEN_BASES <= unit < t * DELTA_BETWEEN_BASES + DELTA_BETWEEN_BASES
  {
    unit / DELTA_BETWEEN_BASES
  }

  /** The position of a unit code inside its type's row. */
  function Offset(unit: int): int
  {
    unit - UnitTypeOf(unit) * DELTA_BETWEEN_BASES
  }

  /** The number of units of each of the four types. */
  function UnitCount(t: int): nat
  {
    if t == TYPE_DISTANCE then 3
    else if t == TYPE_LINEAR_SPEED then 4
    else if t == TYPE_ANGULAR then 3
    else if t == TYPE_ANGULAR_SPEED then 5
    else 0
  }

  /** The label row and the square conversion table of a type have UnitCount entries. */
  lemma TableShape(t: int)
    requires 0 <= t < 4
    ensures |UNIT_LABELS[t]| == |CONVERSIONS[t]| == UnitCount(t)
    ensures forall a :: 0 <= a < UnitCount(t) ==> |CONVERSIONS[t][a]| == UnitCount(t)
  {
    if t == 0 { assert CONVERSIONS[t] == DISTANCE_CONVERSIONS; }
    else if t == 1 { assert CONVERSIONS[t] == LINEAR_SPEED_CONVERSIONS; }
    else if t == 2 { assert CONVERSIONS[t] == ANGULAR_CONVERSIONS; }
    else { assert CONVERSIONS[t] == ANGULAR_SPEED_CONVERSIONS; }
  }

  /** A unit code that names an entry of the label and conversion tables. */
  predicate IsUnit(unit: int)
  {
    0 <= UnitTypeOf(unit) < 4 && Offset(unit) < UnitCount(UnitTypeOf(unit))
  }

  /** The codes of the units of one type, in table order. */
  function UnitsOfType(t: int): (r: seq<int>)
    requires 0 <= t < 4
    ensures |r| == UnitCount(t)
    ensures forall i :: 0 <= i < |r| ==> IsUnit(r[i]) && UnitTypeOf(r[i]) == t && Offset(r[i]) == i
  {
    seq(UnitCount(t), i requires 0 <= i < UnitCount(t) => t * DELTA_BETWEEN_BASES + i)
  }

  /**
   * getUnits: the codes of the units of a type, built by a loop over the label
   * row; an unknown type indexes past the label table.
   */
  method GetUnits(unitType: int) returns (r: Result<seq<int>>)
    ensures 0 <= unitType < |UNIT_LABELS| ==> r == Ok(UnitsOfType(unitType))
    ensures !(0 <= unitType < |UNIT_LABELS|) ==> r == Err(IndexOutOfBounds)
    ensures r.Ok? ==> |r.value| == |UNIT_LABELS[unitType]|
    ensures r.Ok? ==> forall i :: 0 <= i < |r.value| ==>
      UnitTypeOf(r.value[i]) == unitType && UnitLabel(r.value[i]) == Ok(UNIT_LABELS[unitType][i])
  {
    if !(0 <= unitType < |UNIT_LABELS|) {
      return Err(IndexOutOfBounds);
    }
    TableShape(unitType);
    var len := |UNIT_LABELS[unitType]|;
    var res := new int[len];
    var i := 0;
    while i < len
      invariant 0 <= i <= len
      invariant forall k :: 0 <= k < i ==> res[k] == unitType * DELTA_BETWEEN_BASES + k
    {
      res[i] := unitType * DELTA_BETWEEN_BASES + i;
      i := i + 1;
    }
    assert res[..] == UnitsOfType(unitType);
    return Ok(res[..]);
  }

  /** getUnitType(coordExpr, whichCoord): the unit type of a coordinate. */
  function CoordUnitType(coordExpr: int, whichCoord: int): (r: Result<int>)
    ensures r.Ok? <==> (coordExpr == CARTESIAN || coordExpr == SPHERICAL) && COORD_X0 <= whichCoord <= COORD_V2
    ensures r.Err? ==> r.error == IllegalArgument
    ensures coordExpr == CARTESIAN && r.Ok? ==>
      r.value == (if whichCoord <= COORD_X2 then TYPE_DISTANCE else TYPE_LINEAR_SPEED)
    ensures coordExpr == SPHERICAL && r.Ok? ==>
      r.value == (if whichCoord == COORD_X0 then TYPE_DISTANCE
                  else if whichCoord <= COORD_X2 then TYPE_ANGULAR
                  else if whichCoord == COORD_V0 then TYPE_LINEAR_SPEED
                  else TYPE_ANGULAR_SPEED)
  {
    if coordExpr == CARTESIAN then
      if whichCoord == COORD_X0 || whichCoord == COORD_X1 || whichCoord == COORD_X2 then Ok(TYPE_DISTANCE)
      else if whichCoord == COORD_V0 || whichCoord == COORD_V1 || whichCoord == COORD_V2 then Ok(TYPE_LINEAR_SPEED)
      else Err(IllegalArgument)
    else if coordExpr == SPHERICAL then
      if whichCoord == COORD_X0 then Ok(TYPE_DISTANCE)
      else if whichCoord == COORD_X1 || whichCoord == COORD_X2 then Ok(TYPE_ANGULAR)
      else if whichCoord == COORD_V0 then Ok(TYPE_LINEAR_SPEED)
      else if whichCoord == COORD_V1 || whichCoord == COORD_V2 then Ok(TYPE_ANGULAR_SPEED)
      else Err(IllegalArgument)
    else Err(IllegalArgument)
  }

  /** getUnitLabels: the label row of a unit type. */
  function UnitLabels(unitType: int): (r: Result<seq<string>>)
    ensures r.Ok? <==> 0 <= unitType < |UNIT_LABELS|
    ensures r.Ok? ==> r.value == UNIT_LABELS[unitType] && |r.value| == |UnitsOfType(unitType)|
  {
    if 0 <= unitType < |UNIT_LABELS| then Ok(UNIT_LABELS[unitType]) else Err(IndexOutOfBounds)
  }

  /** getUnitLabel: the label of one unit code, found through its type and offset. */
  function UnitLabel(unit: int): (r: Result<string>)
    ensures r.Ok? <==> IsUnit(unit)
    ensures r.Err? ==> r.error == IndexOutOfBounds
  {
    var t := UnitTypeOf(unit);
    if 0 <= t < |UNIT_LABELS| && Offset(unit) < |UNIT_LABELS[t]| then Ok(UNIT_LABELS[t][Offset(unit)])
    else Err(IndexOutOfBounds)
  }

  /** The label of the i-th unit returned for a type is the i-th label of that type. */
  lemma UnitLabelOfUnitsOfType(t: int, i: int)
    requires 0 <= t < |UNIT_LABELS| && 0 <= i < |UNIT_LABELS[t]|
    ensures UnitLabel(UnitsOfType(t)[i]) == Ok(UNIT_LABELS[t][i])
  {
    assert UnitsOfType(t)[i] == t * DELTA_BETWEEN_BASES + i;
  }

  /** The factor converting `u1` into `u2`, two units of the same type. */
  function Factor(u1: int, u2: int): real
    requires IsUnit(u1) && IsUnit(u2) && UnitTypeOf(u1) == UnitTypeOf(u2)
  {
    CONVERSIONS[UnitTypeOf(u1)][Offset(u1)][Offset(u2)]
  }

  /** A value multiplied by a conversion factor. */
  function Scale(x: real, factor: real): real
  {
    x * factor
  }

  /** Both units specified, so the position takes part in the conversion. */
  predicate Specified(u1: int, u2: int)
  {
    u1 != NO_SPECIF && u2 != NO_SPECIF
  }

  /** The value converted at one position; NaN when a unit is unspecified or the value is NaN. */
  function ConvertOne(x: Double, u1: int, u2: int): Double
    requires Specified(u1, u2) ==> IsUnit(u1) && IsUnit(u2) && UnitTypeOf(u1) == UnitTypeOf(u2)
  {
    if Specified(u1, u2) && x.Some? then Some(Scale(x.value, Factor(u1, u2))) else None
  }

  /** No position pairs two specified units of different types. */
  predicate TypesAgree(units1: seq<int>, units2: seq<int>)
    requires |units1| == |units2|
  {
    forall i :: 0 <= i < |units1| && Specified(units1[i], units2[i]) ==> UnitTypeOf(units1[i]) == UnitTypeOf(units2[i])
  }

  /** Every position with two specified units names entries of the tables. */
  predicate InTables(units1: seq<int>, units2: seq<int>)
    requires |units1| == |units2|
  {
    forall i :: 0 <= i < |units1| && Specified(units1[i], units2[i]) ==> IsUnit(units1[i]) && IsUnit(units2[i])
  }

  /**
   * Specification of convertUnits: IllegalArgument on a length mismatch or on a
   * position whose two specified units have different types; an unknown unit
   * of an agreeing type indexes past the conversion table.
   */
  function Converted(coords: seq<Double>, units1: seq<int>, units2: seq<int>): (r: Result<seq<Double>>)
    ensures r.Ok? ==> |r.value| == |coords|
  {
    if |units1| != |coords| || |units2| != |coords| then Err(IllegalArgument)
    else if !TypesAgree(units1, units2) then Err(IllegalArgument)
    else if !InTables(units1, units2) then Err(IndexOutOfBounds)
    else Ok(seq(|coords|, i requires 0 <= i < |coords| => ConvertOne(coords[i], units1[i], units2[i])))
  }

  /** The validation loop of convertUnits: the first pair of specified units of different types. */
  method CheckTypes(units1: array<int>, units2: array<int>) returns (ok: bool)
    requires units1.Length == units2.Length
    ensures ok == TypesAgree(units1[..], units2[..])
  {
    var i := 0;
    while i < units1.Length
      invariant 0 <= i <= units1.Length
      invariant forall k :: 0 <= k < i && Specified(units1[k], units2[k]) ==> UnitTypeOf(units1[k]) == UnitTypeOf(units2[k])
    {
      if units1[i] != NO_SPECIF && units2[i] != NO_SPECIF {
        if UnitTypeOf(units1[i]) != UnitTypeOf(units2[i]) {
          assert units1[..][i] == units1[i] && units2[..][i] == units2[i];
          return false;
        }
      }
      i := i + 1;
    }
    return true;
  }

  /** convertUnits: length checks, the validation loop, then a loop filling a fresh result array. */
  method ConvertUnits(coords: array<Double>, units1: array<int>, units2: array<int>)
    returns (r: Result<seq<Double>>)
    ensures r == Converted(coords[..], units1[..], units2[..])
  {
    ghost var c, u1, u2 := coords[..], units1[..], units2[..];
    var len := coords.Length;
    if units1.Length != len || units2.Length != len {
      return Err(IllegalArgument);
    }
    var agree := CheckTypes(units1, units2);
    if !agree {
      return Err(IllegalArgument);
    }
    var res := new Double[len](_ => None);
    var i := 0;
    while i < len
      invariant 0 <= i <= len
      invariant TypesAgree(u1, u2)
      invariant forall k :: 0 <= k < i ==> Specified(units1[k], units2[k]) ==> IsUnit(units1[k]) && IsUnit(units2[k])
      invariant forall k :: 0 <= k < i ==> res[k] == ConvertOne(coords[k], units1[k], units2[k])
    {
      if units1[i] == NO_SPECIF || units2[i] == NO_SPECIF {
        res[i] := None;
      } else {
        var t := UnitTypeOf(units1[i]);
        var a := units1[i] - t * DELTA_BETWEEN_BASES;
        var b := units2[i] - t * DELTA_BETWEEN_BASES;
        assert a == Offset(units1[i]) && b == Offset(units2[i]);
        if 0 <= t < 4 { TableShape(t); }
        if !(0 <= t < |CONVERSIONS| && 0 <= a < |CONVERSIONS[t]| && 0 <= b < |CONVERSIONS[t][a]|) {
          assert !InTables(units1[..], units2[..]) by {
            assert units1[..][i] == units1[i] && units2[..][i] == units2[i];
            assert UnitTypeOf(units2[i]) == t;
          }
          return Err(IndexOutOfBounds);
        }
        var factor := CONVERSIONS[t][a][b];
        assert factor == Factor(units1[i], units2[i]);
        res[i] := if coords[i].Some? then Some(Scale(coords[i].value, factor)) else None;
      }
      i := i + 1;
    }
    assert InTables(units1[..], units2[..]);
    assert res[..] == seq(len, k requires 0 <= k < len => ConvertOne(c[k], u1[k], u2[k]));
    return Ok(res[..]);
  }

  /** Every diagonal entry of the conversion tables is 1. */
  lemma DiagonalIsOne(u: int)
    requires IsUnit(u)
    ensures Factor(u, u) == 1.0
  {
    var t := UnitTypeOf(u);
    assert 0 <= t < 4;
    if t == 0 { assert Offset(u) < 3; }
    else if t == 1 { assert Offset(u) < 4; }
    else if t == 2 { assert Offset(u) < 3; }
    else { assert Offset(u) < 5; }
  }

  /** Two factors whose product is one. */
  predicate AreReciprocal(f: real, g: real)
  {
    f * g == 1.0
  }

  /** Entry (a, b) of type t's table is the reciprocal of entry (b, a). */
  predicate ReciprocalEntries(t: int, a: int, b: int)
    requires 0 <= t < 4 && 0 <= a < |CONVERSIONS[t]| && 0 <= b < |CONVERSIONS[t]|
    requires |CONVERSIONS[t][a]| == |CONVERSIONS[t]| && |CONVERSIONS[t][b]| == |CONVERSIONS[t]|
  {
    AreReciprocal(CONVERSIONS[t][a][b], CONVERSIONS[t][b][a])
  }

  lemma ReciprocalDistance(a: int, b: int)
    requires 0 <= a < 3 && 0 <= b < 3
    ensures |CONVERSIONS[0]| == |UNIT_LABELS[0]| == 3 && |CONVERSIONS[0][a]| == 3 && |CONVERSIONS[0][b]| == 3
    ensures ReciprocalEntries(0, a, b)
  {
    assert CONVERSIONS[0] == DISTANCE_CONVERSIONS;
  }

  lemma ReciprocalLinearSpeed(a: int, b: int)
    requires 0 <= a < 4 && 0 <= b < 4
    ensures |CONVERSIONS[1]| == |UNIT_LABELS[1]| == 4 && |CONVERSIONS[1][a]| == 4 && |CONVERSIONS[1][b]| == 4
    ensures ReciprocalEntries(1, a, b)
  {
    assert CONVERSIONS[1] == LINEAR_SPEED_CONVERSIONS;
  }

  lemma ReciprocalAngular(a: int, b: int)
    requires 0 <= a < 3 && 0 <= b < 3
    ensures |CONVERSIONS[2]| == |UNIT_LABELS[2]| == 3 && |CONVERSIONS[2][a]| == 3 && |CONVERSIONS[2][b]| == 3
    ensures ReciprocalEntries(2, a, b)
  {
    assert CONVERSIONS[2] == ANGULAR_CONVERSIONS;
  }

  lemma ReciprocalAngularSpeed(a: int, b: int)
    requires 0 <= a < 5 && 0 <= b < 5
    ensures |CONVERSIONS[3]| == |UNIT_LABELS[3]| == 5 && |CONVERSIONS[3][a]| == 5 && |CONVERSIONS[3][b]| == 5
    ensures ReciprocalEntries(3, a, b)
  {
    assert CONVERSIONS[3] == ANGULAR_SPEED_CONVERSIONS;
  }

  /** Each table is square, with one row and one column per unit label, and reciprocal. */
  lemma {:induction false} ReciprocalAt(t: int, a: int, b: int)
    requires 0 <= t < 4 && 0 <= a < |CONVERSIONS[t]| && 0 <= b < |CONVERSIONS[t]|
    ensures |CONVERSIONS[t]| == |UNIT_LABELS[t]|
    ensures |CONVERSIONS[t][a]| == |CONVERSIONS[t]| && |CONVERSIONS[t][b]| == |CONVERSIONS[t]|
    ensures ReciprocalEntries(t, a, b)
  {
    if t == 0 { ReciprocalDistance(a, b); }
    else if t == 1 { ReciprocalLinearSpeed(a, b); }
    else if t == 2 { ReciprocalAngular(a, b); }
    else { ReciprocalAngularSpeed(a, b); }
  }

  /** The tables are mutually reciprocal: table[t][a][b] = 1 / table[t][b][a]. */
  lemma Reciprocal(u1: int, u2: int)
    requires IsUnit(u1) && IsUnit(u2) && UnitTypeOf(u1) == UnitTypeOf(u2)
    ensures AreReciprocal(Factor(u1, u2), Factor(u2, u1))
  {
    var t, a, b := UnitTypeOf(u1), Offset(u1), Offset(u2);
    ReciprocalAt(t, a, b);
    assert Factor(u1, u2) == CONVERSIONS[t][a][b];
    assert Factor(u2, u1) == CONVERSIONS[t][b][a];
  }

  /** Scaling by a factor and then by its reciprocal gives the value back. */
  lemma ScaleBack(x: real, f: real, g: real)
    requires AreReciprocal(f, g)
    ensures Scale(Scale(x, f), g) == x
  {
    calc {
      Scale(Scale(x, f), g);
      (x * f) * g;
      x * (f * g);
    }
  }

  /** One position of a round trip between two units of the same type. */
  lemma RoundTripAt(x: real, u1: int, u2: int)
    requires IsUnit(u1) && IsUnit(u2) && UnitTypeOf(u1) == UnitTypeOf(u2)
    ensures Scale(Scale(x, Factor(u1, u2)), Factor(u2, u1)) == x
  {
    Reciprocal(u1, u2);
    ScaleBack(x, Factor(u1, u2), Factor(u2, u1));
  }

  /** Converting into the same units leaves every value whose unit is specified unchanged. */
  lemma {:induction false} ConvertSameUnits(coords: seq<Double>, units: seq<int>)
    requires |units| == |coords|
    requires forall i :: 0 <= i < |units| && units[i] != NO_SPECIF ==> IsUnit(units[i])
    ensures Converted(coords, units, units).Ok?
    ensures forall i :: 0 <= i < |coords| ==>
      Converted(coords, units, units).value[i] == if units[i] == NO_SPECIF then None else coords[i]
  {
    assert TypesAgree(units, units);
    assert InTables(units, units);
    forall i | 0 <= i < |coords| && units[i] != NO_SPECIF && coords[i].Some?
      ensures Scale(coords[i].value, Factor(units[i], units[i])) == coords[i].value
    {
      DiagonalIsOne(units[i]);
    }
  }

  /** Converting from units1 to units2 and back gives the original values, NaN included. */
  lemma {:induction false} ConvertRoundTrip(coords: seq<Double>, units1: seq<int>, units2: seq<int>)
    requires Converted(coords, units1, units2).Ok?
    requires forall i :: 0 <= i < |units1| ==> units1[i] != NO_SPECIF && units2[i] != NO_SPECIF
    ensures Converted(Converted(coords, units1, units2).value, units2, units1) == Ok(coords)
  {
    var there := Converted(coords, units1, units2).value;
    assert TypesAgree(units2, units1);
    assert InTables(units2, units1);
    var back := Converted(there, units2, units1);
    forall i | 0 <= i < |coords|
      ensures back.value[i] == coords[i]
    {
      if coords[i].Some? {
        RoundTripAt(coords[i].value, units1[i], units2[i]);
      }
    }
    assert back.value == coords;
  }
}
