/**
 * Frames, coordinate expressions, coordinate groups and coordinate codes
 * (jephem.astro.spacetime.Space).
 */
module Space {
  import opened Wrappers
  import opened Constants

  const ENGLISH_FRAME_NAMES: seq<string> :=
    ["Frame of theory", "Heliocentric geometric", "Ecliptic geocentric", "Equatorial geocentric"]

  const ENGLISH_COORDEXPR_NAMES: seq<string> := ["cartesian", "spherical"]

  /** Position-coordinate labels; row 0 is for an unspecified group, row g + 1 for group g. */
  const COORD_GROUP_LABELS: seq<seq<string>> := [
    ["X1", "X2", "X3"],
    ["X", "Y", "Z"],
    ["del", "bet", "lam"],
    ["r", "l", "b"],
    ["dist.", "alpha", "beta"]
  ]

  /** getFrameLabel: a direct index into the four frame names. */
  function FrameLabel(frame: int): (r: Result<string>)
    ensures r.Ok? <==> FRAME_THEORY <= frame <= FRAME_EQUATORIAL
    ensures r.Err? ==> r.error == IndexOutOfBounds
    ensures frame == FRAME_THEORY ==> r == Ok("Frame of theory")
    ensures frame == FRAME_EQUATORIAL ==> r == Ok("Equatorial geocentric")
  {
    if 0 <= frame < |ENGLISH_FRAME_NAMES| then Ok(ENGLISH_FRAME_NAMES[frame]) else Err(IndexOutOfBounds)
  }

  /** getCoordinateExpressionLabel: "cartesian" or "spherical". */
  function CoordinateExpressionLabel(coordExpr: int): (r: Result<string>)
    ensures coordExpr == CARTESIAN ==> r == Ok("cartesian")
    ensures coordExpr == SPHERICAL ==> r == Ok("spherical")
    ensures coordExpr != CARTESIAN && coordExpr != SPHERICAL ==> r == Err(IndexOutOfBounds)
  {
    if 0 <= coordExpr < |ENGLISH_COORDEXPR_NAMES| then Ok(ENGLISH_COORDEXPR_NAMES[coordExpr])
    else Err(IndexOutOfBounds)
  }

  /** getCoordGroupLabels: row 0 for NO_SPECIF, otherwise row coordGroup + 1. */
  function CoordGroupLabels(coordGroup: int): (r: Result<seq<string>>)
    ensures coordGroup == NO_SPECIF ==> r == Ok(["X1", "X2", "X3"])
    ensures coordGroup == COORDGROUP_XYZ ==> r == Ok(["X", "Y", "Z"])
    ensures r.Ok? <==> coordGroup == NO_SPECIF || -1 <= coordGroup <= COORDGROUP_DIST_ALPHA_DELTA
    ensures r.Ok? ==> |r.value| == 3
  {
    if coordGroup == NO_SPECIF then Ok(COORD_GROUP_LABELS[0])
    else if 0 <= coordGroup + 1 < |COORD_GROUP_LABELS| then Ok(COORD_GROUP_LABELS[coordGroup + 1])
    else Err(IndexOutOfBounds)
  }

  /** getCoordGroup: the coordinate group of a frame, NO_SPECIF for frames without one. */
  function CoordGroup(frame: int): (r: int)
    ensures frame == FRAME_EC_HELIO_GEOMETRIC <==> r == COORDGROUP_DELTA_BETA_LAMBDA
    ensures frame == FRAME_ECLIPTIC <==> r == COORDGROUP_RLB
    ensures frame == FRAME_EQUATORIAL <==> r == COORDGROUP_DIST_ALPHA_DELTA
    ensures r == NO_SPECIF <==> frame !in {FRAME_EC_HELIO_GEOMETRIC, FRAME_ECLIPTIC, FRAME_EQUATORIAL}
    ensures r != COORDGROUP_XYZ
  {
    if frame == FRAME_EC_HELIO_GEOMETRIC then COORDGROUP_DELTA_BETA_LAMBDA
    else if frame == FRAME_ECLIPTIC then COORDGROUP_RLB
    else if frame == FRAME_EQUATORIAL then COORDGROUP_DIST_ALPHA_DELTA
    else NO_SPECIF
  }

  /** The labels of a frame's coordinate group always exist and name the frame's coordinates. */
  lemma FrameCoordLabels(frame: int)
    ensures CoordGroupLabels(CoordGroup(frame)).Ok?
    ensures frame == FRAME_EC_HELIO_GEOMETRIC ==> CoordGroupLabels(CoordGroup(frame)).value == ["del", "bet", "lam"]
    ensures frame == FRAME_ECLIPTIC ==> CoordGroupLabels(CoordGroup(frame)).value == ["r", "l", "b"]
    ensures frame == FRAME_EQUATORIAL ==> CoordGroupLabels(CoordGroup(frame)).value == ["dist.", "alpha", "beta"]
    ensures frame !in {FRAME_EC_HELIO_GEOMETRIC, FRAME_ECLIPTIC, FRAME_EQUATORIAL} ==>
      CoordGroupLabels(CoordGroup(frame)).value == ["X1", "X2", "X3"]
  {
  }

  /** getCoord: the coordinate code for an index 0..5, NO_SPECIF otherwise. */
  function Coord(coordIndex: int): (r: int)
    ensures 0 <= coordIndex <= 5 ==> r == coordIndex
    ensures !(0 <= coordIndex <= 5) ==> r == NO_SPECIF
    ensures r == NO_SPECIF || COORD_X0 <= r <= COORD_V2
  {
    if coordIndex == 0 then COORD_X0
    else if coordIndex == 1 then COORD_X1
    else if coordIndex == 2 then COORD_X2
    else if coordIndex == 3 then COORD_V0
    else if coordIndex == 4 then COORD_V1
    else if coordIndex == 5 then COORD_V2
    else NO_SPECIF
  }

  /** A velocity coordinate code. */
  predicate IsVelocityCoord(c: int)
  {
    c == COORD_V0 || c == COORD_V1 || c == COORD_V2
  }

  /** containsVelocityCoord: the scan stops at the first velocity coordinate. */
  function ContainsVelocityCoord(coords: seq<int>): (r: bool)
    ensures r <==> exists i :: 0 <= i < |coords| && IsVelocityCoord(coords[i])
  {
    if |coords| == 0 then false
    else if IsVelocityCoord(coords[0]) then true
    else
      var rest := ContainsVelocityCoord(coords[1..]);
      assert forall i :: 1 <= i < |coords| ==> coords[i] == coords[1..][i - 1];
      rest
  }

  /** A selection of coordinate indexes asks for velocities iff it selects an index 3..5. */
  lemma {:induction false} VelocitiesOfIndexes(indexes: seq<int>)
    requires forall i :: 0 <= i < |indexes| ==> 0 <= indexes[i] <= 5
    ensures ContainsVelocityCoord(seq(|indexes|, i requires 0 <= i < |indexes| => Coord(indexes[i])))
        <==> exists i :: 0 <= i < |indexes| && indexes[i] >= 3
  {
    var cs := seq(|indexes|, i requires 0 <= i < |indexes| => Coord(indexes[i]));
    assert forall i :: 0 <= i < |indexes| ==> cs[i] == indexes[i];
  }
}
