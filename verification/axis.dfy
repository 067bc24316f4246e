/**
 * An axis of a 2D figure (jephem.astro.spacetime.Axis with the values of
 * AxisConstants): an X or Y axis, drawn inside or outside the figure, at a
 * place that must be on the matching border when it is outside.
 */
module Axes {
  import opened Wrappers

  const X: int := 0
  const Y: int := 1

  const INSIDE: int := 0
  const OUTSIDE: int := 1

  const LEFT: real := 1.0
  const RIGHT: real := 2.0
  const TOP: real := 4.0
  const BOTTOM: real := 5.0

  datatype Axis = Axis(xOrY: int, inOrOut: int, place: real)

  /** The places an OUTSIDE axis may take: top and/or bottom for X, left and/or right for Y. */
  predicate BorderPlace(xOrY: int, place: real)
  {
    if xOrY == X then place == TOP || place == BOTTOM || place == TOP + BOTTOM
    else place == LEFT || place == RIGHT || place == LEFT + RIGHT
  }

  /**
   * The constructor (Axis.java:45-67): the direction is checked first, then
   * the side, then, for an OUTSIDE axis, the place; an INSIDE axis keeps any
   * place.
   */
  function NewAxis(xOrY: int, inOrOut: int, place: real): (r: Result<Axis>)
    ensures r.Ok? <==> (xOrY == X || xOrY == Y) && (inOrOut == INSIDE || inOrOut == OUTSIDE)
                       && (inOrOut == OUTSIDE ==> BorderPlace(xOrY, place))
    ensures r.Ok? ==> r.value == Axis(xOrY, inOrOut, place)
    ensures r.Err? ==> r.error == IllegalArgument
  {
    if xOrY != X && xOrY != Y then Err(IllegalArgument)
    else if inOrOut != INSIDE && inOrOut != OUTSIDE then Err(IllegalArgument)
    else if inOrOut == OUTSIDE && !BorderPlace(xOrY, place) then Err(IllegalArgument)
    else Ok(Axis(xOrY, inOrOut, place))
  }

  /**
   * The place sets of the two directions, written out: {4, 5, 9} for an
   * OUTSIDE X axis and {1, 2, 3} for an OUTSIDE Y axis. They are disjoint,
   * so an accepted OUTSIDE place tells which direction it belongs to.
   */
  lemma OutsidePlaces(place: real)
    ensures NewAxis(X, OUTSIDE, place).Ok? <==> place == 4.0 || place == 5.0 || place == 9.0
    ensures NewAxis(Y, OUTSIDE, place).Ok? <==> place == 1.0 || place == 2.0 || place == 3.0
    ensures !(NewAxis(X, OUTSIDE, place).Ok? && NewAxis(Y, OUTSIDE, place).Ok?)
  {
  }

  /** An INSIDE axis of either direction is accepted whatever its place, and keeps it. */
  lemma InsideAcceptsAnyPlace(xOrY: int, place: real)
    requires xOrY == X || xOrY == Y
    ensures NewAxis(xOrY, INSIDE, place) == Ok(Axis(xOrY, INSIDE, place))
  {
  }
}
