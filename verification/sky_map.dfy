/**
 * The display settings of a sky map (jephem.tools.SkyMap): a grid mode and
 * a grid interval for each of four frames, and three constellation flags.
 * The geometry a SkyMap inherits from SkyMapBase is held in `base`.
 */
module SkyMaps {
  import opened Wrappers
  import opened MathLib
  import Constants
  import SkyMapBases
  import Bsc5

  // Grid modes.
  const GRID_NONE: int := 0
  const GRID_PLANE: int := 1
  const GRID_FULL: int := 2

  /**
   * The slot of a frame in the grid arrays: horizontal topocentric,
   * equatorial, ecliptic and galactic take slots 0 to 3; no other frame has
   * a grid.
   */
  function Slot(frame: int): (s: Option<int>)
    ensures s.Some? ==> 0 <= s.value < 4
  {
    if frame == Constants.FRAME_HORIZONTAL_TOPOCENTRIC then Some(0)
    else if frame == Constants.FRAME_EQUATORIAL then Some(1)
    else if frame == Constants.FRAME_ECLIPTIC then Some(2)
    else if frame == Constants.FRAME_GALACTIC then Some(3)
    else None
  }

  /** Exactly the four grid frames have a slot, and no two of them share one. */
  lemma SlotsOneToOne(f1: int, f2: int)
    ensures Slot(f1).Some? <==> f1 in {5, 3, 2, 6}
    ensures Slot(f1).Some? && Slot(f2).Some? ==> (Slot(f1) == Slot(f2) <==> f1 == f2)
  {
  }

  /** The grid mode after changeGridDisplay: NONE, PLANE, FULL, NONE, ...; other values stay. */
  function NextGrid(g: int): (n: int)
    ensures (g == GRID_NONE || g == GRID_PLANE || g == GRID_FULL) <==> n != g
  {
    if g == GRID_NONE then GRID_PLANE
    else if g == GRID_PLANE then GRID_FULL
    else if g == GRID_FULL then GRID_NONE
    else g
  }

  /** Three changes bring every grid mode back, and two never do for a real mode. */
  lemma NextGridCycle(g: int)
    ensures NextGrid(NextGrid(NextGrid(g))) == g
    ensures (g == GRID_NONE || g == GRID_PLANE || g == GRID_FULL) ==> NextGrid(NextGrid(g)) != g
  {
  }

  /** The location of the star catalogue under the data directory: data/astro/sky/BSC5. */
  function Bsc5Path(dataDir: string, fs: string): (p: string)
    ensures |p| == |dataDir| + 3 * |fs| + 12
    ensures p[..|dataDir|] == dataDir && p[|p| - 4..] == "BSC5"
  {
    dataDir + fs + "astro" + fs + "sky" + fs + "BSC5"
  }

  class SkyMap {
    const base: SkyMapBases.SkyMapBase
    const gridDisplay: array<int>
    const gridInterval: array<real>
    var displayAbbreviations: bool
    var displayLines: bool
    var displayBoundaries: bool

    ghost predicate Valid()
      reads this
    {
      gridDisplay.Length == 4 && gridInterval.Length == 4
    }

    /**
     * getGridDisplay (SkyMap.java:168-176): the mode of a grid frame; any
     * other frame is refused.
     */
    function GridDisplay(frame: int): (r: Result<int>)
      requires Valid()
      reads this, gridDisplay
      ensures r.Ok? <==> Slot(frame).Some?
      ensures r.Err? ==> r.error == IllegalArgument
    {
      match Slot(frame)
      case Some(s) => Ok(gridDisplay[s])
      case None => Err(IllegalArgument)
    }

    /**
     * getGridInterval (SkyMap.java:211-219): the stored radians of a grid
     * frame, returned in degrees; any other frame is refused.
     */
    function GridInterval(frame: int): (r: Result<real>)
      requires Valid()
      reads this, gridInterval
      ensures r.Ok? <==> Slot(frame).Some?
      ensures r.Err? ==> r.error == IllegalArgument
      ensures r.Ok? ==> r.value * Constants.PI == gridInterval[Slot(frame).value] * 180.0
    {
      match Slot(frame)
      case Some(s) => Ok(Constants.ToDegrees(gridInterval[s]))
      case None => Err(IllegalArgument)
    }

    /**
     * The constructor (SkyMap.java:84-110): points the star catalogue at its
     * data file, then grids NONE, FULL, PLANE, NONE and intervals 30, 10, 10
     * and 30 degrees for the horizontal, equatorial, ecliptic and galactic
     * frames, abbreviations and boundaries shown, lines hidden.
     */
    constructor (m: Lib, catalog: Bsc5.Catalog, dataDir: string, fs: string)
      requires catalog.Valid()
      modifies catalog
      ensures Valid() && fresh(base) && fresh(gridDisplay) && fresh(gridInterval)
      ensures catalog.Valid() && catalog.dataPath == Some(Bsc5Path(dataDir, fs))
      ensures catalog.dataLoaded == old(catalog.dataLoaded) && catalog.stars == old(catalog.stars)
      ensures base.zoom == 1.0 && base.skyFrame == Constants.FRAME_EQUATORIAL
      ensures base.em == m.mulMat(m.rotX(Constants.ToRadians(-90.0)), IDENTITY)
      ensures base.theta0 == 0.0 && base.phi0 == 0.0
      ensures GridDisplay(Constants.FRAME_HORIZONTAL_TOPOCENTRIC) == Ok(GRID_NONE)
      ensures GridDisplay(Constants.FRAME_EQUATORIAL) == Ok(GRID_FULL)
      ensures GridDisplay(Constants.FRAME_ECLIPTIC) == Ok(GRID_PLANE)
      ensures GridDisplay(Constants.FRAME_GALACTIC) == Ok(GRID_NONE)
      ensures GridInterval(Constants.FRAME_HORIZONTAL_TOPOCENTRIC) == Ok(30.0)
      ensures GridInterval(Constants.FRAME_EQUATORIAL) == Ok(10.0)
      ensures GridInterval(Constants.FRAME_ECLIPTIC) == Ok(10.0)
      ensures GridInterval(Constants.FRAME_GALACTIC) == Ok(30.0)
      ensures displayAbbreviations && !displayLines && displayBoundaries
    {
      base := new SkyMapBases.SkyMapBase(m);
      catalog.SetDataPath(Bsc5Path(dataDir, fs));
      // The setGridDisplay and setGridInterval calls, written as the arrays they fill.
      gridDisplay := new int[] [GRID_NONE, GRID_FULL, GRID_PLANE, GRID_NONE];
      gridInterval := new real[] [Constants.ToRadians(30.0), Constants.ToRadians(10.0),
                                  Constants.ToRadians(10.0), Constants.ToRadians(30.0)];
      displayAbbreviations, displayLines, displayBoundaries := true, false, true;
      Constants.DegreesRadiansRoundTrip(30.0);
      Constants.DegreesRadiansRoundTrip(10.0);
    }

    /**
     * setGridDisplay (SkyMap.java:184-192): stores the mode in the frame's
     * slot and leaves the other slots; any other frame is refused.
     */
    method SetGridDisplay(frame: int, g: int) returns (r: Result<()>)
      requires Valid()
      modifies gridDisplay
      ensures r.Ok? <==> Slot(frame).Some?
      ensures r.Err? ==> r.error == IllegalArgument && gridDisplay[..] == old(gridDisplay[..])
      ensures r.Ok? ==> gridDisplay[..] == old(gridDisplay[..])[Slot(frame).value := g]
      ensures r.Ok? ==> GridDisplay(frame) == Ok(g)
      ensures forall f :: Slot(f).Some? && Slot(f) != Slot(frame) ==> GridDisplay(f) == old(GridDisplay(f))
    {
      var s := Slot(frame);
      if s.None? {
        return Err(IllegalArgument);
      }
      gridDisplay[s.value] := g;
      return Ok(());
    }

    /**
     * changeGridDisplay (SkyMap.java:196-204): moves the frame's mode one
     * step along NONE, PLANE, FULL; any other frame is refused.
     */
    method ChangeGridDisplay(frame: int) returns (r: Result<()>)
      requires Valid()
      modifies gridDisplay
      ensures r.Ok? <==> Slot(frame).Some?
      ensures r.Err? ==> r.error == IllegalArgument && gridDisplay[..] == old(gridDisplay[..])
      ensures r.Ok? ==> GridDisplay(frame) == Ok(NextGrid(old(GridDisplay(frame)).value))
      ensures r.Ok? ==> gridDisplay[..] == old(gridDisplay[..])[Slot(frame).value := NextGrid(old(gridDisplay[Slot(frame).value]))]
      ensures forall f :: Slot(f).Some? && Slot(f) != Slot(frame) ==> GridDisplay(f) == old(GridDisplay(f))
    {
      var gd := GridDisplay(frame);
      if gd.Err? {
        return Err(IllegalArgument);
      }
      if gd.value == GRID_NONE {
        r := SetGridDisplay(frame, GRID_PLANE);
      } else if gd.value == GRID_PLANE {
        r := SetGridDisplay(frame, GRID_FULL);
      } else if gd.value == GRID_FULL {
        r := SetGridDisplay(frame, GRID_NONE);
      } else {
        r := Ok(());
      }
    }

    /**
     * setGridInterval (SkyMap.java:227-235): stores the interval, given in
     * degrees, in radians in the frame's slot, so getGridInterval returns
     * it unchanged; any other frame is refused.
     */
    method SetGridInterval(frame: int, degrees: real) returns (r: Result<()>)
      requires Valid()
      modifies gridInterval
      ensures r.Ok? <==> Slot(frame).Some?
      ensures r.Err? ==> r.error == IllegalArgument && gridInterval[..] == old(gridInterval[..])
      ensures r.Ok? ==> gridInterval[..] == old(gridInterval[..])[Slot(frame).value := Constants.ToRadians(degrees)]
      ensures r.Ok? ==> GridInterval(frame) == Ok(degrees)
      ensures forall f :: Slot(f).Some? && Slot(f) != Slot(frame) ==> GridInterval(f) == old(GridInterval(f))
    {
      var s := Slot(frame);
      if s.None? {
        return Err(IllegalArgument);
      }
      gridInterval[s.value] := Constants.ToRadians(degrees);
      Constants.DegreesRadiansRoundTrip(degrees);
      return Ok(());
    }

    /** setDisplayConstellationAbbreviations (SkyMap.java:124-127). */
    method SetDisplayAbbreviations(b: bool)
      modifies this
      ensures displayAbbreviations == b
      ensures displayLines == old(displayLines) && displayBoundaries == old(displayBoundaries)
    {
      displayAbbreviations := b;
    }

    /** changeDisplayConstellationAbbreviations (SkyMap.java:129-132): two calls restore the flag. */
    method ChangeDisplayAbbreviations()
      modifies this
      ensures displayAbbreviations == !old(displayAbbreviations)
      ensures displayLines == old(displayLines) && displayBoundaries == old(displayBoundaries)
    {
      displayAbbreviations := !displayAbbreviations;
    }

    /** setDisplayConstellationLines (SkyMap.java:138-141). */
    method SetDisplayLines(b: bool)
      modifies this
      ensures displayLines == b
      ensures displayAbbreviations == old(displayAbbreviations) && displayBoundaries == old(displayBoundaries)
    {
      displayLines := b;
    }

    /** changeDisplayConstellationLines (SkyMap.java:143-146): two calls restore the flag. */
    method ChangeDisplayLines()
      modifies this
      ensures displayLines == !old(displayLines)
      ensures displayAbbreviations == old(displayAbbreviations) && displayBoundaries == old(displayBoundaries)
    {
      displayLines := !displayLines;
    }

    /** setDisplayConstellationBoundaries (SkyMap.java:152-155). */
    method SetDisplayBoundaries(b: bool)
      modifies this
      ensures displayBoundaries == b
      ensures displayAbbreviations == old(displayAbbreviations) && displayLines == old(displayLines)
    {
      displayBoundaries := b;
    }

    /** changeDisplayConstellationBoundaries (SkyMap.java:157-160): two calls restore the flag. */
    method ChangeDisplayBoundaries()
      modifies this
      ensures displayBoundaries == !old(displayBoundaries)
      ensures displayAbbreviations == old(displayAbbreviations) && displayLines == old(displayLines)
    {
      displayBoundaries := !displayBoundaries;
    }
  }
}
