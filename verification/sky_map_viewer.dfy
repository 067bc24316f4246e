/**
 * The sky map window (jephem.gui.SkyMapViewer): its zoom, move,
 * constellation and grid buttons, reduced to the state they change.
 */
module SkyMapViewers {
  import opened Wrappers
  import opened MathLib
  import Constants
  import SkyMapBases
  import SkyMaps
  import Bsc5

  // The flags a ConstellationListener may toggle.
  const ABBREVIATIONS: int := 0
  const LINES: int := 1
  const BOUNDARIES: int := 2

  /** The zoom after one zoom-in click. */
  function ZoomIn(z: real): real
  {
    if z < 0.5 then z * 2.0
    else if z < 1.0 then 1.0
    else z + 1.0
  }

  /** The zoom after one zoom-out click. */
  function ZoomOut(z: real): real
  {
    if z > 2.0 then z - 1.0
    else if z > 1.0 then 1.0
    else z / 2.0
  }

  /** Zooming in enlarges a positive zoom and zooming out shrinks it, and both keep it positive. */
  lemma ZoomStepsKeepPositive(z: real)
    requires z > 0.0
    ensures 0.0 < z < ZoomIn(z)
    ensures 0.0 < ZoomOut(z) < z
  {
  }

  /** Out after in restores the zoom except strictly between 0.5 and 1, where in rounds up to 1. */
  lemma ZoomInThenOut(z: real)
    ensures ZoomOut(ZoomIn(z)) == z <==> !(0.5 < z < 1.0)
  {
  }

  /** In after out restores the zoom except strictly between 1 and 2, where out rounds down to 1. */
  lemma ZoomOutThenIn(z: real)
    ensures ZoomIn(ZoomOut(z)) == z <==> !(1.0 < z < 2.0)
  {
  }

  /** Each zoom step maps the whole-number zooms from 1 up onto whole numbers from 1 up. */
  lemma ZoomStepsKeepWholeZooms(n: int)
    requires n >= 1
    ensures ZoomIn(n as real) == (n + 1) as real
    ensures ZoomOut(n as real) == if n == 1 then 0.5 else (n - 1) as real
  {
  }

  /** The signed angle a move button turns by: +increment for PLUS, -increment for any other sense. */
  function MoveAngle(sign: int, increment: real): (a: real)
    ensures a == increment || a == -increment
    ensures a == increment <==> sign == SkyMapBases.PLUS || increment == 0.0
  {
    if sign == SkyMapBases.PLUS then 1.0 * increment else -1.0 * increment
  }

  class SkyMapViewer {
    const sm: SkyMaps.SkyMap
    var zoom: real
    var increment: real

    ghost predicate Valid()
      reads this, sm
    {
      sm.Valid()
    }

    /**
     * The constructor (SkyMapViewer.java:65-72): a new sky map, the viewer's
     * zoom read from it, and 10 degrees per move.
     */
    constructor (m: Lib, catalog: Bsc5.Catalog, dataDir: string, fs: string)
      requires catalog.Valid()
      modifies catalog
      ensures Valid() && fresh(sm) && fresh(sm.base) && fresh(sm.gridDisplay) && fresh(sm.gridInterval)
      ensures catalog.Valid() && catalog.dataPath == Some(SkyMaps.Bsc5Path(dataDir, fs))
      ensures zoom == sm.base.zoom == 1.0 && increment == 10.0
    {
      sm := new SkyMaps.SkyMap(m, catalog, dataDir, fs);
      new;
      zoom := sm.base.zoom;
      increment := 10.0;
    }

    /** ZoomInListener (SkyMapViewer.java:183-190): one step in, pushed to the map. */
    method ZoomInClicked()
      requires Valid()
      modifies this, sm.base
      ensures zoom == ZoomIn(old(zoom)) && sm.base.zoom == zoom
      ensures increment == old(increment) && Valid()
      ensures sm.base.em == old(sm.base.em) && sm.base.r == old(sm.base.r)
    {
      if zoom < 0.5 {
        zoom := zoom * 2.0;
      } else if zoom < 1.0 {
        zoom := 1.0;
      } else {
        zoom := zoom + 1.0;
      }
      sm.base.SetZoom(zoom);
    }

    /** ZoomOutListener (SkyMapViewer.java:193-200): one step out, pushed to the map. */
    method ZoomOutClicked()
      requires Valid()
      modifies this, sm.base
      ensures zoom == ZoomOut(old(zoom)) && sm.base.zoom == zoom
      ensures increment == old(increment) && Valid()
      ensures sm.base.em == old(sm.base.em) && sm.base.r == old(sm.base.r)
    {
      if zoom > 2.0 {
        zoom := zoom - 1.0;
      } else if zoom > 1.0 {
        zoom := 1.0;
      } else {
        zoom := zoom / 2.0;
      }
      sm.base.SetZoom(zoom);
    }

    /**
     * MoveListener (SkyMapViewer.java:203-215): turns the eye about the
     * listener's axis by the increment, with the sign of its sense; an
     * axis other than X, Y or Z is refused by rotateEye.
     */
    method MoveClicked(direction: int, sign: int, m: Lib) returns (r: Result<()>)
      requires Valid()
      modifies sm.base
      ensures r.Ok? <==> direction == SkyMapBases.X || direction == SkyMapBases.Y || direction == SkyMapBases.Z
      ensures r.Err? ==> r.error == IllegalArgument && sm.base.em == old(sm.base.em)
      ensures r.Ok? ==> sm.base.em == m.mulMat(SkyMapBases.RotationMatrix(m, direction,
                                   Constants.ToRadians(MoveAngle(sign, increment))).value, old(sm.base.em))
      ensures sm.base.zoom == old(sm.base.zoom) && Valid()
    {
      r := sm.base.RotateEye(direction, MoveAngle(sign, increment), m);
    }

    /**
     * ConstellationListener (SkyMapViewer.java:218-235): toggles the chosen
     * constellation flag; any other choice changes nothing.
     */
    method ConstellationClicked(whichFlag: int)
      requires Valid()
      modifies sm
      ensures sm.displayAbbreviations == (old(sm.displayAbbreviations) != (whichFlag == ABBREVIATIONS))
      ensures sm.displayLines == (old(sm.displayLines) != (whichFlag == LINES))
      ensures sm.displayBoundaries == (old(sm.displayBoundaries) != (whichFlag == BOUNDARIES))
      ensures Valid()
    {
      if whichFlag == ABBREVIATIONS {
        sm.ChangeDisplayAbbreviations();
      } else if whichFlag == LINES {
        sm.ChangeDisplayLines();
      } else if whichFlag == BOUNDARIES {
        sm.ChangeDisplayBoundaries();
      }
    }

    /** GridListener (SkyMapViewer.java:238-246): advances the frame's grid mode. */
    method GridClicked(frame: int) returns (r: Result<()>)
      requires Valid()
      modifies sm.gridDisplay
      ensures r.Ok? <==> SkyMaps.Slot(frame).Some?
      ensures r.Err? ==> r.error == IllegalArgument && sm.gridDisplay[..] == old(sm.gridDisplay[..])
      ensures r.Ok? ==> sm.GridDisplay(frame) == Ok(SkyMaps.NextGrid(old(sm.GridDisplay(frame)).value))
      ensures forall f :: SkyMaps.Slot(f).Some? && SkyMaps.Slot(f) != SkyMaps.Slot(frame) ==>
                sm.GridDisplay(f) == old(sm.GridDisplay(f))
    {
      r := sm.ChangeGridDisplay(frame);
    }
  }
}
