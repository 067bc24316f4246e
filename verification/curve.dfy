/**
 * The data side of jephem.tools.Curve: a table whose row 0 holds the X values
 * and rows 1..nbY the curves, its bounding box, and the affine maps between
 * data coordinates and the pixels of the display area.
 */
module Curves {
  import opened Wrappers
  import opened MathLib

  /** At least two rows, all of the length of row 0. */
  predicate Rectangular(data: seq<seq<real>>)
  {
    |data| >= 2 && forall i :: 0 <= i < |data| ==> |data[i]| == |data[0]|
  }

  /**
   * The parameter checks of the constructor and of setData
   * (Curve.java:92-98, 202-208): the row count first, then each row's
   * length in turn.
   */
  method CheckData(data: seq<seq<real>>) returns (r: Result<()>)
    ensures r.Ok? <==> Rectangular(data)
    ensures r.Err? ==> r.error == IllegalArgument
  {
    if |data| < 2 {
      return Err(IllegalArgument);
    }
    var len := |data[0]|;
    var i := 0;
    while i < |data|
      invariant 0 <= i <= |data|
      invariant forall k :: 0 <= k < i ==> |data[k]| == len
    {
      if |data[i]| != len {
        return Err(IllegalArgument);
      }
      i := i + 1;
    }
    return Ok(());
  }

  /** Maths.min of a non-empty array: its least element. */
  function Least(s: seq<real>): (m: real)
    requires |s| > 0
    ensures m in s
    ensures forall k :: 0 <= k < |s| ==> m <= s[k]
  {
    if |s| == 1 then s[0]
    else
      var rest := Least(s[1..]);
      assert forall k :: 1 <= k < |s| ==> s[k] == s[1..][k - 1];
      if s[0] <= rest then s[0] else rest
  }

  /** Maths.max of a non-empty array: its greatest element. */
  function Greatest(s: seq<real>): (m: real)
    requires |s| > 0
    ensures m in s
    ensures forall k :: 0 <= k < |s| ==> s[k] <= m
  {
    if |s| == 1 then s[0]
    else
      var rest := Greatest(s[1..]);
      assert forall k :: 1 <= k < |s| ==> s[k] == s[1..][k - 1];
      if s[0] >= rest then s[0] else rest
  }

  /**
   * The Y part of calcMinMaxAndDeltas (Curve.java:323-332): the bounds of
   * curve 1, widened by each further curve in turn.
   */
  method CurvesRange(data: seq<seq<real>>) returns (yMin: real, yMax: real)
    requires Rectangular(data) && |data[0]| > 0
    ensures forall i, j :: 1 <= i < |data| && 0 <= j < |data[i]| ==> yMin <= data[i][j] <= yMax
    ensures exists i :: 1 <= i < |data| && yMin in data[i]
    ensures exists i :: 1 <= i < |data| && yMax in data[i]
  {
    yMin := Least(data[1]);
    yMax := Greatest(data[1]);
    ghost var kMin, kMax := 1, 1;
    var i := 2;
    while i < |data|
      invariant 2 <= i <= |data|
      invariant forall k, j :: 1 <= k < i && 0 <= j < |data[k]| ==> yMin <= data[k][j] <= yMax
      invariant 1 <= kMin < i && yMin in data[kMin]
      invariant 1 <= kMax < i && yMax in data[kMax]
    {
      var lo := Least(data[i]);
      var hi := Greatest(data[i]);
      if lo < yMin {
        yMin, kMin := lo, i;
      }
      if hi > yMax {
        yMax, kMax := hi, i;
      }
      i := i + 1;
    }
  }

  /**
   * xMin and xMax are the least and greatest X values, and yMin and yMax are
   * values of some curve that bound every value of every curve.
   */
  ghost predicate Box(data: seq<seq<real>>, xMin: real, xMax: real, yMin: real, yMax: real)
    requires Rectangular(data) && |data[0]| > 0
  {
    && xMin == Least(data[0]) && xMax == Greatest(data[0])
    && (forall i, j :: 1 <= i < |data| && 0 <= j < |data[i]| ==> yMin <= data[i][j] <= yMax)
    && (exists i :: 1 <= i < |data| && yMin in data[i])
    && (exists i :: 1 <= i < |data| && yMax in data[i])
  }

  /**
   * A Curve without its Swing parts. The panel size (w, h) is the one given
   * at construction; the gaps and axis spaces are the constants the
   * constructor sets.
   */
  class Curve {
    var data: seq<seq<real>>
    var nbX: int
    var nbY: int
    var xMin: real
    var xMax: real
    var yMin: real
    var yMax: real
    var deltaX: real
    var deltaY: real
    var ug: int
    var bg: int
    var lg: int
    var rg: int
    var axisSpaceX: int
    var axisSpaceY: int
    var w: int
    var h: int

    /** The shape fields agree with the data, and each delta is its max minus its min. */
    ghost predicate Valid()
      reads this
    {
      && Rectangular(data)
      && nbX == |data[0]| && nbY == |data| - 1
      && deltaX == xMax - xMin && deltaY == yMax - yMin
    }

    /** The bounding box of the current table holds (see Box). */
    ghost predicate Bounded()
      reads this
      requires Valid()
    {
      nbX > 0 && Box(data, xMin, xMax, yMin, yMax)
    }

    /**
     * The constructor after its parameter checks (Curve.java:100-123). An
     * exception inside it is caught: with rows of length 0 the first Maths.min
     * throws, and the bounds, gaps and axis spaces keep their default 0.
     */
    constructor (data: seq<seq<real>>, width: int, height: int)
      requires Rectangular(data)
      ensures Valid()
      ensures this.data == data && nbX == |data[0]| && nbY == |data| - 1
      ensures w == width && h == height
      ensures nbX > 0 ==> Bounded() && ug == bg == lg == rg == 10 && axisSpaceX == axisSpaceY == 30
      ensures nbX == 0 ==> xMin == xMax == yMin == yMax == 0.0 && ug == bg == lg == rg == 0
                           && axisSpaceX == axisSpaceY == 0
    {
      this.data := data;
      nbX := |data[0]|;
      nbY := |data| - 1;
      xMin, xMax, yMin, yMax, deltaX, deltaY := 0.0, 0.0, 0.0, 0.0, 0.0, 0.0;
      w, h := width, height;
      // The layout lines after calcMinMaxAndDeltas run only when it does not
      // throw, that is when the rows are not empty.
      if |data[0]| > 0 {
        ug, bg, lg, rg, axisSpaceX, axisSpaceY := 10, 10, 10, 10, 30, 30;
      } else {
        ug, bg, lg, rg, axisSpaceX, axisSpaceY := 0, 0, 0, 0, 0, 0;
      }
      new;
      var computed := CalcMinMaxAndDeltas();
    }

    /**
     * calcMinMaxAndDeltas (Curve.java:319-339): the X bounds from row 0, the Y
     * bounds from row 1 widened by each further curve. With rows of length 0
     * the first Maths.min throws and nothing changes.
     */
    method CalcMinMaxAndDeltas() returns (r: Result<()>)
      requires Valid()
      modifies this
      ensures Valid()
      ensures data == old(data) && nbX == old(nbX) && nbY == old(nbY) && w == old(w) && h == old(h)
      ensures ug == old(ug) && bg == old(bg) && lg == old(lg) && rg == old(rg)
      ensures axisSpaceX == old(axisSpaceX) && axisSpaceY == old(axisSpaceY)
      ensures nbX == 0 ==> r == Err(IndexOutOfBounds) && unchanged(this)
      ensures nbX > 0 ==> r == Ok(()) && Bounded()
    {
      if nbX == 0 {
        return Err(IndexOutOfBounds);
      }
      var lo, hi := Least(data[0]), Greatest(data[0]);
      var yLo, yHi := CurvesRange(data);
      xMin, xMax, yMin, yMax := lo, hi, yLo, yHi;
      deltaX, deltaY := xMax - xMin, yMax - yMin;
      return Ok(());
    }

    /**
     * setData (Curve.java:200-215): the checks of the constructor, then the
     * new table and its bounds. Nothing changes when a check fails; with rows
     * of length 0 the table is stored and the old bounds stay.
     */
    method SetData(newData: seq<seq<real>>) returns (r: Result<()>)
      requires Valid()
      modifies this
      ensures Valid()
      ensures !Rectangular(newData) ==> r == Err(IllegalArgument) && unchanged(this)
      ensures Rectangular(newData) ==> data == newData && nbX == |newData[0]| && nbY == |newData| - 1
      ensures Rectangular(newData) && |newData[0]| == 0 ==>
                r == Err(IndexOutOfBounds) && xMin == old(xMin) && xMax == old(xMax) && yMin == old(yMin) && yMax == old(yMax)
      ensures Rectangular(newData) && |newData[0]| > 0 ==> r == Ok(()) && Bounded()
      ensures w == old(w) && h == old(h) && ug == old(ug) && bg == old(bg) && lg == old(lg) && rg == old(rg)
    {
      r := CheckData(newData);
      if r.Err? {
        return;
      }
      data := newData;
      nbX := |newData[0]|;
      nbY := |newData| - 1;
      r := CalcMinMaxAndDeltas();
    }

    /** getAllY (Curve.java:179-185): the curves without the X row, in order. */
    method GetAllY() returns (ys: seq<seq<real>>)
      requires Valid()
      ensures |ys| == nbY
      ensures forall i :: 0 <= i < nbY ==> ys[i] == data[i + 1] && |ys[i]| == nbX
    {
      ys := [];
      var i := 0;
      while i < nbY
        invariant 0 <= i <= nbY
        invariant |ys| == i
        invariant forall k :: 0 <= k < i ==> ys[k] == data[k + 1]
      {
        ys := ys + [data[i + 1]];
        i := i + 1;
      }
    }

    /**
     * getY(whichY) (Curve.java:161): the row at that index, the X values for
     * 0; any other index is out of bounds.
     */
    function GetY(whichY: int): (r: Result<seq<real>>)
      reads this
      requires Valid()
      ensures r.Ok? <==> 0 <= whichY <= nbY
      ensures r.Ok? ==> |r.value| == nbX && (whichY > 0 ==> r.value in data[1..])
      ensures r.Err? ==> r.error == IndexOutOfBounds
    {
      if 0 <= whichY < |data| then Ok(data[whichY]) else Err(IndexOutOfBounds)
    }

    /**
     * getY(whichY, x) (Curve.java:173-175): the interpolation is not written,
     * so every curve reads 0 everywhere and no index is checked.
     */
    function InterpolatedY(whichY: int, x: real): (y: real)
      ensures y == 0.0
    {
      0.0
    }

    /** The sizes and bounds dataToPixel and pixelToData read, as doubles. */
    function Layout(): (g: Geometry)
      reads this
      ensures g.deltaX == deltaX && g.deltaY == deltaY
    {
      Geometry(w as real, h as real, ug as real, bg as real, lg as real, rg as real,
               xMin, xMax, yMin, yMax, deltaX, deltaY)
    }
  }

  /** The display area (width, height and the four gaps) and the data bounds of a curve. */
  datatype Geometry = Geometry(w: real, h: real, ug: real, bg: real, lg: real, rg: real,
                               xMin: real, xMax: real, yMin: real, yMax: real, deltaX: real, deltaY: real)
  {
    /** Each delta is its max minus its min, as calcMinMaxAndDeltas leaves them. */
    predicate Consistent()
    {
      deltaX == xMax - xMin && deltaY == yMax - yMin
    }

    // The numerators of the slope and offset of the two maps (Curve.java:284-289, 305-310).

    function SlopeX(): real { w - rg - lg }

    function OffsetX(): real { lg * xMax + (rg - w) * xMin }

    function SlopeY(): real { ug + bg - h }

    function OffsetY(): real { -ug * yMin + (h - bg) * yMax }
  }

  /** (an / ad) * v + bn / bd in Java doubles: non-finite (None) when a divisor is 0. */
  function Lin(an: real, ad: real, bn: real, bd: real, v: real): (r: Double)
    ensures r.Some? <==> ad != 0.0 && bd != 0.0
    ensures r.Some? ==> r.value == an / ad * v + bn / bd
  {
    Plus(Times(Div(Some(an), Some(ad)), Some(v)), Div(Some(bn), Some(bd)))
  }

  /**
   * dataToPixel (Curve.java:275-292): each coordinate goes through a*v + b,
   * with the slope and offset divided by the data delta. A zero delta makes
   * the coordinate non-finite (None).
   */
  function DataToPixel(g: Geometry, x: real, y: real): (p: (Double, Double))
    ensures p.0.Some? <==> g.deltaX != 0.0
    ensures p.1.Some? <==> g.deltaY != 0.0
  {
    (Lin(g.SlopeX(), g.deltaX, g.OffsetX(), g.deltaX, x),
     Lin(g.SlopeY(), g.deltaY, g.OffsetY(), g.deltaY, y))
  }

  /**
   * pixelToData (Curve.java:296-313): the same form with the divisions
   * turned round. A display area with no room between its gaps
   * (w = lg + rg, or h = ug + bg) makes the coordinate non-finite.
   */
  function PixelToData(g: Geometry, x: real, y: real): (p: (Double, Double))
    ensures p.0.Some? <==> g.w != g.lg + g.rg
    ensures p.1.Some? <==> g.h != g.ug + g.bg
  {
    (Lin(g.deltaX, g.SlopeX(), g.OffsetX(), -g.w + g.rg + g.lg, x),
     Lin(g.deltaY, g.SlopeY(), g.OffsetY(), g.h - g.ug - g.bg, y))
  }

  /** x * d == 0 with d != 0 forces x == 0. */
  lemma ZeroProduct(x: real, d: real)
    requires d != 0.0 && x * d == 0.0
    ensures x == 0.0
  {
  }

  /** Lin is defined, with value q, when its divisors are non-zero and (an/ad)*v + bn/bd is q. */
  lemma LinValue(an: real, ad: real, bn: real, bd: real, v: real, q: real)
    requires ad != 0.0 && bd != 0.0 && an / ad * v + bn / bd == q
    ensures Lin(an, ad, bn, bd, v) == Some(q)
  {
  }

  /** an/d*v + bn/d is q when an*v + bn is q*d. */
  lemma AffinePoint(an: real, bn: real, d: real, v: real, q: real)
    requires d != 0.0 && an * v + bn == q * d
    ensures an / d * v + bn / d == q
  {
    var a, b := an / d, bn / d;
    assert a * d == an && b * d == bn;
    assert (a * v + b - q) * d == (a * d) * v + b * d - q * d;
    ZeroProduct(a * v + b - q, d);
  }

  /** With an = q1 - q0, bn = q0*hi - q1*lo and d = hi - lo, the map v |-> an/d*v + bn/d sends lo to q0 and hi to q1. */
  lemma AffineEndpoints(an: real, bn: real, d: real, lo: real, hi: real, q0: real, q1: real)
    requires d == hi - lo != 0.0 && an == q1 - q0 && bn == q0 * hi - q1 * lo
    ensures Lin(an, d, bn, d, lo) == Some(q0)
    ensures Lin(an, d, bn, d, hi) == Some(q1)
  {
    AffinePoint(an, bn, d, lo, q0);
    LinValue(an, d, bn, d, lo, q0);
    AffinePoint(an, bn, d, hi, q1);
    LinValue(an, d, bn, d, hi, q1);
  }

  /** With bd = -s, the maps v |-> (s/d)*v + n/d and u |-> (d/s)*u + n/bd are inverse to each other. */
  lemma AffineInverse(d: real, s: real, n: real, bd: real, v: real)
    requires d != 0.0 && s != 0.0 && bd == -s
    ensures Lin(d, s, n, bd, Lin(s, d, n, d, v).value) == Some(v)
    ensures Lin(s, d, n, d, Lin(d, s, n, bd, v).value) == Some(v)
  {
    var u := s / d * v + n / d;
    LinValue(s, d, n, d, v, u);
    InverseValues(d, s, n, bd, v);
    LinValue(d, s, n, bd, u, v);
    var u' := d / s * v + n / bd;
    LinValue(d, s, n, bd, v, u');
    LinValue(s, d, n, d, u', v);
  }

  /** The real identities behind AffineInverse. */
  lemma InverseValues(d: real, s: real, n: real, bd: real, v: real)
    requires d != 0.0 && s != 0.0 && bd == -s
    ensures d / s * (s / d * v + n / d) + n / bd == v
    ensures s / d * (d / s * v + n / bd) + n / d == v
  {
    assert d / s * (s / d) == 1.0;
    assert d / s * (s / d * v + n / d) == (d / s * (s / d)) * v + d / s * (n / d);
    assert d / s * (n / d) == n / s;
    assert n / bd == -(n / s);
    assert s / d * (d / s * v + n / bd) == (d / s * (s / d)) * v + s / d * (n / bd);
    assert s / d * (n / bd) == -(n / d);
  }

  /**
   * dataToPixel sends the corners of the bounding box to the corners of the
   * display area inside the gaps: (xMin, yMin) to (lg, h - bg) and (xMax, yMax)
   * to (w - rg, ug).
   */
  lemma DataToPixelCorners(g: Geometry)
    requires g.Consistent() && g.deltaX != 0.0 && g.deltaY != 0.0
    ensures DataToPixel(g, g.xMin, g.yMin) == (Some(g.lg), Some(g.h - g.bg))
    ensures DataToPixel(g, g.xMax, g.yMax) == (Some(g.w - g.rg), Some(g.ug))
  {
    assert (g.rg - g.w) * g.xMin == -((g.w - g.rg) * g.xMin);
    AffineEndpoints(g.SlopeX(), g.OffsetX(), g.deltaX, g.xMin, g.xMax, g.lg, g.w - g.rg);
    assert -g.ug * g.yMin == -(g.ug * g.yMin);
    AffineEndpoints(g.SlopeY(), g.OffsetY(), g.deltaY, g.yMin, g.yMax, g.h - g.bg, g.ug);
  }

  /**
   * pixelToData and dataToPixel are inverse to each other when both deltas
   * are non-zero and the display area has room between its gaps.
   */
  lemma PixelDataRoundTrip(g: Geometry, x: real, y: real)
    requires g.deltaX != 0.0 && g.deltaY != 0.0
    requires g.w != g.lg + g.rg && g.h != g.ug + g.bg
    ensures var p := DataToPixel(g, x, y);
      PixelToData(g, p.0.value, p.1.value) == (Some(x), Some(y))
    ensures var d := PixelToData(g, x, y);
      DataToPixel(g, d.0.value, d.1.value) == (Some(x), Some(y))
  {
    AffineInverse(g.deltaX, g.SlopeX(), g.OffsetX(), -g.w + g.rg + g.lg, x);
    AffineInverse(g.deltaY, g.SlopeY(), g.OffsetY(), g.h - g.ug - g.bg, y);
  }
}
