/**
 * The "new ephemeris" dialog (jephem.gui.NewEphemerisDialog), reduced to
 * what its OK button does with the dialog's widgets before an Ephemeris is
 * built, and to the selections it remembers for the next time.
 */
module NewEphemerisDialogs {
  import opened Wrappers
  import opened Constants
  import Units
  import Space
  import Ephemerides

  // Indexes of the 'display every' unit list.
  const YEARS: int := 0
  const MONTHS: int := 1
  const WEEKS: int := 2
  const DAYS: int := 3
  const HOURS: int := 4
  const MINUTES: int := 5
  const SECONDS: int := 6

  // Degree formats (UnitsConstants).
  const DEGREES_DMS: int := 0
  const DEGREES_DECIMAL: int := 1

  /** A date and hour field pair read by Dates.parseHourDate then dateToJd. */
  datatype ParsedDate = Jd(jd: real) | BadDate | BadHour

  /** The state of the dialog's fields, buttons and lists when OK is pressed. */
  datatype Form = Form(
    frameChoice: int,
    beginDate: ParsedDate,
    displayEvery: Option<int>,   // Integer.parseInt of the 'display every' field
    displayEveryUnit: int,
    displayJds: bool,
    timeFrameChoice: int,
    specifyNbDates: bool,
    nbDates: Option<int>,        // Integer.parseInt of the 'number of dates' field
    endDate: ParsedDate,
    cartesian: bool,
    precision: Option<real>,     // Strings.parseDouble of the precision field
    instantsInRows: bool,
    useSymbols: bool,
    decimalDegrees: bool,
    engineChoice: int,
    displayErrorMsg: bool)

  /** The warnings the dialog shows instead of building an ephemeris. */
  datatype Warning =
    | BadBeginDate | BadBeginHour
    | BadDisplayEvery | DisplayEveryZero
    | BadNbDates | BadEndDate | BadEndHour | EndNotAfterBegin
    | NoCoordinate | BadPrecision

  /** The parameters handed to the Ephemeris constructor and getHtmlString. */
  datatype Request = Request(
    bodyIndexes: seq<int>, jds: seq<real>, timeFrame: int,
    whichCoords: seq<int>, coordUnits: seq<int>, frame: int, sphereCart: int,
    precision: real, instantsInRowCol: int, useSymbols: bool, degreeFormat: int,
    dateDisplay: int, astroEngine: Option<string>, displayErrorMsg: bool)

  datatype Outcome = Warned(warning: Warning) | Built(request: Request)

  /** The positions of the checked boxes, in increasing order. */
  function Selected(checked: seq<bool>): (r: seq<int>)
    ensures |r| <= |checked|
  {
    if |checked| == 0 then []
    else Selected(checked[..|checked| - 1]) + (if checked[|checked| - 1] then [|checked| - 1] else [])
  }

  /** The selection lists exactly the checked positions, each once, increasing. */
  lemma {:induction false} SelectedIsCheckedPositions(checked: seq<bool>)
    ensures forall k :: 0 <= k < |Selected(checked)| ==>
      0 <= Selected(checked)[k] < |checked| && checked[Selected(checked)[k]]
    ensures forall i :: 0 <= i < |checked| && checked[i] ==> i in Selected(checked)
    ensures forall k, l :: 0 <= k < l < |Selected(checked)| ==> Selected(checked)[k] < Selected(checked)[l]
  {
    if |checked| > 0 {
      var front := checked[..|checked| - 1];
      SelectedIsCheckedPositions(front);
      assert forall i :: 0 <= i < |front| ==> front[i] == checked[i];
    }
  }

  /** Looking at one more box appends its position if it is checked. */
  lemma SelectedStep(checked: seq<bool>, i: int)
    requires 0 <= i < |checked|
    ensures Selected(checked[..i + 1]) == Selected(checked[..i]) + (if checked[i] then [i] else [])
  {
    assert checked[..i + 1][..i] == checked[..i];
  }

  /** The selection among the first boxes is the start of the whole selection. */
  lemma {:induction false} SelectedPrefix(checked: seq<bool>, i: int)
    requires 0 <= i <= |checked|
    ensures Selected(checked[..i]) <= Selected(checked)
    decreases |checked| - i
  {
    if i < |checked| {
      SelectedPrefix(checked, i + 1);
      SelectedStep(checked, i);
    } else {
      assert checked[..i] == checked;
    }
  }

  /** The first pass of the two-pass loops: the number of checked boxes. */
  method CountChecked(checked: seq<bool>) returns (n: int)
    ensures n == |Selected(checked)|
  {
    n := 0;
    for i := 0 to |checked|
      invariant n == |Selected(checked[..i])|
    {
      SelectedStep(checked, i);
      if checked[i] {
        n := n + 1;
      }
    }
    assert checked[..|checked|] == checked;
  }


  /**
   * The two-pass loops of storeLastValues (NewEphemerisDialog.java:871-880
   * and 936-946): count the checked boxes, then list their positions.
   */
  method SelectedIndexes(checked: seq<bool>) returns (r: array<int>)
    ensures fresh(r) && r[..] == Selected(checked)
  {
    var len := CountChecked(checked);
    r := new int[len];
    var j := 0;
    for i := 0 to |checked|
      invariant j == |Selected(checked[..i])| <= len
      invariant r[..j] == Selected(checked[..i])
    {
      SelectedStep(checked, i);
      SelectedPrefix(checked, i + 1);
      if checked[i] {
        r[j] := i;
        j := j + 1;
      }
    }
    assert checked[..|checked|] == checked;
  }


  /**
   * The body a checked planet stands for: the Sun/Earth entry is the Earth
   * in the frames centred on the Sun (the frame of the theory and the
   * heliocentric one) and the Sun otherwise; any other entry is itself.
   */
  function Shown(body: int, frame: int): int
  {
    if body == SUN || body == EARTH then
      if frame == FRAME_THEORY || frame == FRAME_EC_HELIO_GEOMETRIC then EARTH else SUN
    else body
  }

  /** The bodies of the checked entries, in list order. */
  function ShownBodies(bodies: seq<int>, checked: seq<bool>, frame: int): (r: seq<int>)
    requires |bodies| == |checked|
  {
    if |checked| == 0 then []
    else
      ShownBodies(bodies[..|bodies| - 1], checked[..|checked| - 1], frame)
        + (if checked[|checked| - 1] then [Shown(bodies[|bodies| - 1], frame)] else [])
  }

  /** The k-th body requested is the entry of the k-th checked box. */
  lemma {:induction false} ShownBodiesFollowSelection(bodies: seq<int>, checked: seq<bool>, frame: int)
    requires |bodies| == |checked|
    ensures |ShownBodies(bodies, checked, frame)| == |Selected(checked)|
    ensures forall k :: 0 <= k < |Selected(checked)| ==>
      0 <= Selected(checked)[k] < |bodies| && ShownBodies(bodies, checked, frame)[k] == Shown(bodies[Selected(checked)[k]], frame)
  {
    SelectedIsCheckedPositions(checked);
    if |checked| > 0 {
      var n := |checked| - 1;
      ShownBodiesFollowSelection(bodies[..n], checked[..n], frame);
      SelectedIsCheckedPositions(checked[..n]);
      assert forall i :: 0 <= i < n ==> bodies[..n][i] == bodies[i];
    }
  }

  /** The Sun is never requested in a Sun-centred frame, nor the Earth in the others. */
  lemma {:induction false} CentreNeverRequested(bodies: seq<int>, checked: seq<bool>, frame: int)
    requires |bodies| == |checked|
    ensures frame == FRAME_THEORY || frame == FRAME_EC_HELIO_GEOMETRIC ==> SUN !in ShownBodies(bodies, checked, frame)
    ensures frame != FRAME_THEORY && frame != FRAME_EC_HELIO_GEOMETRIC ==> EARTH !in ShownBodies(bodies, checked, frame)
  {
    if |checked| > 0 {
      var n := |checked| - 1;
      CentreNeverRequested(bodies[..n], checked[..n], frame);
    }
  }

  /** One more entry appends its body if it is checked. */
  lemma ShownBodiesStep(bodies: seq<int>, checked: seq<bool>, frame: int, i: int)
    requires |bodies| == |checked| && 0 <= i < |checked|
    ensures ShownBodies(bodies[..i + 1], checked[..i + 1], frame) ==
      ShownBodies(bodies[..i], checked[..i], frame) + (if checked[i] then [Shown(bodies[i], frame)] else [])
  {
    assert bodies[..i + 1][..i] == bodies[..i];
    assert checked[..i + 1][..i] == checked[..i];
  }

  /** The 'display every' value in days (NewEphemerisDialog.java:1081-1090); days and unknown units stay as they are. */
  function Interval(every: int, unit: int): real
  {
    var x := every as real;
    if unit == SECONDS then x / 86400.0
    else if unit == MINUTES then x / 1440.0
    else if unit == HOURS then x / 24.0
    else if unit == WEEKS then x * 7.0
    else if unit == MONTHS then x * 30.0
    else if unit == YEARS then x * 365.0
    else x
  }

  /** The conversion keeps the sign, so only 0 converts to 0. */
  lemma IntervalKeepsSign(every: int, unit: int)
    ensures Interval(every, unit) > 0.0 <==> every > 0
    ensures Interval(every, unit) == 0.0 <==> every == 0
  {
  }

  /** The unit conversions agree with each other: 60 s is a minute, 60 min an hour, 24 h a day, 7 days a week. */
  lemma IntervalUnitsAgree(n: int)
    ensures Interval(60 * n, SECONDS) == Interval(n, MINUTES)
    ensures Interval(60 * n, MINUTES) == Interval(n, HOURS)
    ensures Interval(24 * n, HOURS) == Interval(n, DAYS)
    ensures Interval(7 * n, DAYS) == Interval(n, WEEKS)
  {
  }

  /** Math.ceil followed by the cast to int (saturation of the cast is not modelled). */
  function Ceil(x: real): (n: int)
    ensures n as real - 1.0 < x <= n as real
  {
    -((-x).Floor)
  }

  /** The number of instants asked for: typed in, or enough steps to pass the end date (NewEphemerisDialog.java:1105-1132). */
  function InstantCount(form: Form, jdI: real, interval: real): int
    requires form.specifyNbDates ==> form.nbDates.Some?
    requires !form.specifyNbDates ==> form.endDate.Jd? && interval != 0.0
  {
    if form.specifyNbDates then form.nbDates.value
    else Ceil((form.endDate.jd - jdI) / interval)
  }

  /**
   * With a positive interval and an end after the beginning, the grid has at
   * least one instant, its last instant is before the end, and one more step
   * would reach or pass the end.
   */
  lemma GridCoversRange(jdI: real, jdF: real, interval: real)
    requires interval > 0.0 && jdF > jdI
    ensures Ceil((jdF - jdI) / interval) >= 1
    ensures jdI + (Ceil((jdF - jdI) / interval) - 1) as real * interval < jdF
    ensures jdF <= jdI + Ceil((jdF - jdI) / interval) as real * interval
  {
    var x := (jdF - jdI) / interval;
    var n := Ceil(x);
    assert x * interval == jdF - jdI;
    assert (n - 1) as real * interval < x * interval by {
      MultiplyPositive(x - (n - 1) as real, interval);
    }
    assert x * interval <= n as real * interval by {
      if x < n as real {
        MultiplyPositive(n as real - x, interval);
      }
    }
  }

  /** A product of positive reals is positive. */
  lemma MultiplyPositive(a: real, b: real)
    requires a > 0.0 && b > 0.0
    ensures a * b > 0.0
  {
  }

  /**
   * The instants (NewEphemerisDialog.java:1153-1157): a count of 0 becomes 1,
   * a negative count cannot size the array, and instant i is i intervals
   * after the beginning.
   */
  method Instants(jdI: real, interval: real, count: int) returns (r: Result<array<real>>)
    ensures r.Err? <==> count < 0
    ensures r.Err? ==> r.error == NegativeArraySize
    ensures r.Ok? ==> fresh(r.value) && r.value.Length == (if count == 0 then 1 else count)
    ensures r.Ok? ==> forall i :: 0 <= i < r.value.Length ==> r.value[i] == jdI + interval * i as real
  {
    var nbJds := count;
    if nbJds == 0 {
      nbJds := 1;
    }
    if nbJds < 0 {
      return Err(NegativeArraySize);
    }
    var jds := new real[nbJds];
    for i := 0 to nbJds
      invariant forall k :: 0 <= k < i ==> jds[k] == jdI + interval * k as real
    {
      jds[i] := jdI + interval * i as real;
    }
    return Ok(jds);
  }

  /** Consecutive instants are one interval apart, so the grid rises with a positive interval. */
  lemma GridIsEvenlySpaced(jdI: real, interval: real, i: int, k: int)
    requires 0 <= i < k
    ensures (jdI + interval * k as real) - (jdI + interval * i as real) == interval * (k - i) as real
    ensures interval > 0.0 ==> jdI + interval * i as real < jdI + interval * k as real
  {
    if interval > 0.0 {
      MultiplyPositive(interval, (k - i) as real);
    }
  }

  /**
   * The unit code the unit list of coordinate i selects (NewEphemerisDialog.java:1186-1190):
   * the choice-th unit of the coordinate's type, or an index past the list.
   */
  function UnitOf(sphereCart: int, i: int, choice: int): (r: Result<int>)
    requires sphereCart == CARTESIAN || sphereCart == SPHERICAL
    requires 0 <= i < 6
    ensures r.Err? ==> r.error == IndexOutOfBounds
  {
    var t := Units.CoordUnitType(sphereCart, i).value;
    var units := Units.UnitsOfType(t);
    if 0 <= choice < |units| then Ok(units[choice]) else Err(IndexOutOfBounds)
  }

  /** A unit the list offers is a real unit, of the coordinate's type, never NO_SPECIF. */
  lemma UnitOfHasCoordType(sphereCart: int, i: int, choice: int)
    requires sphereCart == CARTESIAN || sphereCart == SPHERICAL
    requires 0 <= i < 6
    ensures UnitOf(sphereCart, i, choice).Ok? <==>
              0 <= choice < |Units.UnitsOfType(Units.CoordUnitType(sphereCart, i).value)|
    ensures UnitOf(sphereCart, i, choice).Ok? ==>
              var u := UnitOf(sphereCart, i, choice).value;
              Units.IsUnit(u) && Units.UnitTypeOf(u) == Units.CoordUnitType(sphereCart, i).value && u != NO_SPECIF
  {
  }

  /** The first |units| coordinates all have their unit, and units lists them. */
  predicate UnitsSoFar(sphereCart: int, checked: seq<bool>, choice: seq<int>, units: seq<int>)
    requires sphereCart == CARTESIAN || sphereCart == SPHERICAL
    requires |checked| == |choice| == 6 && |units| <= 6
  {
    forall k :: 0 <= k < |units| ==>
      UnitAvailable(sphereCart, k, checked[k], choice[k]) && UnitEntry(sphereCart, k, checked[k], choice[k], units[k])
  }

  lemma UnitsSoFarStep(sphereCart: int, checked: seq<bool>, choice: seq<int>, units: seq<int>, u: int)
    requires sphereCart == CARTESIAN || sphereCart == SPHERICAL
    requires |checked| == |choice| == 6 && |units| < 6
    requires UnitsSoFar(sphereCart, checked, choice, units)
    requires UnitAvailable(sphereCart, |units|, checked[|units|], choice[|units|])
    requires UnitEntry(sphereCart, |units|, checked[|units|], choice[|units|], u)
    ensures UnitsSoFar(sphereCart, checked, choice, units + [u])
  {
    forall k | 0 <= k < |units| + 1
      ensures UnitAvailable(sphereCart, k, checked[k], choice[k])
      ensures UnitEntry(sphereCart, k, checked[k], choice[k], (units + [u])[k])
    {
      if k < |units| {
        assert (units + [u])[k] == units[k];
      }
    }
  }

  /** Once all six coordinates are done, every selected unit exists and the units are those OKListener records. */
  lemma UnitsSoFarComplete(sphereCart: int, checked: seq<bool>, choice: seq<int>, whichCoords: seq<int>, units: seq<int>)
    requires sphereCart == CARTESIAN || sphereCart == SPHERICAL
    requires |checked| == |choice| == |units| == 6
    requires UnitsSoFar(sphereCart, checked, choice, units) && whichCoords == Selected(checked)
    ensures UnitsAvailable(sphereCart, checked, choice)
    ensures CoordsFit(sphereCart, checked, choice, whichCoords, units)
  {
  }

  /** getUnits of the coordinate's unit type, then the entry its unit list selects. */
  method SelectedUnit(sphereCart: int, c: int, choice: int) returns (r: Result<int>)
    requires sphereCart == CARTESIAN || sphereCart == SPHERICAL
    requires 0 <= c < 6
    ensures r == UnitOf(sphereCart, c, choice)
  {
    var t := Units.CoordUnitType(sphereCart, c);
    var tmpUnits := Units.GetUnits(t.value);
    if !(0 <= choice < |tmpUnits.value|) {
      return Err(IndexOutOfBounds);
    }
    return Ok(tmpUnits.value[choice]);
  }

  /** A checked coordinate's unit list selects an existing unit. */
  predicate UnitAvailable(sphereCart: int, i: int, checked: bool, choice: int)
    requires sphereCart == CARTESIAN || sphereCart == SPHERICAL
    requires 0 <= i < 6
  {
    checked ==> UnitOf(sphereCart, i, choice).Ok?
  }

  /** The unit recorded for coordinate i: the selected one when checked, NO_SPECIF otherwise. */
  predicate UnitEntry(sphereCart: int, i: int, checked: bool, choice: int, u: int)
    requires sphereCart == CARTESIAN || sphereCart == SPHERICAL
    requires 0 <= i < 6
  {
    if checked then UnitOf(sphereCart, i, choice) == Ok(u) else u == NO_SPECIF
  }

  /** A unit is recorded exactly for the checked coordinates. */
  lemma UnitEntrySpecified(sphereCart: int, i: int, checked: bool, choice: int, u: int)
    requires sphereCart == CARTESIAN || sphereCart == SPHERICAL
    requires 0 <= i < 6 && UnitEntry(sphereCart, i, checked, choice, u)
    ensures u != NO_SPECIF <==> checked
    ensures checked ==> Units.IsUnit(u) && Units.UnitTypeOf(u) == Units.CoordUnitType(sphereCart, i).value
  {
    UnitOfHasCoordType(sphereCart, i, choice);
  }

  /** Every checked coordinate finds its selected unit on its list. */
  predicate UnitsAvailable(sphereCart: int, checked: seq<bool>, choice: seq<int>)
    requires sphereCart == CARTESIAN || sphereCart == SPHERICAL
    requires |checked| == |choice| == 6
  {
    forall i :: 0 <= i < 6 ==> UnitAvailable(sphereCart, i, checked[i], choice[i])
  }

  /** whichCoords and coordUnits as OKListener builds them from the six boxes and their unit lists. */
  predicate CoordsFit(sphereCart: int, checked: seq<bool>, choice: seq<int>, whichCoords: seq<int>, coordUnits: seq<int>)
    requires sphereCart == CARTESIAN || sphereCart == SPHERICAL
    requires |checked| == |choice| == 6
  {
    whichCoords == Selected(checked) && |coordUnits| == 6 &&
    forall i :: 0 <= i < 6 ==> UnitEntry(sphereCart, i, checked[i], choice[i], coordUnits[i])
  }

  /**
   * What the Ephemeris receives: the coordinates are distinct, increasing
   * indexes among the six, one per checked box, and coordUnits specifies a
   * unit of the coordinate's type exactly at the checked boxes.
   */
  lemma {:induction false} CoordsFitDescribesSelection(sphereCart: int, checked: seq<bool>, choice: seq<int>,
                                                       whichCoords: seq<int>, coordUnits: seq<int>)
    requires sphereCart == CARTESIAN || sphereCart == SPHERICAL
    requires |checked| == |choice| == 6
    requires CoordsFit(sphereCart, checked, choice, whichCoords, coordUnits)
    ensures forall k :: 0 <= k < |whichCoords| ==> 0 <= whichCoords[k] < 6 && checked[whichCoords[k]]
    ensures forall i :: 0 <= i < 6 && checked[i] ==> i in whichCoords
    ensures forall k, l :: 0 <= k < l < |whichCoords| ==> whichCoords[k] < whichCoords[l]
    ensures forall i :: 0 <= i < 6 ==> (coordUnits[i] != NO_SPECIF <==> checked[i])
    ensures forall i :: 0 <= i < 6 && checked[i] ==>
              Units.IsUnit(coordUnits[i]) && Units.UnitTypeOf(coordUnits[i]) == Units.CoordUnitType(sphereCart, i).value
  {
    SelectedIsCheckedPositions(checked);
    forall i | 0 <= i < 6
      ensures coordUnits[i] != NO_SPECIF <==> checked[i]
      ensures checked[i] ==>
                Units.IsUnit(coordUnits[i]) && Units.UnitTypeOf(coordUnits[i]) == Units.CoordUnitType(sphereCart, i).value
    {
      UnitEntrySpecified(sphereCart, i, checked[i], choice[i], coordUnits[i]);
    }
  }

  /** Whether the form has the defect warning w reports, whatever the order the checks run in. */
  predicate Defect(form: Form, w: Warning, noCoordinate: bool)
  {
    match w
    case BadBeginDate => form.beginDate.BadDate?
    case BadBeginHour => form.beginDate.BadHour?
    case BadDisplayEvery => form.displayEvery.None?
    case DisplayEveryZero => form.displayEvery == Some(0)
    case BadNbDates => form.specifyNbDates && form.nbDates.None?
    case BadEndDate => !form.specifyNbDates && form.endDate.BadDate?
    case BadEndHour => !form.specifyNbDates && form.endDate.BadHour?
    case EndNotAfterBegin =>
      !form.specifyNbDates && form.beginDate.Jd? && form.endDate.Jd? && form.endDate.jd <= form.beginDate.jd
    case NoCoordinate => noCoordinate
    case BadPrecision => form.precision.None?
  }

  /** The order in which OKListener makes its checks. */
  function Rank(w: Warning): nat
  {
    match w
    case BadBeginDate => 0
    case BadBeginHour => 1
    case BadDisplayEvery => 2
    case DisplayEveryZero => 3
    case BadNbDates => 4
    case BadEndDate => 5
    case BadEndHour => 6
    case EndNotAfterBegin => 7
    case NoCoordinate => 8
    case BadPrecision => 9
  }

  /** The warning, if any, from the checks of the date tab (NewEphemerisDialog.java:1041-1151). */
  function DateDefect(form: Form): Option<Warning>
  {
    if form.beginDate.BadDate? then Some(BadBeginDate)
    else if form.beginDate.BadHour? then Some(BadBeginHour)
    else if form.displayEvery.None? then Some(BadDisplayEvery)
    else if form.displayEvery.value == 0 then Some(DisplayEveryZero)
    else if form.specifyNbDates then
      if form.nbDates.None? then Some(BadNbDates) else None
    else if form.endDate.BadDate? then Some(BadEndDate)
    else if form.endDate.BadHour? then Some(BadEndHour)
    else if form.endDate.jd <= form.beginDate.jd then Some(EndNotAfterBegin)
    else None
  }

  /** The warning OKListener shows first, when no exception cuts it short. */
  function FirstDefect(form: Form, noCoordinate: bool): Option<Warning>
  {
    if DateDefect(form).Some? then DateDefect(form)
    else if noCoordinate then Some(NoCoordinate)
    else if form.precision.None? then Some(BadPrecision)
    else None
  }

  /** The first warning is a real defect with none before it, and no warning means no defect at all. */
  lemma FirstDefectIsFirst(form: Form, noCoordinate: bool)
    ensures FirstDefect(form, noCoordinate).Some? ==>
      var w := FirstDefect(form, noCoordinate).value;
      Defect(form, w, noCoordinate) && forall v :: Rank(v) < Rank(w) ==> !Defect(form, v, noCoordinate)
    ensures FirstDefect(form, noCoordinate).None? <==> forall w :: !Defect(form, w, noCoordinate)
    ensures DateDefect(form).Some? <==> exists w :: Rank(w) < 8 && Defect(form, w, noCoordinate)
  {
    if FirstDefect(form, noCoordinate).Some? {
      var w := FirstDefect(form, noCoordinate).value;
      forall v | Rank(v) < Rank(w)
        ensures !Defect(form, v, noCoordinate)
      {
        match v
        case BadBeginDate =>
        case BadBeginHour =>
        case BadDisplayEvery =>
        case DisplayEveryZero =>
        case BadNbDates =>
        case BadEndDate =>
        case BadEndHour =>
        case EndNotAfterBegin =>
        case NoCoordinate =>
        case BadPrecision =>
      }
      assert Rank(w) < 8 ==> Defect(form, w, noCoordinate);
    } else {
      forall w
        ensures !Defect(form, w, noCoordinate)
      {
        match w
        case BadBeginDate =>
        case BadBeginHour =>
        case BadDisplayEvery =>
        case DisplayEveryZero =>
        case BadNbDates =>
        case BadEndDate =>
        case BadEndHour =>
        case EndNotAfterBegin =>
        case NoCoordinate =>
        case BadPrecision =>
      }
    }
    if DateDefect(form).Some? {
      assert Rank(DateDefect(form).value) < 8 && Defect(form, DateDefect(form).value, noCoordinate);
    }
  }

  /** The interval between instants, in days, once the date tab is accepted. */
  function Step(form: Form): real
    requires DateDefect(form).None?
  {
    Interval(form.displayEvery.value, form.displayEveryUnit)
  }

  /** The number of instants, before 0 is turned into 1, once the date tab is accepted. */
  function Count(form: Form): int
    requires DateDefect(form).None?
  {
    IntervalKeepsSign(form.displayEvery.value, form.displayEveryUnit);
    InstantCount(form, form.beginDate.jd, Step(form))
  }

  /** The outcome of a step of the listener: a warning shown, or the value built. */
  datatype Checked<T> = Stop(warning: Warning) | Go(value: T)

  /**
   * The checks of the date tab of OKListener (NewEphemerisDialog.java:1037-1151):
   * the begin date, the 'display every' interval, and the number of instants
   * from the count field or from the end date, or the first warning.
   */
  method DateFields(form: Form) returns (r: Checked<(real, real, int)>)
    ensures r.Stop? <==> DateDefect(form).Some?
    ensures r.Stop? ==> r.warning == DateDefect(form).value
    ensures r.Go? ==> r.value == (form.beginDate.jd, Step(form), Count(form))
  {
    if form.beginDate.BadDate? {
      return Stop(BadBeginDate);
    }
    if form.beginDate.BadHour? {
      return Stop(BadBeginHour);
    }
    var jdI := form.beginDate.jd;
    if form.displayEvery.None? {
      return Stop(BadDisplayEvery);
    }
    if form.displayEvery.value == 0 {
      return Stop(DisplayEveryZero);
    }
    var interval := Interval(form.displayEvery.value, form.displayEveryUnit);
    IntervalKeepsSign(form.displayEvery.value, form.displayEveryUnit);
    var nbJds: int;
    if form.specifyNbDates {
      if form.nbDates.None? {
        return Stop(BadNbDates);
      }
      nbJds := form.nbDates.value;
    } else {
      if form.endDate.BadDate? {
        return Stop(BadEndDate);
      }
      if form.endDate.BadHour? {
        return Stop(BadEndHour);
      }
      var jdF := form.endDate.jd;
      if jdF <= jdI {
        return Stop(EndNotAfterBegin);
      }
      nbJds := Ceil((jdF - jdI) / interval);
    }
    return Go((jdI, interval, nbJds));
  }

  /**
   * The date tab of OKListener (NewEphemerisDialog.java:1037-1157): the checks,
   * then the instants themselves.
   */
  method DateGrid(form: Form) returns (r: Result<Checked<array<real>>>)
    ensures r.Ok? && r.value.Stop? <==> DateDefect(form).Some?
    ensures r.Ok? && r.value.Stop? ==> r.value.warning == DateDefect(form).value
    ensures r.Err? <==> DateDefect(form).None? && Count(form) < 0
    ensures r.Err? ==> r.error == NegativeArraySize
    ensures r.Ok? && r.value.Go? ==> fresh(r.value.value)
    ensures r.Ok? && r.value.Go? ==>
      r.value.value.Length == (if Count(form) == 0 then 1 else Count(form)) &&
      forall i :: 0 <= i < r.value.value.Length ==> r.value.value[i] == form.beginDate.jd + Step(form) * i as real
  {
    var fields := DateFields(form);
    if fields.Stop? {
      return Ok(Stop(fields.warning));
    }
    var (jdI, interval, nbJds) := fields.value;
    var jds := Instants(jdI, interval, nbJds);
    if jds.Err? {
      return Err(jds.error);
    }
    return Ok(Go(jds.value));
  }

  /**
   * A form the date checks accept whose instants cannot be allocated: one
   * day back at a time from day 0 to day 2, i.e. -2 instants.
   */
  function BackwardsForm(): Form
  {
    Form(0, Jd(0.0), Some(-1), DAYS, false, 0, false, None, Jd(2.0), true, Some(0.0), true, false, false, 0, false)
  }

  /**
   * As written, a negative 'display every' value passes the checks, so the
   * count of instants comes out negative and sizing the array fails.
   */
  lemma NegativeIntervalPassesChecks()
    ensures DateDefect(BackwardsForm()).None? && Count(BackwardsForm()) == -2
    ensures DateDefectIntended(BackwardsForm()) == Some(BadDisplayEvery)
  {
    assert Step(BackwardsForm()) == -1.0;
  }

  /** As written, a negative number of dates passes the checks the same way. */
  lemma NegativeCountPassesChecks(form: Form)
    requires form.beginDate.Jd? && form.displayEvery == Some(1)
    requires form.specifyNbDates && form.nbDates == Some(-3)
    ensures DateDefect(form).None? && Count(form) == -3
    ensures DateDefectIntended(form) == Some(BadNbDates)
  {
  }

  /**
   * The date checks as the dialog evidently means them: a form whose count of
   * instants comes out negative is refused, with the warning of the field
   * that makes it so: the number of dates in count mode, 'display every' in
   * end-date mode. Every other form is handled as written, a backward grid
   * in count mode included.
   */
  function DateDefectIntended(form: Form): Option<Warning>
  {
    if DateDefect(form).Some? then DateDefect(form)
    else if Count(form) < 0 then
      if form.specifyNbDates then Some(BadNbDates) else Some(BadDisplayEvery)
    else None
  }

  /** In end-date mode, a negative interval gives a negative count or the single instant jdI. */
  lemma BackwardRange(jdI: real, jdF: real, interval: real)
    requires interval < 0.0 && jdF > jdI
    ensures Ceil((jdF - jdI) / interval) <= 0
  {
    var x := (jdF - jdI) / interval;
    assert x < 0.0 by {
      assert x * interval == jdF - jdI;
      if x > 0.0 {
        MultiplyPositive(x, -interval);
      }
    }
  }

  /**
   * The intended checks keep every warning of the written ones and refuse
   * exactly the accepted forms whose count of instants is negative, which the
   * written code would size an array with; the field they blame is then
   * negative. A form they accept has a count of at least 0. In end-date mode
   * it either steps forward, its grid starting before the end date with one
   * more step reaching or passing it, or steps backward and gets the single
   * instant 0 turns into.
   */
  lemma DateChecksIntended(form: Form)
    ensures DateDefect(form).Some? ==> DateDefectIntended(form) == DateDefect(form)
    ensures DateDefect(form).None? ==> (DateDefectIntended(form).Some? <==> Count(form) < 0)
    ensures DateDefect(form).None? && Count(form) < 0 ==>
      if form.specifyNbDates then form.nbDates.value < 0 else form.displayEvery.value < 0
    ensures DateDefectIntended(form).None? ==>
      && DateDefect(form).None? && Count(form) >= 0
      && (!form.specifyNbDates && Step(form) > 0.0 ==>
            && Count(form) >= 1
            && form.beginDate.jd + (Count(form) - 1) as real * Step(form) < form.endDate.jd
            && form.endDate.jd <= form.beginDate.jd + Count(form) as real * Step(form))
      && (!form.specifyNbDates && Step(form) < 0.0 ==> Count(form) == 0)
  {
    if DateDefect(form).None? {
      IntervalKeepsSign(form.displayEvery.value, form.displayEveryUnit);
      if !form.specifyNbDates {
        if Step(form) > 0.0 {
          GridCoversRange(form.beginDate.jd, form.endDate.jd, Step(form));
        } else {
          BackwardRange(form.beginDate.jd, form.endDate.jd, Step(form));
        }
      }
    }
  }

  /**
   * The second pass over the coordinate boxes (NewEphemerisDialog.java:1180-1196):
   * the checked coordinates in increasing order, and for each of the six
   * boxes the selected unit when checked and NO_SPECIF otherwise.
   */
  method CoordsAndUnits(sphereCart: int, checked: seq<bool>, choice: seq<int>, nbCoord: int)
    returns (r: Result<(array<int>, array<int>)>)
    requires sphereCart == CARTESIAN || sphereCart == SPHERICAL
    requires |checked| == |choice| == 6 && nbCoord == |Selected(checked)|
    ensures r.Err? ==> r.error == IndexOutOfBounds
    ensures r.Ok? <==> UnitsAvailable(sphereCart, checked, choice)
    ensures r.Ok? ==> fresh(r.value.0) && fresh(r.value.1)
    ensures r.Ok? ==> CoordsFit(sphereCart, checked, choice, r.value.0[..], r.value.1[..])
  {
    var whichCoords := new int[nbCoord];
    var coordUnits := new int[6];
    var filled := FillCoords(sphereCart, checked, choice, whichCoords, coordUnits);
    if filled.Err? {
      return Err(filled.error);
    }
    UnitsSoFarComplete(sphereCart, checked, choice, whichCoords[..], coordUnits[..]);
    return Ok((whichCoords, coordUnits));
  }

  /**
   * The loop of that second pass (NewEphemerisDialog.java:1182-1196), filling
   * the two arrays just allocated; a unit index off its list stops it.
   */
  method FillCoords(sphereCart: int, checked: seq<bool>, choice: seq<int>, whichCoords: array<int>, coordUnits: array<int>)
    returns (r: Result<()>)
    requires sphereCart == CARTESIAN || sphereCart == SPHERICAL
    requires |checked| == |choice| == 6 && whichCoords.Length == |Selected(checked)| && coordUnits.Length == 6
    requires whichCoords != coordUnits
    modifies whichCoords, coordUnits
    ensures r.Err? ==> r.error == IndexOutOfBounds
    ensures r.Ok? <==> UnitsAvailable(sphereCart, checked, choice)
    ensures r.Ok? ==> whichCoords[..] == Selected(checked) && UnitsSoFar(sphereCart, checked, choice, coordUnits[..])
  {
    var iCoord := 0;
    for i := 0 to 6
      invariant iCoord == |Selected(checked[..i])| <= whichCoords.Length
      invariant whichCoords[..iCoord] == Selected(checked[..i])
      invariant UnitsSoFar(sphereCart, checked, choice, coordUnits[..i])
    {
      SelectedStep(checked, i);
      SelectedPrefix(checked, i + 1);
      ghost var before := coordUnits[..i];
      ghost var listed := whichCoords[..iCoord];
      if checked[i] {
        var c := Space.Coord(i);
        whichCoords[iCoord] := c;
        assert whichCoords[..iCoord + 1] == listed + [i];
        var unit := SelectedUnit(sphereCart, c, choice[i]);
        if unit.Err? {
          assert !UnitAvailable(sphereCart, i, checked[i], choice[i]);
          return Err(unit.error);
        }
        coordUnits[i] := unit.value;
        UnitsSoFarStep(sphereCart, checked, choice, before, unit.value);
        iCoord := iCoord + 1;
      } else {
        coordUnits[i] := NO_SPECIF;
        UnitsSoFarStep(sphereCart, checked, choice, before, NO_SPECIF);
      }
      assert coordUnits[..i + 1] == before + [coordUnits[i]];
    }
    assert checked[..6] == checked && coordUnits[..6] == coordUnits[..];
    UnitsSoFarComplete(sphereCart, checked, choice, whichCoords[..], coordUnits[..]);
    return Ok(());
  }

  class NewEphemerisDialog {
    /** The bodies offered, one check box each (_curBodies, _chkPlanets). */
    const curBodies: seq<int>
    const chkPlanets: seq<bool>
    /** The frames of the frame list. */
    const availableFrames: seq<int>
    /** The six coordinate boxes and the selected entry of their unit lists. */
    const chkCoord: seq<bool>
    const unitChoice: seq<int>
    /** What storeLastValues remembers of the body and coordinate selections. */
    var lastPlanets: seq<int>
    var lastSelectedCoords: seq<int>

    ghost predicate Valid()
      reads this
    {
      |chkPlanets| == |curBodies| && |chkCoord| == 6 && |unitChoice| == 6
    }

    /**
     * storeLastValues, the planet and coordinate part
     * (NewEphemerisDialog.java:871-880, 936-946): the positions of the checked
     * planets and of the checked coordinates, in increasing order.
     */
    method StoreLastValues()
      requires Valid()
      modifies this
      ensures lastPlanets == Selected(chkPlanets) && lastSelectedCoords == Selected(chkCoord)
    {
      var planets := SelectedIndexes(chkPlanets);
      lastPlanets := planets[..];
      var coords := SelectedIndexes(chkCoord);
      lastSelectedCoords := coords[..];
    }

    /** The two-pass body list of OKListener (NewEphemerisDialog.java:1012-1035). */
    method BodyIndexes(frame: int) returns (r: array<int>)
      requires Valid()
      ensures fresh(r) && r[..] == ShownBodies(curBodies, chkPlanets, frame)
    {
      var count := CountChecked(chkPlanets);
      r := new int[count];
      FillBodies(frame, r);
    }

    /** The second pass of that list (NewEphemerisDialog.java:1018-1035): the body of each checked entry. */
    method FillBodies(frame: int, r: array<int>)
      requires Valid() && r.Length == |Selected(chkPlanets)|
      modifies r
      ensures r[..] == ShownBodies(curBodies, chkPlanets, frame)
    {
      var tmp := 0;
      for i := 0 to |chkPlanets|
        invariant tmp == |Selected(chkPlanets[..i])| <= r.Length
        invariant r[..tmp] == ShownBodies(curBodies[..i], chkPlanets[..i], frame)
      {
        SelectedStep(chkPlanets, i);
        SelectedPrefix(chkPlanets, i + 1);
        ShownBodiesStep(curBodies, chkPlanets, frame, i);
        ghost var before := r[..tmp];
        if chkPlanets[i] {
          if curBodies[i] == SUN || curBodies[i] == EARTH {
            if frame == FRAME_THEORY || frame == FRAME_EC_HELIO_GEOMETRIC {
              r[tmp] := EARTH;
            } else {
              r[tmp] := SUN;
            }
          } else {
            r[tmp] := curBodies[i];
          }
          assert r[..tmp + 1] == before + [Shown(curBodies[i], frame)];
          tmp := tmp + 1;
        }
      }
      assert chkPlanets[..|chkPlanets|] == chkPlanets && curBodies[..|curBodies|] == curBodies;
    }

    /**
     * OKListener.actionPerformed up to the Ephemeris constructor
     * (NewEphemerisDialog.java:1011-1235): the frame, the body list, the
     * instants, the coordinates and their units, and the display options,
     * or the first warning the form raises. An exception the listener does
     * not catch (a frame index off the list, a unit index off its list, a
     * negative number of instants) is an Err.
     */
    method OK(form: Form) returns (r: Result<Outcome>)
      requires Valid()
      ensures !(0 <= form.frameChoice < |availableFrames|) ==> r == Err(IndexOutOfBounds)
      ensures 0 <= form.frameChoice < |availableFrames| && DateDefect(form).Some? ==>
                r == Ok(Warned(DateDefect(form).value))
      ensures r.Err? ==>
                r.error == IndexOutOfBounds || (r.error == NegativeArraySize && DateDefect(form).None? && Count(form) < 0)
      ensures r.Ok? && r.value.Warned? ==> FirstDefect(form, |Selected(chkCoord)| == 0) == Some(r.value.warning)
      ensures r.Ok? && r.value.Built? <==>
                (0 <= form.frameChoice < |availableFrames| && FirstDefect(form, |Selected(chkCoord)| == 0).None? &&
                 Count(form) >= 0 &&
                 UnitsAvailable((if form.cartesian then CARTESIAN else SPHERICAL), chkCoord, unitChoice))
      ensures r.Ok? && r.value.Built? ==>
                var q := r.value.request;
                q.frame == availableFrames[form.frameChoice] &&
                q.bodyIndexes == ShownBodies(curBodies, chkPlanets, q.frame) &&
                |q.jds| == (if Count(form) == 0 then 1 else Count(form)) &&
                (forall i :: 0 <= i < |q.jds| ==> q.jds[i] == form.beginDate.jd + Step(form) * i as real) &&
                q.sphereCart == (if form.cartesian then CARTESIAN else SPHERICAL) &&
                CoordsFit(q.sphereCart, chkCoord, unitChoice, q.whichCoords, q.coordUnits)
      ensures r.Ok? && r.value.Built? ==>
                var q := r.value.request;
                q.timeFrame == (if form.timeFrameChoice == 0 then UTC else TT_TDB) &&
                q.dateDisplay == (if form.displayJds then Ephemerides.DISPLAY_JDS else Ephemerides.DISPLAY_DATES) &&
                q.precision == form.precision.value &&
                q.instantsInRowCol == (if form.instantsInRows then Ephemerides.INSTANTS_IN_ROWS else Ephemerides.INSTANTS_IN_COLUMNS) &&
                q.useSymbols == form.useSymbols &&
                q.degreeFormat == (if form.decimalDegrees then DEGREES_DECIMAL else DEGREES_DMS) &&
                q.displayErrorMsg == form.displayErrorMsg
      ensures r.Ok? && r.value.Built? ==>
                (form.engineChoice == 0 ==> r.value.request.astroEngine == Some(JEPHEM)) &&
                (form.engineChoice == 1 ==> r.value.request.astroEngine == Some(SWISS_EPHEMERIS)) &&
                (form.engineChoice != 0 && form.engineChoice != 1 ==> r.value.request.astroEngine == None)
    {
      if !(0 <= form.frameChoice < |availableFrames|) {
        return Err(IndexOutOfBounds);
      }
      var frame := availableFrames[form.frameChoice];
      var bodyIndexes := BodyIndexes(frame);
      var grid := DateGrid(form);
      if grid.Err? {
        return Err(grid.error);
      }
      if grid.value.Stop? {
        return Ok(Warned(grid.value.warning));
      }
      var jds := grid.value.value;
      var sphereCart := if form.cartesian then CARTESIAN else SPHERICAL;
      var coords := CoordinateTab(sphereCart);
      if coords.Err? {
        return Err(coords.error);
      }
      if coords.value.Stop? {
        return Ok(Warned(coords.value.warning));
      }
      var outcome := Assemble(form, frame, bodyIndexes[..], jds[..], sphereCart, coords.value.value.0, coords.value.value.1);
      return Ok(outcome);
    }

    /**
     * The end of OKListener (NewEphemerisDialog.java:1092-1102, 1198-1235):
     * the precision must parse; then the date display, time frame and
     * display options join the parameters already built.
     */
    static method Assemble(form: Form, frame: int, bodyIndexes: seq<int>, jds: seq<real>,
                           sphereCart: int, whichCoords: seq<int>, coordUnits: seq<int>) returns (r: Outcome)
      ensures r.Warned? <==> form.precision.None?
      ensures r.Warned? ==> r.warning == BadPrecision
      ensures r.Built? ==>
                r.request.frame == frame && r.request.bodyIndexes == bodyIndexes && r.request.jds == jds &&
                r.request.sphereCart == sphereCart && r.request.whichCoords == whichCoords &&
                r.request.coordUnits == coordUnits
      ensures r.Built? ==>
                var q := r.request;
                q.timeFrame == (if form.timeFrameChoice == 0 then UTC else TT_TDB) &&
                q.dateDisplay == (if form.displayJds then Ephemerides.DISPLAY_JDS else Ephemerides.DISPLAY_DATES) &&
                q.precision == form.precision.value &&
                q.instantsInRowCol == (if form.instantsInRows then Ephemerides.INSTANTS_IN_ROWS else Ephemerides.INSTANTS_IN_COLUMNS) &&
                q.useSymbols == form.useSymbols &&
                q.degreeFormat == (if form.decimalDegrees then DEGREES_DECIMAL else DEGREES_DMS) &&
                q.displayErrorMsg == form.displayErrorMsg
      ensures r.Built? ==>
                (form.engineChoice == 0 ==> r.request.astroEngine == Some(JEPHEM)) &&
                (form.engineChoice == 1 ==> r.request.astroEngine == Some(SWISS_EPHEMERIS)) &&
                (form.engineChoice != 0 && form.engineChoice != 1 ==> r.request.astroEngine == None)
    {
      var dateDisplay := if form.displayJds then Ephemerides.DISPLAY_JDS else Ephemerides.DISPLAY_DATES;
      var timeFrame := if form.timeFrameChoice == 0 then UTC else TT_TDB;
      if form.precision.None? {
        return Warned(BadPrecision);
      }
      var instantsInRowCol := if form.instantsInRows then Ephemerides.INSTANTS_IN_ROWS else Ephemerides.INSTANTS_IN_COLUMNS;
      var degreeFormat := if form.decimalDegrees then DEGREES_DECIMAL else DEGREES_DMS;
      var astroEngine: Option<string> := None;
      if form.engineChoice == 0 {
        astroEngine := Some(JEPHEM);
      }
      if form.engineChoice == 1 {
        astroEngine := Some(SWISS_EPHEMERIS);
      }
      return Built(Request(bodyIndexes, jds, timeFrame, whichCoords, coordUnits, frame, sphereCart,
                           form.precision.value, instantsInRowCol, form.useSymbols, degreeFormat,
                           dateDisplay, astroEngine, form.displayErrorMsg));
    }

    /**
     * The coordinate tab of OKListener (NewEphemerisDialog.java:1165-1196):
     * at least one coordinate must be checked, then whichCoords and
     * coordUnits are built.
     */
    method CoordinateTab(sphereCart: int) returns (r: Result<Checked<(seq<int>, seq<int>)>>)
      requires Valid() && (sphereCart == CARTESIAN || sphereCart == SPHERICAL)
      ensures r.Ok? && r.value.Stop? <==> |Selected(chkCoord)| == 0
      ensures r.Ok? && r.value.Stop? ==> r.value.warning == NoCoordinate
      ensures r.Err? <==> |Selected(chkCoord)| > 0 && !UnitsAvailable(sphereCart, chkCoord, unitChoice)
      ensures r.Err? ==> r.error == IndexOutOfBounds
      ensures r.Ok? && r.value.Go? ==>
                CoordsFit(sphereCart, chkCoord, unitChoice, r.value.value.0, r.value.value.1)
    {
      var nbCoord := CountChecked(chkCoord);
      if nbCoord == 0 {
        return Ok(Stop(NoCoordinate));
      }
      var coords := CoordsAndUnits(sphereCart, chkCoord, unitChoice, nbCoord);
      if coords.Err? {
        return Err(coords.error);
      }
      return Ok(Go((coords.value.0[..], coords.value.1[..])));
    }
  }
}
