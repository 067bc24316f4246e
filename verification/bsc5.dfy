/**
 * The Bright Star Catalogue access class (jephem.astro.sky.BSC5): a static
 * table of four text fields and four numeric fields per star, loaded from a
 * fixed-column file on first access.
 */
module Bsc5 {
  import opened Wrappers

  /** Number of stars in the catalogue. */
  const NB_STARS: int := 9096

  // String data codes.
  const BSC: int := 0
  const HD: int := 1
  const SAO: int := 2
  const TYP: int := 3
  const STRING_DATA_BASE: int := 0
  const STRING_DATA_MAX: int := 3

  // Double data codes.
  const RA: int := 100
  const DEC: int := 101
  const MAG: int := 102
  const PAR: int := 103
  const DOUBLE_DATA_BASE: int := 100
  const DOUBLE_DATA_MAX: int := 103

  const DATA_LABELS: seq<string> :=
    ["BSC number", "HD number", "SAO number", "Sectral type", "ra", "dec", "magnitude", "parallax"]

  /** tig.GeneralConstants.BLANK, taken to be the empty string. */
  const BLANK: string := ""

  /**
   * getDataLabel as written (BSC5.java:110-115): a double code is reduced by
   * DOUBLE_DATA_BASE and so indexes the labels of the string data.
   */
  function DataLabelAsWritten(dataCode: int): (r: Result<string>)
    ensures r.Ok? <==> 0 <= dataCode < 8 || 100 <= dataCode < 108
    ensures r.Err? ==> r.error == IndexOutOfBounds
    ensures 100 <= dataCode < 104 ==> r == DataLabelAsWritten(dataCode - 100)
  {
    var k := if dataCode < DOUBLE_DATA_BASE then dataCode - STRING_DATA_BASE else dataCode - DOUBLE_DATA_BASE;
    if 0 <= k < |DATA_LABELS| then Ok(DATA_LABELS[k]) else Err(IndexOutOfBounds)
  }

  /** As written, RA is labelled like the BSC number, DEC like the HD number. */
  lemma DataLabelAsWrittenConfusesCodes()
    ensures DataLabelAsWritten(RA) == DataLabelAsWritten(BSC) == Ok("BSC number")
    ensures DataLabelAsWritten(DEC) == Ok("HD number")
  {
  }

  /**
   * getDataLabel as its label table evidently intends: the four double codes
   * take the last four labels.
   */
  function DataLabel(dataCode: int): (r: Result<string>)
    ensures r.Ok? <==> 0 <= dataCode < 8 || 100 <= dataCode < 104
    ensures r.Err? ==> r.error == IndexOutOfBounds
    ensures DOUBLE_DATA_BASE <= dataCode <= DOUBLE_DATA_MAX ==> r == Ok(DATA_LABELS[dataCode - DOUBLE_DATA_BASE + 4])
    ensures STRING_DATA_BASE <= dataCode <= STRING_DATA_MAX ==> r == Ok(DATA_LABELS[dataCode])
  {
    var k := if dataCode < DOUBLE_DATA_BASE then dataCode - STRING_DATA_BASE else dataCode - DOUBLE_DATA_BASE + 4;
    if 0 <= k < |DATA_LABELS| && (dataCode < DOUBLE_DATA_BASE || dataCode <= DOUBLE_DATA_MAX) then Ok(DATA_LABELS[k])
    else Err(IndexOutOfBounds)
  }

  /** With the intended labels, the eight data codes have eight different labels, RA being "ra". */
  lemma DataLabelsDistinct(c1: int, c2: int)
    requires 0 <= c1 <= 3 || 100 <= c1 <= 103
    requires 0 <= c2 <= 3 || 100 <= c2 <= 103
    ensures DataLabel(c1).Ok? && DataLabel(c2).Ok?
    ensures DataLabel(c1) == DataLabel(c2) <==> c1 == c2
    ensures DataLabel(RA) == Ok("ra")
  {
  }

  /** Characters String.trim removes: code points up to the space. */
  predicate Blank(c: char)
  {
    c <= ' '
  }

  /** Number of blanks at the start of s. */
  function LeadingBlanks(s: string): (n: nat)
    ensures n <= |s|
    ensures forall k :: 0 <= k < n ==> Blank(s[k])
    ensures n < |s| ==> !Blank(s[n])
  {
    if |s| == 0 || !Blank(s[0]) then 0 else 1 + LeadingBlanks(s[1..])
  }

  /** Number of blanks at the end of s. */
  function TrailingBlanks(s: string): (n: nat)
    ensures n <= |s|
    ensures forall k :: |s| - n <= k < |s| ==> Blank(s[k])
    ensures n < |s| ==> !Blank(s[|s| - n - 1])
  {
    if |s| == 0 || !Blank(s[|s| - 1]) then 0 else 1 + TrailingBlanks(s[..|s| - 1])
  }

  /** String.trim: s without its leading and trailing blanks. */
  function Trim(s: string): (t: string)
    ensures |t| <= |s|
    ensures |t| > 0 ==> !Blank(t[0]) && !Blank(t[|t| - 1])
    ensures (forall k :: 0 <= k < |s| ==> Blank(s[k])) <==> t == []
  {
    var lead := LeadingBlanks(s);
    if lead == |s| then []
    else
      var rest := s[lead..];
      var trail := TrailingBlanks(rest);
      assert trail < |rest| by {
        assert !Blank(rest[0]);
      }
      assert !Blank(s[lead]);
      rest[..|rest| - trail]
  }

  /**
   * The eight column ranges of a catalogue line (BSC5.java:181-190), in
   * column order: BSC [0,4), HD [4,10), SAO [10,16), RA [16,24),
   * DEC [24,33), MAG [33,38), TYP [38,58), PAR [58,end).
   */
  function FieldTexts(line: string): (f: seq<string>)
    requires |line| >= 58
    ensures |f| == 8
  {
    [line[0..4], line[4..10], line[10..16], line[16..24], line[24..33], line[33..38], line[38..58], line[58..]]
  }

  /** The eight fields cover the line exactly: no column is skipped or read twice. */
  lemma FieldsTileLine(line: string)
    requires |line| >= 58
    ensures var f := FieldTexts(line);
      f[0] + f[1] + f[2] + f[3] + f[4] + f[5] + f[6] + f[7] == line
    ensures forall k :: 0 <= k < 7 ==> |FieldTexts(line)[k]| == [4, 6, 6, 8, 9, 5, 20][k]
  {
    var f := FieldTexts(line);
    assert f[0] + f[1] + f[2] + f[3] + f[4] + f[5] + f[6] + f[7]
        == line[..4] + line[4..10] + line[10..16] + line[16..24] + line[24..33] + line[33..38] + line[38..58] + line[58..];
    assert line[..4] + line[4..10] == line[..10];
    assert line[..10] + line[10..16] == line[..16];
    assert line[..16] + line[16..24] == line[..24];
    assert line[..24] + line[24..33] == line[..33];
    assert line[..33] + line[33..38] == line[..38];
    assert line[..38] + line[38..58] == line[..58];
    assert line[..58] + line[58..] == line;
  }

  /** One star: BSC, HD, SAO and spectral type, then RA, DEC, magnitude and parallax. */
  datatype Star = Star(strings: seq<string>, doubles: seq<real>)

  /**
   * One pass of the loadData loop on a line: the four text fields as they
   * stand, the numeric ones trimmed and parsed, a blank parallax read as 0.
   * None when the line is too short for its columns or a number does not
   * parse (StringIndexOutOfBoundsException or NumberFormatException).
   * `parse` is Double.parseDouble, None standing for its exception.
   */
  function ParseLine(line: string, parse: string -> Option<real>): (r: Option<Star>)
    ensures r.Some? ==> |r.value.strings| == 4 && |r.value.doubles| == 4
    ensures r.Some? <==> |line| >= 58 && NumbersParse(FieldTexts(line), parse)
    ensures r.Some? ==> var f := FieldTexts(line);
      && r.value.strings == [f[0], f[1], f[2], f[6]]
      && r.value.doubles[..3] == [parse(Trim(f[3])).value, parse(Trim(f[4])).value, parse(Trim(f[5])).value]
      && r.value.doubles[3] == (if Trim(f[7]) == BLANK then 0.0 else parse(Trim(f[7])).value)
  {
    if |line| < 58 then None
    else
      var f := FieldTexts(line);
      var ra, dec, mag := parse(Trim(f[3])), parse(Trim(f[4])), parse(Trim(f[5]));
      var parText := Trim(f[7]);
      var par := if parText == BLANK then Some(0.0) else parse(parText);
      if ra.None? || dec.None? || mag.None? || par.None? then None
      else Some(Star([f[0], f[1], f[2], f[6]], [ra.value, dec.value, mag.value, par.value]))
  }

  /** The trimmed RA, DEC and magnitude fields parse, and so does the parallax unless it is blank. */
  predicate NumbersParse(f: seq<string>, parse: string -> Option<real>)
    requires |f| == 8
  {
    && parse(Trim(f[3])).Some? && parse(Trim(f[4])).Some? && parse(Trim(f[5])).Some?
    && (Trim(f[7]) == BLANK || parse(Trim(f[7])).Some?)
  }

  /** `stars` is what the first |stars| lines parse to. */
  ghost predicate Read(lines: seq<string>, parse: string -> Option<real>, stars: seq<Star>)
  {
    |stars| <= |lines| && forall k :: 0 <= k < |stars| ==> ParseLine(lines[k], parse) == Some(stars[k])
  }

  lemma ReadExtends(lines: seq<string>, parse: string -> Option<real>, stars: seq<Star>, s: Star)
    requires Read(lines, parse, stars) && |stars| < |lines| && ParseLine(lines[|stars|], parse) == Some(s)
    ensures Read(lines, parse, stars + [s])
  {
  }

  /**
   * The static state of BSC5: the data path, the loaded flag and the two
   * tables. `stars` is the catalogue the tables were filled from, and
   * `halted` records that loadData ended the program with System.exit.
   */
  class Catalog {
    var dataPath: Option<string>
    var dataLoaded: bool
    var stringData: array2<string>
    var doubleData: array2<real>
    ghost var stars: seq<Star>
    ghost var halted: bool

    ghost predicate Valid()
      reads this, stringData, doubleData
    {
      dataLoaded && !halted ==>
        && Shaped()
        && |stars| == NB_STARS
        && (forall i :: 0 <= i < NB_STARS ==> Holds(i))
    }

    /** Both tables have NB_STARS rows of four columns. */
    ghost predicate Shaped()
      reads this
    {
      && stringData.Length0 == NB_STARS && stringData.Length1 == 4
      && doubleData.Length0 == NB_STARS && doubleData.Length1 == 4
    }

    /** Row i of both tables holds star i. */
    ghost predicate Holds(i: int)
      reads this, stringData, doubleData
    {
      && Shaped() && 0 <= i < |stars| && i < NB_STARS
      && |stars[i].strings| == 4 && |stars[i].doubles| == 4
      && stringData[i, 0] == stars[i].strings[0] && stringData[i, 1] == stars[i].strings[1]
      && stringData[i, 2] == stars[i].strings[2] && stringData[i, 3] == stars[i].strings[3]
      && doubleData[i, 0] == stars[i].doubles[0] && doubleData[i, 1] == stars[i].doubles[1]
      && doubleData[i, 2] == stars[i].doubles[2] && doubleData[i, 3] == stars[i].doubles[3]
    }

    /** The class before any call: no path, nothing loaded. */
    constructor ()
      ensures Valid() && dataPath == None && !dataLoaded && !halted
    {
      dataPath := None;
      dataLoaded := false;
      stringData := new string[0, 0];
      doubleData := new real[0, 0];
      stars := [];
      halted := false;
    }

    /** setDataPath. */
    method SetDataPath(path: string)
      requires Valid()
      modifies this
      ensures Valid()
      ensures dataPath == Some(path)
      ensures dataLoaded == old(dataLoaded) && halted == old(halted) && stars == old(stars)
      ensures stringData == old(stringData) && doubleData == old(doubleData)
    {
      dataPath := Some(path);
      assert forall i :: old(Holds(i)) ==> Holds(i);
    }

    /** Appends star s to `stars` and writes it into row i = |stars| of both tables. */
    method StoreStar(i: int, s: Star)
      requires Shaped() && i == |stars| < NB_STARS && |s.strings| == 4 && |s.doubles| == 4
      requires forall k :: 0 <= k < |stars| ==> Holds(k)
      modifies this, stringData, doubleData
      ensures stars == old(stars) + [s]
      ensures dataPath == old(dataPath) && dataLoaded == old(dataLoaded) && halted == old(halted)
      ensures stringData == old(stringData) && doubleData == old(doubleData)
      ensures forall k :: 0 <= k < |stars| ==> Holds(k)
    {
      stringData[i, 0], stringData[i, 1], stringData[i, 2], stringData[i, 3] := s.strings[0], s.strings[1], s.strings[2], s.strings[3];
      doubleData[i, 0], doubleData[i, 1], doubleData[i, 2], doubleData[i, 3] := s.doubles[0], s.doubles[1], s.doubles[2], s.doubles[3];
      ghost var before := stars;
      stars := stars + [s];
      forall k | 0 <= k < |stars|
        ensures Holds(k)
      {
        if k < i {
          assert old(Holds(k));
          assert stars[k] == before[k];
        }
      }
    }

    /**
     * loadData (BSC5.java:163-204): without a data path the program exits;
     * otherwise the flag is set first, then each of the NB_STARS lines of
     * `file` (None when the file cannot be opened) is parsed into fresh
     * tables. Any failure ends the program.
     */
    method LoadData(file: Option<seq<string>>, parse: string -> Option<real>) returns (r: Result<()>)
      requires Valid() && !halted
      modifies this
      ensures r.Ok? || r == Err(Halted)
      ensures r.Err? <==> halted
      ensures dataPath.None? ==> r.Err? && dataLoaded == old(dataLoaded)
      ensures dataPath.Some? ==> dataLoaded
      ensures dataPath == old(dataPath)
      ensures r.Ok? <==> dataPath.Some? && file.Some? && |file.value| >= NB_STARS
                         && forall i :: 0 <= i < NB_STARS ==> ParseLine(file.value[i], parse).Some?
      ensures r.Ok? ==> |stars| == NB_STARS && forall i :: 0 <= i < NB_STARS ==> ParseLine(file.value[i], parse) == Some(stars[i])
      ensures Valid()
    {
      if dataPath.None? {
        halted := true;
        return Err(Halted);
      }
      dataLoaded := true;
      if file.None? {
        halted := true;
        return Err(Halted);
      }
      var lines := file.value;
      stringData := new string[NB_STARS, 4];
      doubleData := new real[NB_STARS, 4];
      stars := [];
      var i := 0;
      while i < NB_STARS
        invariant 0 <= i <= NB_STARS && |stars| == i && dataLoaded && !halted && dataPath == old(dataPath)
        invariant Shaped() && fresh(stringData) && fresh(doubleData)
        invariant Read(lines, parse, stars)
        invariant forall k :: 0 <= k < i ==> Holds(k)
      {
        if i >= |lines| {
          halted := true;
          return Err(Halted);
        }
        var star := ParseLine(lines[i], parse);
        if star.None? {
          halted := true;
          return Err(Halted);
        }
        ReadExtends(lines, parse, stars, star.value);
        StoreStar(i, star.value);
        i := i + 1;
      }
      return Ok(());
    }

    /**
     * getStringData (BSC5.java:121-128): the data are loaded on first access,
     * before the code and the star index are checked.
     */
    method GetStringData(starIdx: int, dataCode: int, file: Option<seq<string>>, parse: string -> Option<real>)
      returns (r: Result<string>)
      requires Valid() && !halted
      modifies this
      ensures Valid() && dataPath == old(dataPath)
      ensures old(dataLoaded) ==> unchanged(this)
      ensures r.Err? && !halted ==> r.error == IllegalArgument
      ensures !halted ==> dataLoaded && (r.Ok? <==> 0 <= dataCode <= 3 && 0 <= starIdx < NB_STARS)
      ensures r.Ok? ==> !halted && |stars| == NB_STARS && |stars[starIdx].strings| == 4
      ensures r.Ok? ==> r.value == stars[starIdx].strings[dataCode]
      ensures r.Ok? && !old(dataLoaded) ==> file.Some? && |file.value| >= NB_STARS
                                            && ParseLine(file.value[starIdx], parse) == Some(stars[starIdx])
    {
      if !dataLoaded {
        var l := LoadData(file, parse);
        if l.Err? {
          return Err(l.error);
        }
      }
      if dataCode < STRING_DATA_BASE || dataCode > STRING_DATA_MAX {
        return Err(IllegalArgument);
      }
      if starIdx < 0 || starIdx >= NB_STARS {
        return Err(IllegalArgument);
      }
      assert Holds(starIdx);
      return Ok(stringData[starIdx, dataCode - STRING_DATA_BASE]);
    }

    /** getDoubleData (BSC5.java:134-141): as getStringData, for the codes RA to PAR. */
    method GetDoubleData(starIdx: int, dataCode: int, file: Option<seq<string>>, parse: string -> Option<real>)
      returns (r: Result<real>)
      requires Valid() && !halted
      modifies this
      ensures Valid() && dataPath == old(dataPath)
      ensures old(dataLoaded) ==> unchanged(this)
      ensures r.Err? && !halted ==> r.error == IllegalArgument
      ensures !halted ==> dataLoaded && (r.Ok? <==> RA <= dataCode <= PAR && 0 <= starIdx < NB_STARS)
      ensures r.Ok? ==> !halted && |stars| == NB_STARS && |stars[starIdx].doubles| == 4
      ensures r.Ok? ==> r.value == stars[starIdx].doubles[dataCode - DOUBLE_DATA_BASE]
      ensures r.Ok? && !old(dataLoaded) ==> file.Some? && |file.value| >= NB_STARS
                                            && ParseLine(file.value[starIdx], parse) == Some(stars[starIdx])
    {
      if !dataLoaded {
        var l := LoadData(file, parse);
        if l.Err? {
          return Err(l.error);
        }
      }
      if dataCode < DOUBLE_DATA_BASE || dataCode > DOUBLE_DATA_MAX {
        return Err(IllegalArgument);
      }
      if starIdx < 0 || starIdx >= NB_STARS {
        return Err(IllegalArgument);
      }
      assert Holds(starIdx);
      return Ok(doubleData[starIdx, dataCode - DOUBLE_DATA_BASE]);
    }
  }
}
