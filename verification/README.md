# JEphem core, modelled in Dafny

JEphem is a Java ephemeris program. Its numerical core evaluates planetary theories (VSOP87, Pluto99, ELP82) and rotates the results through the astronomical frames. Around that core sits a good deal of exact bookkeeping, and this project models it and proves properties of it:

- **Units and coordinates** (`units.dfy`, `space.dfy`). Unit codes are `type * 100 + offset`. `convertUnits` validates its arrays, refuses cross-type conversions and turns an unspecified unit into NaN. The conversion tables are reciprocal. `Space` maps frames to coordinate groups and indexes to coordinate codes.
- **Time scales** (`time.dfy`). The TAI - UTC step table, TT = UTC + 32.184 s + (TAI - UTC), and the inexact inverse `getUTC`.
- **Bodies** (`body.dfy`). A body is a class with a six-slot coordinate array, frame and expression tags, and two unit arrays shared by reference. It has checked getters and setters, `doClone`, and the tag and unit bookkeeping of `cartToSphere` and `sphereToCart`.
- **Precession and nutation** (`mean_true.dfy`). The memoised 14-slot quantity table of `MeanTrue`, the Simon et al. (1994) series and the three matrices built from them.
- **The pipeline** (`astro_context.dfy`). `AstroContext` builds its bodies and looks them up. `calcBodyCoords` dispatches the stages to the engine: which stages run for which frame, the early returns, and the final frame and unit tagging in `finalizeResults`. Each call returns a ghost trace of the stages entered.
- **The ephemeris table** (`ephemeris.dfy`). Constructor checks, the `[instant][body][coordinate]` fill with its error collection and abort on failure, the error comparator, and the table orientation.
- **Widget state that is data logic**:
  - `Curve` (`curve.dfy`): validation, bounds, and the affine maps between data and pixels.
  - `SkyMapBase`, `SkyMap` and `SkyMapViewer` (`sky_map_base.dfy`, `sky_map.dfy`, `sky_map_viewer.dfy`): the disk radius, the screen/pixel maps, the per-frame grid state machine and the zoom steps.
  - `NewEphemerisDialog` (`new_ephemeris_dialog.dfy`): how the OK button builds its parameters.
  - `Axis` (`axis.dfy`).
  - The Bright Star Catalogue access class `BSC5` (`bsc5.dfy`).

A Java `double` is `MathLib.Double`, an `Option<real>` whose `None` is NaN. Java exceptions, `System.exit` included, are the error kinds of `Wrappers.Error`, returned in a `Result`. `sin`, `cos`, `sqrt`, `asin`, `atan3` and the matrix and vector products are fields of a `MathLib.Lib` record of functions. The predicate `MathLib.Sound` assumes only the identities the code relies on. The theory evaluators and the Swiss Ephemeris bridge are the fields of an `AstroContexts.Theories` record, passed as parameters. `NO_SPECIF` is taken as -1 (its defining class is not part of this model); the proofs use only that it differs from every unit, frame and coordinate code.

Where the source's comments and its code disagree, the model follows the code:
- `Body.getCoord` and `Body.setCoord` throw for an index outside 0..5, although their comments promise 0.
- The two-argument `calcBodyCoords` passes the units its comment gives, but with the two branches swapped.
- `sphereToCart` leaves the expression tag `SPHERICAL`.

The code also carries several quirks, and the class members keep each one as written:
- The heliocentric branch of `calcBodyCoords` returns from inside its loop, after rotating only the body at position 0.
- Stages 4 to 6 skip the body at array position `MOON`, not the Moon.
- `Nutation.calcDeltaPsiEpsilon` writes into parameters passed by value, so the nutation quantities are 0 and the nutation matrix is the identity.
- `getTrueEqToEcMatrix` feeds arc seconds to `cos` and `sin`.
- The reference values in the comment at `MeanTrue.java:559-580` match the Simon et al. series without the 1992 IERS correction terms, which the code adds. This is proved both ways by `MeanTrues.ReferenceTableIsUncorrected` and `MeanTrues.CorrectedValuesLeaveTheTable`.

The defects listed under Findings are also modelled as written in the operations that contain them. For each one, a corrected definition stands beside the as-written member, with the intended property proved about it.

## Model

| member | source | states |
|---|---|---|
| Constants.ToRadians | java/src/jephem/tools/SkyMapBase.java:144-145 | the radian value times 180 equals the degree value times pi |
| Constants.ToDegrees | java/src/jephem/tools/SkyMap.java:213 | the degree value times pi equals the radian value times 180 |
| Constants.DegreesRadiansRoundTrip | java/src/jephem/tools/SkyMapBase.java:144-145 | converting degrees to radians and back gives the degree value back |
| Axes.NewAxis | java/src/jephem/astro/spacetime/Axis.java:45-67 | accepted exactly when the direction is X or Y, the side INSIDE or OUTSIDE, and an OUTSIDE axis sits on a border of its direction; an accepted axis keeps the three arguments, every refusal is IllegalArgument |
| Axes.OutsidePlaces | java/src/jephem/astro/spacetime/Axis.java:52-62 | an OUTSIDE X axis takes exactly the places 4, 5 and 9, an OUTSIDE Y axis exactly 1, 2 and 3, and no place suits both |
| Axes.InsideAcceptsAnyPlace | java/src/jephem/astro/spacetime/Axis.java:64-66 | an INSIDE axis of either direction is accepted whatever its place and keeps that place |
| Space.FrameLabel | java/src/jephem/astro/spacetime/Space.java:45-47 | a label exists exactly for the four frames FRAME_THEORY..FRAME_EQUATORIAL; any other index is out of bounds |
| Space.CoordinateExpressionLabel | java/src/jephem/astro/spacetime/Space.java:52-54 | CARTESIAN is "cartesian", SPHERICAL is "spherical", any other code is out of bounds |
| Space.CoordGroupLabels | java/src/jephem/astro/spacetime/Space.java:62-75 | NO_SPECIF gives X1..X3 and the groups -1..COORDGROUP_DIST_ALPHA_DELTA give three labels; every other group is out of bounds |
| Space.CoordGroup | java/src/jephem/astro/spacetime/Space.java:84-97 | each of the three geocentric/heliocentric frames has its own group (both directions), every other frame has none, and no frame has the XYZ group |
| Space.FrameCoordLabels | java/src/jephem/astro/spacetime/Space.java:62-97 | the label lookup never fails on the group of a frame, and names del/bet/lam, r/l/b, dist./alpha/beta or X1/X2/X3 as the frame calls for |
| Space.Coord | java/src/jephem/astro/spacetime/Space.java:108-118 | the indexes 0..5 map to the coordinate codes of the same value, everything else to NO_SPECIF |
| Space.ContainsVelocityCoord | java/src/jephem/astro/spacetime/Space.java:125-131 | true exactly when some entry is one of the three velocity codes |
| Space.VelocitiesOfIndexes | java/src/jephem/astro/spacetime/Space.java:108-131 | the codes of a selection of indexes 0..5 contain a velocity exactly when some index is 3 or more |
| Time.Mjd | java/src/jephem/astro/spacetime/Time.java:126-128 | the modified Julian day plus 2400000.5 gives back the Julian day |
| Time.TT | java/src/jephem/astro/spacetime/Time.java:52-54 | TT is later than UTC by 32.184 s plus TAI - UTC, taken at the UTC date |
| Time.UTC | java/src/jephem/astro/spacetime/Time.java:64-66 | UTC is earlier than TT by 32.184 s plus TAI - UTC, taken at the TT date |
| Time.DeltaTEnds | java/src/jephem/astro/spacetime/Time.java:77-118 | the table is 33 s after 2003 January 1 and 0 on or before 1670 July 1 |
| Time.LeapSecondsWhole | java/src/jephem/astro/spacetime/Time.java:77-100 | after 1972 January 1 TAI - UTC is a whole number of seconds from 10 to 33 |
| Time.LeapSecondsMonotone | java/src/jephem/astro/spacetime/Time.java:77-100 | after 1972 January 1 TAI - UTC never decreases |
| Time.BreakpointsTakeEarlierValue | java/src/jephem/astro/spacetime/Time.java:77-113 | every threshold is strict: a date on a breakpoint takes the value of the earlier segment |
| Time.ParabolicSegment | java/src/jephem/astro/spacetime/Time.java:114-117 | from 1670 to 1961 the table is -15 + 32.5 y^2 with y in centuries from 1810, hence never below -15 s |
| Time.TTIsLater | java/src/jephem/astro/spacetime/Time.java:52-119 | TAI - UTC is never below -15 s, so TT is always later than UTC |
| Time.UTCOfTT | java/src/jephem/astro/spacetime/Time.java:52-66 | getUTC undoes getTT whenever the table has the same value at the UTC and the TT dates |
| Time.UTCOfTTRecent | java/src/jephem/astro/spacetime/Time.java:52-77 | after the last leap second of the table the two conversions are exact inverses |
| Time.UTCOfTTAcrossLeapSecond | java/src/jephem/astro/spacetime/Time.java:52-78 | getUTC is not an exact inverse of getTT: one second before the 2003 threshold the round trip loses a second |
| Units.UnitTypeOf | java/src/jephem/astro/spacetime/Units.java:233-235 | the type t of a code is the floor of code / 100: t * 100 <= code < t * 100 + 100, negative codes included |
| Units.TableShape | java/src/jephem/astro/spacetime/Units.java:42-103 | for each of the four types the label row, the conversion table and each of its rows have the same number of entries (3, 4, 3, 5) |
| Units.UnitsOfType | java/src/jephem/astro/spacetime/Units.java:114-122 | the codes of a type are one per label, each a valid code of that type at its own offset |
| Units.GetUnits | java/src/jephem/astro/spacetime/Units.java:114-122 | an unknown type indexes past the label table; otherwise the loop returns one code per label of the type, whose label is that label, in table order |
| Units.CoordUnitType | java/src/jephem/astro/spacetime/Units.java:131-150 | defined exactly for CARTESIAN/SPHERICAL and the six coordinates, IllegalArgument otherwise; cartesian: distance then linear speed; spherical: distance, two angles, linear speed, two angular speeds |
| Units.UnitLabels | java/src/jephem/astro/spacetime/Units.java:156-158 | a row exists exactly for the four types and has as many labels as the type has codes |
| Units.UnitLabel | java/src/jephem/astro/spacetime/Units.java:166-169 | a label exists exactly for the codes that name a table entry; any other code is out of bounds |
| Units.UnitLabelOfUnitsOfType | java/src/jephem/astro/spacetime/Units.java:162-169 | the i-th code getUnits returns for a type has the i-th label of getUnitLabels for that type |
| Units.Converted | java/src/jephem/astro/spacetime/Units.java:192-226 | the specification of convertUnits: IllegalArgument on a length mismatch or on two specified units of different types, IndexOutOfBounds on an unknown unit, otherwise one value per coordinate |
| Units.CheckTypes | java/src/jephem/astro/spacetime/Units.java:201-209 | the validation loop answers true exactly when no position pairs two specified units of different types |
| Units.ConvertUnits | java/src/jephem/astro/spacetime/Units.java:192-226 | the two loops compute exactly the specification: each value scaled by the table factor, NaN where a unit is unspecified |
| Units.DiagonalIsOne | java/src/jephem/astro/spacetime/Units.java:75-103 | converting a unit into itself multiplies by 1 |
| Units.ReciprocalDistance | java/src/jephem/astro/spacetime/Units.java:77-81 | the distance table is square and entry (a, b) times entry (b, a) is 1 |
| Units.ReciprocalLinearSpeed | java/src/jephem/astro/spacetime/Units.java:83-88 | the linear-speed table is square and entry (a, b) times entry (b, a) is 1 |
| Units.ReciprocalAngular | java/src/jephem/astro/spacetime/Units.java:90-94 | the angular table is square and entry (a, b) times entry (b, a) is 1 |
| Units.ReciprocalAngularSpeed | java/src/jephem/astro/spacetime/Units.java:96-102 | the angular-speed table is square and entry (a, b) times entry (b, a) is 1 |
| Units.ReciprocalAt | java/src/jephem/astro/spacetime/Units.java:73-103 | every table has one row and one column per label and is reciprocal, table[t][a][b] * table[t][b][a] = 1 |
| Units.Reciprocal | java/src/jephem/astro/spacetime/Units.java:73 | the factor from u1 to u2 and the factor from u2 to u1 multiply to 1 |
| Units.ScaleBack | java/src/jephem/astro/spacetime/Units.java:72-73 | scaling by a factor and then by its reciprocal gives the value back |
| Units.RoundTripAt | java/src/jephem/astro/spacetime/Units.java:72-73 | one coordinate converted from u1 to u2 and back is unchanged |
| Units.ConvertSameUnits | java/src/jephem/astro/spacetime/Units.java:192-226 | converting into the same units succeeds and leaves every value whose unit is specified unchanged, the others NaN |
| Units.ConvertRoundTrip | java/src/jephem/astro/spacetime/Units.java:192-226 | with every unit specified, a successful conversion converted back gives the original values, NaN included |
| Bodies.StaticUnits.constructor | java/src/jephem/astro/Body.java:100-101 | the shared unit arrays are three fresh three-entry arrays: NO_SPECIF three times, AU three times and AU_PER_D three times |
| Bodies.PositionsInRadians | java/src/jephem/astro/Body.java:290-296 | an unspecified position unit gives IllegalArgument; otherwise the only errors are the conversion's own |
| Bodies.VelocitiesPerDay | java/src/jephem/astro/Body.java:320-331 | an unspecified velocity unit gives IllegalArgument; otherwise the only errors are the conversion's own |
| Bodies.InCommonUnit | java/src/jephem/astro/Body.java:359-373 | an unspecified unit gives IllegalArgument; three equal units keep the values and that unit; three different units end in the fallback unit |
| Bodies.ReferenceAxisToCartesian | java/src/jephem/astro/Body.java:303-314 | a point with theta = phi = 0 becomes (rho, 0, 0) |
| Bodies.Body.constructor | java/src/jephem/astro/Body.java:133-149 | index, frame and expression are stored, the unit arrays are stored by reference, and the six coordinates are in order in a fresh array |
| Bodies.Body.Create | java/src/jephem/astro/Body.java:133-149 | succeeds exactly when both unit arrays have three entries, otherwise IllegalArgument; on success the body is as the constructor states |
| Bodies.Body.OfIndex | java/src/jephem/astro/Body.java:109-112 | six zero coordinates, frame and expression NO_SPECIF, and both unit arrays the one shared NO_SPECIF array |
| Bodies.Body.GetCoord | java/src/jephem/astro/Body.java:217-223 | slot i for 0 <= i < 6, IllegalArgument for any other index |
| Bodies.Body.SetCoord | java/src/jephem/astro/Body.java:226-231 | only slot i changes for 0 <= i < 6; any other index gives IllegalArgument and changes nothing |
| Bodies.Body.SetPositionCoords | java/src/jephem/astro/Body.java:239-241 | the position becomes p and the velocity is unchanged |
| Bodies.Body.SetVelocityCoords | java/src/jephem/astro/Body.java:253-255 | the velocity becomes v and the position is unchanged |
| Bodies.Body.SetPositionUnits | java/src/jephem/astro/Body.java:191-195 | a three-entry array is stored by reference; any other length gives IllegalArgument and changes nothing |
| Bodies.Body.SetVelocityUnits | java/src/jephem/astro/Body.java:203-207 | a three-entry array is stored by reference; any other length gives IllegalArgument and changes nothing |
| Bodies.Body.SetFrame | java/src/jephem/astro/Body.java:174 | the frame becomes f |
| Bodies.Body.SetCoordinateExpression | java/src/jephem/astro/Body.java:183 | the coordinate expression becomes e |
| Bodies.Body.DoClone | java/src/jephem/astro/Body.java:275-278 | a fresh body with the same index, frame, expression and coordinates in a fresh array; it shares both unit arrays and carries no computation exception |
| Bodies.Body.RadiansOfPositions | java/src/jephem/astro/Body.java:290-296 | the position step of sphereToCart is the conversion to {unit 0, RAD, RAD} of the current position |
| Bodies.Body.PerDayOfVelocities | java/src/jephem/astro/Body.java:320-331 | the velocity step of sphereToCart is the conversion to {AU_PER_D, RAD_PER_DAY, RAD_PER_DAY} of the current velocity |
| Bodies.Body.ToCommonUnit | java/src/jephem/astro/Body.java:359-373 | the array-based unit step agrees with InCommonUnit on the array's contents |
| Bodies.Body.SphereToCart | java/src/jephem/astro/Body.java:287-343 | nothing changes unless the body is SPHERICAL. Otherwise the position becomes cartesian, and position units 1 and 2 are overwritten in place with unit 0, which an aliased velocity array sees. With velocities these are converted and the body takes the shared AUD_AUD_AUD array. Each error path is stated, including the partial update it leaves |
| Bodies.Body.CartToSphere | java/src/jephem/astro/Body.java:354-487 | nothing changes unless the body is CARTESIAN. Otherwise it ends SPHERICAL with position units {u, RAD, RAD} and, with velocities, {v, RAD_PER_DAY, RAD_PER_DAY}, both in new arrays. The coordinates are the stated formulas. Each error path is stated, including the new positions a velocity failure leaves |
| Bodies.Body.PositionsToSphere | java/src/jephem/astro/Body.java:359-393 | the result is InCommonUnit of the old position; on success the position is (rho, theta, phi) of it with units {u, RAD, RAD}; the velocity never changes |
| Bodies.Body.VelocitiesToSphere | java/src/jephem/astro/Body.java:397-484 | the velocity is brought to a common unit, the position is aligned to its distance unit, and the derivatives are divided according to the first original velocity unit; the units become {v, RAD_PER_DAY, RAD_PER_DAY}; the position is untouched |
| Bsc5.DataLabelAsWritten | java/src/jephem/astro/sky/BSC5.java:110-115 | as written: defined exactly for codes 0..7 and 100..107, IndexOutOfBounds otherwise, and double code 100 + k gets the label of string code k |
| Bsc5.DataLabelAsWrittenConfusesCodes | java/src/jephem/astro/sky/BSC5.java:110-115 | as written, RA is labelled "BSC number" like BSC, and DEC is labelled "HD number" |
| Bsc5.DataLabel | java/src/jephem/astro/sky/BSC5.java:91-92 | intended: the string codes take the first four labels and the double codes RA..PAR the last four; defined exactly for 0..7 and 100..103 |
| Bsc5.DataLabelsDistinct | java/src/jephem/astro/sky/BSC5.java:66-92 | with the intended labels the eight data codes have eight pairwise different labels, and RA is "ra" |
| Bsc5.Trim | java/src/jephem/astro/sky/BSC5.java:186-189 | String.trim: the result is no longer than s, starts and ends with a non-blank, and is empty exactly when s is all blanks |
| Bsc5.FieldsTileLine | java/src/jephem/astro/sky/BSC5.java:181-189 | the eight column ranges concatenate back to the line, with widths 4, 6, 6, 8, 9, 5, 20 and the rest |
| Bsc5.ParseLine | java/src/jephem/astro/sky/BSC5.java:180-190 | a line yields a star exactly when it has at least 58 characters and its trimmed numbers parse. The star holds BSC, HD, SAO and type untrimmed, and RA, DEC and magnitude parsed. A blank parallax reads as 0 |
| Bsc5.Catalog.constructor | java/src/jephem/astro/sky/BSC5.java:37-43 | before any call there is no data path, nothing is loaded, and the program has not halted |
| Bsc5.Catalog.SetDataPath | java/src/jephem/astro/sky/BSC5.java:102-104 | the data path becomes path and nothing else changes |
| Bsc5.Catalog.StoreStar | java/src/jephem/astro/sky/BSC5.java:148-157 | one loop pass appends the star and writes it into row i of both tables, keeping every earlier row |
| Bsc5.Catalog.LoadData | java/src/jephem/astro/sky/BSC5.java:163-204 | without a path the program halts and the flag stays. Otherwise the flag is set first. The load succeeds exactly when the file opens and its first NB_STARS lines all parse, and then star i is line i parsed. Any failure halts |
| Bsc5.Catalog.GetStringData | java/src/jephem/astro/sky/BSC5.java:121-128 | loads on first access. Unless halted it answers exactly for codes 0..3 and indexes 0..NB_STARS-1, with the star's text field, and gives IllegalArgument otherwise. Once loaded, nothing changes |
| Bsc5.Catalog.GetDoubleData | java/src/jephem/astro/sky/BSC5.java:134-141 | as GetStringData, for codes RA..PAR and the star's numeric field |
| Curves.CheckData | java/src/jephem/tools/Curve.java:92-98 | succeeds exactly when there are at least two rows, all as long as row 0; IllegalArgument otherwise |
| Curves.Least | java/src/jephem/tools/Curve.java:320-325 | Maths.min of a non-empty row is one of its elements and no element is smaller |
| Curves.Greatest | java/src/jephem/tools/Curve.java:321-326 | Maths.max of a non-empty row is one of its elements and no element is larger |
| Curves.CurvesRange | java/src/jephem/tools/Curve.java:323-332 | the Y bounds enclose every value of every curve (rows 1 and up), and each bound is a value of some curve |
| Curves.Curve.constructor | java/src/jephem/tools/Curve.java:90-123 | for rectangular data, the data and the counts nbX = |row 0| and nbY = rows - 1 are stored. With nbX > 0 the bounds hold every value and the gaps and axis spaces are 10 and 30. With empty rows, calcMinMaxAndDeltas throws and the try block leaves bounds and gaps at 0 |
| Curves.Curve.CalcMinMaxAndDeltas | java/src/jephem/tools/Curve.java:319-339 | with values, the X bounds are row 0's least and greatest, the Y bounds enclose all curves, and the deltas are max - min; with empty rows, IndexOutOfBounds and nothing changes |
| Curves.Curve.SetData | java/src/jephem/tools/Curve.java:200-215 | non-rectangular data gives IllegalArgument and changes nothing; otherwise the data and counts are replaced and the bounds recomputed; the layout is kept |
| Curves.Curve.GetAllY | java/src/jephem/tools/Curve.java:179-185 | the nbY curves without the X row, in order, each with nbX values |
| Curves.Curve.GetY | java/src/jephem/tools/Curve.java:161 | defined exactly for 0 <= whichY <= nbY, IndexOutOfBounds otherwise; the row has nbX values and is a curve when whichY > 0 |
| Curves.DataToPixel | java/src/jephem/tools/Curve.java:275-292 | each pixel coordinate is defined exactly when its delta is non-zero; the division by zero is the undefined case |
| Curves.PixelToData | java/src/jephem/tools/Curve.java:296-313 | each data coordinate is defined exactly when the display leaves room between its gaps |
| Curves.DataToPixelCorners | java/src/jephem/tools/Curve.java:275-292 | (xMin, yMin) goes to the bottom-left corner (lg, h - bg) inside the gaps and (xMax, yMax) to the top-right corner (w - rg, ug) |
| Curves.PixelDataRoundTrip | java/src/jephem/tools/Curve.java:275-313 | pixelToData undoes dataToPixel and dataToPixel undoes pixelToData whenever both deltas and both display spans are non-zero |
| Ephemerides.InstantStates | java/src/jephem/tools/Ephemeris.java:429-440 | one instant: the engine is written into the shared setting; on success a fresh context, working at jd (converted to TT when given in UTC) and built with the body indexes, was computed, and state b read back is the state of that context's first body of index bodyIndexes[b]; with JEphem's own engines every state of the context is in the requested frame and units |
| Ephemerides.Compute | java/src/jephem/tools/Ephemeris.java:431-432 | the shared setting holds the engine afterwards; after calcBodyCoords succeeds with an engine of JEphem's own, every body of the context is in the requested frame and units |
| Ephemerides.FirstPosition | java/src/jephem/tools/Ephemeris.java:436 | getBody finds the first occurrence: the position holds the index and no earlier position does |
| Ephemerides.FirstPositionUnique | java/src/jephem/tools/Ephemeris.java:436 | the first occurrence is the only position that holds the index with none before it |
| Ephemerides.ReadStates | java/src/jephem/tools/Ephemeris.java:433-440 | one state per index, in order, each the state of the first body with that index; all finalised when the context is |
| Ephemerides.ReadingOf | java/src/jephem/tools/Ephemeris.java:433-440 | the states getBody reads back are, index by index, the states of the context's first body of each index, and they are finalised when the whole context is |
| Ephemerides.StateOf | java/src/jephem/tools/Ephemeris.java:436 | getBody(index) read back is the state of the first body with that index |
| Ephemerides.CoordOfState | java/src/jephem/tools/Ephemeris.java:436 | coordinate c of a body's state is getCoord(c) of the body |
| Ephemerides.RowErrorsMembers | java/src/jephem/tools/Ephemeris.java:438-442 | the errors one instant contributes are exactly the computation exceptions its bodies carry |
| Ephemerides.CollectedErrors | java/src/jephem/tools/Ephemeris.java:438-442 | nothing is collected when errors are not to be displayed |
| Ephemerides.CollectedErrorsMembers | java/src/jephem/tools/Ephemeris.java:426-445 | when displayed, the errors collected are exactly those carried by some body at some instant |
| Ephemerides.CollectedErrorsAppend | java/src/jephem/tools/Ephemeris.java:426-445 | each further instant appends its errors after those of the earlier instants |
| Ephemerides.CompareAsWritten | java/src/jephem/tools/Ephemeris.java:468-484 | as written the comparator answers only -1 or 1, never 0 |
| Ephemerides.CompareAsWrittenNotAntisymmetric | java/src/jephem/tools/Ephemeris.java:479-480 | as written an error compares greater than itself, so compare(c, c) != -compare(c, c) |
| Ephemerides.Compare | java/src/jephem/tools/Ephemeris.java:468-484 | corrected: -1 exactly when the first error comes before the second by (body index, error type, TT day), 1 exactly when after, 0 exactly when equal |
| Ephemerides.CompareIsTotalOrder | java/src/jephem/tools/Ephemeris.java:468-484 | the corrected comparator is antisymmetric and transitive |
| Ephemerides.CompareAgreesOnDistinct | java/src/jephem/tools/Ephemeris.java:468-484 | on two different errors the corrected and as-written comparators agree |
| Ephemerides.Insert | java/src/jephem/tools/Ephemeris.java:487 | inserting into an ordered list keeps it ordered and adds exactly that error |
| Ephemerides.SortErrors | java/src/jephem/tools/Ephemeris.java:487 | Collections.sort gives an ordered permutation of the collected errors |
| Ephemerides.TableShape | java/src/jephem/tools/Ephemeris.java:304-336 | instants in rows gives nbJDs x nbBodies, instants in columns gives nbBodies x nbJDs, and any other orientation gives IllegalArgument |
| Ephemerides.CopyOf | java/src/jephem/tools/Ephemeris.java:188 | Integers.copyFrom gives a fresh array with the same elements |
| Ephemerides.Ephemeris.constructor | java/src/jephem/tools/Ephemeris.java:188-202 | the body indexes are copied, the other arrays and settings are kept as given, and the table is all zeros, with no rows read and no errors |
| Ephemerides.Ephemeris.Create | java/src/jephem/tools/Ephemeris.java:164-206 | no body, no instant, or a coordinate count outside 1..6 gives IllegalArgument; otherwise the shared setting ends with the ephemeris' engine. The result keeps every argument (the body indexes as a copy). Cell (j, b, c) of each instant filled is coordinate whichCoords[c] of the first body of index bodyIndexes[b] in a context built for jds[j], later instants are 0, and the table is partial exactly when an AstroException stopped the fill. An AstroException never reaches the caller |
| Ephemerides.Ephemeris.FillData | java/src/jephem/tools/Ephemeris.java:409-451 | the instants are filled in order, row j from the context built for jds[j], column b from its first body of index bodyIndexes[b]. An AstroException ends the fill normally, leaving later instants at 0, and the table is partial exactly then. Any other failure is returned. Every state read back is finalised unless the engine is the Swiss Ephemeris |
| Ephemerides.Ephemeris.ComputeInstant | java/src/jephem/tools/Ephemeris.java:429-440 | the states of instant j, state b being that of the first body of index bodyIndexes[b] in a context working at jds[j] in the ephemeris' time frame; finalised with JEphem's own engines; the table is untouched |
| Ephemerides.Ephemeris.StoreInstant | java/src/jephem/tools/Ephemeris.java:433-443 | succeeds exactly when every requested coordinate index is in 0..5, else IllegalArgument; on success the row and the context reading it came from are appended, and the table invariant holds |
| Ephemerides.Ephemeris.StoreRow | java/src/jephem/tools/Ephemeris.java:433-443 | row j gets each body's requested coordinates and only row j changes; the body errors are appended in order when displayed |
| Ephemerides.Ephemeris.StoreBody | java/src/jephem/tools/Ephemeris.java:434-442 | cell (j, b) gets the requested coordinates of the state, its error is appended when displayed and present, and no other cell changes |
| Ephemerides.Ephemeris.StoreCoords | java/src/jephem/tools/Ephemeris.java:434-437 | succeeds exactly when every coordinate index is in 0..5; then cell (j, b, c) is coordinate whichCoords[c] of the state; no other cell changes |
| Ephemerides.Ephemeris.Cell | java/src/jephem/tools/Ephemeris.java:364-367 | a bad orientation gives IllegalArgument; otherwise a value exactly inside the table's shape |
| Ephemerides.Ephemeris.CellTransposed | java/src/jephem/tools/Ephemeris.java:364-367 | the two orientations show the same table transposed |
| Ephemerides.Ephemeris.CellShowsState | java/src/jephem/tools/Ephemeris.java:364-367 | with instants in rows, cell (j, b) shows coordinate c of body b as read back at instant j |
| MeanTrues.Radians | java/src/jephem/astro/MeanTrue.java:128-130 | an angle of 0 arc seconds is 0 radians |
| MeanTrues.PowersOf | java/src/jephem/astro/MeanTrue.java:106-117 | t1 is the date minus the fixed epoch in Julian millennia. At the J2000 fixed epoch the T powers keep Java's default 0; otherwise T1 is the fixed epoch minus J2000 in millennia |
| MeanTrues.ShortIsGeneralAtJ2000 | java/src/jephem/astro/MeanTrue.java:225-466 | for each of the twelve precession quantities, the J2000 short series equals the general series when all T powers are 0 |
| MeanTrues.ShortcutIsTransparent | java/src/jephem/astro/MeanTrue.java:106-117 | whatever the fixed epoch, the stored quantity is the general series at the constructor's powers, so the J2000 shortcut changes no value |
| MeanTrues.DateAtFixedEpoch | java/src/jephem/astro/MeanTrue.java:322-426 | when the date is the fixed epoch, theta_a, zeta_a and z_a are 0 and epsilon_a equals omega_a |
| MeanTrues.ObliquityAtJ2000 | java/src/jephem/astro/MeanTrue.java:385-426 | at date = fixed epoch = J2000, epsilon_a = omega_a = 84381.412 arc seconds |
| MeanTrues.ReferenceTableIsUncorrected | java/src/jephem/astro/MeanTrue.java:559-580 | the series without the 1992 IERS correction terms reproduce each of the twelve values of the reference table to its printed precision |
| MeanTrues.CorrectedValuesLeaveTheTable | java/src/jephem/astro/MeanTrue.java:281-405 | with the correction terms, as the source computes them, PI_a and epsilon_a fall outside the printed precision of the reference table |
| MeanTrues.PrecessionAtZero | java/src/jephem/astro/MeanTrue.java:127-153 | with theta_a = zeta_a = z_a = 0 the precession matrix is the identity |
| MeanTrues.NutationAtZero | java/src/jephem/astro/MeanTrue.java:159-186 | with deltaPsi = deltaEpsilon = 0 the nutation matrix is the identity, whatever epsilon_a |
| MeanTrues.TrueEqToEcIsRotation | java/src/jephem/astro/MeanTrue.java:192-205 | the ecliptic matrix fixes the first axis, and its lower 2x2 block has orthonormal rows and determinant 1 |
| MeanTrues.MeanTrue.constructor | java/src/jephem/astro/MeanTrue.java:106-117 | the date and the powers of the date and fixed epoch are stored, fix2000 holds exactly at J2000, and no quantity is flagged |
| MeanTrues.MeanTrue.GetQuantity | java/src/jephem/astro/MeanTrue.java:212-491 | an index outside 0..13 gives IllegalArgument. Otherwise the quantity is computed once and served from the table afterwards. A precession quantity fills only its own slot. deltaPsi and deltaEpsilon are filled and flagged together, with 0, because the nutation series writes into by-value parameters |
| MeanTrues.MeanTrue.GetEqPrecessionMatrix | java/src/jephem/astro/MeanTrue.java:127-153 | the precession matrix of theta_a, zeta_a and z_a converted from arc seconds to radians |
| MeanTrues.MeanTrue.GetEqNutationMatrix | java/src/jephem/astro/MeanTrue.java:159-186 | the nutation matrix of the stored quantities in radians, which is the identity since deltaPsi = deltaEpsilon = 0 |
| MeanTrues.MeanTrue.GetTrueEqToEcMatrix | java/src/jephem/astro/MeanTrue.java:192-205 | the rotation about the first axis by epsilon_a + deltaEpsilon, fed to cos and sin in arc seconds without conversion, as written |
| SkyMapBases.JavaDiv | java/src/jephem/tools/SkyMapBase.java:205 | Java's int division: the Euclidean quotient for a non-negative dividend, truncated toward zero for a negative one |
| SkyMapBases.Truncate | java/src/jephem/tools/SkyMapBase.java:207 | the (int) cast truncates toward zero: the result is within one unit of z, on zero's side |
| SkyMapBases.BaseRadius | java/src/jephem/tools/SkyMapBase.java:204-206 | the zoom-1 radius is never negative, and when positive its diameter fits both panel sides |
| SkyMapBases.SmallZoomHasNoDisk | java/src/jephem/tools/SkyMapBase.java:207 | as written, the cast applies to the zoom alone, so any zoom strictly between -1 and 1 gives radius 0 |
| SkyMapBases.RadiusFits | java/src/jephem/tools/SkyMapBase.java:200-208 | a non-negative zoom gives floor(zoom) times the zoom-1 radius; between 1 and 2 that disk fits the panel |
| SkyMapBases.RadiusMonotonic | java/src/jephem/tools/SkyMapBase.java:207 | a larger non-negative zoom never gives a smaller disk |
| SkyMapBases.HalfZoomLosesDisk | java/src/jephem/tools/SkyMapBase.java:207 | at zoom 0.5 on a 100 x 100 panel the radius as written is 0, and 25 with the cast on the product |
| SkyMapBases.RadiusIntendedScales | java/src/jephem/tools/SkyMapBase.java:207 | with the cast on the product, the radius is zoom * r0 to within one pixel. A disk remains whenever zoom * r0 >= 1, and the radius grows with the zoom |
| SkyMapBases.RotationMatrix | java/src/jephem/tools/SkyMapBase.java:123-132 | a rotation exists exactly for the axes X, Y and Z |
| SkyMapBases.CartesianCoords | java/src/jephem/tools/SkyMapBase.java:217-224 | getCartesianCoords gives three defined (non-NaN) coordinates |
| SkyMapBases.CartesianCoordsUnit | java/src/jephem/tools/SkyMapBase.java:217-224 | the vector at longitude theta and latitude phi has norm 1 |
| SkyMapBases.ScreenToPixel | java/src/jephem/tools/SkyMapBase.java:273-277 | the pixel point lies in the plane z = 0 |
| SkyMapBases.PixelToScreen | java/src/jephem/tools/SkyMapBase.java:283-287 | the screen point lies in the plane z = 0, and a zero radius gives non-finite x and y |
| SkyMapBases.PixelScreenRoundTrip | java/src/jephem/tools/SkyMapBase.java:273-287 | for a non-zero radius, pixelToScreen undoes screenToPixel on the screen plane exactly when both panel sides are even; an odd side, halved as an int one way and as a double the other, leaves the point off |
| SkyMapBases.SkyMapBase.constructor | java/src/jephem/tools/SkyMapBase.java:80-93 | zoom 1, the equatorial frame, the identity turned by -90 degrees about X, and eye orientation (0, 0) |
| SkyMapBases.SkyMapBase.SetEyeMatrix | java/src/jephem/tools/SkyMapBase.java:103 | the eye matrix becomes the argument and nothing else changes |
| SkyMapBases.SkyMapBase.SetZoom | java/src/jephem/tools/SkyMapBase.java:109-112 | the zoom changes and the radius does not until the next calcRHW |
| SkyMapBases.SkyMapBase.RotateEye | java/src/jephem/tools/SkyMapBase.java:119-136 | for X, Y or Z the rotation by the increment converted from degrees is applied on the left of the eye matrix; any other axis gives IllegalArgument and changes nothing |
| SkyMapBases.SkyMapBase.SetEyeOrientation | java/src/jephem/tools/SkyMapBase.java:143-147 | the degree arguments are stored in radians, so converting back gives them unchanged; nothing else changes |
| SkyMapBases.SkyMapBase.CalcRHW | java/src/jephem/tools/SkyMapBase.java:200-208 | the panel size is recorded and the radius is the as-written Radius for the current zoom |
| SkyMaps.Slot | java/src/jephem/tools/SkyMap.java:168-176 | a frame's slot, when it has one, is one of 0..3 |
| SkyMaps.SlotsOneToOne | java/src/jephem/tools/SkyMap.java:168-176 | exactly the horizontal, equatorial, ecliptic and galactic frames have a slot, and no two share one |
| SkyMaps.NextGrid | java/src/jephem/tools/SkyMap.java:196-204 | changeGridDisplay moves exactly the three known modes; any other value stays |
| SkyMaps.NextGridCycle | java/src/jephem/tools/SkyMap.java:196-204 | three changes bring every mode back, and two never do for a known mode |
| SkyMaps.Bsc5Path | java/src/jephem/tools/SkyMap.java:86 | the catalogue path starts with the data directory and ends with "BSC5"; its length is the directory's plus three separators plus 12 characters |
| SkyMaps.SkyMap.GridDisplay | java/src/jephem/tools/SkyMap.java:168-176 | defined exactly for the four grid frames, IllegalArgument otherwise |
| SkyMaps.SkyMap.GridInterval | java/src/jephem/tools/SkyMap.java:211-219 | defined exactly for the four grid frames, with the stored radians returned in degrees; IllegalArgument otherwise |
| SkyMaps.SkyMap.constructor | java/src/jephem/tools/SkyMap.java:83-110 | the catalogue path is set. Grids are NONE, FULL, PLANE, NONE with intervals 30, 10, 10 and 30 degrees for the horizontal, equatorial, ecliptic and galactic frames. Abbreviations and boundaries are shown and lines hidden |
| SkyMaps.SkyMap.SetGridDisplay | java/src/jephem/tools/SkyMap.java:184-192 | only the frame's slot takes the mode; any other frame gives IllegalArgument and changes nothing |
| SkyMaps.SkyMap.ChangeGridDisplay | java/src/jephem/tools/SkyMap.java:196-204 | the frame's mode moves one step along NONE, PLANE, FULL and the other frames keep theirs; any other frame gives IllegalArgument |
| SkyMaps.SkyMap.SetGridInterval | java/src/jephem/tools/SkyMap.java:227-235 | only the frame's slot changes, stored in radians, so getGridInterval then returns the degrees given; any other frame gives IllegalArgument and changes nothing |
| SkyMaps.SkyMap.SetDisplayAbbreviations | java/src/jephem/tools/SkyMap.java:124-127 | the abbreviation flag becomes b and the other two flags stay |
| SkyMaps.SkyMap.ChangeDisplayAbbreviations | java/src/jephem/tools/SkyMap.java:129-132 | the abbreviation flag flips and the other two flags stay |
| SkyMaps.SkyMap.SetDisplayLines | java/src/jephem/tools/SkyMap.java:138-141 | the lines flag becomes b and the other two flags stay |
| SkyMaps.SkyMap.ChangeDisplayLines | java/src/jephem/tools/SkyMap.java:143-146 | the lines flag flips and the other two flags stay |
| SkyMaps.SkyMap.SetDisplayBoundaries | java/src/jephem/tools/SkyMap.java:152-155 | the boundaries flag becomes b and the other two flags stay |
| SkyMaps.SkyMap.ChangeDisplayBoundaries | java/src/jephem/tools/SkyMap.java:157-160 | the boundaries flag flips and the other two flags stay |
| SkyMapViewers.ZoomStepsKeepPositive | java/src/jephem/gui/SkyMapViewer.java:183-200 | zooming in strictly enlarges a positive zoom, zooming out strictly shrinks it, and both keep it positive |
| SkyMapViewers.ZoomInThenOut | java/src/jephem/gui/SkyMapViewer.java:183-200 | out after in restores the zoom exactly when it is not strictly between 0.5 and 1 |
| SkyMapViewers.ZoomOutThenIn | java/src/jephem/gui/SkyMapViewer.java:183-200 | in after out restores the zoom exactly when it is not strictly between 1 and 2 |
| SkyMapViewers.ZoomStepsKeepWholeZooms | java/src/jephem/gui/SkyMapViewer.java:183-200 | from a whole zoom n >= 1, in gives n + 1 and out gives n - 1, or 0.5 from 1 |
| SkyMapViewers.MoveAngle | java/src/jephem/gui/SkyMapViewer.java:203-215 | the move turns by plus or minus the increment, positive exactly for PLUS, unless the increment is 0 |
| SkyMapViewers.SkyMapViewer.constructor | java/src/jephem/gui/SkyMapViewer.java:65-72 | a new sky map whose catalogue path is set; the viewer's zoom is the map's, 1, and the increment is 10 degrees |
| SkyMapViewers.SkyMapViewer.ZoomInClicked | java/src/jephem/gui/SkyMapViewer.java:183-190 | the zoom takes one step in and is pushed to the map; the eye and radius are unchanged |
| SkyMapViewers.SkyMapViewer.ZoomOutClicked | java/src/jephem/gui/SkyMapViewer.java:193-200 | the zoom takes one step out and is pushed to the map; the eye and radius are unchanged |
| SkyMapViewers.SkyMapViewer.MoveClicked | java/src/jephem/gui/SkyMapViewer.java:203-215 | for X, Y or Z the eye turns by the signed increment; any other axis gives IllegalArgument and leaves the eye; the zoom stays |
| SkyMapViewers.SkyMapViewer.ConstellationClicked | java/src/jephem/gui/SkyMapViewer.java:218-235 | exactly the chosen flag flips; any other choice changes nothing |
| SkyMapViewers.SkyMapViewer.GridClicked | java/src/jephem/gui/SkyMapViewer.java:238-246 | the frame's grid mode takes one step and the other frames keep theirs; a frame without a grid gives IllegalArgument |
| NewEphemerisDialogs.SelectedIsCheckedPositions | java/src/jephem/gui/NewEphemerisDialog.java:871-880 | the selection lists exactly the checked positions, each in range, in strictly increasing order |
| NewEphemerisDialogs.SelectedPrefix | java/src/jephem/gui/NewEphemerisDialog.java:874-879 | the selection among the first i boxes is a prefix of the whole selection, so the second pass only appends |
| NewEphemerisDialogs.CountChecked | java/src/jephem/gui/NewEphemerisDialog.java:1015-1018 | the first pass counts exactly the checked boxes |
| NewEphemerisDialogs.SelectedIndexes | java/src/jephem/gui/NewEphemerisDialog.java:871-880 | the two passes produce a fresh array holding the selection |
| NewEphemerisDialogs.ShownBodiesFollowSelection | java/src/jephem/gui/NewEphemerisDialog.java:1016-1035 | one body per checked box; the k-th body is the entry of the k-th checked box, with the Sun/Earth entry resolved by the frame |
| NewEphemerisDialogs.CentreNeverRequested | java/src/jephem/gui/NewEphemerisDialog.java:1024-1029 | the Sun is never requested in the theory or heliocentric frame, and the Earth never in any other frame |
| NewEphemerisDialogs.IntervalKeepsSign | java/src/jephem/gui/NewEphemerisDialog.java:1081-1090 | converting 'display every' to days keeps its sign: positive exactly when positive, zero exactly when zero |
| NewEphemerisDialogs.IntervalUnitsAgree | java/src/jephem/gui/NewEphemerisDialog.java:1081-1090 | the factors agree: 60 seconds is a minute, 60 minutes an hour, 24 hours a day, 7 days a week |
| NewEphemerisDialogs.Ceil | java/src/jephem/gui/NewEphemerisDialog.java:1132 | Math.ceil then the int cast gives the least integer not below x |
| NewEphemerisDialogs.GridCoversRange | java/src/jephem/gui/NewEphemerisDialog.java:1126-1132 | for a positive interval and an end after the beginning, there is at least one instant. The last instant is before the end, and one more step reaches or passes it |
| NewEphemerisDialogs.Instants | java/src/jephem/gui/NewEphemerisDialog.java:1153-1157 | a count of 0 becomes 1 and a negative count gives NegativeArraySize; otherwise instant i is the beginning plus i intervals |
| NewEphemerisDialogs.GridIsEvenlySpaced | java/src/jephem/gui/NewEphemerisDialog.java:1155-1157 | instants k and i lie k - i intervals apart, so a positive interval makes the grid strictly increasing |
| NewEphemerisDialogs.UnitOf | java/src/jephem/gui/NewEphemerisDialog.java:1187-1191 | an index off the unit list is IndexOutOfBounds |
| NewEphemerisDialogs.UnitOfHasCoordType | java/src/jephem/gui/NewEphemerisDialog.java:1187-1191 | a unit is found exactly when the index is on the list of the coordinate's unit type; it is then a real unit of that type, never NO_SPECIF |
| NewEphemerisDialogs.SelectedUnit | java/src/jephem/gui/NewEphemerisDialog.java:1187-1191 | getUnits of the coordinate's unit type, indexed by the list choice, is UnitOf |
| NewEphemerisDialogs.UnitEntrySpecified | java/src/jephem/gui/NewEphemerisDialog.java:1183-1196 | a recorded unit is NO_SPECIF exactly for an unchecked box, and otherwise a unit of the coordinate's type |
| NewEphemerisDialogs.UnitsSoFarComplete | java/src/jephem/gui/NewEphemerisDialog.java:1183-1196 | once the six boxes are done, every checked box found its unit and the arrays are those the listener records |
| NewEphemerisDialogs.CoordsFitDescribesSelection | java/src/jephem/gui/NewEphemerisDialog.java:1166-1196 | the coordinates handed on are exactly the checked indexes, strictly increasing and among the six. coordUnits holds a unit of the coordinate's type exactly at the checked boxes |
| NewEphemerisDialogs.FirstDefectIsFirst | java/src/jephem/gui/NewEphemerisDialog.java:1041-1209 | the warning shown is a real defect of the form, and no defect checked earlier is present. No warning means the form has no defect. The date tab warns exactly when one of its eight defects is present |
| NewEphemerisDialogs.DateFields | java/src/jephem/gui/NewEphemerisDialog.java:1037-1151 | stops exactly on a date-tab defect, with that warning; otherwise returns the begin date, the interval in days and the count |
| NewEphemerisDialogs.DateGrid | java/src/jephem/gui/NewEphemerisDialog.java:1037-1157 | warns exactly on a date-tab defect. It fails with NegativeArraySize exactly when the accepted count is negative. Otherwise the instants are evenly spaced from the beginning, with count 0 giving one instant |
| NewEphemerisDialogs.NegativeIntervalPassesChecks | java/src/jephem/gui/NewEphemerisDialog.java:1064-1090 | a 'display every' of -1 day from day 0 to day 2 passes the checks as written and asks for -2 instants; the intended checks refuse it with the 'display every' warning |
| NewEphemerisDialogs.NegativeCountPassesChecks | java/src/jephem/gui/NewEphemerisDialog.java:1105-1118 | a number of dates of -3 passes the checks as written; the intended checks refuse it |
| NewEphemerisDialogs.DateChecksIntended | java/src/jephem/gui/NewEphemerisDialog.java:1064-1157 | the intended checks keep every written warning and refuse exactly the forms the written ones accept with a negative count, blaming a field that is negative. A form they accept has a count of at least 0. In end-date mode its grid either steps forward and brackets the end date, or steps backward and has count 0, which becomes one instant |
| NewEphemerisDialogs.BackwardRange | java/src/jephem/gui/NewEphemerisDialog.java:1124-1132 | with the end date after the begin date and a negative interval, the ceiling count is at most 0 |
| NewEphemerisDialogs.CoordsAndUnits | java/src/jephem/gui/NewEphemerisDialog.java:1178-1196 | succeeds exactly when every checked box's unit index is on its list, otherwise IndexOutOfBounds. On success, fresh arrays holding the checked coordinates and their units |
| NewEphemerisDialogs.FillCoords | java/src/jephem/gui/NewEphemerisDialog.java:1181-1196 | fills whichCoords with the selection and coordUnits box by box, stopping with IndexOutOfBounds exactly when a checked unit index is off its list |
| NewEphemerisDialogs.NewEphemerisDialog.StoreLastValues | java/src/jephem/gui/NewEphemerisDialog.java:871-946 | the remembered planets and coordinates are the positions of the checked boxes |
| NewEphemerisDialogs.NewEphemerisDialog.BodyIndexes | java/src/jephem/gui/NewEphemerisDialog.java:1014-1035 | a fresh array with one body per checked planet, Sun/Earth resolved by the frame |
| NewEphemerisDialogs.NewEphemerisDialog.FillBodies | java/src/jephem/gui/NewEphemerisDialog.java:1020-1035 | the second pass writes exactly those bodies |
| NewEphemerisDialogs.NewEphemerisDialog.OK | java/src/jephem/gui/NewEphemerisDialog.java:1011-1235 | a frame index off the list is IndexOutOfBounds. A warning is the first defect of the form. An ephemeris request is built exactly when there is no defect, the count is not negative and every unit index is on its list. The request then carries the chosen frame, the resolved bodies, the instant grid, the coordinates with their units and the display options |
| NewEphemerisDialogs.NewEphemerisDialog.Assemble | java/src/jephem/gui/NewEphemerisDialog.java:1092-1235 | warns exactly when the precision does not parse. Otherwise the request joins the given parts to the options as chosen; an engine choice other than 0 or 1 leaves the engine null |
| NewEphemerisDialogs.NewEphemerisDialog.CoordinateTab | java/src/jephem/gui/NewEphemerisDialog.java:1166-1196 | warns NoCoordinate exactly when no box is checked. It fails with IndexOutOfBounds exactly when a checked unit index is off its list. Otherwise it builds whichCoords and coordUnits |
| AstroContexts.LightTimeAsWrittenTooShort | java/src/jephem/astro/AstroContext.java:286-287 | as written, light crosses one AU in under a second of the day, 1000 times faster than with the speed of light in km/s |
| AstroContexts.LightTimeOverOneAu | java/src/jephem/astro/AstroContext.java:286-287 | with the speed of light in km/s, light crosses one AU in between 499 and 499.01 seconds |
| AstroContexts.LightTimeLinear | java/src/jephem/astro/AstroContext.java:304-306 | the light time, both as written and with the corrected divisor, is proportional to the distance |
| AstroContexts.EngineSetting.constructor | java/src/jephem/astro/AstroContext.java:62 | the static engine name starts null |
| AstroContexts.LastMoonIsLast | java/src/jephem/astro/AstroContext.java:103-107 | the Moon's position is NO_SPECIF exactly when no index is MOON; otherwise it holds a MOON and no later position does |
| AstroContexts.PlanShape | java/src/jephem/astro/AstroContext.java:170-440 | a run finalises exactly for the frames with a return, as its last stage. Precession runs for every frame except the theory frame and a non-empty heliocentric one. Any other frame runs through the ecliptic rotation and fails |
| AstroContexts.ExpressionAfter | java/src/jephem/astro/AstroContext.java:477-483 | a body ends SPHERICAL exactly when it was SPHERICAL or spherical output was asked of a CARTESIAN body; only CARTESIAN changes, to SPHERICAL |
| AstroContexts.FinalizedInOwnUnits | java/src/jephem/astro/AstroContext.java:489-518 | converting a body to the units it already has leaves its coordinates unchanged |
| AstroContexts.ConvertPosition | java/src/jephem/astro/AstroContext.java:490-495 | the position becomes its conversion to units[0..2] with new units copied from them; a failed conversion is returned and the velocity stays |
| AstroContexts.ConvertVelocity | java/src/jephem/astro/AstroContext.java:512-517 | the velocity becomes its conversion to units[3..5] with new units copied from them; a failed conversion is returned and the position stays |
| AstroContexts.ConvertBody | java/src/jephem/astro/AstroContext.java:489-518 | the position, and with velocities the velocity, become their conversions. A units list too short for what is read is IndexOutOfBounds; without velocities the velocity units stay |
| AstroContexts.AstroContext.constructor | java/src/jephem/astro/AstroContext.java:94-108 | a UTC day is converted to TT, other time frames kept. One new body per index, in order, with nothing specified and zero coordinates. The Moon's position is the last MOON |
| AstroContexts.AstroContext.GetBody | java/src/jephem/astro/AstroContext.java:132-138 | null exactly when no body has the index, otherwise the first body with it |
| AstroContexts.AstroContext.MoonStage | java/src/jephem/astro/AstroContext.java:527-536 | the Moon's body takes the state ELP82 gives at the context's day, or the ELP82 failure is returned |
| AstroContexts.AstroContext.TheoryFor | java/src/jephem/astro/AstroContext.java:216-238 | the Sun is put at rest at the origin in the theory frame, the Moon is kept and the Earth becomes a clone of the geometric Earth. Any other body takes the state Pluto99 or VSOP87 gives, or their failure is returned |
| AstroContexts.AstroContext.TheoryStage | java/src/jephem/astro/AstroContext.java:216-239 | each body in turn through TheoryFor, stopping at the first failing evaluation |
| AstroContexts.AstroContext.LightTimeFor | java/src/jephem/astro/AstroContext.java:291-315 | the Sun and Moon are kept and the Earth becomes the apparent Earth. Any other planet is evaluated again one light time earlier, the light time taken over its distance to the geometric Earth with the divisor as written (`LightDays`, `LIGHT_VELOCITY` = 299792458); a failure is returned |
| AstroContexts.AstroContext.LightTimeStage | java/src/jephem/astro/AstroContext.java:291-316 | succeeds exactly when every body's light-time evaluation (`LightTimeResult`, with the as-written light time) does, each body then holding that result: Sun and Moon unchanged, the Earth a clone of the apparent Earth, each planet re-evaluated at jd minus its as-written light time |
| AstroContexts.AstroContext.GeocentricFor | java/src/jephem/astro/AstroContext.java:324-343 | the Sun goes to minus the apparent Earth and the Moon is kept. Other bodies are shifted by the geometric Earth; the Earth is first replaced by a new body that takes the shifted coordinates of the old one |
| AstroContexts.AstroContext.GeocentricStage | java/src/jephem/astro/AstroContext.java:323-344 | every body ends as GeocentricFor leaves it |
| AstroContexts.AstroContext.ExpressBody | java/src/jephem/astro/AstroContext.java:475-483 | the frame is set. The expression becomes ExpressionAfter, with radian angles after cartToSphere and one shared unit after sphereToCart. A body needing no change keeps its coordinates and units |
| AstroContexts.AstroContext.FinalizeResults | java/src/jephem/astro/AstroContext.java:454-521 | on success every body has the requested frame, the expression tag and new unit arrays equal to the requested units. A non-empty context with a units list too short for what is read fails |
| AstroContexts.AstroContext.FinalizeBody | java/src/jephem/astro/AstroContext.java:473-518 | one body finalised as above; a units list too short for what is read fails |
| AstroContexts.AstroContext.RotateStage | java/src/jephem/astro/AstroContext.java:346-426 | every position, and velocity when asked for, is multiplied by the matrix, except, when skipping, the body at array position MOON |
| AstroContexts.AstroContext.RotateAt | java/src/jephem/astro/AstroContext.java:356-362 | the body at position i is rotated and no other coordinates change |
| AstroContexts.AstroContext.ApparentStages | java/src/jephem/astro/AstroContext.java:277-433 | the stages entered are a prefix of light time, geocentric, FK5, precession, nutation and ecliptic for the frame. Success only for the equatorial and ecliptic frames, with every body finalised |
| AstroContexts.AstroContext.EquatorialStages | java/src/jephem/astro/AstroContext.java:346-433 | FK5, precession and nutation then a return at the equatorial frame, or the ecliptic rotation then a return at the ecliptic frame; any other frame is AstroFailure |
| AstroContexts.AstroContext.EclipticStage | java/src/jephem/astro/AstroContext.java:410-433 | success only at the ecliptic frame, with every body finalised; any other frame is AstroFailure |
| AstroContexts.AstroContext.CalcWithTheories | java/src/jephem/astro/AstroContext.java:190-439 | the stages entered are a prefix of the frame's plan, all of it on success. Success only for a frame with a return, with every body finalised |
| AstroContexts.AstroContext.AfterTheories | java/src/jephem/astro/AstroContext.java:241-433 | the theory frame finalises at once, a non-empty heliocentric frame after its rotation, and other frames go through the apparent stages |
| AstroContexts.AstroContext.HelioStage | java/src/jephem/astro/AstroContext.java:252-269 | on success every body is finalised in the heliocentric frame |
| AstroContexts.AstroContext.CalcBodyCoords | java/src/jephem/astro/AstroContext.java:172-441 | a null engine name fails. Swiss Ephemeris gives the bridge's outcome. Any other engine runs the internal plan, finalising every body exactly when the frame has a return |
| AstroContexts.AstroContext.SwissStage | java/src/jephem/astro/AstroContext.java:541-560 | one bridge call per body, with the outcome of the first call; no body means success |
| AstroContexts.AstroContext.CalcBodyCoordsDefault | java/src/jephem/astro/AstroContext.java:146-154 | as written, asking for velocities with the internal engine and any body fails. On success positions are in AU, deg, deg |
| AstroContexts.AstroContext.CalcBodyCoordsDefaultIntended | java/src/jephem/astro/AstroContext.java:140-154 | with the documented units, success leaves positions in AU, deg, deg and velocities in AU/d, deg/d, deg/d |
| AstroContexts.AstroContext.SetAstroEngine | java/src/jephem/astro/AstroContext.java:124 | the shared engine name becomes the argument |
| AstroContexts.EngineIsShared | java/src/jephem/astro/AstroContext.java:62-124 | an engine set through one context is the engine of every context |
| AstroContexts.DefaultUnitsAsWritten | java/src/jephem/astro/AstroContext.java:147-152 | the default list has velocity units exactly when velocities are NOT asked for; positions are AU, deg, deg |
| AstroContexts.DefaultUnits | java/src/jephem/astro/AstroContext.java:140-152 | the documented list has velocity units exactly when velocities are asked for: AU/d, deg/d, deg/d after AU, deg, deg |
| AstroContexts.FrameMatrices | java/src/jephem/astro/AstroContext.java:371-418 | precession from J2000 to the day, nutation as the identity, and the true-equator-to-ecliptic matrix of a MeanTrue at (jd, J2000) |
| AstroContexts.NewBodies | java/src/jephem/astro/AstroContext.java:101-107 | one new, distinct, blank body per index, in order, and the position of the last MOON |
| AstroContexts.SetTheoryOrigin | java/src/jephem/astro/AstroContext.java:222-230 | the theory frame, cartesian, at the origin in AU; with velocities, at rest in AU per day, otherwise the velocity is kept |
| AstroContexts.RotateBody | java/src/jephem/astro/AstroContext.java:356-362 | the position, and the velocity when asked for, multiplied by the matrix |

## Left out

- Swing and painting: window layout, listeners, colours, fonts, drawing the curves, the sky map and the grid lines, and building the HTML of the ephemeris display. Only the state these classes keep and the arithmetic they do is modelled.
- Preferences and the `.last` parameter file: reading and writing them is I/O. The dialog's form is a value (`NewEphemerisDialogs.Form`) whose fields hold the parsed entries.
- Date parsing in the dialog: each date field is a `ParsedDate` value, already parsed or marked invalid. The parser is not part of this model.
- Reading the BSC5 catalogue file: the file is a sequence of lines, and the number parsing is a function parameter. `System.exit` on a read failure is the error `Halted`.
- The VSOP87, Pluto99 and ELP82 theories: their series are the fields of `AstroContexts.Theories`, and only their outcome (coordinates or a failure) is used.
- The Swiss Ephemeris bridge: a call that succeeds or fails. What it writes into the bodies is not modelled.
- The trigonometric functions, `sqrt`, rotation matrices and matrix products are left uninterpreted (`MathLib.Lib`), and `MathLib.Sound` states only the identities the code relies on.
- Floating point: rounding, overflow and infinities are not modelled. Values are reals, NaN is `None`, and an infinity is folded into NaN.
- The series inside `Nutation.calcDeltaPsiEpsilon`: the caller discards their results (see above), so only the zero outcome is modelled.
- `Curves.Curve.InterpolatedY`: `getY(whichY, x)` is a stub that returns 0 in the source, so no property beyond that is stated.
- `NewEphemerisDialogs.Ceil`: the saturation of Java's `(int)` cast for huge values is not modelled.
- Threads and the repaint scheduling of the viewers are not modelled.
- AstroContexts.AstroContext.HelioStage: states that the stage finalises every body on success. It does not state the rotation applied to the body at position 0.
- AstroContexts.AstroContext.EquatorialStages: states the trace, frame tags and units of the bodies, not their final coordinates. The coordinates of each step are stated by the stage methods it calls.
- AstroContexts.AstroContext.ApparentStages: same as `EquatorialStages`.
- AstroContexts.AstroContext.CalcWithTheories: same as `EquatorialStages`.
- AstroContexts.AstroContext.CalcBodyCoords: states the stage trace, the error cases and the final frame, expression and unit tags, not the final coordinate values.
- AstroContexts.AstroContext.SwissStage: states only the outcome and the trace of the bridge calls, since the bridge's effect on the bodies is not modelled.
- AstroContexts.AstroContext.CalcBodyCoordsDefault: with the Swiss Ephemeris engine selected, it states nothing about the bodies, for the same reason.

## Findings

Each defect below is kept as written in the member that models the operation. The corrected definition stands beside it with the intended property proved.

| source | as written | input that shows it | evidently intended | confidence | as-written member | corrected member |
|---|---|---|---|---|---|---|
| java/src/jephem/astro/AstroContext.java:286-287 | the light time (here and at lines 305-306) is `rho * KM_PER_AU / LIGHT_VELOCITY` with `LIGHT_VELOCITY` = 299792458, a speed in m/s, divided into a distance in km | rho = 1 AU gives a light time under 1 s instead of about 499 s | the speed in km/s, 299792.458, so that 1 AU takes about 499 s | high, not executed | AstroContexts.LightTimeAsWrittenTooShort | AstroContexts.LightTimeOverOneAu |
| java/src/jephem/astro/AstroContext.java:147-152 | the two-argument `calcBodyCoords` passes 3 units when velocities are asked for and 6 when they are not | `calcBodyCoords(FRAME_EQUATORIAL, true)` with the internal engine and one body ends in an index-out-of-bounds error in `finalizeResults` | 6 units (AU, deg, deg, AU/d, deg/d, deg/d) with velocities, 3 without, as the method's comment says | high, not executed | AstroContexts.AstroContext.CalcBodyCoordsDefault | AstroContexts.AstroContext.CalcBodyCoordsDefaultIntended |
| java/src/jephem/astro/sky/BSC5.java:110-115 | a double data code indexes `DATA_LABELS[dataCode - DOUBLE_DATA_BASE]` | `getDataLabel(RA)` with RA = 100 returns "BSC number" | the labels of the double codes follow the four string labels: index `dataCode - DOUBLE_DATA_BASE + 4`, so RA gets "ra" | high, not executed | Bsc5.DataLabelAsWrittenConfusesCodes | Bsc5.DataLabelsDistinct |
| java/src/jephem/tools/Ephemeris.java:468-484 | the error comparator returns 1 when body, type and TT day are all equal | two equal errors c give `compare(c, c) == 1`, so the comparator is not antisymmetric | return 0 for equal keys, making it a total order | high, not executed | Ephemerides.CompareAsWrittenNotAntisymmetric | Ephemerides.CompareIsTotalOrder |
| java/src/jephem/gui/NewEphemerisDialog.java:1064-1073 | only 0 is refused for 'display every', so a negative interval in end-date mode passes the checks | 'display every' -1 day from day 0 to day 2 gives -2 instants, and the array allocation throws `NegativeArraySizeException` | refuse a form whose count of instants is negative, here with the 'display every' warning. A negative interval in count mode still builds its backward grid, and one whose ceiling count is 0 still gets one instant | high, not executed | NewEphemerisDialogs.NegativeIntervalPassesChecks | NewEphemerisDialogs.DateChecksIntended |
| java/src/jephem/gui/NewEphemerisDialog.java:1105-1118 | a negative 'number of dates' passes the checks | 'number of dates' -3 reaches `new double[-3]` | refuse a negative number of dates; 0 stays one instant, as written at line 1153 | high, not executed | NewEphemerisDialogs.NegativeCountPassesChecks | NewEphemerisDialogs.DateChecksIntended |
| java/src/jephem/tools/SkyMapBase.java:207 | `_r = (int)_zoom*r0` casts the zoom before multiplying | zoom 0.5 on a 100 x 100 panel gives radius 0 instead of 25 | `(int)(_zoom*r0)`: the radius scales with the zoom | high, not executed | SkyMapBases.HalfZoomLosesDisk | SkyMapBases.RadiusIntendedScales |
