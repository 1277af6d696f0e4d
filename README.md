# Grid squares, geodesic arcs and the Transverse Mercator projection, in Dafny

This project models the numerical core of a small Java mapping library,
which converts between latitude/longitude and the British (OSGB) and Irish
(OSNI) national grids. It covers:

- the **100 km grid-square lettering** of both grids. OSGB uses a two-letter
  prefix (a 500 km block letter, then the square's letter); OSNI uses one
  letter. The source gives both classes identical 5x5 tables; here they share one module. The model covers encoding
  (`GridToGridSquare`), decoding (`GridSquareToOffset`) and both grids'
  constants and construction;
- **DPoint**, the mutable 2-D point class: constructors, getters,
  `offsetFrom`, the squared distance behind `distanceFrom`, and the in-place
  `scaleBy` and `offsetBy`;
- **EllipsoidalArc**: the presence flags of its five optional quantities, the
  setters and getters, and Vincenty's inverse (`calculateDistance`) and direct
  (`calculatePosition`) solutions. The solutions are modelled through their
  precondition checks, the longitude-difference normalisation, the
  do-while loops capped at ten passes with a 1e-8 tolerance, and which fields
  they store. The trigonometry of both solutions is supplied as functions;
- **TransverseMercatorProjection**'s structure:
  - the derived constants n, e^2, aF0 and bF0;
  - the error tolerance;
  - the meridional arc `calculateM`;
  - the latitude refinement loop of the forward transform;
  - the `tp`/`pnu` power tables;
  - the closing series;
  - the inverse transform;
  - the exact facts at the true and false origins and on the central meridian.

  Sine, cosine, tangent and square root are uninterpreted functions held in a
  `MathLibrary` value. Two laws are assumed of them, each only where it is
  needed: sin 0 = 0 (by the lemmas about the origins), and a non-negative
  square root of 1 - e^2 (by the OSNI constructor, which derives the minor
  axis from it).

Java doubles are modelled as reals. Where Java's arithmetic differs from
Dafny's, it is written out in module `JavaArith`:

- the `(int)` cast truncates toward zero;
- integer `/` and `%` truncate toward zero;
- `Character.toUpperCase` is modelled on ASCII letters only;
- `Math.abs`;
- `Math.PI`.

Files:

| file | module |
|---|---|
| `wrappers.dfy` | `Wrappers`: the `Result` type standing for thrown exceptions |
| `java_arith.dfy` | `JavaArith` |
| `grid_letters.dfy` | `GridLetters`: the table and the letter switches shared by both grids |
| `osgb.dfy` | `OSGB` |
| `osni.dfy` | `OSNI` |
| `dpoint.dfy` | `Points` |
| `ellipsoid.dfy` | `Ellipsoids` |
| `capped_iteration.dfy` | `CappedIteration`: the do-while scheme both Vincenty solutions run |
| `ellipsoidal_arc.dfy` | `Geodesics` |
| `transverse_mercator.dfy` | `TransverseMercator` |

## Model

| member | source | states |
|---|---|---|
| JavaArith.Trunc | com/obliquity/mapping/OSGB.java:90-91 | `(int)` of a double rounds toward zero: the floor for non-negative values, minus the floor of the negation otherwise; the fraction lost is below 1 in magnitude and the sign is kept |
| JavaArith.Quot | com/obliquity/mapping/OSGB.java:93-94 | Java's `/` on int, truncating toward zero; no contract of its own, `QuotTruncates` states its bounds |
| JavaArith.QuotTruncates | com/obliquity/mapping/OSGB.java:93-94 | Java's integer division truncates toward zero: b q is the multiple of b nearest to a on the side of zero (b q <= a < b q + b for a >= 0, b q - b < a <= b q for a < 0), and q has the sign of a or is 0 |
| JavaArith.QuotRemNonNegative | com/obliquity/mapping/OSNI.java:92-93 | on non-negative dividends Java's `/` and `%` agree with the Euclidean ones |
| JavaArith.ToUpper | com/obliquity/mapping/OSGB.java:123-124 | `Character.toUpperCase` on ASCII letters; no contract of its own, `ToUpperCharacterised` states what it does |
| JavaArith.Rem | com/obliquity/mapping/OSGB.java:93-101 | Java's remainder satisfies a = b*(a/b) + r, takes the sign of the dividend, lies strictly between -b and b, and agrees with `%` for non-negative dividends |
| JavaArith.ToUpperCharacterised | com/obliquity/mapping/OSGB.java:123-124 | upper-casing leaves no lower-case letter, changes a character exactly when it is a lower-case letter, and sends each lower-case letter to the upper-case letter at the same place in the alphabet |
| JavaArith.Abs | com/obliquity/mapping/TransverseMercatorProjection.java:123 | `Math.abs` is non-negative and equals the value or its negation |
| JavaArith.ToUpperIdempotent | com/obliquity/mapping/OSGB.java:123-124 | upper-casing twice is upper-casing once |
| JavaArith.RemNegative | com/obliquity/mapping/OSGB.java:100-101 | a negative dividend of smaller magnitude than the divisor has quotient 0 and is its own, negative, remainder |
| GridLetters.Letter | com/obliquity/mapping/OSGB.java:72-74 | every entry of the 5x5 table is one of the 25 grid letters (A-Z without I) |
| GridLetters.LetterIsTableEntry | com/obliquity/mapping/OSGB.java:72-74 | at every row r and column c, `Letter` is character c of string r of the lettering array, so the model reads the same table as the code |
| GridLetters.EastingOfLetter | com/obliquity/mapping/OSGB.java:145-165 | the easting switch: 100000 times the table column of a grid letter, 0.0 for any other character; `TableLetterOffset` and `OtherCharactersContributeNothing` state this |
| GridLetters.NorthingOfLetter | com/obliquity/mapping/OSGB.java:168-188 | the northing switch: 100000 times the table row of a grid letter, 0.0 for any other character; `TableLetterOffset` and `OtherCharactersContributeNothing` state this |
| GridLetters.TableLetterOffset | com/obliquity/mapping/OSGB.java:145-188 | the easting and northing switches give the table letter at row r, column c exactly (100000 c, 100000 r), and so recover its row and column |
| GridLetters.LetterAtSwitchPosition | com/obliquity/mapping/OSNI.java:119-164 | each of the 25 letters sits in the table at the row and column its switches assign |
| GridLetters.SquarePosition | com/obliquity/mapping/OSNI.java:119-164 | a grid letter has a table position (row, col) with offsets (100000 col, 100000 row), and is already upper case |
| GridLetters.OtherCharactersContributeNothing | com/obliquity/mapping/OSGB.java:145-188 | 'I', digits and every other character fall through both switches and contribute 0 |
| GridLetters.GridIndex | com/obliquity/mapping/OSNI.java:89-90 | for a non-negative coordinate the cast index is the floor of v / 100000 and is non-negative |
| GridLetters.IndexWithinSquare | com/obliquity/mapping/OSNI.java:89-90 | a coordinate k squares plus less than one square from the origin has index k |
| GridLetters.NegativeWithinOneSquareTruncatesToZero | com/obliquity/mapping/OSGB.java:90-91 | a coordinate less than 100 km below the origin gets index 0 because the cast truncates |
| GridLetters.NegativeIndexLeavesTable | com/obliquity/mapping/OSGB.java:100-103 | a coordinate 100-500 km below the origin gives a negative remainder, so the table lookup would be out of range |
| OSGB.Projection | com/obliquity/mapping/OSGB.java:53-70 | the OSGB constructor builds a valid fresh projection with the Airy axes, F0 = 0.9996012717, origin (2 W, 49 N), false origin (400000, -100000), tolerance 0.001 and the given numerical library; if sin 0 = 0 in it, 0 < n < 1 and the true origin maps to (400000, -100000) |
| OSGB.ProjectionConstants | com/obliquity/mapping/OSGB.java:53-59 | with these constants, 0 < n < 1, and the inverse transform maps the true origin to the false origin (400000, -100000) |
| OSGB.GridToGridSquare | com/obliquity/mapping/OSGB.java:86-106 | on every point whose four table indices are non-negative, which is exactly where no lookup throws, the prefix is two of the 25 table letters (so never 'I') |
| OSGB.NonNegativePrefix | com/obliquity/mapping/OSGB.java:90-105 | every point with E, N >= 0 is answered, with the block letter at ((1 + y/5) mod 5, (2 + x/5) mod 5) and then the square letter at (y mod 5, x mod 5), where x = floor(E/100000) and y = floor(N/100000) |
| OSGB.PrefixOfIndices | com/obliquity/mapping/OSGB.java:93-105 | the two table lookups from the 100 km indices x and y; `IndicesInBlocks`, `NonNegativePrefix` and `FiveSquaresWestAnswered` state what they select |
| OSGB.TruncationBand | com/obliquity/mapping/OSGB.java:90-91 | a point less than 100 km west or south of the origin is answered, with the prefix of the point moved onto the axis, because the cast truncates |
| OSGB.WestOfOriginLeavesTable | com/obliquity/mapping/OSGB.java:100-103 | 100-500 km west of the origin the column index is negative, so the lookup throws |
| OSGB.FiveSquaresWestAnswered | com/obliquity/mapping/OSGB.java:90-103 | 500-600 km west of the origin the index is -5, whose truncated quotient is -1 and remainder 0, so Java answers with the block letter of column 1 and the square letter of column 0 |
| OSGB.BlockAndSquare | com/obliquity/mapping/OSGB.java:93-101 | an index m squares into block k has Java quotient k and remainder m by 5, and the block column (s + k) mod 5 |
| OSGB.GridSquareToOffset | com/obliquity/mapping/OSGB.java:120-191 | every offset is a whole number of 100 km squares, with easting in [0, 900000] and northing in [0, 1400000] |
| OSGB.BlockOffset | com/obliquity/mapping/OSGB.java:129-141 | the first-letter switch: N adds 500 km north, H 1000 km north, T 500 km east, anything else nothing; `BlockLetters` and `OtherFirstLettersAddNothing` state this |
| OSGB.CaseInsensitive | com/obliquity/mapping/OSGB.java:123-124 | lower-case letters give the same offset as their upper-case forms |
| OSGB.BlockLetters | com/obliquity/mapping/OSGB.java:129-141 | the block offsets are S (0, 0), T (500000, 0), N (0, 500000) and H (0, 1000000), and each block letter sits in the table where the encoder looks for its block |
| OSGB.OtherFirstLettersAddNothing | com/obliquity/mapping/OSGB.java:129-141 | a first letter other than N, H or T, in either case, adds no block offset |
| OSGB.SecondLetterOffset | com/obliquity/mapping/OSGB.java:145-188 | the second letter at row r, column c adds (100000 c, 100000 r) to the block offset |
| OSGB.PrefixInSquare | com/obliquity/mapping/OSGB.java:90-103 | a point whose indices lie in block (bc, br), at square (col, row) of that block, is answered with the block's letter and then the square's letter |
| OSGB.IndicesInBlocks | com/obliquity/mapping/OSGB.java:93-103 | the indices 5 bc + col and 5 br + row pass every table bound and select the letters at ((1 + br) mod 5, (2 + bc) mod 5) and (row, col) |
| OSGB.OffsetOfPrefix | com/obliquity/mapping/OSGB.java:120-191 | the decoded offset is the block offset plus the square offset |
| OSGB.BlockPosition | com/obliquity/mapping/OSGB.java:129-141 | each of S, T, N and H has a block column and row whose offset the first switch adds and whose letter the encoder reads back |
| OSGB.RoundTrip | test/TestOSGB2.java:50-71 | for first letter S, T, N or H, any grid letter as second, and 0 <= dx, dy < 100000, encoding the decoded offset plus (dx, dy) is answered, with the same two letters |
| OSGB.OffsetPointPrefix | test/TestOSGB2.java:50-71 | the same round trip carried out as the test does it, on DPoints moved in place with `offsetBy` |
| OSNI.Projection | com/obliquity/mapping/OSNI.java:50-68 | the OSNI constructor builds a valid fresh projection with a = 6377340.189, b = a sqrt(1 - 0.006670540), F0 = 1.000035, origin (8 W, 53.5 N), false origin (200000, 250000), tolerance 0.001 and the given numerical library; if sin 0 = 0 in it, the true origin maps to (200000, 250000) |
| OSNI.ProjectionAtOrigin | com/obliquity/mapping/OSNI.java:50-57 | the inverse transform maps the true origin to (200000, 250000) |
| OSNI.GridToGridSquare | com/obliquity/mapping/OSNI.java:85-96 | on every point whose two table indices are non-negative, exactly where the lookup does not throw, the letter is one of the 25; for E, N >= 0 it is the table entry at (y mod 5, x mod 5) |
| OSNI.TruncationBand | com/obliquity/mapping/OSNI.java:89-90 | a point less than 100 km west or south of the origin is answered, with the letter of the point moved onto the axis |
| OSNI.WestOfOriginLeavesTable | com/obliquity/mapping/OSNI.java:92-95 | 100-500 km west of the origin the column index is negative, so the lookup throws |
| OSNI.FiveSquaresWestAnswered | com/obliquity/mapping/OSNI.java:89-95 | 500-600 km west of the origin the index is -5, whose Java remainder is 0, so the point gets the letter of column 0 |
| OSNI.GridSquareToOffset | com/obliquity/mapping/OSNI.java:109-165 | every offset is a whole number of squares in [0, 400000] on both axes |
| OSNI.CaseInsensitive | com/obliquity/mapping/OSNI.java:112 | lower-case letters give the same offset as their upper-case forms |
| OSNI.LetterOffset | com/obliquity/mapping/OSNI.java:112-164 | a letter whose upper case is the table entry at (row, col) maps to (100000 col, 100000 row); any other character maps to (0, 0) |
| OSNI.RoundTrip | test/TestOSNI2.java:49-66 | any point less than 100 km east and north of a letter's offset is given back that letter |
| OSNI.Periodic | com/obliquity/mapping/OSNI.java:89-95 | adding 500000 to E or to N leaves the letter unchanged |
| OSNI.ShiftByBlock | com/obliquity/mapping/OSNI.java:89-93 | one block further along, the square index grows by exactly 5 and its remainder by 5 is unchanged |
| OSNI.DecodeAfterEncode | com/obliquity/mapping/OSNI.java:89-164 | decoding a point's letter gives (100000 (x mod 5), 100000 (y mod 5)) |
| Points.DPoint.constructor | com/obliquity/mapping/DPoint.java:48-51 | the new point holds exactly x and y |
| Points.DPoint.Origin | com/obliquity/mapping/DPoint.java:56-59 | the default point is (0, 0) |
| Points.DPoint.OffsetFrom | com/obliquity/mapping/DPoint.java:87-90 | returns a fresh point, distinct from both operands, holding this - p; neither operand changes |
| Points.DPoint.SquaredDistanceFrom | com/obliquity/mapping/DPoint.java:99-104 | the squared distance is non-negative and zero for equal coordinates |
| Points.DPoint.ScaleBy | com/obliquity/mapping/DPoint.java:113-116 | both coordinates are multiplied by r in place |
| Points.DPoint.OffsetBy | com/obliquity/mapping/DPoint.java:124-127 | v's coordinates are added in place; v is unchanged when it is another point, and both coordinates double when v is this point |
| Points.SquaredLength | com/obliquity/mapping/DPoint.java:100-103 | dx^2 + dy^2 is non-negative and is zero for a zero vector |
| Points.SquaredDistanceSymmetric | com/obliquity/mapping/DPoint.java:99-104 | the squared distance does not depend on the order of the points |
| Points.OffsetThenMeasure | com/obliquity/mapping/DPoint.java:87-127 | if q copies p's old position and then p is offset by v, p.offsetFrom(q) equals v |
| Ellipsoids.Ellipsoid.constructor | com/obliquity/mapping/EllipsoidalArc.java:131-132 | an ellipsoid keeps the semi-major axis and flattening the arc reads from it |
| CappedIteration.ResumeBounds | com/obliquity/mapping/EllipsoidalArc.java:153-189 | from any pass, the loop either stops at a pass numbered at most 10 whose correction met the test and came from that pass's input, or stops with the counter at exactly 11 |
| CappedIteration.Resume | com/obliquity/mapping/EllipsoidalArc.java:153-189 | the remaining passes of the do-while loop from a given pass: stop at the first pass within 1e-8, or at the count past ten; `ResumeBounds`, `ResumeConvergesIff` and `ResumeStopsAtFirstPass` state its outcome |
| CappedIteration.Solve | com/obliquity/mapping/EllipsoidalArc.java:276-298 | the whole capped loop from its first pass; `SolveBounds` and `SolveConvergesIff` state its outcome |
| CappedIteration.SolveBounds | com/obliquity/mapping/EllipsoidalArc.java:276-298 | the same for the whole loop: it converges on pass 1-10 or runs exactly 11 passes, never a twelfth |
| CappedIteration.ResumeContinues | com/obliquity/mapping/EllipsoidalArc.java:186 | a pass within the cap that misses the tolerance hands over to the next pass |
| CappedIteration.ResumeStops | com/obliquity/mapping/EllipsoidalArc.java:186-189 | the loop ends with the iteration-limit outcome past the cap, and converged on a pass that meets the test |
| CappedIteration.Iterate | com/obliquity/mapping/EllipsoidalArc.java:153-189 | the imperative do-while loop, with its counter, computes exactly the outcome of the loop's specification |
| CappedIteration.ResumeFromUnfold | com/obliquity/mapping/EllipsoidalArc.java:153-186 | one more pass of the loop is one more term of the reference sequence of corrections |
| CappedIteration.ResumeConvergesIff | com/obliquity/mapping/EllipsoidalArc.java:186-189 | from pass k on, the loop converges exactly when some pass from k to 10 meets the 1e-8 test |
| CappedIteration.ResumeStopsAtFirstPass | com/obliquity/mapping/EllipsoidalArc.java:186 | a converging loop stops at the first pass meeting the test; its input and correction are that pass's |
| CappedIteration.SolveConvergesIff | com/obliquity/mapping/EllipsoidalArc.java:153-189 | a solution succeeds exactly when the test is met within the first ten passes; it then stops at the first such pass |
| Geodesics.InitialGettersFail | com/obliquity/mapping/EllipsoidalArc.java:74-121 | on a fresh arc every getter throws its IllegalStateException with its own message |
| Geodesics.GettersFollowFlags | com/obliquity/mapping/EllipsoidalArc.java:74-121 | each getter succeeds exactly when its flag is set, and then returns the stored value |
| Geodesics.EllipsoidalArc.GetLatitudeA | com/obliquity/mapping/EllipsoidalArc.java:74-79 | latitude A, or IllegalStateException "latitudeA is not defined" when position A is unset; `InitialGettersFail` and `GettersFollowFlags` state this |
| Geodesics.EllipsoidalArc.GetLongitudeA | com/obliquity/mapping/EllipsoidalArc.java:81-86 | longitude A, or "longitudeA is not defined" when position A is unset |
| Geodesics.EllipsoidalArc.GetLatitudeB | com/obliquity/mapping/EllipsoidalArc.java:88-93 | latitude B, or "latitudeB is not defined" when position B is unset |
| Geodesics.EllipsoidalArc.GetLongitudeB | com/obliquity/mapping/EllipsoidalArc.java:95-100 | longitude B, or "longitudeB is not defined" when position B is unset |
| Geodesics.EllipsoidalArc.GetAzimuthA | com/obliquity/mapping/EllipsoidalArc.java:102-107 | azimuth A, or "azimuthA is not defined" when it is unset |
| Geodesics.EllipsoidalArc.GetAzimuthB | com/obliquity/mapping/EllipsoidalArc.java:109-114 | azimuth B, or "azimuthB is not defined" when it is unset |
| Geodesics.EllipsoidalArc.GetDistance | com/obliquity/mapping/EllipsoidalArc.java:116-121 | the distance, or "distance is not defined" when it is unset |
| Geodesics.SetPositionAThenGet | com/obliquity/mapping/EllipsoidalArc.java:47-51 | after setPositionA its getters return the new longitude and latitude; every other getter answers as before |
| Geodesics.SetPositionBThenGet | com/obliquity/mapping/EllipsoidalArc.java:53-57 | the same for setPositionB |
| Geodesics.SetAzimuthAThenGet | com/obliquity/mapping/EllipsoidalArc.java:59-62 | the same for setAzimuthA |
| Geodesics.SetAzimuthBThenGet | com/obliquity/mapping/EllipsoidalArc.java:64-67 | the same for setAzimuthB |
| Geodesics.SetDistanceThenGet | com/obliquity/mapping/EllipsoidalArc.java:69-72 | the same for setDistance |
| Geodesics.NormaliseLongitudeDifference | com/obliquity/mapping/EllipsoidalArc.java:145-149 | w differs from B - A by 0 or 2 pi either way; a raw difference in [-3 pi, 3 pi] ends in [-pi, pi]; one already in [-pi, pi] is untouched |
| Geodesics.NormalisedForLongitudes | com/obliquity/mapping/EllipsoidalArc.java:145-149 | two longitudes in [-pi, pi] always give w in [-pi, pi] |
| Geodesics.CalculateDistanceNeedsPositions | com/obliquity/mapping/EllipsoidalArc.java:134-138 | without position A, or else without position B, calculateDistance throws IllegalStateException naming the missing position |
| Geodesics.CalculateDistanceSpec | com/obliquity/mapping/EllipsoidalArc.java:123-223 | calculateDistance on the arc's state: the precondition checks, the normalised longitude difference, the capped loop and the stored results; `CalculateDistanceNeedsPositions`, `CalculateDistanceSucceedsIff`, `CalculateDistanceEffects` and `CalculateDistanceResults` state its behaviour |
| Geodesics.CalculateDistanceSucceedsIff | com/obliquity/mapping/EllipsoidalArc.java:134-189 | calculateDistance succeeds exactly when both positions are set and the test is met within ten passes; otherwise, with both set, it throws "Exceeded iteration limit" |
| Geodesics.CalculateDistanceEffects | com/obliquity/mapping/EllipsoidalArc.java:209-222 | on success both azimuths and the distance become defined, the value returned is what getDistance then gives, and both positions are unchanged |
| Geodesics.CalculateDistanceResults | com/obliquity/mapping/EllipsoidalArc.java:153-222 | the distance comes from the trial lambda of the converging pass; the azimuths come from w plus that pass's correction |
| Geodesics.CalculatePositionNeedsInputs | com/obliquity/mapping/EllipsoidalArc.java:239-246 | without position A, then azimuth A, then the distance, calculatePosition throws IllegalStateException naming the first one missing |
| Geodesics.CalculatePositionSpec | com/obliquity/mapping/EllipsoidalArc.java:225-339 | calculatePosition on the arc's state: the three input checks, the capped loop and the stored position and azimuth of B; `CalculatePositionNeedsInputs`, `CalculatePositionSucceedsIff`, `CalculatePositionEffects` and `CalculatePositionResults` state its behaviour |
| Geodesics.CalculatePositionSucceedsIff | com/obliquity/mapping/EllipsoidalArc.java:239-298 | calculatePosition succeeds exactly when its three inputs are set and the test is met within ten passes; otherwise, with the inputs set, it throws "Exceeded iteration limit" |
| Geodesics.CalculatePositionEffects | com/obliquity/mapping/EllipsoidalArc.java:300-337 | on success position B and azimuth B become defined; position A, azimuth A and the distance keep their values and flags |
| Geodesics.CalculatePositionResults | com/obliquity/mapping/EllipsoidalArc.java:300-337 | position B and azimuth B are computed from the final sigma; B's longitude is A's plus the computed difference |
| Geodesics.CalculatePositionRerun | test/TestEllipsoid.java:132-142 | after a success, setting a new distance and solving again cannot fail for a missing input |
| Geodesics.CalculatePositionReadsUndefinedAzimuthB | com/obliquity/mapping/EllipsoidalArc.java:253 | with azimuth B never set, the direct solution still reads it, as 0.0, and succeeds exactly when its loop converges |
| Geodesics.EllipsoidalArc.constructor | com/obliquity/mapping/EllipsoidalArc.java:39-45 | a new arc keeps its ellipsoid and starts with all five flags false and every field 0.0 |
| Geodesics.EllipsoidalArc.Create | com/obliquity/mapping/EllipsoidalArc.java:39-45 | a null ellipsoid, and only a null one, is refused with IllegalArgumentException "Ellipsoid is null" |
| Geodesics.EllipsoidalArc.SetPositionA | com/obliquity/mapping/EllipsoidalArc.java:47-51 | stores both coordinates of A and sets only A's flag |
| Geodesics.EllipsoidalArc.SetPositionB | com/obliquity/mapping/EllipsoidalArc.java:53-57 | stores both coordinates of B and sets only B's flag |
| Geodesics.EllipsoidalArc.SetAzimuthA | com/obliquity/mapping/EllipsoidalArc.java:59-62 | stores azimuth A and sets only its flag |
| Geodesics.EllipsoidalArc.SetAzimuthB | com/obliquity/mapping/EllipsoidalArc.java:64-67 | stores azimuth B and sets only its flag |
| Geodesics.EllipsoidalArc.SetDistance | com/obliquity/mapping/EllipsoidalArc.java:69-72 | stores the distance and sets only its flag |
| Geodesics.EllipsoidalArc.CalculateDistance | com/obliquity/mapping/EllipsoidalArc.java:123-223 | the method returns and stores exactly what the specification gives; on any exception the arc is unchanged |
| Geodesics.EllipsoidalArc.CalculatePosition | com/obliquity/mapping/EllipsoidalArc.java:225-338 | the method stores exactly what the specification gives; on any exception the arc is unchanged |
| TransverseMercator.PowAddTwo | com/obliquity/mapping/TransverseMercatorProjection.java:218-221 | x^(k+2) = x^k x^2, the step the odd-power loop takes |
| TransverseMercator.FlatteningIdentity | com/obliquity/mapping/TransverseMercatorProjection.java:93-96 | n (a + b) = a - b and e^2 a^2 = (a - b)(a + b) imply e^2 (1 + n)^2 = 4 n |
| TransverseMercator.TransverseMercatorProjection.constructor | com/obliquity/mapping/TransverseMercatorProjection.java:82-103 | stores the seven parameters; derives n = (a-b)/(a+b), e^2 = (a-b)(a+b)/a^2, aF0 = a F0 and bF0 = b F0; allocates tp[7] and pnu[8]; sets epsilon = 0.001 |
| TransverseMercator.TransverseMercatorProjection.Create | com/obliquity/mapping/TransverseMercatorProjection.java:93-96 | construction fails with Undefined exactly when a = 0 or a + b = 0, where Java would derive non-finite constants; otherwise it gives a valid fresh projection holding all seven parameters, the library and tolerance 0.001 |
| TransverseMercator.TransverseMercatorProjection.DerivedConstants | com/obliquity/mapping/TransverseMercatorProjection.java:93-96 | for 0 < b < a, the third flattening satisfies 0 < n < 1 and e^2 (1 + n)^2 = 4 n |
| TransverseMercator.TransverseMercatorProjection.CalculateMAtOrigin | com/obliquity/mapping/TransverseMercatorProjection.java:105-114 | given sin 0 = 0, M(phi0) = 0 |
| TransverseMercator.TransverseMercatorProjection.CalculateM | com/obliquity/mapping/TransverseMercatorProjection.java:105-114 | the meridional arc from phi0 to phi, scaled by bF0; `CalculateMAtOrigin` states that it vanishes at phi0 |
| TransverseMercator.TransverseMercatorProjection.SetErrorTolerance | com/obliquity/mapping/TransverseMercatorProjection.java:122-124 | stores abs(d), so epsilon stays non-negative and the projection stays valid |
| TransverseMercator.TransverseMercatorProjection.GetErrorTolerance | com/obliquity/mapping/TransverseMercatorProjection.java:131-133 | the tolerance returned is never negative |
| TransverseMercator.TransverseMercatorProjection.RefineResult | com/obliquity/mapping/TransverseMercatorProjection.java:188-194 | the refinement fails only by running out of passes; on success its last residual N - N0 - M(phi) is within epsilon, the latitude moved by residual / aF0, and between 1 and fuel passes ran |
| TransverseMercator.TransverseMercatorProjection.Refine | com/obliquity/mapping/TransverseMercatorProjection.java:188-194 | the do-while refinement of the latitude, with a fuel bound on the passes; `RefineResult`, `RefineStep` and `RefineMoreFuel` state its behaviour |
| TransverseMercator.TransverseMercatorProjection.RefineStep | com/obliquity/mapping/TransverseMercatorProjection.java:188-194 | one pass: a residual above epsilon continues from phi + x / aF0; otherwise the loop stops there |
| TransverseMercator.TransverseMercatorProjection.RefineMoreFuel | com/obliquity/mapping/TransverseMercatorProjection.java:188-194 | more fuel does not change a refinement that already succeeds, so the bound only cuts off non-termination |
| TransverseMercator.TransverseMercatorProjection.SeriesOnCentralMeridian | com/obliquity/mapping/TransverseMercatorProjection.java:210-245 | with E = E0 the series gives (lambda0, phi) |
| TransverseMercator.TransverseMercatorProjection.ForwardOnCentralMeridian | com/obliquity/mapping/TransverseMercatorProjection.java:210-244 | the forward transform of any point with easting E0 has longitude exactly lambda0 |
| TransverseMercator.TransverseMercatorProjection.AuxiliariesAt | com/obliquity/mapping/TransverseMercatorProjection.java:200-208 | nu, rho and eta^2 at a latitude; fails only with Undefined, and on success rho is non-zero |
| TransverseMercator.TransverseMercatorProjection.SeriesTerms | com/obliquity/mapping/TransverseMercatorProjection.java:223-245 | the closing series from the power-table entries; fails only with Undefined, when one of its divisors is zero |
| TransverseMercator.TransverseMercatorProjection.Series | com/obliquity/mapping/TransverseMercatorProjection.java:200-245 | the closing series with the tables written as powers; fails only with Undefined |
| TransverseMercator.TransverseMercatorProjection.Forward | com/obliquity/mapping/TransverseMercatorProjection.java:169-246 | the forward transform as a function: the initial estimate, `Refine` and `Series`; `ForwardAtFalseOrigin` and `ForwardOnCentralMeridian` state its exact cases, and `GridToLongitudeAndLatitude` is proved equal to it |
| TransverseMercator.TransverseMercatorProjection.ForwardAtFalseOrigin | com/obliquity/mapping/TransverseMercatorProjection.java:182-245 | at (E0, N0) the loop starts at phi0, stops after exactly one pass with residual 0, and the transform gives (lambda0, phi0) |
| TransverseMercator.TransverseMercatorProjection.FillTangentPowers | com/obliquity/mapping/TransverseMercatorProjection.java:214-216 | after the loop tp[i] = tan(phi)^i for 0 <= i < 7 |
| TransverseMercator.TransverseMercatorProjection.FillNuPowers | com/obliquity/mapping/TransverseMercatorProjection.java:218-221 | after the loop pnu[k] = nu^k for k = 1, 3, 5, 7; the even entries are untouched |
| TransverseMercator.TransverseMercatorProjection.GridToLongitudeAndLatitude | com/obliquity/mapping/TransverseMercatorProjection.java:169-246 | the imperative forward transform, with its loop, power tables and series, computes the forward transform's specification and keeps the projection valid |
| TransverseMercator.TransverseMercatorProjection.RefineLatitude | com/obliquity/mapping/TransverseMercatorProjection.java:182-194 | the do-while loop from phi = (N - N0)/aF0 + phi0 computes exactly the refinement |
| TransverseMercator.TransverseMercatorProjection.ApplySeries | com/obliquity/mapping/TransverseMercatorProjection.java:200-245 | filling the tables and reading the series from them gives the series written with powers |
| TransverseMercator.TransverseMercatorProjection.InverseOnCentralMeridian | com/obliquity/mapping/TransverseMercatorProjection.java:298-331 | with P = 0 the inverse transform gives easting exactly E0 and northing M(phi) + N0 |
| TransverseMercator.TransverseMercatorProjection.LatitudeAndLongitudeToGrid | com/obliquity/mapping/TransverseMercatorProjection.java:278-332 | the inverse transform from longitude and latitude to (E, N); fails only with Undefined, when nu or rho would divide by zero |
| TransverseMercator.TransverseMercatorProjection.InverseAtOrigin | com/obliquity/mapping/TransverseMercatorProjection.java:298-331 | given sin 0 = 0 the inverse transform maps (lambda0, phi0) to (E0, N0) |

## Left out

- User interfaces, applets, forms, test drivers, degree/minute/second formatting and `DPoint.toString`: these are presentation, not computation.
- IEEE floating point: doubles are reals, so the model has no rounding, and the accuracy of the series and of Vincenty's formulas is not modelled. In the Transverse Mercator transforms a zero divisor, where Java gives Infinity or NaN, is reported as `Undefined`.
- GridLetters.GridIndex: Java's saturation of `(int)` at the int range, and the floating-point boundary effects of `E/100000.0`, are not modelled.
- OSGB.GridToGridSquare, OSNI.GridToGridSquare: they require the table indices to be non-negative, which is where Java returns rather than throws; the thrown exception itself is not modelled. Java does not correct a negative remainder; the model follows the code. Of the callers, OSNI2OSGBForm.java:222 checks for non-negative coordinates first, while OSGBReverseForm.java:203 and OSGBReverseApplet.java:250 do not.
- OSGB.GridSquareToOffset, OSNI.GridSquareToOffset: these return a `GridOffset` value rather than a fresh DPoint. Likewise the transforms return `Coordinates` values.
- `Character.toUpperCase` beyond the ASCII letters is not modelled.
- Sine, cosine, tangent and square root are uninterpreted. Only sin 0 = 0 (by the lemmas about the origins) and a non-negative square root of 1 - e^2 (by `OSNI.Projection`) are assumed.
- Vincenty's per-pass corrections and final formulas are parameters of the solutions (`InverseNumerics`, `DirectNumerics`).
- Geodesics.EllipsoidalArc.CalculateDistance, Geodesics.EllipsoidalArc.CalculatePosition: the corrections are real-valued, so the case where Java computes NaN is not modelled. Coincident points, for example, give sigma = 0 and a 0/0 in the azimuth formula (EllipsoidalArc.java:160-167). A NaN correction makes the test at EllipsoidalArc.java:186 false, so Java's loop ends as if it had converged and returns NaN results without an exception. `CalculateDistanceSucceedsIff` and `CalculatePositionSucceedsIff` do not describe that case.
- The geodetic meaning of reading azimuth B in `calculatePosition` (EllipsoidalArc.java:253) is mirrored as written and not corrected.
- CappedIteration.Iterate: one method stands for the two textually separate do-while loops of the two solutions, which have the same shape.
- `Ellipsoid.java` is not part of this model: the ellipsoid only holds the two quantities the arc reads.
- TransverseMercator.TransverseMercatorProjection.RefineLatitude: the Java do-while loop has no bound. Here it runs at most `fuel` passes and reports `NotConverged` when they are used up; `RefineMoreFuel` shows the bound changes no successful result.
- TransverseMercator.TransverseMercatorProjection.DerivedConstants: does not state that e^2 lies in (0, 1), only the identity tying it to n, because the solver's nonlinear arithmetic could not carry the bound.
- TransverseMercator.TransverseMercatorProjection.constructor: requires a != 0 and a + b != 0, where Java would silently derive non-finite constants; `Create` covers those inputs with `Undefined`.
- OSNI.Projection: requires the supplied square root of 1 - e^2 to be non-negative, as `Math.sqrt` is.
- OSGB and OSNI extend TransverseMercatorProjection in Java; here each grid's constructor is a `Projection` method that builds the projection with the grid's constants.
- Points.DPoint.SquaredDistanceFrom: `distanceFrom` takes a square root; the model keeps the squared distance.
- The getters of DPoint and EllipsoidalArc have no contract of their own; the flag behaviour of the arc's getters is stated by `GettersFollowFlags` and the set-then-get lemmas.
- Thread safety of the shared `tp`/`pnu` scratch arrays is not modelled.
