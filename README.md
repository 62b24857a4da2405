# Roof sketch calibration — a verified model

This project models the geometry and calibration engine of a roof-measurement
tool. The tool turns a sketch of a roof into real-world measurements. The
sketch is a set of drawn lines and the facets they enclose. A data sheet gives
one row per line: its category (R ridge, H hip, V valley, K, E eave), an
optional real length ("-" when unknown), the pitch, an optional area and an
optional face label.

The model covers five parts.

- **Segmentation** (`CreateDiagrams`). Each drawn line is cut wherever an
  endpoint of another line lies strictly inside it.
- **Bookkeeping** (`CreateDiagrams`). Facets are named with Excel-style
  column letters. The finished sheet is folded into per-category length
  totals, per-pitch area totals and a count of facet rows.
- **Calibration** (`SheetToReport`). The run does these steps in order:
  - it checks the sheet;
  - it builds regression samples: each line with a known length is paired
    with its drawing length, projected for inclined lines;
  - it fits a zero-intercept least-squares slope;
  - it predicts the unknown lengths;
  - it fills in each facet's true area, using a per-facet scale factor that
    is the median of per-segment factors.
- **Report summary** (`SheetToReport`). The totals and the predominant pitch
  that the report lists.
- **Image placement** (`ReportWriter`). An image is fitted into a box on a
  report page, keeping its aspect ratio, and centred.

Python library behaviour is written out explicitly.

- `int()` on a float truncates toward zero: `Common.Trunc`.
- A `defaultdict(int)` reads a missing key as 0: `Common.Lookup`.
- Python's stable `sorted` (a Timsort) is modelled by a stable insertion sort,
  `Sorting.Sort`, which gives the same order.
- `sorted(...)[-1]` picks the last maximal element (`Sorting.LastMaxIndex`).
  `max(..., key=...)` picks the first maximal element
  (`Sorting.FirstMaxIndex`).
- numpy's `median` is `Sorting.Median`.
- The zero-intercept `LinearRegression` fit is its closed form,
  sum(x·y) / sum(x·x).
- Floats are `real`. Where numpy divides by zero, the value is a `Common.Float`:
  finite, infinite or NaN.

Some inputs are taken as given rather than computed.

- The distance function, the line drawing lengths and the angles between
  lines are parameters.
- Arctangent, sine in degrees and cosine are parameters, grouped in the
  `SheetToReport.Geometry` record.
- The parsed roof is reduced to what the calibration reads:
  - the facet-to-segments table, in dictionary order, with each segment's
    recorded drawing length;
  - each facet polygon's area.

The places where the tool mutates state are imperative methods proved against
specification functions:

- `GetLineSegments`, `LetterId` and `MakeMaps` build their results in loops;
- `PredictUnknown` and `FillAreas` update a sheet held in an `array<Row>`
  in place, as `df.iat[...] = ...` does;
- `Calibrate` runs the whole pipeline on such an array.

An error that aborts the Python run (a failed `assert`, an `IndexError` from an
empty candidate list, a division by zero, an unknown facet) is a `Failure`
with a `SheetToReport.Error` value. Every such error aborts the whole run.

Some behaviour of the code is easy to misread, and the model states it
outright.

- **Predicted lengths are truncated.** `int(...)` truncates toward zero, so a
  prediction is not rounded to the nearest foot. The same holds for areas: an
  area is truncated, then made even.
- **Training data is only checked when a length is missing.** The "at least
  two lengths" check applies only when some length is "-". A sheet with every
  length known passes with any number of rows.
- **A segment's factor is the recorded length over the actual length.** It is
  the segment's recorded drawing length over its actual length, which
  simplifies to the projected length over the annotated length
  (`SegmentRatioIsRatio`).
- **The area uses a different pitch from the scale factor.**
  - The scale factor comes from the facet named by the row index
    (`get_letter_id(i)`).
  - The pitch comes from the facet holding the line of row i, which may be a
    different facet. `FacetAreaOwnPitch` states when the two coincide.
- **Segment projections use the facet being measured.** When the scale of a
  facet is computed, an inclined segment is projected with that facet's own
  pitch (`SegmentDrawingLength`). The training and prediction loops project
  the same line with the pitch of the first facet that lists it
  (`ProjectedLength`).
- **Segments follow the stored endpoint order.** The sorted copy of the
  endpoints is never used. The pieces of a cut line therefore run from
  `line[0]` to `line[1]` in stored order, and the interior points are in
  lexicographic order.

## Model

| member | source | states |
|---|---|---|
| CreateDiagrams.LetterName | create_diagrams.py:23-32 | every name is non-empty and ends in the letter for n mod 26, the last base-26 digit |
| CreateDiagrams.LetterId | create_diagrams.py:23-32 | the loop computes `LetterName(num)` for num ≥ 0 and "" for a negative num |
| CreateDiagrams.LetterNameStep | create_diagrams.py:29-31 | one loop step: the name of n is the name of (n-1) div 26 followed by the letter for (n-1) mod 26 |
| CreateDiagrams.LetterNameIsUpper | create_diagrams.py:23-32 | every name is non-empty and made of 'A'..'Z' |
| CreateDiagrams.LetterNameDecodes | create_diagrams.py:23-32 | bijective base-26 decoding of the name of n gives n + 1 |
| CreateDiagrams.LetterNameInjective | create_diagrams.py:23-32 | distinct indices get distinct names |
| CreateDiagrams.LetterValuePositive | create_diagrams.py:23-32 | every non-empty upper-case name decodes to at least 1 |
| CreateDiagrams.LetterNameOnto | create_diagrams.py:23-32 | every non-empty upper-case name is the name of some index (the naming is onto) |
| CreateDiagrams.LetterNameExamples | create_diagrams.py:23-32 | 0 → "A", 25 → "Z", 26 → "AA", 701 → "ZZ", 702 → "AAA" |
| CreateDiagrams.Midpoint | create_diagrams.py:34-38 | the midpoint is equidistant from both points along each axis |
| CreateDiagrams.PointLiesOnLine | create_diagrams.py:43-50 | a point at distance 0 from either endpoint is not on the line; a point on the line splits the line's length into its two distances |
| CreateDiagrams.EndpointsNotOnLine | create_diagrams.py:43-50 | when a point is at distance 0 from itself, neither endpoint of a line lies on it |
| CreateDiagrams.OnLineIsNotEndpoint | create_diagrams.py:43-50 | when distance separates points, a point on a line differs from both endpoints |
| CreateDiagrams.Collected | create_diagrams.py:63-70 | each other line contributes at most its two endpoints |
| CreateDiagrams.IntersectingPoints | create_diagrams.py:63-70 | the inner loops collect, in order, the endpoints of every other line that lie on the line |
| CreateDiagrams.AppendPieces | create_diagrams.py:75-80 | appends the line itself when there are no interior points, otherwise the pieces of the chain through them |
| CreateDiagrams.CutLine | create_diagrams.py:62-80 | one outer iteration appends exactly the segments of that line |
| CreateDiagrams.GetLineSegments | create_diagrams.py:52-82 | the result is the concatenation, in input order, of each line's segments |
| CreateDiagrams.SegmentsOfPrefix | create_diagrams.py:61-80 | the segments of the first i + 1 lines extend those of the first i by the segments of line i |
| CreateDiagrams.SegmentCount | create_diagrams.py:75-80 | the number of segments is the number of lines plus the total number of collected points |
| CreateDiagrams.LexLeTotal | create_diagrams.py:72 | the lexicographic (x, y) order that sorts the points is a total preorder |
| CreateDiagrams.LineSegmentsChain | create_diagrams.py:72-80 | a line is cut into one more piece than it has collected points; the pieces run from `line[0]` to `line[1]`, each starting where the previous one ends, and every cut lies strictly inside the line |
| CreateDiagrams.SplitChain | create_diagrams.py:75-80 | no interior points gives the line unchanged; k points give k + 1 chained pieces from `line[0]` to `line[1]` through the points in order |
| CreateDiagrams.SortedHitsSpec | create_diagrams.py:72 | the sorted interior points are lexicographically ordered and a permutation of the collected points |
| CreateDiagrams.CollectedSound | create_diagrams.py:64-70 | every collected point lies on the line and is an endpoint of a different input line |
| CreateDiagrams.CollectedComplete | create_diagrams.py:64-70 | every endpoint of a different line that lies on the line is collected |
| CreateDiagrams.SegmentsOfConcat | create_diagrams.py:61-80 | segments are emitted grouped by input line: the segments of a concatenation concatenate |
| CreateDiagrams.SegmentsOfLineAt | create_diagrams.py:61-80 | line i's segments sit between those of the lines before it and those after it |
| CreateDiagrams.CountAreas | create_diagrams.py:149 | the facet count is the number of rows whose area is not null |
| CreateDiagrams.MakeMaps | create_diagrams.py:133-150 | the length map holds, for each category, the sum of `int(length)` over its rows with a length; the pitch map holds, for each pitch, the sum of `int(area)` over its rows with an area; the keys, their insertion order and the count are as stated |
| CreateDiagrams.AddLength | create_diagrams.py:138-140 | one row's step keeps the length map equal to the totals of the rows read so far |
| CreateDiagrams.AddArea | create_diagrams.py:142-144 | one row's step keeps the pitch map and its key order equal to those of the rows read so far |
| CreateDiagrams.CategoriesSpec | create_diagrams.py:138-140 | a category is a key exactly when some row of that category has a length |
| CreateDiagrams.PitchOrderSpec | create_diagrams.py:142-144 | the pitch keys are distinct and are exactly the pitches of rows with an area |
| SheetToReport.FirstIndex | sheet_to_report.py:12-24 | the first-match scan returns the first matching row, or nothing when none matches |
| SheetToReport.LineType | sheet_to_report.py:19-24 | the upper-cased category of the first row with that line label; none exactly when no row has it |
| SheetToReport.FacetPitch | sheet_to_report.py:12-17 | the pitch of the first row with that face label: a returned pitch is that of a row with the label and no earlier row has it, and whenever a row is the first with the label its pitch is returned; none when no row has it |
| SheetToReport.ActualLength | sheet_to_report.py:43-48 | the length of the first row with that line label: a returned length is that of a row with the label and no earlier row has it, and whenever a row is the first with the label its length is returned; none when no row has it |
| SheetToReport.FacetLabel | sheet_to_report.py:5-10 | the id of the first facet, in table order, that lists the segment; none exactly when no facet does |
| SheetToReport.FindFacet | sheet_to_report.py:52-53 | the facet with that id, or none exactly when the table has no such facet (the `KeyError` case) |
| SheetToReport.LinePitch | sheet_to_report.py:135-136 | a line in no facet has no pitch; a line in some facet has the pitch looked up by the first facet that lists it |
| SheetToReport.FacetFlatLabels | sheet_to_report.py:30-34 | the inner loop keeps the labels of a facet's segments whose category is E or R |
| SheetToReport.NeighboringFlatLine | sheet_to_report.py:26-36 | the candidate loop and the sort compute the flat reference line |
| SheetToReport.SortedLastByAngle | sheet_to_report.py:36 | the last element of the stable sort by angle is the last candidate of maximal angle |
| SheetToReport.FlatLabelsSpec | sheet_to_report.py:30-34 | a label is kept exactly when it is a segment of the facet and its category is E or R |
| SheetToReport.FlatCandidatesSpec | sheet_to_report.py:27-34 | a candidate is exactly an E/R segment of some facet that contains the line |
| SheetToReport.FlatReferenceSpec | sheet_to_report.py:26-36 | no reference exactly when there is no candidate; otherwise the reference is an E/R neighbour of maximal angle, the last such among the candidates |
| SheetToReport.FlatReference | sheet_to_report.py:26-36 | no reference exactly when there is no E/R candidate; otherwise the reference is one of the candidates |
| SheetToReport.NoFlatCandidateNoReference | sheet_to_report.py:36 | a line whose facets have no E/R segment has no reference (the `IndexError` case) |
| SheetToReport.Line3DLength | sheet_to_report.py:38-41 | the length is finite exactly when arctan(pitch/12) is not 0; then, when sin(angle) is not 0, it times the foreshortening factor arctan(pitch/12)/\|sin(angle)\| is the drawing length, and when sin(angle) is 0 it is 0; it is infinite exactly when arctan(pitch/12) is 0 and neither sin(angle) nor the drawing length is 0 |
| SheetToReport.Inclined | sheet_to_report.py:135-143 | the length is computed exactly when the reference line and the pitch exist, and it is then `Line3DLength` of the line's drawing length with that pitch and the angle to the reference line; a missing reference is reported first; the length is finite exactly when arctan(pitch/12) is not 0 |
| SheetToReport.ProjectedLength | sheet_to_report.py:119-143 | a projection exists only when the line has a reference line; an R/E line has one exactly then, and it is its drawing length; an inclined line's projection is `Line3DLength` of its drawing length with the pitch of its first facet and the angle to its reference line, and needs a pitch whose arctan is not 0, since otherwise the length is infinite or NaN and the regression rejects it |
| SheetToReport.ProjectRow | sheet_to_report.py:119-143 | a row's regression input: the drawing length for R/E lines, the projected length otherwise, after the reference line lookup both branches make |
| SheetToReport.FlatRowsKeepDrawingLength | sheet_to_report.py:121-122 | an R/E line with a reference line is used at its drawing length |
| SheetToReport.Training | sheet_to_report.py:116-144 | the two sample lists have one entry per row with a known length |
| SheetToReport.TrainingPairs | sheet_to_report.py:116-144 | sample j pairs the projection of the j-th known row with that row's length |
| SheetToReport.TrainingFails | sheet_to_report.py:116-144 | building the samples fails exactly when some row with a known length has no projection |
| SheetToReport.TrainingFailureStays | sheet_to_report.py:116-144 | an error on a prefix of the sheet is the error of the whole loop |
| SheetToReport.BuildTraining | sheet_to_report.py:116-144 | the row loop computes the samples of the sheet |
| SheetToReport.Slope | sheet_to_report.py:146-147 | when some x is not 0 the slope solves the normal equation k·sum(x²) = sum(xy); otherwise it is 0 |
| SheetToReport.SquaredErrorExpands | sheet_to_report.py:146-147 | the squared error of slope k expands to sum(y²) − 2k·sum(xy) + k²·sum(x²) |
| SheetToReport.DotSelf | sheet_to_report.py:146-147 | sum(x²) is non-negative, and positive when some x is not 0 |
| SheetToReport.QuadraticMinimum | sheet_to_report.py:146-147 | b/a minimises the quadratic c − 2kb + k²a when a > 0 |
| SheetToReport.DotScaled | sheet_to_report.py:146-147 | when every y is c·x, sum(xy) = c·sum(x²) |
| SheetToReport.SlopeMinimizesError | sheet_to_report.py:146-147 | the closed-form slope has the least squared error of all lines through the origin |
| SheetToReport.DotOfZeros | sheet_to_report.py:146-147 | with every x 0, sum(xy) is 0, so the fit is 0 |
| SheetToReport.SlopeRecoversExactScale | sheet_to_report.py:146-147 | when every y is c·x and some x is not 0, the slope is exactly c |
| SheetToReport.Prediction | sheet_to_report.py:162-164 | a prediction is never 0; it is the truncation of k·x, or 1 when that truncation is 0 |
| SheetToReport.PredictRows | sheet_to_report.py:149-185 | prediction keeps the sheet's length |
| SheetToReport.PredictRowsSpec | sheet_to_report.py:149-185 | known rows are unchanged; each "-" row gets the prediction from its projection and nothing else changes |
| SheetToReport.PredictRowsFails | sheet_to_report.py:149-185 | prediction fails exactly when some "-" row has no projection |
| SheetToReport.PredictFailureStays | sheet_to_report.py:149-185 | an error on the first m rows is the error of the whole loop |
| SheetToReport.PredictRowsKeepKeys | sheet_to_report.py:149-185 | prediction changes no label, category, pitch or face label, so later lookups see the same sheet |
| SheetToReport.PredictStep | sheet_to_report.py:149-185 | row i is still unchanged before step i, and step i writes only row i |
| SheetToReport.PredictLive | sheet_to_report.py:150-185 | a row predicted against the partly updated sheet equals one predicted against the sheet as read |
| SheetToReport.PredictUnknown | sheet_to_report.py:149-185 | the in-place loop leaves the array equal to the prediction of the sheet as read, or reports its first error |
| SheetToReport.FirstIndexAgrees | sheet_to_report.py:12-24 | a scan sees only what its match test reads |
| SheetToReport.LookupsReadKeys | sheet_to_report.py:12-24 | the category and pitch lookups read only the key columns |
| SheetToReport.FlatCandidatesReadKeys | sheet_to_report.py:26-34 | the reference candidates depend only on the category lookup |
| SheetToReport.FlatLabelsReadKeys | sheet_to_report.py:30-34 | a facet's E/R labels depend only on the category lookup |
| SheetToReport.ProjectedLengthReadsKeys | sheet_to_report.py:119-143 | a row's projection does not depend on the length column |
| SheetToReport.SegmentFactorReadsLengths | sheet_to_report.py:52-75 | a segment's factor does not depend on the area column |
| SheetToReport.ScaleFactorReadsLengths | sheet_to_report.py:50-77 | a facet's scale does not depend on the area column, so area writes do not affect later facets |
| SheetToReport.FactorsAgree | sheet_to_report.py:52-75 | the kept factors depend only on the per-segment factors |
| SheetToReport.RatioOfShares | sheet_to_report.py:68-73 | with non-zero lengths, recorded/(annotated·recorded/drawn) is drawn/annotated |
| SheetToReport.SegmentRatio | sheet_to_report.py:55-75 | a failed drawing length is passed on and an unknown annotated length is an error; a line annotated 0 is skipped; a kept factor comes from a line whose annotated length is not 0 |
| SheetToReport.SegmentDrawingLength | sheet_to_report.py:57-66 | an E/R segment line is compared at its drawing length, and one of length 0 is a division by zero; any other line is `Line3DLength` with the pitch of the facet being measured (not the line's first facet) and the angle to its reference line, computed exactly when both exist |
| SheetToReport.SegmentFactor | sheet_to_report.py:52-75 | when the segment's drawn length is finite and not 0 and its line's length is known, the factor is that drawn length over the annotated length, and the segment is skipped when the annotated or the recorded length is 0; a kept segment belongs to a line whose annotated length is known and not 0 |
| SheetToReport.SegmentRatioIsRatio | sheet_to_report.py:68-75 | for a finite non-zero drawing length, a kept factor is the drawing length over the annotated length; a segment with a zero annotated or recorded length is skipped |
| SheetToReport.SegmentRatioOfDegenerate | sheet_to_report.py:66-75 | a segment of a line projected to length 0 gives the factor 0; a segment of a line projected to an infinite length is skipped |
| SheetToReport.SegmentRatioKept | sheet_to_report.py:68-75 | a segment with non-zero lengths is kept with factor recorded/actual |
| SheetToReport.FactorsSpec | sheet_to_report.py:52-75 | every segment was measured; the kept values are exactly the factors of the segments not skipped, and each value is kept once for every segment that gives it |
| SheetToReport.FactorsAllEqual | sheet_to_report.py:52-75 | segments that all give v keep one v per segment |
| SheetToReport.FactorsFailureStays | sheet_to_report.py:52-75 | an error on a prefix of the segments is the error of the whole loop |
| SheetToReport.ScaleFactor | sheet_to_report.py:50-77 | an unknown facet is an error; a scale exists only when the facet keeps some factor, and with an odd number of factors it is one of them |
| SheetToReport.ScaleFactorMajority | sheet_to_report.py:77 | a factor held by more than half the kept segments is the facet's scale |
| SheetToReport.ScaleFactorOfConsistentFacet | sheet_to_report.py:50-77 | a facet whose segments all give v has scale v |
| SheetToReport.MeasureSegment | sheet_to_report.py:53-73 | one loop iteration computes the segment's factor |
| SheetToReport.CollectFactors | sheet_to_report.py:51-75 | the loop collects the kept factors in order, or stops at the first error |
| SheetToReport.AverageScaleFactor | sheet_to_report.py:50-77 | the facet's scale is the median of its kept factors; an unknown facet or an empty list of factors is an error |
| SheetToReport.EvenArea | sheet_to_report.py:201-204 | the stored area is even, at most one above the truncation, and equal to it when that is even |
| SheetToReport.EvenAreaClose | sheet_to_report.py:201-204 | for a non-negative raw area the stored area is within one of it |
| SheetToReport.TrueArea | sheet_to_report.py:197-204 | the area fails exactly when the cosine of the pitch angle or the scale is 0; otherwise, with raw = drawing area / cos(arctan(pitch/12)) / scale², it is `int(raw)` when that is even and `int(raw) + 1` when it is odd |
| SheetToReport.TrueAreaExample | sheet_to_report.py:197-204 | a facet of drawing area 100 at pitch 6 with scale 1 gets area 112 |
| SheetToReport.FacetArea | sheet_to_report.py:187-206 | an area is computed only for a row index that is also a facet index; it is `TrueArea` of polygon i with the pitch of row i's line and the scale of facet i, so it is even |
| SheetToReport.FillAreasUpTo | sheet_to_report.py:187-206 | filling areas keeps the sheet's length |
| SheetToReport.FillAreasUpToSpec | sheet_to_report.py:187-206 | rows before n get their area and nothing else changes; rows from n on are unchanged |
| SheetToReport.FillAreasUpToFails | sheet_to_report.py:187-206 | filling fails exactly when some area before n fails |
| SheetToReport.FillAreasFailureStays | sheet_to_report.py:187-206 | an error on the first m rows is the error of the whole loop |
| SheetToReport.FacetAreaEven | sheet_to_report.py:187-206 | every facet area written is even |
| SheetToReport.FacetAreaOwnPitch | sheet_to_report.py:191-195 | when facet i is the first facet holding row i's line, the area uses facet i's own pitch |
| SheetToReport.ScaleFactorLive | sheet_to_report.py:191 | the scale computed against the partly filled sheet equals the one against the sheet before area filling |
| SheetToReport.AreaLive | sheet_to_report.py:191-204 | the area computed against the partly filled sheet equals the one against the sheet before area filling |
| SheetToReport.FillAreasKeepLengths | sheet_to_report.py:187-206 | area filling changes nothing but the area column |
| SheetToReport.FillStep | sheet_to_report.py:187-206 | step i writes only row i's area, or fails with that row's error |
| SheetToReport.FillArea | sheet_to_report.py:191-206 | one iteration writes row i's area in place, extending the spec by one row |
| SheetToReport.FillAreas | sheet_to_report.py:187-206 | the in-place loop over the first min(rows, facets) rows leaves the array equal to the filled sheet, or reports the first error |
| SheetToReport.KnownAndDashes | sheet_to_report.py:112-114 | every row either has a known length or is counted as "-" |
| SheetToReport.CheckSheet | sheet_to_report.py:110-114 | a failed check is a missing pitch or too few lengths; a passed check means every pitch is given |
| SheetToReport.CheckSheetSpec | sheet_to_report.py:110-114 | the checks pass exactly when every pitch is given and, if a length is "-", at least two are known; a missing pitch is reported first |
| SheetToReport.CheckedSheetHasTrainingData | sheet_to_report.py:110-114 | a non-empty sheet that passes the checks has a known length |
| SheetToReport.CalibrationOfEmptySheet | sheet_to_report.py:146-147 | an empty sheet gives no samples, and the fit fails |
| SheetToReport.FinishedRun | sheet_to_report.py:149-206 | prediction followed by area filling with even areas changes only the "-" lengths and the first n areas |
| SheetToReport.Calibration | sheet_to_report.py:105-208 | a successful run passed the checks, had at least one known length to fit and writes a sheet with as many rows as it read |
| SheetToReport.CalibrationSpec | sheet_to_report.py:105-208 | the sheet written out keeps every key and known length; each "-" length becomes a whole number that is not 0; each of the first min(rows, facets) areas becomes an even whole number; the other areas are unchanged |
| SheetToReport.Calibrate | sheet_to_report.py:105-208 | the step-by-step run on an array computes the calibration |
| SheetToReport.Measurements | sheet_to_report.py:82-92 | no pitch gives an error; otherwise the predominant pitch is a key with the largest area, the first such in insertion order |
| SheetToReport.SumOverAgree | sheet_to_report.py:83 | sums over the same pitches agree when their totals agree |
| SheetToReport.SumOverBump | sheet_to_report.py:83 | raising one pitch's total raises a sum over distinct pitches by that amount if the pitch is listed |
| SheetToReport.PitchAreaTotalAbsent | create_diagrams.py:142-144 | a pitch with no area row has total 0 |
| SheetToReport.SumOfPitchTotals | sheet_to_report.py:83 | the per-pitch totals add up to the sum of `int(area)` over all rows |
| SheetToReport.PitchMapTotal | sheet_to_report.py:83 | the sum of the pitch map's values is the total area |
| SheetToReport.ReportTotals | sheet_to_report.py:82-92 | the listed total area, facet count and R/H/V/K/E totals are the sheet's totals |
| SheetToReport.ReportPredominantPitch | sheet_to_report.py:85 | the predominant pitch is that of some row with an area and has the largest total of all such pitches |
| Sorting.Insert | sheet_to_report.py:36 | inserting adds exactly the one element |
| Sorting.Sort | sheet_to_report.py:36 | the sort is a permutation of its input |
| Sorting.InsertSorted | sheet_to_report.py:36 | inserting into a sorted list keeps it sorted |
| Sorting.InsertLowerBound | sheet_to_report.py:36 | a lower bound of x and of the list bounds the list after inserting x |
| Sorting.SortSorted | sheet_to_report.py:36 | the sort's output is ordered and a permutation of the input |
| Sorting.KeyOrderTotal | sheet_to_report.py:36 | comparing by a real key is a total preorder |
| Sorting.LastMaxIndex | sheet_to_report.py:36 | the index of a maximal key, after which every key is smaller |
| Sorting.FirstMaxIndex | sheet_to_report.py:85 | the index of a maximal key, before which every key is smaller |
| Sorting.InsertLast | sheet_to_report.py:36 | the last element after an insertion is the old last one unless the new one is strictly greater |
| Sorting.SortLastIsLastMax | sheet_to_report.py:36 | the last element of the stable sort by key is the last element of maximal key |
| Sorting.SortedCountBound | sheet_to_report.py:77 | in a sorted list, an element different from v bounds how often v occurs |
| Sorting.SortedMajority | sheet_to_report.py:77 | in a sorted list, a value held by more than half the elements fills the middle |
| Sorting.Median | sheet_to_report.py:77 | the median of an odd number of values is one of them |
| Sorting.MedianOfMajority | sheet_to_report.py:77 | a value held by more than half the elements is the median |
| Sorting.CountSort | sheet_to_report.py:77 | sorting keeps how many elements pass any test |
| Sorting.MedianRank | sheet_to_report.py:77 | at most half of the values lie strictly below the median and at most half strictly above it |
| Sorting.MedianExample | sheet_to_report.py:77 | factors [1, 1, 1, 5] give 1, not their mean 2 |
| Common.Trunc | sheet_to_report.py:162 | `int()` of a float: the floor for x ≥ 0 and the ceiling for x < 0, so never further from 0 than x |
| Common.Upper | sheet_to_report.py:22 | upper-cases each ASCII letter of the category code and keeps every other character, so the result has the same length |
| ReportWriter.FitImage | ReportWriter.py:41-61 | a division by zero happens only for a zero-height box or an image with a zero side; otherwise the image takes the box's width or its height |
| ReportWriter.AspectCompare | ReportWriter.py:45-48 | for positive sizes, the aspect comparison is the comparison of cross products |
| ReportWriter.CentredOffset | ReportWriter.py:53 | half of a non-negative slack, truncated, leaves the two margins equal or one apart |
| ReportWriter.CentredIn | ReportWriter.py:53 | an inner side centred in an outer one has margins that are equal or one apart |
| ReportWriter.TruncatedFits | ReportWriter.py:51-59 | a truncated side that fits before truncation still fits, and is centred within one |
| ReportWriter.WideHeight | ReportWriter.py:48-51 | for a wider image, box width over image aspect is below the box height |
| ReportWriter.TallWidth | ReportWriter.py:55-57 | for a taller image, box height times image aspect is at most the box width |
| ReportWriter.FitWideForm | ReportWriter.py:48-53 | for a wider image, the placement is box width, truncated height, left edge, centred vertically |
| ReportWriter.FitTallForm | ReportWriter.py:55-59 | for a taller image, the placement is truncated width, box height, centred horizontally, top edge |
| ReportWriter.WidePlacement | ReportWriter.py:48-53 | for a wider image, the aspect-true height fits the box and the placement uses its truncation |
| ReportWriter.TallPlacement | ReportWriter.py:55-59 | for a taller image, the aspect-true width fits the box and the placement uses its truncation |
| ReportWriter.FitWide | ReportWriter.py:48-53 | wider image: the width is the box width at the left edge; the height is the truncated aspect-true height, within the box, centred vertically with non-negative margins equal or one apart |
| ReportWriter.FitTall | ReportWriter.py:55-59 | taller image: the height is the box height at the top edge; the width is the truncated aspect-true width, within the box, centred horizontally with non-negative margins equal or one apart |
| ReportWriter.WiderInReals | ReportWriter.py:48 | the integer wider-than-box test is the same comparison in reals |
| ReportWriter.FitImageInsideBox | ReportWriter.py:41-61 | for a box and an image of positive size, the placed image lies inside the box on all four sides |

## Left out

- Reading and writing CSV files, the sketch files and the report PDF are I/O. So are `print`, the argparse entry points and the `manual` switch of `main`. The sheet is an in-memory sequence of rows and the result is the sheet that would be written.
- The parsing of the sketch and the `Roof` class are not part of this model, nor are the shapely polygon area and the line drawing lengths. They are inputs: a facet table with recorded segment lengths and polygon areas, plus functions for line lengths and angles.
- Trigonometry (`np.arctan`, `np.sin` of an angle in degrees, `np.cos`) and `np.sqrt` in `distance` are parameters. Nothing is assumed about them beyond the worked example's stated bounds on one cosine.
- Floating point rounding is not modelled: floats are exact reals. The exact `==` test in the on-line check is therefore exact in the model.
- SheetToReport.Slope: the sklearn fit is stated as its closed form. With every x equal to 0, the model gives 0, the minimum-norm solution; the solver's internals are not modelled.
- SheetToReport.Line3DLength: numpy division by zero gives inf or nan instead of raising. The model follows it with `Common.Float` (finite, infinite or NaN) but does not track the sign of an infinity, which no later step depends on.
- SheetToReport.ProjectedLength: an infinite or NaN regression input is reported as `NotFinite` at the row that produces it. sklearn raises only when the fit or the prediction is made, after the loop; both abort the run before anything is written.
- SheetToReport.SegmentRatio: an E/R segment line of drawing length 0 is a `ZeroDivision` error, taking `line.drawing_length` to be a Python float, whose division by zero raises. Inclined lines follow numpy: a line projected to 0 gives the factor 0 and one projected to infinity is skipped (`SegmentRatioOfDegenerate`). A NaN factor is reported as `NotFinite` at once, where numpy's median would give nan and `int(nan)` would raise when the area is computed.
- SheetToReport.TrueArea: a cosine or a scale of 0 makes numpy produce inf or nan, and `int()` of either raises. The model reports `ZeroDivision`.
- Common.Upper: upper-cases ASCII letters only; Python's `str.upper()` also maps other letters. Only the line-type codes are upper-cased, and they are compared with ASCII letters.
- SheetToReport.AverageScaleFactor: numpy's median of an empty list is nan with a warning. The model reports `NoScaleFactor`, and the run stops there.
- Every error aborts the whole run. `CalibrationSpec` states what a successful run writes. An aborted run writes nothing, which holds because the output is only returned on success.
- The "-" sentinel is an absent value. Comparisons of a float column with "-" after CSV type inference are not modelled.
- The diagrams (`create_length_diagram`, `create_face_diagrams`, `create_diagrams`) are matplotlib drawing. They are left out.
- The page composition of the report (fonts, text, tables, waste percentages) is PIL rendering and float formatting. It is left out, as is the "/12" formatting of the predominant pitch.
- `ReportWriter.FitImage` returns the size and position. The image resize itself is left out.
- The count of facet rows in the report (`CountAreas`) counts non-null area cells, as pandas' `count()` does. It is a number, not a set of facets.
- The reference line found for an R/E row in the training and prediction loops is computed and then unused, except that an empty candidate list aborts. The model keeps the lookup for its error and drops the unused angle.
- The ghost `area` and `factor` parameters of `FillAreas`, `FillArea` and `CollectFactors` only name the specification functions those loops are proved against. They have no counterpart in the program.
