/**
 * Scale calibration and area estimation. The data sheet gives, per drawn
 * line, a category code, an optional real length and a pitch; the roof gives
 * the facets with their boundary segments and drawing-space areas. A single
 * zero-intercept scale is fitted from the lines with known lengths, the other
 * lengths are predicted with it, and each facet's true area is filled in.
 */
module SheetToReport {
  import opened Common
  import opened Sorting
  import CreateDiagrams

  // ---------------------------------------------------------------------
  // Data
  // ---------------------------------------------------------------------

  /**
   * A row of the data sheet: Line Label, Type (R, H, V, K, E), Length (ft.),
   * Pitch, Area (ft.^2) and Face Label. A length or pitch of None is the "-"
   * sentinel; an area or face label of None is an empty cell.
   */
  datatype Row = Row(
    lineLabel: string,
    lineType: string,
    length: Option<real>,
    pitch: Option<real>,
    area: Option<real>,
    faceLabel: Option<string>)

  /** A boundary segment of a facet, with the drawing length the roof records for it there. */
  datatype Segment = Segment(id: string, drawingLength: real)

  /** A facet id and its boundary segments, in the order the roof lists them. */
  datatype Facet = Facet(id: string, segments: seq<Segment>)

  /**
   * What the calibration reads from the parsed sketch: the facet-to-segments
   * table in dictionary order, and the drawing-space area of each facet polygon.
   */
  datatype Roof = Roof(facets: seq<Facet>, polygonAreas: seq<real>)

  /**
   * Geometry taken as given: a line's drawing length and the angle between two
   * lines, both looked up by line id, and the arctangent, the sine of an
   * angle in degrees, and the cosine.
   */
  datatype Geometry = Geometry(
    lineLength: string -> real,
    angle: (string, string) -> real,
    arctan: real -> real,
    sinDeg: real -> real,
    cos: real -> real)

  /** Why a run stops; each aborts the whole run before anything is written out. */
  datatype Error =
    | MissingPitch
    | TooFewLengths
    | NoTrainingData
    | NoFlatReference(line: string)
    | NoPitch(line: string)
    | UnknownLength(line: string)
    | ZeroDivision(at: string)
    | NotFinite(line: string)
    | UnknownFacet(facet: string)
    | NoScaleFactor(facet: string)
    | NoAreas

  function Min(a: int, b: int): int
  {
    if a <= b then a else b
  }

  // ---------------------------------------------------------------------
  // First-match lookups
  // ---------------------------------------------------------------------

  /** The index of the first row satisfying p. */
  function FirstIndex(rows: seq<Row>, p: Row -> bool): (r: Option<nat>)
    ensures r.Some? ==> r.value < |rows| && p(rows[r.value])
    ensures r.Some? ==> forall j :: 0 <= j < r.value ==> !p(rows[j])
    ensures r.None? ==> forall j :: 0 <= j < |rows| ==> !p(rows[j])
  {
    if rows == [] then None
    else if p(rows[0]) then Some(0)
    else
      var rest := FirstIndex(rows[1..], p);
      if rest.None? then None else Some(rest.value + 1)
  }

  function HasLabel(id: string): Row -> bool
  {
    (row: Row) => row.lineLabel == id
  }

  function HasFace(facet: string): Row -> bool
  {
    (row: Row) => row.faceLabel == Some(facet)
  }

  /** The upper-cased category of the first row for line id. */
  function LineType(id: string, rows: seq<Row>): (r: Option<string>)
    ensures r.None? <==> forall j :: 0 <= j < |rows| ==> rows[j].lineLabel != id
    ensures r.Some? ==>
      exists i :: 0 <= i < |rows| && rows[i].lineLabel == id
        && r.value == Upper(rows[i].lineType)
        && forall j :: 0 <= j < i ==> rows[j].lineLabel != id
  {
    var i := FirstIndex(rows, HasLabel(id));
    if i.None? then
      assert forall j :: 0 <= j < |rows| ==> !HasLabel(id)(rows[j]);
      None
    else
      assert HasLabel(id)(rows[i.value]);
      assert forall j :: 0 <= j < i.value ==> !HasLabel(id)(rows[j]);
      Some(Upper(rows[i.value].lineType))
  }

  /** The pitch on the first row of the facet; None when there is none or it is "-". */
  function FacetPitch(facet: string, rows: seq<Row>): (r: Option<real>)
    ensures r.Some? ==>
      exists i :: 0 <= i < |rows| && rows[i].faceLabel == Some(facet)
        && rows[i].pitch == r
        && forall j :: 0 <= j < i ==> rows[j].faceLabel != Some(facet)
    ensures (forall j :: 0 <= j < |rows| ==> rows[j].faceLabel != Some(facet)) ==> r.None?
    ensures forall i ::
      (0 <= i < |rows| && rows[i].faceLabel == Some(facet) && forall j :: 0 <= j < i ==> rows[j].faceLabel != Some(facet))
      ==> r == rows[i].pitch
  {
    var i := FirstIndex(rows, HasFace(facet));
    if i.None? then
      assert forall j :: 0 <= j < |rows| ==> !HasFace(facet)(rows[j]);
      None
    else
      assert HasFace(facet)(rows[i.value]);
      assert forall j :: 0 <= j < i.value ==> !HasFace(facet)(rows[j]);
      rows[i.value].pitch
  }

  /** The length on the first row for line id; None when there is none or it is "-". */
  function ActualLength(id: string, rows: seq<Row>): (r: Option<real>)
    ensures r.Some? ==>
      exists i :: 0 <= i < |rows| && rows[i].lineLabel == id
        && rows[i].length == r
        && forall j :: 0 <= j < i ==> rows[j].lineLabel != id
    ensures (forall j :: 0 <= j < |rows| ==> rows[j].lineLabel != id) ==> r.None?
    ensures forall i ::
      (0 <= i < |rows| && rows[i].lineLabel == id && forall j :: 0 <= j < i ==> rows[j].lineLabel != id)
      ==> r == rows[i].length
  {
    var i := FirstIndex(rows, HasLabel(id));
    if i.None? then
      assert forall j :: 0 <= j < |rows| ==> !HasLabel(id)(rows[j]);
      None
    else
      assert HasLabel(id)(rows[i.value]);
      assert forall j :: 0 <= j < i.value ==> !HasLabel(id)(rows[j]);
      rows[i.value].length
  }

  predicate HasSegment(f: Facet, id: string)
  {
    exists s :: s in f.segments && s.id == id
  }

  /** The id of the first facet, in dictionary order, that has segment id. */
  function FacetLabel(id: string, facets: seq<Facet>): (r: Option<string>)
    ensures r.Some? ==>
      exists i :: 0 <= i < |facets| && facets[i].id == r.value
        && HasSegment(facets[i], id)
        && forall j :: 0 <= j < i ==> !HasSegment(facets[j], id)
    ensures r.None? <==> forall j :: 0 <= j < |facets| ==> !HasSegment(facets[j], id)
  {
    if facets == [] then None
    else if HasSegment(facets[0], id) then Some(facets[0].id)
    else
      var rest := FacetLabel(id, facets[1..]);
      if rest.Some? then
        var i :| 0 <= i < |facets[1..]| && facets[1..][i].id == rest.value
          && HasSegment(facets[1..][i], id)
          && forall j :: 0 <= j < i ==> !HasSegment(facets[1..][j], id);
        assert facets[i + 1] == facets[1..][i];
        assert forall j :: 1 <= j < i + 1 ==> facets[j] == facets[1..][j - 1];
        rest
      else
        assert forall j :: 1 <= j < |facets| ==> facets[j] == facets[1..][j - 1];
        rest
  }

  /** The facet stored under key id. */
  function FindFacet(id: string, facets: seq<Facet>): (r: Option<Facet>)
    ensures r.Some? ==> r.value in facets && r.value.id == id
    ensures r.None? <==> forall f :: f in facets ==> f.id != id
  {
    if facets == [] then None
    else if facets[0].id == id then Some(facets[0])
    else FindFacet(id, facets[1..])
  }

  /** The pitch of the first facet that contains line id. */
  function LinePitch(id: string, roof: Roof, rows: seq<Row>): (r: Option<real>)
    ensures FacetLabel(id, roof.facets).None? ==> r.None?
    ensures FacetLabel(id, roof.facets).Some? ==> r == FacetPitch(FacetLabel(id, roof.facets).value, rows)
  {
    var facet := FacetLabel(id, roof.facets);
    if facet.Some? then FacetPitch(facet.value, rows) else None
  }

  // ---------------------------------------------------------------------
  // The flat reference line of a line
  // ---------------------------------------------------------------------

  /** Eaves and ridges lie in the horizontal plane. */
  predicate IsFlat(t: Option<string>)
  {
    t == Some("E") || t == Some("R")
  }

  predicate IsFlatCode(code: string)
  {
    IsFlat(Some(Upper(code)))
  }

  /** The eave and ridge segments among segments, in order, repeats kept. */
  function FlatLabels(segments: seq<Segment>, rows: seq<Row>): seq<string>
  {
    if segments == [] then []
    else
      var s := segments[|segments| - 1];
      FlatLabels(segments[..|segments| - 1], rows) + (if IsFlat(LineType(s.id, rows)) then [s.id] else [])
  }

  /** The reference candidates of line id: the eaves and ridges of every facet containing it. */
  function FlatCandidates(id: string, facets: seq<Facet>, rows: seq<Row>): seq<string>
  {
    if facets == [] then []
    else
      var f := facets[|facets| - 1];
      FlatCandidates(id, facets[..|facets| - 1], rows) + (if HasSegment(f, id) then FlatLabels(f.segments, rows) else [])
  }

  function AngleKey(id: string, geo: Geometry): string -> real
  {
    other => geo.angle(id, other)
  }

  function AngleLe(id: string, geo: Geometry): (string, string) -> bool
  {
    (a, b) => geo.angle(id, a) <= geo.angle(id, b)
  }

  /** The candidate at the largest angle to line id, the last one among equal angles. */
  function FlatReference(id: string, roof: Roof, rows: seq<Row>, geo: Geometry): (r: Option<string>)
    ensures r.None? <==> FlatCandidates(id, roof.facets, rows) == []
    ensures r.Some? ==> r.value in FlatCandidates(id, roof.facets, rows)
  {
    var c := FlatCandidates(id, roof.facets, rows);
    if c == [] then None else Some(c[LastMaxIndex(c, AngleKey(id, geo))])
  }

  /** The eave and ridge segments of one facet, in order. */
  method FacetFlatLabels(segments: seq<Segment>, rows: seq<Row>) returns (labels: seq<string>)
    ensures labels == FlatLabels(segments, rows)
  {
    labels := [];
    var j := 0;
    while j < |segments|
      invariant 0 <= j <= |segments|
      invariant labels == FlatLabels(segments[..j], rows)
    {
      var segId := segments[j].id;
      assert segments[..j + 1][..j] == segments[..j];
      if IsFlat(LineType(segId, rows)) {
        labels := labels + [segId];
      }
      j := j + 1;
    }
    assert segments[..j] == segments;
  }

  /**
   * Collects the eave and ridge segments of every facet that contains the
   * line and returns the one sorted last by angle to the line.
   */
  method NeighboringFlatLine(id: string, roof: Roof, rows: seq<Row>, geo: Geometry) returns (r: Option<string>)
    ensures r == FlatReference(id, roof, rows, geo)
  {
    var refLines: seq<string> := [];
    var i := 0;
    while i < |roof.facets|
      invariant 0 <= i <= |roof.facets|
      invariant refLines == FlatCandidates(id, roof.facets[..i], rows)
    {
      var facet := roof.facets[i];
      assert roof.facets[..i + 1][..i] == roof.facets[..i];
      if HasSegment(facet, id) {
        var labels := FacetFlatLabels(facet.segments, rows);
        refLines := refLines + labels;
      }
      i := i + 1;
    }
    assert roof.facets[..i] == roof.facets;
    if refLines == [] {
      return None;
    }
    var last := SortedLastByAngle(id, refLines, geo);
    r := Some(last);
  }

  /** The last of the lines sorted by angle to line id: the last one at the largest angle. */
  method SortedLastByAngle(id: string, lines: seq<string>, geo: Geometry) returns (r: string)
    requires lines != []
    ensures r == lines[LastMaxIndex(lines, AngleKey(id, geo))]
  {
    var sorted := Sort(lines, AngleLe(id, geo));
    SortLastIsLastMax(lines, AngleLe(id, geo), AngleKey(id, geo));
    r := sorted[|sorted| - 1];
  }

  lemma {:induction false} FlatLabelsSpec(segments: seq<Segment>, rows: seq<Row>, c: string)
    ensures c in FlatLabels(segments, rows)
      <==> (exists s :: s in segments && s.id == c) && IsFlat(LineType(c, rows))
  {
    if segments != [] {
      var init, last := segments[..|segments| - 1], segments[|segments| - 1];
      FlatLabelsSpec(init, rows, c);
      SegmentIdSplit(segments, c);
    }
  }

  /** A segment with id c is in the last place or in the ones before it. */
  lemma SegmentIdSplit(segments: seq<Segment>, c: string)
    requires segments != []
    ensures (exists s :: s in segments && s.id == c)
      <==> (exists s :: s in segments[..|segments| - 1] && s.id == c) || segments[|segments| - 1].id == c
  {
    var init := segments[..|segments| - 1];
    assert segments == init + [segments[|segments| - 1]];
  }

  /** A candidate is an eave or ridge segment of some facet that contains the line. */
  lemma {:induction false} FlatCandidatesSpec(id: string, facets: seq<Facet>, rows: seq<Row>, c: string)
    ensures c in FlatCandidates(id, facets, rows)
      <==> exists f :: f in facets && HasSegment(f, id) && HasSegment(f, c) && IsFlat(LineType(c, rows))
  {
    if facets != [] {
      var last := facets[|facets| - 1];
      FlatCandidatesSpec(id, facets[..|facets| - 1], rows, c);
      FlatLabelsSpec(last.segments, rows, c);
      FacetSplit(id, facets, c, IsFlat(LineType(c, rows)));
    }
  }

  /** A facet holding both lines is the last facet or one before it. */
  lemma FacetSplit(id: string, facets: seq<Facet>, c: string, flat: bool)
    requires facets != []
    ensures (exists f :: f in facets && HasSegment(f, id) && HasSegment(f, c) && flat)
      <==> (exists f :: f in facets[..|facets| - 1] && HasSegment(f, id) && HasSegment(f, c) && flat)
           || (HasSegment(facets[|facets| - 1], id) && HasSegment(facets[|facets| - 1], c) && flat)
  {
    var init := facets[..|facets| - 1];
    assert facets == init + [facets[|facets| - 1]];
  }

  /**
   * The reference line exists exactly when some facet of the line has an eave
   * or ridge; it is such a segment, no candidate is at a larger angle, and
   * every later candidate is at a smaller one.
   */
  lemma FlatReferenceSpec(id: string, roof: Roof, rows: seq<Row>, geo: Geometry)
    ensures var c := FlatCandidates(id, roof.facets, rows);
      FlatReference(id, roof, rows, geo).None? <==> c == []
    ensures var r := FlatReference(id, roof, rows, geo);
      var c := FlatCandidates(id, roof.facets, rows);
      r.Some? ==>
        && (exists f :: f in roof.facets && HasSegment(f, id) && HasSegment(f, r.value) && IsFlat(LineType(r.value, rows)))
        && (forall j :: 0 <= j < |c| ==> geo.angle(id, c[j]) <= geo.angle(id, r.value))
        && (exists i :: 0 <= i < |c| && c[i] == r.value
              && forall j :: i < j < |c| ==> geo.angle(id, c[j]) < geo.angle(id, r.value))
  {
    var c := FlatCandidates(id, roof.facets, rows);
    if c != [] {
      var i := LastMaxIndex(c, AngleKey(id, geo));
      FlatCandidatesSpec(id, roof.facets, rows, c[i]);
      assert forall j :: 0 <= j < |c| ==> AngleKey(id, geo)(c[j]) == geo.angle(id, c[j]);
    }
  }

  /** With no eave or ridge on any facet of the line, there is no reference line. */
  lemma NoFlatCandidateNoReference(id: string, roof: Roof, rows: seq<Row>, geo: Geometry)
    requires forall f, s :: f in roof.facets && HasSegment(f, id) && s in f.segments ==> !IsFlat(LineType(s.id, rows))
    ensures FlatReference(id, roof, rows, geo).None?
  {
    var c := FlatCandidates(id, roof.facets, rows);
    if c != [] {
      FlatCandidatesSpec(id, roof.facets, rows, c[0]);
    }
  }

  // ---------------------------------------------------------------------
  // Length projection
  // ---------------------------------------------------------------------

  /**
   * A drawing length divided by the foreshortening factor
   * arctan(pitch / 12) / |sin(angle)|, in numpy's arithmetic: a zero sine
   * makes the factor infinite and the length 0, a zero arctangent makes the
   * factor 0 and the length infinite, or NaN when that meets another 0.
   */
  function Line3DLength(drawingLength: real, pitch: real, angle: real, geo: Geometry): (r: Float)
    ensures r.Finite? <==> geo.arctan(pitch / 12.0) != 0.0
    ensures r.Finite? && geo.sinDeg(angle) != 0.0 ==>
      r.value * (geo.arctan(pitch / 12.0) / Abs(geo.sinDeg(angle))) == drawingLength
    ensures r.Finite? && geo.sinDeg(angle) == 0.0 ==> r.value == 0.0
    ensures r == Infinite <==> geo.arctan(pitch / 12.0) == 0.0 && geo.sinDeg(angle) != 0.0 && drawingLength != 0.0
  {
    DivideBy(drawingLength, Divide(geo.arctan(pitch / 12.0), Abs(geo.sinDeg(angle))))
  }

  /** The length of an inclined line once its reference line and pitch are known. */
  function Inclined(id: string, pitch: Option<real>, reference: Option<string>, geo: Geometry): (r: Result<Float, Error>)
    ensures r.Success? <==> reference.Some? && pitch.Some?
    ensures reference.None? ==> r == Failure(NoFlatReference(id))
    ensures r.Success? ==> (r.value.Finite? <==> geo.arctan(pitch.value / 12.0) != 0.0)
    ensures r.Success? ==> r.value == Line3DLength(geo.lineLength(id), pitch.value, geo.angle(id, reference.value), geo)
  {
    if reference.None? then Failure(NoFlatReference(id))
    else if pitch.None? then Failure(NoPitch(id))
    else Success(Line3DLength(geo.lineLength(id), pitch.value, geo.angle(id, reference.value), geo))
  }

  /**
   * The regression input for a sheet row: an eave or ridge keeps its drawing
   * length, any other line is projected with the pitch of its first facet.
   * Both kinds look up the reference line, which fails without one. An
   * infinite or NaN projection is rejected by the regression.
   */
  function ProjectedLength(id: string, flat: bool, rows: seq<Row>, roof: Roof, geo: Geometry): (r: Result<real, Error>)
    ensures r.Success? ==> FlatReference(id, roof, rows, geo).Some?
    ensures flat ==> (r.Success? <==> FlatReference(id, roof, rows, geo).Some?)
    ensures flat && r.Success? ==> r.value == geo.lineLength(id)
    ensures !flat && r.Success? ==>
      LinePitch(id, roof, rows).Some? && geo.arctan(LinePitch(id, roof, rows).value / 12.0) != 0.0
    ensures !flat && r.Success? ==>
      Finite(r.value) == Line3DLength(geo.lineLength(id), LinePitch(id, roof, rows).value,
                                      geo.angle(id, FlatReference(id, roof, rows, geo).value), geo)
  {
    var reference := FlatReference(id, roof, rows, geo);
    if flat then
      if reference.None? then Failure(NoFlatReference(id)) else Success(geo.lineLength(id))
    else
      var x := Inclined(id, LinePitch(id, roof, rows), reference, geo);
      if x.Failure? then Failure(x.error)
      else if x.value.Finite? then Success(x.value.value)
      else Failure(NotFinite(id))
  }

  /** The per-row branch both row loops of the run repeat. */
  method ProjectRow(id: string, flat: bool, rows: seq<Row>, roof: Roof, geo: Geometry) returns (r: Result<real, Error>)
    ensures r == ProjectedLength(id, flat, rows, roof, geo)
  {
    if flat {
      var reference := NeighboringFlatLine(id, roof, rows, geo);
      if reference.None? {
        return Failure(NoFlatReference(id));
      }
      return Success(geo.lineLength(id));
    }
    var pitch := LinePitch(id, roof, rows);
    var reference := NeighboringFlatLine(id, roof, rows, geo);
    var x := Inclined(id, pitch, reference, geo);
    if x.Failure? {
      return Failure(x.error);
    }
    if !x.value.Finite? {
      return Failure(NotFinite(id));
    }
    r := Success(x.value.value);
  }

  /** An eave or ridge is used at its drawing length; the projection applies only to other lines. */
  lemma FlatRowsKeepDrawingLength(id: string, rows: seq<Row>, roof: Roof, geo: Geometry)
    requires FlatReference(id, roof, rows, geo).Some?
    ensures ProjectedLength(id, true, rows, roof, geo) == Success(geo.lineLength(id))
  {
  }
  // ---------------------------------------------------------------------
  // Calibration: the regression samples and the fitted slope
  // ---------------------------------------------------------------------

  /** The rows with a known length, in order. */
  function Known(rows: seq<Row>): seq<Row>
  {
    if rows == [] then []
    else
      var row := rows[|rows| - 1];
      Known(rows[..|rows| - 1]) + (if row.length.Some? then [row] else [])
  }

  /** The regression input of a row: its line's projected length, looked up in the sheet `all`. */
  function RowProjection(all: seq<Row>, roof: Roof, geo: Geometry): Row -> Result<real, Error>
  {
    (row: Row) => ProjectedLength(row.lineLabel, IsFlatCode(row.lineType), all, roof, geo)
  }

  /**
   * The regression samples: for each row with a known length, in row order,
   * its projection and its known length; the first failing projection aborts.
   */
  function Training(rows: seq<Row>, project: Row -> Result<real, Error>): (r: Result<(seq<real>, seq<real>), Error>)
    ensures r.Success? ==> |r.value.0| == |Known(rows)| && |r.value.1| == |Known(rows)|
  {
    if rows == [] then Success(([], []))
    else
      var prev := Training(rows[..|rows| - 1], project);
      var row := rows[|rows| - 1];
      if prev.Failure? || row.length.None? then prev
      else
        var x := project(row);
        if x.Failure? then Failure(x.error)
        else Success((prev.value.0 + [x.value], prev.value.1 + [row.length.value]))
  }

  /** Sample j pairs the projection of the j-th known row with that row's length. */
  lemma {:induction false} TrainingPairs(rows: seq<Row>, project: Row -> Result<real, Error>)
    requires Training(rows, project).Success?
    ensures var t := Training(rows, project).value;
      var k := Known(rows);
      forall j :: 0 <= j < |k| ==>
        && k[j].length.Some?
        && t.1[j] == k[j].length.value
        && project(k[j]) == Success(t.0[j])
  {
    if rows != [] {
      var init := rows[..|rows| - 1];
      TrainingPairs(init, project);
      var k0 := Known(init);
      var row := rows[|rows| - 1];
      assert Known(rows) == k0 + (if row.length.Some? then [row] else []);
      var t0 := Training(init, project).value;
      var t := Training(rows, project).value;
      var k := Known(rows);
      forall j | 0 <= j < |k|
        ensures k[j].length.Some? && t.1[j] == k[j].length.value && project(k[j]) == Success(t.0[j])
      {
        if j < |k0| {
          assert k[j] == k0[j];
          assert t.0[j] == t0.0[j] && t.1[j] == t0.1[j];
        } else {
          assert k[j] == row && t.0 == t0.0 + [project(row).value] && t.1 == t0.1 + [row.length.value];
        }
      }
    }
  }

  /** Collecting the samples fails exactly when some row with a known length cannot be projected. */
  lemma {:induction false} TrainingFails(rows: seq<Row>, project: Row -> Result<real, Error>)
    ensures Training(rows, project).Failure? <==>
      exists j :: 0 <= j < |rows| && rows[j].length.Some? && project(rows[j]).Failure?
  {
    if rows != [] {
      var init := rows[..|rows| - 1];
      TrainingFails(init, project);
      assert forall j :: 0 <= j < |init| ==> init[j] == rows[j];
    }
  }

  /** Once a prefix fails, the whole sheet fails with the same error. */
  lemma {:induction false} TrainingFailureStays(rows: seq<Row>, n: nat, project: Row -> Result<real, Error>)
    requires n <= |rows|
    requires Training(rows[..n], project).Failure?
    ensures Training(rows, project) == Training(rows[..n], project)
  {
    if n < |rows| {
      assert rows[..|rows| - 1][..n] == rows[..n];
      TrainingFailureStays(rows[..|rows| - 1], n, project);
    } else {
      assert rows[..n] == rows;
    }
  }

  /** Builds the X and Y columns row by row, stopping at the first error. */
  method BuildTraining(rows: seq<Row>, roof: Roof, geo: Geometry) returns (r: Result<(seq<real>, seq<real>), Error>)
    ensures r == Training(rows, RowProjection(rows, roof, geo))
  {
    ghost var project := RowProjection(rows, roof, geo);
    var xs: seq<real> := [];
    var ys: seq<real> := [];
    var i := 0;
    while i < |rows|
      invariant 0 <= i <= |rows|
      invariant Training(rows[..i], project) == Success((xs, ys))
    {
      var row := rows[i];
      assert rows[..i + 1][..i] == rows[..i];
      if row.length.Some? {
        var x := ProjectRow(row.lineLabel, IsFlatCode(row.lineType), rows, roof, geo);
        assert x == project(row);
        if x.Failure? {
          TrainingFailureStays(rows, i + 1, project);
          return Failure(x.error);
        }
        xs := xs + [x.value];
        ys := ys + [row.length.value];
      }
      i := i + 1;
    }
    assert rows[..i] == rows;
    r := Success((xs, ys));
  }

  /** The sum of x[i] * y[i]. */
  function Dot(xs: seq<real>, ys: seq<real>): real
    requires |xs| == |ys|
  {
    if xs == [] then 0.0 else xs[0] * ys[0] + Dot(xs[1..], ys[1..])
  }

  /**
   * The least-squares slope of a line through the origin, which is what a
   * regression without intercept fits: sum(x * y) / sum(x * x), and 0 when
   * every x is 0, the minimum-norm solution.
   */
  function Slope(xs: seq<real>, ys: seq<real>): (k: real)
    requires |xs| == |ys|
    ensures Dot(xs, xs) != 0.0 ==> k * Dot(xs, xs) == Dot(xs, ys)
    ensures Dot(xs, xs) == 0.0 ==> k == 0.0
  {
    var sxx := Dot(xs, xs);
    if sxx == 0.0 then 0.0 else Dot(xs, ys) / sxx
  }

  /** The sum of squared residuals of the line y = k * x. */
  function SquaredError(xs: seq<real>, ys: seq<real>, k: real): real
    requires |xs| == |ys|
  {
    if xs == [] then 0.0
    else (ys[0] - k * xs[0]) * (ys[0] - k * xs[0]) + SquaredError(xs[1..], ys[1..], k)
  }

  /** se is the quadratic yy - 2k xy + k^2 xx in the slope k. */
  predicate Expanded(se: real, yy: real, xy: real, xx: real, k: real)
  {
    se == yy - 2.0 * k * xy + k * k * xx
  }

  /** The squared error of slope k, expanded: sum(y^2) - 2k sum(xy) + k^2 sum(x^2). */
  lemma {:induction false} SquaredErrorExpands(xs: seq<real>, ys: seq<real>, k: real)
    requires |xs| == |ys|
    ensures Expanded(SquaredError(xs, ys, k), Dot(ys, ys), Dot(xs, ys), Dot(xs, xs), k)
  {
    if xs != [] {
      SquaredErrorExpands(xs[1..], ys[1..], k);
      ExpandStep(xs[0], ys[0], k, SquaredError(xs, ys, k), SquaredError(xs[1..], ys[1..], k),
        Dot(ys[1..], ys[1..]), Dot(xs[1..], ys[1..]), Dot(xs[1..], xs[1..]),
        Dot(ys, ys), Dot(xs, ys), Dot(xs, xs));
    } else {
      ExpandEmpty(k, SquaredError(xs, ys, k), Dot(ys, ys), Dot(xs, ys), Dot(xs, xs));
    }
  }

  /** With no points, the error and every sum are 0, so the expansion holds. */
  lemma ExpandEmpty(k: real, se: real, yy: real, xy: real, xx: real)
    requires se == 0.0 && yy == 0.0 && xy == 0.0 && xx == 0.0
    ensures Expanded(se, yy, xy, xx, k)
  {
  }

  /** One more residual, expanded: (y - kx)^2 added to the expanded rest is the expanded whole. */
  lemma ExpandStep(x: real, y: real, k: real, se: real, rest: real, a: real, b: real, c: real, yy: real, xy: real, xx: real)
    requires se == (y - k * x) * (y - k * x) + rest
    requires Expanded(rest, a, b, c, k)
    requires yy == y * y + a && xy == x * y + b && xx == x * x + c
    ensures Expanded(se, yy, xy, xx, k)
  {
    SquareOfResidual(x, y, k);
    Distribute(2.0 * k, x * y, b);
    Distribute(k * k, x * x, c);
    assert 2.0 * k * xy == 2.0 * k * (x * y) + 2.0 * k * b;
    assert k * k * xx == k * k * (x * x) + k * k * c;
  }

  lemma SquareOfResidual(x: real, y: real, k: real)
    ensures (y - k * x) * (y - k * x) == y * y - 2.0 * k * (x * y) + k * k * (x * x)
  {
  }

  lemma Distribute(m: real, p: real, q: real)
    ensures m * (p + q) == m * p + m * q
  {
  }

  lemma ProductPlus(y: real, z: real, r: real)
    requires r >= 0.0
    requires (y > 0.0 && z > 0.0) || (y < 0.0 && z < 0.0)
    ensures y * z + r > 0.0
  {
  }

  lemma ProductPlusNonneg(y: real, z: real, r: real)
    requires r >= 0.0
    requires y == z
    ensures y * z + r >= 0.0
  {
  }

  /** A sum of squares is never negative, and positive once one term is not 0. */
  lemma {:induction false} DotSelf(xs: seq<real>)
    ensures Dot(xs, xs) >= 0.0
    ensures (exists i :: 0 <= i < |xs| && xs[i] != 0.0) ==> Dot(xs, xs) > 0.0
  {
    if xs != [] {
      DotSelf(xs[1..]);
      var r := Dot(xs[1..], xs[1..]);
      ProductPlusNonneg(xs[0], xs[0], r);
      if xs[0] != 0.0 {
        ProductPlus(xs[0], xs[0], r);
      }
      if exists i :: 0 <= i < |xs| && xs[i] != 0.0 {
        var i :| 0 <= i < |xs| && xs[i] != 0.0;
        if i > 0 {
          assert xs[1..][i - 1] != 0.0;
        }
      }
    }
  }

  /** The quadratic c - 2kb + k^2 a with a > 0 is least at k = b / a. */
  lemma QuadraticMinimum(a: real, b: real, c: real, k: real)
    requires a > 0.0
    ensures c - 2.0 * (b / a) * b + (b / a) * (b / a) * a <= c - 2.0 * k * b + k * k * a
  {
    var s := b / a;
    var d := k - s;
    assert b == s * a;
    assert c - 2.0 * k * b + k * k * a == (c - 2.0 * s * b + s * s * a) + a * (d * d);
    if d != 0.0 {
      ProductPlus(d, d, 0.0);
      assert a * (d * d) > 0.0;
    }
  }

  /** The samples of the line y = c * x at the given xs. */
  function Scaled(xs: seq<real>, c: real): (ys: seq<real>)
    ensures |ys| == |xs|
  {
    if xs == [] then [] else [c * xs[0]] + Scaled(xs[1..], c)
  }

  lemma {:induction false} DotOfScaled(xs: seq<real>, c: real)
    ensures Dot(xs, Scaled(xs, c)) == c * Dot(xs, xs)
  {
    var ys := Scaled(xs, c);
    if xs != [] {
      assert ys[1..] == Scaled(xs[1..], c);
      DotOfScaled(xs[1..], c);
      ScaledStep(xs[0], ys[0], c, Dot(xs[1..], ys[1..]), Dot(xs[1..], xs[1..]), Dot(xs, ys), Dot(xs, xs));
    } else {
      ScaledZero(c, Dot(xs, ys), Dot(xs, xs));
    }
  }

  lemma {:induction false} ScaledOf(xs: seq<real>, ys: seq<real>, c: real)
    requires |xs| == |ys|
    requires forall i :: 0 <= i < |xs| ==> ys[i] == c * xs[i]
    ensures ys == Scaled(xs, c)
  {
    if xs != [] {
      var xt, yt := xs[1..], ys[1..];
      forall i | 0 <= i < |xt|
        ensures yt[i] == c * xt[i]
      {
        assert yt[i] == ys[i + 1] && xt[i] == xs[i + 1];
      }
      ScaledOf(xt, yt, c);
      assert ys[0] == c * xs[0];
      assert Scaled(xs, c) == [c * xs[0]] + Scaled(xt, c);
      assert ys == [ys[0]] + yt;
    }
  }

  lemma DotScaled(xs: seq<real>, ys: seq<real>, c: real)
    requires |xs| == |ys|
    requires forall i :: 0 <= i < |xs| ==> ys[i] == c * xs[i]
    ensures Dot(xs, ys) == c * Dot(xs, xs)
  {
    ScaledOf(xs, ys, c);
    DotOfScaled(xs, c);
  }

  lemma ScaledZero(c: real, xy: real, xx: real)
    requires xy == 0.0 && xx == 0.0
    ensures xy == c * xx
  {
  }

  /** One more point on the line y = c * x keeps sum(xy) at c times sum(x^2). */
  lemma ScaledStep(x: real, y: real, c: real, xy: real, xx: real, xy': real, xx': real)
    requires y == c * x
    requires xy == c * xx
    requires xy' == x * y + xy && xx' == x * x + xx
    ensures xy' == c * xx'
  {
    assert x * y == c * (x * x);
    Distribute(c, x * x, xx);
  }

  /** The fitted slope minimises the squared error among all lines through the origin. */
  lemma SlopeMinimizesError(xs: seq<real>, ys: seq<real>, k: real)
    requires |xs| == |ys|
    ensures SquaredError(xs, ys, Slope(xs, ys)) <= SquaredError(xs, ys, k)
  {
    var a, b, c := Dot(xs, xs), Dot(xs, ys), Dot(ys, ys);
    SquaredErrorExpands(xs, ys, k);
    SquaredErrorExpands(xs, ys, Slope(xs, ys));
    DotSelf(xs);
    if a == 0.0 {
      forall i | 0 <= i < |xs| ensures xs[i] == 0.0 {
        if xs[i] != 0.0 {
          assert false;
        }
      }
      DotOfZeros(xs, ys);
    } else {
      QuadraticMinimum(a, b, c, k);
    }
  }

  lemma {:induction false} DotOfZeros(xs: seq<real>, ys: seq<real>)
    requires |xs| == |ys|
    requires forall i :: 0 <= i < |xs| ==> xs[i] == 0.0
    ensures Dot(xs, ys) == 0.0
  {
    if xs != [] {
      DotOfZeros(xs[1..], ys[1..]);
    }
  }

  /** Data that lies exactly on y = c * x, with some x not 0, is fitted with slope c. */
  lemma SlopeRecoversExactScale(xs: seq<real>, ys: seq<real>, c: real)
    requires |xs| == |ys|
    requires forall i :: 0 <= i < |xs| ==> ys[i] == c * xs[i]
    requires exists i :: 0 <= i < |xs| && xs[i] != 0.0
    ensures Slope(xs, ys) == c
  {
    DotScaled(xs, ys, c);
    DotSelf(xs);
  }

  /**
   * A predicted length: the fitted value truncated toward zero, with 0 raised
   * to 1. It is never 0, and otherwise the integer part of the fitted value.
   */
  function Prediction(k: real, x: real): (p: int)
    ensures p != 0
    ensures 1.0 <= k * x ==> p as real <= k * x < p as real + 1.0
    ensures -1.0 < k * x < 1.0 ==> p == 1
    ensures k * x <= -1.0 ==> p as real - 1.0 < k * x <= p as real
  {
    var p := Trunc(k * x);
    if p == 0 then 1 else p
  }

  // ---------------------------------------------------------------------
  // Prediction of the unknown lengths
  // ---------------------------------------------------------------------

  /** A row with its length predicted when it is "-", or the error of its projection. */
  function Predicted(row: Row, k: real, project: Row -> Result<real, Error>): Result<Row, Error>
  {
    if row.length.Some? then Success(row)
    else
      var x := project(row);
      if x.Failure? then Failure(x.error)
      else Success(row.(length := Some(Prediction(k, x.value) as real)))
  }

  /**
   * The sheet with the "-" lengths among its first n rows replaced by their
   * predictions, or the first error.
   */
  function PredictRows(rows: seq<Row>, n: nat, k: real, project: Row -> Result<real, Error>): (r: Result<seq<Row>, Error>)
    requires n <= |rows|
    ensures r.Success? ==> |r.value| == |rows|
  {
    if n == 0 then Success(rows)
    else
      var prev := PredictRows(rows, n - 1, k, project);
      var next := Predicted(rows[n - 1], k, project);
      if prev.Failure? then prev
      else if next.Failure? then Failure(next.error)
      else Success(prev.value[n - 1 := next.value])
  }

  /**
   * Prediction changes only the unknown lengths: a known row is kept as it is,
   * an unknown one gets the prediction from its projected length, which is a
   * whole number that is never 0.
   */
  lemma {:induction false} PredictRowsSpec(rows: seq<Row>, n: nat, k: real, project: Row -> Result<real, Error>)
    requires n <= |rows|
    requires PredictRows(rows, n, k, project).Success?
    ensures var out := PredictRows(rows, n, k, project).value;
      && (forall i :: 0 <= i < |rows| && (n <= i || rows[i].length.Some?) ==> out[i] == rows[i])
      && (forall i :: 0 <= i < n && rows[i].length.None? ==>
              && project(rows[i]).Success?
              && out[i] == rows[i].(length := Some(Prediction(k, project(rows[i]).value) as real)))
  {
    if n > 0 {
      PredictRowsSpec(rows, n - 1, k, project);
    }
  }

  /** Prediction fails exactly when some row with an unknown length cannot be projected. */
  lemma {:induction false} PredictRowsFails(rows: seq<Row>, n: nat, k: real, project: Row -> Result<real, Error>)
    requires n <= |rows|
    ensures PredictRows(rows, n, k, project).Failure? <==>
      exists j :: 0 <= j < n && rows[j].length.None? && project(rows[j]).Failure?
  {
    if n > 0 {
      PredictRowsFails(rows, n - 1, k, project);
    }
  }

  lemma {:induction false} PredictFailureStays(rows: seq<Row>, m: nat, n: nat, k: real, project: Row -> Result<real, Error>)
    requires m <= n <= |rows|
    requires PredictRows(rows, m, k, project).Failure?
    ensures PredictRows(rows, n, k, project) == PredictRows(rows, m, k, project)
  {
    if m < n {
      PredictFailureStays(rows, m, n - 1, k, project);
    }
  }

  /** Prediction writes only the Length column. */
  lemma PredictRowsKeepKeys(rows: seq<Row>, n: nat, k: real, project: Row -> Result<real, Error>)
    requires n <= |rows|
    requires PredictRows(rows, n, k, project).Success?
    ensures SameKeys(PredictRows(rows, n, k, project).value, rows)
  {
    PredictRowsSpec(rows, n, k, project);
  }

  /** Predicting row i, which is still as it was read, sets it or fails with its error. */
  lemma PredictStep(rows: seq<Row>, i: nat, k: real, project: Row -> Result<real, Error>)
    requires i < |rows|
    requires PredictRows(rows, i, k, project).Success?
    ensures var done := PredictRows(rows, i, k, project).value;
      var next := Predicted(rows[i], k, project);
      && done[i] == rows[i]
      && PredictRows(rows, i + 1, k, project) ==
        if next.Failure? then Failure(next.error) else Success(done[i := next.value])
  {
    PredictRowsSpec(rows, i, k, project);
  }

  /**
   * The prediction for a row computed against the sheet as it stands while
   * lengths are being written, which equals the one against the sheet as it
   * was read.
   */
  method PredictLive(row: Row, current: seq<Row>, ghost original: seq<Row>, k: real, roof: Roof, geo: Geometry) returns (r: Result<Row, Error>)
    requires SameKeys(current, original)
    ensures r == Predicted(row, k, RowProjection(original, roof, geo))
  {
    if row.length.Some? {
      return Success(row);
    }
    var x := ProjectRow(row.lineLabel, IsFlatCode(row.lineType), current, roof, geo);
    ProjectedLengthReadsKeys(row.lineLabel, IsFlatCode(row.lineType), current, original, roof, geo);
    if x.Failure? {
      return Failure(x.error);
    }
    r := Success(row.(length := Some(Prediction(k, x.value) as real)));
  }

  /**
   * Writes a prediction into the Length cell of every "-" row of the sheet,
   * in place. The projections read the sheet as it is being updated, which
   * reads the same as the original because lookups only use the key columns.
   */
  method PredictUnknown(df: array<Row>, k: real, roof: Roof, geo: Geometry) returns (out: Outcome<Error>)
    modifies df
    ensures var spec := PredictRows(old(df[..]), df.Length, k, RowProjection(old(df[..]), roof, geo));
      && (out.Fail? <==> spec.Failure?)
      && (out.Fail? ==> out.error == spec.error)
      && (spec.Success? ==> df[..] == spec.value)
  {
    ghost var original := df[..];
    ghost var project := RowProjection(original, roof, geo);
    var i := 0;
    while i < df.Length
      invariant 0 <= i <= df.Length
      invariant PredictRows(original, i, k, project).Success?
      invariant df[..] == PredictRows(original, i, k, project).value
    {
      PredictStep(original, i, k, project);
      PredictRowsKeepKeys(original, i, k, project);
      var next := PredictLive(df[i], df[..], original, k, roof, geo);
      if next.Failure? {
        PredictFailureStays(original, i + 1, df.Length, k, project);
        return Fail(next.error);
      }
      df[i] := next.value;
      i := i + 1;
    }
    out := Pass;
  }

  // ---------------------------------------------------------------------
  // What the lookups read
  // ---------------------------------------------------------------------

  /** Two versions of the sheet that agree on every column except Length and Area. */
  predicate SameKeys(a: seq<Row>, b: seq<Row>)
  {
    |a| == |b| && forall i :: 0 <= i < |a| ==> SameRowKeys(a[i], b[i])
  }

  predicate SameRowKeys(a: Row, b: Row)
  {
    && a.lineLabel == b.lineLabel
    && a.lineType == b.lineType
    && a.pitch == b.pitch
    && a.faceLabel == b.faceLabel
  }

  /** Two versions of the sheet that agree on every column except Area. */
  predicate SameExceptArea(a: seq<Row>, b: seq<Row>)
  {
    && SameKeys(a, b)
    && forall i :: 0 <= i < |a| ==> a[i].length == b[i].length
  }

  lemma FirstIndexAgrees(a: seq<Row>, b: seq<Row>, p: Row -> bool)
    requires |a| == |b|
    requires forall i :: 0 <= i < |a| ==> p(a[i]) == p(b[i])
    ensures FirstIndex(a, p) == FirstIndex(b, p)
  {
    var ia, ib := FirstIndex(a, p), FirstIndex(b, p);
    if ia.Some? && ib.Some? {
      assert !(ia.value < ib.value) && !(ib.value < ia.value);
    }
  }

  lemma LookupsReadKeys(a: seq<Row>, b: seq<Row>)
    requires SameKeys(a, b)
    ensures forall id :: LineType(id, a) == LineType(id, b)
    ensures forall facet :: FacetPitch(facet, a) == FacetPitch(facet, b)
  {
    forall id ensures LineType(id, a) == LineType(id, b) {
      FirstIndexAgrees(a, b, HasLabel(id));
    }
    forall facet ensures FacetPitch(facet, a) == FacetPitch(facet, b) {
      FirstIndexAgrees(a, b, HasFace(facet));
    }
  }

  lemma {:induction false} FlatCandidatesReadKeys(id: string, facets: seq<Facet>, a: seq<Row>, b: seq<Row>)
    requires forall line :: LineType(line, a) == LineType(line, b)
    ensures FlatCandidates(id, facets, a) == FlatCandidates(id, facets, b)
  {
    if facets != [] {
      FlatCandidatesReadKeys(id, facets[..|facets| - 1], a, b);
      FlatLabelsReadKeys(facets[|facets| - 1].segments, a, b);
    }
  }

  lemma {:induction false} FlatLabelsReadKeys(segments: seq<Segment>, a: seq<Row>, b: seq<Row>)
    requires forall line :: LineType(line, a) == LineType(line, b)
    ensures FlatLabels(segments, a) == FlatLabels(segments, b)
  {
    if segments != [] {
      FlatLabelsReadKeys(segments[..|segments| - 1], a, b);
    }
  }

  /** The projection of a line reads only the key columns of the sheet. */
  lemma ProjectedLengthReadsKeys(id: string, flat: bool, a: seq<Row>, b: seq<Row>, roof: Roof, geo: Geometry)
    requires SameKeys(a, b)
    ensures ProjectedLength(id, flat, a, roof, geo) == ProjectedLength(id, flat, b, roof, geo)
  {
    LookupsReadKeys(a, b);
    FlatCandidatesReadKeys(id, roof.facets, a, b);
  }

  lemma SegmentFactorReadsLengths(seg: Segment, facetId: string, a: seq<Row>, b: seq<Row>, roof: Roof, geo: Geometry)
    requires SameExceptArea(a, b)
    ensures SegmentFactor(seg, facetId, roof, a, geo) == SegmentFactor(seg, facetId, roof, b, geo)
  {
    LookupsReadKeys(a, b);
    FirstIndexAgrees(a, b, HasLabel(seg.id));
    FlatCandidatesReadKeys(seg.id, roof.facets, a, b);
  }

  /** The scale factor of a facet reads only the key columns and the lengths. */
  lemma ScaleFactorReadsLengths(facetId: string, a: seq<Row>, b: seq<Row>, roof: Roof, geo: Geometry)
    requires SameExceptArea(a, b)
    ensures ScaleFactor(facetId, roof, a, geo) == ScaleFactor(facetId, roof, b, geo)
  {
    var f, g := SegmentFactors(facetId, roof, a, geo), SegmentFactors(facetId, roof, b, geo);
    forall seg ensures f(seg) == g(seg) {
      SegmentFactorReadsLengths(seg, facetId, a, b, roof, geo);
    }
    var facet := FindFacet(facetId, roof.facets);
    if facet.Some? {
      FactorsAgree(facet.value.segments, f, g);
    }
  }

  lemma {:induction false} FactorsAgree(segments: seq<Segment>, f: Segment -> Result<Option<real>, Error>, g: Segment -> Result<Option<real>, Error>)
    requires forall seg :: f(seg) == g(seg)
    ensures Factors(segments, f) == Factors(segments, g)
  {
    if segments != [] {
      FactorsAgree(segments[..|segments| - 1], f, g);
    }
  }

  // ---------------------------------------------------------------------
  // Scale factor of a facet
  // ---------------------------------------------------------------------

  /**
   * The length a facet segment is compared against: an eave or ridge at its
   * drawing length, any other line projected with the pitch of this facet.
   */
  function SegmentDrawingLength(id: string, facetId: string, roof: Roof, rows: seq<Row>, geo: Geometry): (r: Result<Float, Error>)
    ensures IsFlat(LineType(id, rows)) ==>
      r == if geo.lineLength(id) == 0.0 then Failure(ZeroDivision(id)) else Success(Finite(geo.lineLength(id)))
    ensures !IsFlat(LineType(id, rows)) ==>
      (r.Success? <==> FlatReference(id, roof, rows, geo).Some? && FacetPitch(facetId, rows).Some?)
    ensures !IsFlat(LineType(id, rows)) && r.Success? ==>
      r.value == Line3DLength(geo.lineLength(id), FacetPitch(facetId, rows).value,
                              geo.angle(id, FlatReference(id, roof, rows, geo).value), geo)
  {
    if IsFlat(LineType(id, rows)) then
      if geo.lineLength(id) == 0.0 then Failure(ZeroDivision(id)) else Success(Finite(geo.lineLength(id)))
    else Inclined(id, FacetPitch(facetId, rows), FlatReference(id, roof, rows, geo), geo)
  }

  /**
   * What one boundary segment contributes to its facet's scale: its recorded
   * length over its true length, where the true length rescales the line's
   * annotated length by the segment's share of the line's drawing length.
   * None when the segment is skipped because a length is 0.
   */
  function SegmentRatio(id: string, recorded: real, drawn: Result<Float, Error>, annotated: Option<real>): (r: Result<Option<real>, Error>)
    ensures drawn.Failure? ==> r == Failure(drawn.error)
    ensures drawn.Success? && annotated.None? ==> r == Failure(UnknownLength(id))
    ensures drawn.Success? && annotated == Some(0.0) ==> r == Success(None)
    ensures r.Success? && r.value.Some? ==> drawn.Success? && annotated.Some? && annotated.value != 0.0
  {
    if drawn.Failure? then Failure(drawn.error)
    else if annotated.None? then Failure(UnknownLength(id))
    else
      var actual := Times(annotated.value, DivideBy(recorded, drawn.value));
      if annotated.value == 0.0 || actual == Finite(0.0) then Success(None)
      else
        var f := DivideBy(recorded, actual);
        if f.Finite? then Success(Some(f.value)) else Failure(NotFinite(id))
  }

  function SegmentFactor(seg: Segment, facetId: string, roof: Roof, rows: seq<Row>, geo: Geometry): (r: Result<Option<real>, Error>)
    ensures ActualLength(seg.id, rows) == Some(0.0) && r.Success? ==> r.value.None?
    ensures r.Success? && r.value.Some? ==> ActualLength(seg.id, rows).Some? && ActualLength(seg.id, rows).value != 0.0
    ensures var drawn := SegmentDrawingLength(seg.id, facetId, roof, rows, geo);
      var l := ActualLength(seg.id, rows);
      drawn.Success? && drawn.value.Finite? && drawn.value.value != 0.0 && l.Some? ==>
        r == if l.value == 0.0 || seg.drawingLength == 0.0 then Success(None) else Success(Some(drawn.value.value / l.value))
  {
    var drawn := SegmentDrawingLength(seg.id, facetId, roof, rows, geo);
    var l := ActualLength(seg.id, rows);
    if drawn.Success? && drawn.value.Finite? && drawn.value.value != 0.0 && l.Some? then
      SegmentRatioIsRatio(seg.id, seg.drawingLength, drawn.value.value, l.value);
      SegmentRatio(seg.id, seg.drawingLength, drawn, l)
    else
      SegmentRatio(seg.id, seg.drawingLength, drawn, l)
  }

  function SegmentFactors(facetId: string, roof: Roof, rows: seq<Row>, geo: Geometry): Segment -> Result<Option<real>, Error>
  {
    (seg: Segment) => SegmentFactor(seg, facetId, roof, rows, geo)
  }

  lemma RatioOfShares(recorded: real, d: real, l: real)
    requires d != 0.0 && l != 0.0 && recorded != 0.0
    ensures l * (recorded / d) != 0.0
    ensures recorded / (l * (recorded / d)) == d / l
  {
    var q := recorded / d;
    assert q != 0.0;
    assert l * q != 0.0;
    assert recorded == q * d;
    assert recorded / (l * q) == (q * d) / (l * q);
  }

  /**
   * The factor a segment contributes simplifies to the line's drawing length
   * over its annotated length, whatever share of the line the segment is;
   * a segment of length 0 or a line annotated 0 is skipped.
   */
  lemma SegmentRatioIsRatio(id: string, recorded: real, d: real, l: real)
    requires d != 0.0
    ensures SegmentRatio(id, recorded, Success(Finite(d)), Some(l)) ==
      if l == 0.0 || recorded == 0.0 then Success(None) else Success(Some(d / l))
  {
    var q := recorded / d;
    if l == 0.0 {
      assert l * q == 0.0;
    } else if recorded == 0.0 {
      assert q == 0.0;
      assert l * q == 0.0;
    } else {
      RatioOfShares(recorded, d, l);
      SegmentRatioKept(id, recorded, d, l);
    }
  }

  lemma SegmentRatioKept(id: string, recorded: real, d: real, l: real)
    requires d != 0.0 && l != 0.0 && l * (recorded / d) != 0.0
    ensures SegmentRatio(id, recorded, Success(Finite(d)), Some(l)) == Success(Some(recorded / (l * (recorded / d))))
  {
    var actual := l * (recorded / d);
    assert Times(l, DivideBy(recorded, Finite(d))) == Finite(actual);
    assert DivideBy(recorded, Finite(actual)) == Finite(recorded / actual);
  }

  /**
   * Degenerate projections follow numpy: a segment of a line projected to
   * length 0 contributes the factor 0, and one projected to an infinite
   * length (an inclined line on a facet of pitch 0) is skipped.
   */
  lemma SegmentRatioOfDegenerate(id: string, recorded: real, l: real)
    ensures recorded != 0.0 && l != 0.0 ==> SegmentRatio(id, recorded, Success(Finite(0.0)), Some(l)) == Success(Some(0.0))
    ensures SegmentRatio(id, recorded, Success(Infinite), Some(l)) == Success(None)
  {
    assert l * 0.0 == 0.0;
  }

  /** The factors of the segments that are not skipped, in order, or the first error. */
  function Factors(segments: seq<Segment>, factor: Segment -> Result<Option<real>, Error>): Result<seq<real>, Error>
  {
    if segments == [] then Success([])
    else
      var prev := Factors(segments[..|segments| - 1], factor);
      var f := factor(segments[|segments| - 1]);
      if prev.Failure? then prev
      else if f.Failure? then Failure(f.error)
      else if f.value.None? then prev
      else Success(prev.value + [f.value.value])
  }

  /** Every kept factor comes from a segment, and every segment's factor is kept unless skipped. */
  lemma {:induction false} FactorsSpec(segments: seq<Segment>, factor: Segment -> Result<Option<real>, Error>)
    requires Factors(segments, factor).Success?
    ensures forall seg :: seg in segments ==> factor(seg).Success?
    ensures forall v :: v in Factors(segments, factor).value <==>
      exists seg :: seg in segments && factor(seg) == Success(Some(v))
    ensures forall v :: multiset(Factors(segments, factor).value)[v] == |KeptIndices(segments, factor, v)|
  {
    if segments != [] {
      var init := segments[..|segments| - 1];
      FactorsSpec(init, factor);
      assert segments == init + [segments[|segments| - 1]];
    }
    forall v
      ensures multiset(Factors(segments, factor).value)[v] == |KeptIndices(segments, factor, v)|
    {
      FactorsCount(segments, factor, v);
    }
  }

  /** The positions of the segments whose factor is v. */
  ghost function KeptIndices(segments: seq<Segment>, factor: Segment -> Result<Option<real>, Error>, v: real): set<int>
  {
    set i | 0 <= i < |segments| && factor(segments[i]) == Success(Some(v))
  }

  /** Each kept factor occurs once per segment that gives it: the median sees every repeat. */
  lemma {:induction false} FactorsCount(segments: seq<Segment>, factor: Segment -> Result<Option<real>, Error>, v: real)
    requires Factors(segments, factor).Success?
    ensures multiset(Factors(segments, factor).value)[v] == |KeptIndices(segments, factor, v)|
  {
    if segments != [] {
      var k := |segments| - 1;
      var init := segments[..k];
      FactorsCount(init, factor, v);
      KeptIndicesStep(segments, factor, v);
      var prev := Factors(init, factor).value;
      var f := factor(segments[k]);
      if f.value.Some? {
        assert Factors(segments, factor).value == prev + [f.value.value];
        assert multiset(prev + [f.value.value]) == multiset(prev) + multiset{f.value.value};
      } else {
        assert Factors(segments, factor).value == prev;
      }
    }
  }

  lemma KeptIndicesStep(segments: seq<Segment>, factor: Segment -> Result<Option<real>, Error>, v: real)
    requires segments != []
    ensures var k := |segments| - 1;
      && k !in KeptIndices(segments[..k], factor, v)
      && KeptIndices(segments, factor, v)
        == KeptIndices(segments[..k], factor, v) + (if factor(segments[k]) == Success(Some(v)) then {k} else {})
  {
    var k := |segments| - 1;
    assert KeptIndices(segments[..k], factor, v)
      == (set i | 0 <= i < k && factor(segments[i]) == Success(Some(v)));
  }

  /** When every segment contributes the same factor v, the kept factors are all v. */
  lemma {:induction false} FactorsAllEqual(segments: seq<Segment>, factor: Segment -> Result<Option<real>, Error>, v: real)
    requires forall seg :: seg in segments ==> factor(seg) == Success(Some(v))
    ensures Factors(segments, factor).Success?
    ensures |Factors(segments, factor).value| == |segments|
    ensures multiset(Factors(segments, factor).value)[v] == |segments|
  {
    if segments != [] {
      FactorsAllEqual(segments[..|segments| - 1], factor, v);
    }
  }

  lemma {:induction false} FactorsFailureStays(segments: seq<Segment>, n: nat, factor: Segment -> Result<Option<real>, Error>)
    requires n <= |segments|
    requires Factors(segments[..n], factor).Failure?
    ensures Factors(segments, factor) == Factors(segments[..n], factor)
  {
    if n < |segments| {
      assert segments[..|segments| - 1][..n] == segments[..n];
      FactorsFailureStays(segments[..|segments| - 1], n, factor);
    } else {
      assert segments[..n] == segments;
    }
  }

  /** The facet's scale: the median of the kept factors of its boundary segments. */
  function ScaleFactor(facetId: string, roof: Roof, rows: seq<Row>, geo: Geometry): (r: Result<real, Error>)
    ensures FindFacet(facetId, roof.facets).None? ==> r == Failure(UnknownFacet(facetId))
    ensures r.Success? ==>
      var fs := Factors(FindFacet(facetId, roof.facets).value.segments, SegmentFactors(facetId, roof, rows, geo));
      && fs.Success? && |fs.value| > 0
      && (|fs.value| % 2 == 1 ==> r.value in fs.value)
  {
    var facet := FindFacet(facetId, roof.facets);
    if facet.None? then Failure(UnknownFacet(facetId))
    else
      var fs := Factors(facet.value.segments, SegmentFactors(facetId, roof, rows, geo));
      if fs.Failure? then Failure(fs.error)
      else if fs.value == [] then Failure(NoScaleFactor(facetId))
      else Success(Median(fs.value))
  }

  /**
   * The median makes the scale robust: a factor that more than half of the
   * kept segments agree on is the facet's scale, whatever the others are.
   */
  lemma ScaleFactorMajority(facetId: string, roof: Roof, rows: seq<Row>, geo: Geometry, v: real)
    requires FindFacet(facetId, roof.facets).Some?
    requires var fs := Factors(FindFacet(facetId, roof.facets).value.segments, SegmentFactors(facetId, roof, rows, geo));
      fs.Success? && 2 * multiset(fs.value)[v] > |fs.value|
    ensures ScaleFactor(facetId, roof, rows, geo) == Success(v)
  {
    var fs := Factors(FindFacet(facetId, roof.facets).value.segments, SegmentFactors(facetId, roof, rows, geo)).value;
    assert v in multiset(fs);
    MedianOfMajority(fs, v);
  }

  /** A facet whose segments all give the same factor v has scale v. */
  lemma ScaleFactorOfConsistentFacet(facetId: string, roof: Roof, rows: seq<Row>, geo: Geometry, v: real)
    requires FindFacet(facetId, roof.facets).Some?
    requires var segments := FindFacet(facetId, roof.facets).value.segments;
      && segments != []
      && forall seg :: seg in segments ==> SegmentFactor(seg, facetId, roof, rows, geo) == Success(Some(v))
    ensures ScaleFactor(facetId, roof, rows, geo) == Success(v)
  {
    var segments := FindFacet(facetId, roof.facets).value.segments;
    var factor := SegmentFactors(facetId, roof, rows, geo);
    FactorsAllEqual(segments, factor, v);
    ScaleFactorMajority(facetId, roof, rows, geo, v);
  }

  /** One boundary segment's factor, with the reference line found by the collecting loop. */
  method MeasureSegment(seg: Segment, facetId: string, roof: Roof, rows: seq<Row>, geo: Geometry) returns (r: Result<Option<real>, Error>)
    ensures r == SegmentFactor(seg, facetId, roof, rows, geo)
  {
    var annotated := ActualLength(seg.id, rows);
    var drawn: Result<Float, Error>;
    if IsFlat(LineType(seg.id, rows)) {
      drawn := if geo.lineLength(seg.id) == 0.0 then Failure(ZeroDivision(seg.id)) else Success(Finite(geo.lineLength(seg.id)));
    } else {
      var pitch := FacetPitch(facetId, rows);
      var reference := NeighboringFlatLine(seg.id, roof, rows, geo);
      drawn := Inclined(seg.id, pitch, reference, geo);
    }
    r := SegmentRatio(seg.id, seg.drawingLength, drawn, annotated);
  }

  /** Collects the factors of a facet's segments and takes their median. */
  /** `factor` gives, for each segment, the factor it contributes to the scale of facetId. */
  ghost predicate FactorsAgainst(factor: Segment -> Result<Option<real>, Error>, facetId: string, roof: Roof, rows: seq<Row>, geo: Geometry)
  {
    forall seg {:trigger SegmentFactor(seg, facetId, roof, rows, geo)} :: factor(seg) == SegmentFactor(seg, facetId, roof, rows, geo)
  }

  /** Measures each segment in turn, keeping the factors that are not skipped, or stops at the first error. */
  method CollectFactors(segments: seq<Segment>, facetId: string, roof: Roof, rows: seq<Row>, geo: Geometry,
                        ghost factor: Segment -> Result<Option<real>, Error>)
    returns (r: Result<seq<real>, Error>)
    requires FactorsAgainst(factor, facetId, roof, rows, geo)
    ensures r == Factors(segments, factor)
  {
    var factors: seq<real> := [];
    var i := 0;
    while i < |segments|
      invariant 0 <= i <= |segments|
      invariant Factors(segments[..i], factor) == Success(factors)
    {
      assert segments[..i + 1][..i] == segments[..i];
      var f := MeasureSegment(segments[i], facetId, roof, rows, geo);
      assert f == factor(segments[i]);
      if f.Failure? {
        FactorsFailureStays(segments, i + 1, factor);
        return Failure(f.error);
      }
      if f.value.Some? {
        factors := factors + [f.value.value];
      }
      i := i + 1;
    }
    assert segments[..i] == segments;
    r := Success(factors);
  }

  method AverageScaleFactor(facetId: string, roof: Roof, rows: seq<Row>, geo: Geometry) returns (r: Result<real, Error>)
    ensures r == ScaleFactor(facetId, roof, rows, geo)
  {
    var facet := FindFacet(facetId, roof.facets);
    if facet.None? {
      return Failure(UnknownFacet(facetId));
    }
    var factors := CollectFactors(facet.value.segments, facetId, roof, rows, geo, SegmentFactors(facetId, roof, rows, geo));
    if factors.Failure? {
      return Failure(factors.error);
    }
    if factors.value == [] {
      return Failure(NoScaleFactor(facetId));
    }
    r := Success(Median(factors.value));
  }

  // ---------------------------------------------------------------------
  // Facet areas
  // ---------------------------------------------------------------------

  /**
   * The area convention: truncate toward zero, then raise an odd result by
   * one. The result is even and at most one above the truncation.
   */
  function EvenArea(raw: real): (a: int)
    ensures a % 2 == 0
    ensures Trunc(raw) <= a <= Trunc(raw) + 1
    ensures Trunc(raw) % 2 == 0 ==> a == Trunc(raw)
  {
    var t := Trunc(raw);
    if t % 2 != 0 then t + 1 else t
  }

  /** For a non-negative raw area, the stored area is within one of it. */
  lemma EvenAreaClose(raw: real)
    requires raw >= 0.0
    ensures raw - 1.0 < EvenArea(raw) as real <= raw + 1.0
  {
  }

  /**
   * The true area of a facet: its drawing area over the cosine of the pitch
   * angle arctan(pitch / 12), over the square of the scale, made even.
   */
  function TrueArea(drawingArea: real, pitch: real, scale: real, geo: Geometry, at: string): (r: Result<int, Error>)
    ensures r.Failure? <==> geo.cos(geo.arctan(pitch / 12.0)) == 0.0 || scale == 0.0
    ensures r.Success? ==> r.value % 2 == 0
    ensures r.Success? ==>
      var raw := drawingArea / geo.cos(geo.arctan(pitch / 12.0)) / scale / scale;
      && Trunc(raw) <= r.value <= Trunc(raw) + 1
      && (Trunc(raw) % 2 == 0 ==> r.value == Trunc(raw))
  {
    var c := geo.cos(geo.arctan(pitch / 12.0));
    if c == 0.0 || scale == 0.0 then Failure(ZeroDivision(at))
    else Success(EvenArea(drawingArea / c / scale / scale))
  }

  lemma QuotientBounds(c: real)
    requires 0.8944 < c < 0.8945
    ensures 111.0 <= 100.0 / c < 112.0
  {
  }

  /**
   * The worked example: a facet of drawing area 100 at pitch 6 with scale 1
   * has area 112, since 100 / cos(arctan(0.5)) = 111.8...; the cosine is
   * only known to lie near 0.894427.
   */
  lemma TrueAreaExample(geo: Geometry)
    requires 0.8944 < geo.cos(geo.arctan(0.5)) < 0.8945
    ensures TrueArea(100.0, 6.0, 1.0, geo, "A") == Success(112)
  {
    var c := geo.cos(geo.arctan(0.5));
    assert 6.0 / 12.0 == 0.5;
    QuotientBounds(c);
    assert 100.0 / c / 1.0 / 1.0 == 100.0 / c;
    assert Trunc(100.0 / c) == 111;
  }

  /**
   * The area of facet i, the i-th letter id, stored on sheet row i: its scale
   * from its own segments, and the pitch of the facet that holds row i's line.
   */
  function FacetArea(i: nat, rows: seq<Row>, roof: Roof, geo: Geometry): (r: Result<int, Error>)
    ensures r.Success? ==> i < |rows| && i < |roof.polygonAreas| && r.value % 2 == 0
    ensures r.Success? ==> ScaleFactor(CreateDiagrams.LetterName(i), roof, rows, geo).Success?
    ensures r.Success? ==>
      && LinePitch(rows[i].lineLabel, roof, rows).Some?
      && r == TrueArea(roof.polygonAreas[i], LinePitch(rows[i].lineLabel, roof, rows).value,
                       ScaleFactor(CreateDiagrams.LetterName(i), roof, rows, geo).value, geo, CreateDiagrams.LetterName(i))
  {
    if i >= |rows| || i >= |roof.polygonAreas| then Failure(UnknownFacet(CreateDiagrams.LetterName(i)))
    else
      var facetId := CreateDiagrams.LetterName(i);
      var scale := ScaleFactor(facetId, roof, rows, geo);
      if scale.Failure? then Failure(scale.error)
      else
        var pitch := LinePitch(rows[i].lineLabel, roof, rows);
        if pitch.None? then Failure(NoPitch(rows[i].lineLabel))
        else TrueArea(roof.polygonAreas[i], pitch.value, scale.value, geo, facetId)
  }

  function AreasOf(rows: seq<Row>, roof: Roof, geo: Geometry): nat -> Result<int, Error>
  {
    (i: nat) => FacetArea(i, rows, roof, geo)
  }

  /** The sheet with the Area cell of each of the first n rows filled in, or the first error. */
  function FillAreasUpTo(rows: seq<Row>, n: nat, area: nat -> Result<int, Error>): (r: Result<seq<Row>, Error>)
    requires n <= |rows|
    ensures r.Success? ==> |r.value| == |rows|
  {
    if n == 0 then Success(rows)
    else
      var prev := FillAreasUpTo(rows, n - 1, area);
      var a := area(n - 1);
      if prev.Failure? then prev
      else if a.Failure? then Failure(a.error)
      else Success(prev.value[n - 1 := prev.value[n - 1].(area := Some(a.value as real))])
  }

  /** Filling areas sets exactly the first n Area cells and changes nothing else. */
  lemma {:induction false} FillAreasUpToSpec(rows: seq<Row>, n: nat, area: nat -> Result<int, Error>)
    requires n <= |rows|
    requires FillAreasUpTo(rows, n, area).Success?
    ensures var out := FillAreasUpTo(rows, n, area).value;
      && (forall i :: 0 <= i < n ==> area(i).Success? && out[i] == rows[i].(area := Some(area(i).value as real)))
      && (forall i :: n <= i < |rows| ==> out[i] == rows[i])
  {
    if n > 0 {
      FillAreasUpToSpec(rows, n - 1, area);
    }
  }

  /** Filling fails exactly when one of the first n areas cannot be computed. */
  lemma {:induction false} FillAreasUpToFails(rows: seq<Row>, n: nat, area: nat -> Result<int, Error>)
    requires n <= |rows|
    ensures FillAreasUpTo(rows, n, area).Failure? <==> exists i :: 0 <= i < n && area(i).Failure?
  {
    if n > 0 {
      FillAreasUpToFails(rows, n - 1, area);
    }
  }

  lemma {:induction false} FillAreasFailureStays(rows: seq<Row>, m: nat, n: nat, area: nat -> Result<int, Error>)
    requires m <= n <= |rows|
    requires FillAreasUpTo(rows, m, area).Failure?
    ensures FillAreasUpTo(rows, n, area) == FillAreasUpTo(rows, m, area)
  {
    if m < n {
      FillAreasFailureStays(rows, m, n - 1, area);
    }
  }

  /** Every area the sheet receives is even. */
  lemma FacetAreaEven(i: nat, rows: seq<Row>, roof: Roof, geo: Geometry)
    requires FacetArea(i, rows, roof, geo).Success?
    ensures FacetArea(i, rows, roof, geo).value % 2 == 0
  {
  }

  /**
   * When row i's line lies on facet i and no earlier facet, the area of
   * facet i is computed with facet i's own pitch.
   */
  lemma FacetAreaOwnPitch(i: nat, rows: seq<Row>, roof: Roof, geo: Geometry, k: nat)
    requires i < |rows| && i < |roof.polygonAreas|
    requires k < |roof.facets| && roof.facets[k].id == CreateDiagrams.LetterName(i)
    requires HasSegment(roof.facets[k], rows[i].lineLabel)
    requires forall j :: 0 <= j < k ==> !HasSegment(roof.facets[j], rows[i].lineLabel)
    ensures LinePitch(rows[i].lineLabel, roof, rows) == FacetPitch(CreateDiagrams.LetterName(i), rows)
  {
    var f := FacetLabel(rows[i].lineLabel, roof.facets);
    var j :| 0 <= j < |roof.facets| && roof.facets[j].id == f.value
      && HasSegment(roof.facets[j], rows[i].lineLabel)
      && forall m :: 0 <= m < j ==> !HasSegment(roof.facets[m], rows[i].lineLabel);
    assert j == k;
  }

  /** The scale of a facet computed against the sheet while areas are being written. */
  method ScaleFactorLive(facetId: string, current: seq<Row>, ghost original: seq<Row>, roof: Roof, geo: Geometry) returns (r: Result<real, Error>)
    requires SameExceptArea(current, original)
    ensures r == ScaleFactor(facetId, roof, original, geo)
  {
    r := AverageScaleFactor(facetId, roof, current, geo);
    ScaleFactorReadsLengths(facetId, current, original, roof, geo);
  }

  /**
   * The area of facet i computed against the sheet while areas are being
   * written: its scale, then the pitch of row i's facet, then the area.
   */
  method AreaLive(i: nat, current: seq<Row>, ghost original: seq<Row>, roof: Roof, geo: Geometry) returns (a: Result<int, Error>)
    requires i < |current| && i < |roof.polygonAreas|
    requires SameExceptArea(current, original)
    ensures a == FacetArea(i, original, roof, geo)
  {
    var facetId := CreateDiagrams.LetterId(i);
    var scale := ScaleFactorLive(facetId, current, original, roof, geo);
    if scale.Failure? {
      return Failure(scale.error);
    }
    var pitch := LinePitch(current[i].lineLabel, roof, current);
    LookupsReadKeys(current, original);
    if pitch.None? {
      return Failure(NoPitch(current[i].lineLabel));
    }
    a := TrueArea(roof.polygonAreas[i], pitch.value, scale.value, geo, facetId);
  }

  /** Filling areas writes only the Area column. */
  lemma FillAreasKeepLengths(rows: seq<Row>, n: nat, area: nat -> Result<int, Error>)
    requires n <= |rows|
    requires FillAreasUpTo(rows, n, area).Success?
    ensures SameExceptArea(FillAreasUpTo(rows, n, area).value, rows)
  {
    FillAreasUpToSpec(rows, n, area);
  }

  /** Filling one more area cell: the cell of row i is set, or the run fails with the area's error. */
  lemma FillStep(rows: seq<Row>, i: nat, area: nat -> Result<int, Error>)
    requires i < |rows|
    requires FillAreasUpTo(rows, i, area).Success?
    ensures var done := FillAreasUpTo(rows, i, area).value;
      FillAreasUpTo(rows, i + 1, area) ==
        if area(i).Failure? then Failure(area(i).error)
        else Success(done[i := done[i].(area := Some(area(i).value as real))])
  {
  }

  /** `area` gives, for each row index, the area of that facet computed against the sheet `rows`. */
  ghost predicate AreasAgainst(area: nat -> Result<int, Error>, rows: seq<Row>, roof: Roof, geo: Geometry)
  {
    forall i: nat {:trigger FacetArea(i, rows, roof, geo)} :: area(i) == FacetArea(i, rows, roof, geo)
  }

  /**
   * One pass of the area loop: computes the area of facet i against the
   * sheet as it stands and writes it into the Area cell of row i.
   */
  method FillArea(df: array<Row>, i: nat, ghost original: seq<Row>, ghost area: nat -> Result<int, Error>, roof: Roof, geo: Geometry)
    returns (out: Outcome<Error>)
    modifies df
    requires i < df.Length == |original| && i < |roof.polygonAreas|
    requires AreasAgainst(area, original, roof, geo)
    requires FillAreasUpTo(original, i, area).Success?
    requires df[..] == FillAreasUpTo(original, i, area).value
    ensures out.Fail? ==> FillAreasUpTo(original, i + 1, area) == Failure(out.error)
    ensures out.Pass? ==> FillAreasUpTo(original, i + 1, area) == Success(df[..])
  {
    FillStep(original, i, area);
    FillAreasKeepLengths(original, i, area);
    var a := AreaLive(i, df[..], original, roof, geo);
    if a.Failure? {
      return Fail(a.error);
    }
    df[i] := df[i].(area := Some(a.value as real));
    out := Pass;
  }

  /**
   * Writes the area of facet i into the Area cell of row i, for each row up
   * to the number of facets, in place. `area` is the area of each facet
   * against the sheet as it was on entry.
   */
  method FillAreas(df: array<Row>, roof: Roof, geo: Geometry, ghost area: nat -> Result<int, Error>) returns (out: Outcome<Error>)
    modifies df
    requires AreasAgainst(area, df[..], roof, geo)
    ensures var spec := FillAreasUpTo(old(df[..]), Min(df.Length, |roof.polygonAreas|), area);
      && (out.Fail? <==> spec.Failure?)
      && (out.Fail? ==> out.error == spec.error)
      && (spec.Success? ==> df[..] == spec.value)
  {
    ghost var original := df[..];
    var i := 0;
    while i < df.Length
      invariant 0 <= i <= df.Length && i <= |roof.polygonAreas|
      invariant FillAreasUpTo(original, i, area).Success?
      invariant df[..] == FillAreasUpTo(original, i, area).value
    {
      if i >= |roof.polygonAreas| {
        break;
      }
      out := FillArea(df, i, original, area, roof, geo);
      if out.Fail? {
        FillAreasFailureStays(original, i + 1, Min(df.Length, |roof.polygonAreas|), area);
        return;
      }
      i := i + 1;
    }
    out := Pass;
  }

  // ---------------------------------------------------------------------
  // The whole calibration run
  // ---------------------------------------------------------------------

  /** The number of "-" entries in the Length column. */
  function DashCount(rows: seq<Row>): nat
  {
    if rows == [] then 0
    else DashCount(rows[..|rows| - 1]) + (if rows[|rows| - 1].length.None? then 1 else 0)
  }

  lemma {:induction false} KnownAndDashes(rows: seq<Row>)
    ensures |Known(rows)| + DashCount(rows) == |rows|
  {
    if rows != [] {
      KnownAndDashes(rows[..|rows| - 1]);
    }
  }

  /**
   * The checks made before anything is computed: every pitch must be given,
   * and when some length is "-", fewer than all but one of them may be.
   */
  function CheckSheet(rows: seq<Row>): (r: Outcome<Error>)
    ensures r.Fail? ==> r.error == MissingPitch || r.error == TooFewLengths
    ensures r == Pass ==> forall i :: 0 <= i < |rows| ==> rows[i].pitch.Some?
  {
    if exists i :: 0 <= i < |rows| && rows[i].pitch.None? then Fail(MissingPitch)
    else if DashCount(rows) > 0 && DashCount(rows) >= |rows| - 1 then Fail(TooFewLengths)
    else Pass
  }

  /**
   * A sheet passes exactly when every pitch is given and, if some length is
   * unknown, at least two lengths are known.
   */
  lemma CheckSheetSpec(rows: seq<Row>)
    ensures CheckSheet(rows) == Pass <==>
      && (forall i :: 0 <= i < |rows| ==> rows[i].pitch.Some?)
      && (DashCount(rows) > 0 ==> |Known(rows)| >= 2)
    ensures CheckSheet(rows) == Fail(MissingPitch) <==> exists i :: 0 <= i < |rows| && rows[i].pitch.None?
  {
    KnownAndDashes(rows);
  }

  /** After the checks, a sheet with any rows has at least one known length to fit. */
  lemma CheckedSheetHasTrainingData(rows: seq<Row>)
    requires CheckSheet(rows) == Pass
    requires rows != []
    ensures |Known(rows)| >= 1
  {
    KnownAndDashes(rows);
  }

  /**
   * The calibration run over a sheet as read: the checks, the regression
   * samples against the sheet, the slope, the predicted lengths, and then
   * the areas of the first facets computed against the sheet with its
   * predictions in place. The result is the sheet as written back out.
   */
  function Calibration(sheet: seq<Row>, roof: Roof, geo: Geometry): (r: Result<seq<Row>, Error>)
    ensures r.Success? ==> CheckSheet(sheet) == Pass && |Known(sheet)| >= 1 && |r.value| == |sheet|
  {
    var check := CheckSheet(sheet);
    if check.Fail? then Failure(check.error)
    else
      var training := Training(sheet, RowProjection(sheet, roof, geo));
      if training.Failure? then Failure(training.error)
      else if |training.value.0| == 0 then Failure(NoTrainingData)
      else
        var k := Slope(training.value.0, training.value.1);
        var predicted := PredictRows(sheet, |sheet|, k, RowProjection(sheet, roof, geo));
        if predicted.Failure? then Failure(predicted.error)
        else
          var rows := predicted.value;
          FillAreasUpTo(rows, Min(|rows|, |roof.polygonAreas|), AreasOf(rows, roof, geo))
  }

  /** With nothing to fit, the run stops. */
  lemma CalibrationOfEmptySheet(roof: Roof, geo: Geometry)
    ensures Calibration([], roof, geo) == Failure(NoTrainingData)
  {
    assert CheckSheet([]) == Pass;
  }

  /** Whether a real holds a whole number. */
  predicate IsWhole(v: real)
  {
    v.Floor as real == v
  }

  /**
   * The rows a run leaves, for any projection and any area function whose
   * areas are even: prediction then area filling change only the cells
   * they are meant to change.
   */
  lemma FinishedRun(sheet: seq<Row>, k: real, project: Row -> Result<real, Error>, n: nat, area: nat -> Result<int, Error>)
    requires n <= |sheet|
    requires forall i :: 0 <= i < |sheet| ==> sheet[i].pitch.Some?
    requires PredictRows(sheet, |sheet|, k, project).Success?
    requires FillAreasUpTo(PredictRows(sheet, |sheet|, k, project).value, n, area).Success?
    requires forall i :: 0 <= i < n && area(i).Success? ==> area(i).value % 2 == 0
    ensures var out := FillAreasUpTo(PredictRows(sheet, |sheet|, k, project).value, n, area).value;
      && |out| == |sheet|
      && (forall i :: 0 <= i < |sheet| ==> SameRowKeys(out[i], sheet[i]) && out[i].pitch.Some?)
      && (forall i :: 0 <= i < |sheet| && sheet[i].length.Some? ==> out[i].length == sheet[i].length)
      && (forall i :: 0 <= i < |sheet| && sheet[i].length.None? ==>
            out[i].length.Some? && IsWhole(out[i].length.value) && out[i].length.value != 0.0)
      && (forall i :: 0 <= i < n ==>
            out[i].area.Some? && IsWhole(out[i].area.value) && out[i].area.value.Floor % 2 == 0)
      && (forall i :: n <= i < |sheet| ==> out[i].area == sheet[i].area)
  {
    PredictRowsSpec(sheet, |sheet|, k, project);
    var rows := PredictRows(sheet, |sheet|, k, project).value;
    FillAreasUpToSpec(rows, n, area);
  }

  /**
   * What a finished run writes: every row keeps its key columns; a known
   * length is kept and an unknown one becomes a whole number that is not 0;
   * the first min(rows, facets) Area cells hold even whole numbers and the
   * rest are as they were read.
   */
  lemma CalibrationSpec(sheet: seq<Row>, roof: Roof, geo: Geometry)
    requires Calibration(sheet, roof, geo).Success?
    ensures var out := Calibration(sheet, roof, geo).value;
      var n := Min(|sheet|, |roof.polygonAreas|);
      && |out| == |sheet|
      && (forall i :: 0 <= i < |sheet| ==> SameRowKeys(out[i], sheet[i]) && out[i].pitch.Some?)
      && (forall i :: 0 <= i < |sheet| && sheet[i].length.Some? ==> out[i].length == sheet[i].length)
      && (forall i :: 0 <= i < |sheet| && sheet[i].length.None? ==>
            out[i].length.Some? && IsWhole(out[i].length.value) && out[i].length.value != 0.0)
      && (forall i :: 0 <= i < n ==>
            out[i].area.Some? && IsWhole(out[i].area.value) && out[i].area.value.Floor % 2 == 0)
      && (forall i :: n <= i < |sheet| ==> out[i].area == sheet[i].area)
  {
    CheckSheetSpec(sheet);
    var project := RowProjection(sheet, roof, geo);
    var training := Training(sheet, project).value;
    var k := Slope(training.0, training.1);
    var rows := PredictRows(sheet, |sheet|, k, project).value;
    var n := Min(|rows|, |roof.polygonAreas|);
    var area := AreasOf(rows, roof, geo);
    forall i | 0 <= i < n && area(i).Success?
      ensures area(i).value % 2 == 0
    {
      FacetAreaEven(i, rows, roof, geo);
    }
    FinishedRun(sheet, k, project, n, area);
  }

  /**
   * The run on a sheet, step by step as the program does it: the checks, the
   * samples, the fit, then a copy of the sheet updated in place by the
   * prediction and area passes.
   */
  method Calibrate(sheet: seq<Row>, roof: Roof, geo: Geometry) returns (res: Result<seq<Row>, Error>)
    ensures res == Calibration(sheet, roof, geo)
  {
    var check := CheckSheet(sheet);
    if check.Fail? {
      return Failure(check.error);
    }
    var training := BuildTraining(sheet, roof, geo);
    if training.Failure? {
      return Failure(training.error);
    }
    var xs, ys := training.value.0, training.value.1;
    if |xs| == 0 {
      return Failure(NoTrainingData);
    }
    var k := Slope(xs, ys);
    var df := new Row[|sheet|](i requires 0 <= i < |sheet| => sheet[i]);
    assert df[..] == sheet;
    var predicted := PredictUnknown(df, k, roof, geo);
    if predicted.Fail? {
      return Failure(predicted.error);
    }
    var filled := FillAreas(df, roof, geo, AreasOf(df[..], roof, geo));
    if filled.Fail? {
      return Failure(filled.error);
    }
    res := Success(df[..]);
  }

  // ---------------------------------------------------------------------
  // The report summary
  // ---------------------------------------------------------------------

  /**
   * The measurements the report lists: the total area, the number of
   * facets, the predominant pitch, and the length totals of ridges, hips,
   * valleys, the K category and eaves.
   */
  datatype Summary = Summary(
    totalArea: int,
    facetCount: nat,
    predominantPitch: real,
    ridges: int,
    hips: int,
    valleys: int,
    kings: int,
    eaves: int)

  /** The sum of total(p) over the pitches of `order`. */
  function SumOver(order: seq<real>, total: real -> int): int
  {
    if order == [] then 0 else SumOver(order[..|order| - 1], total) + total(order[|order| - 1])
  }

  /** Reading the pitch map, as an integer and as the key `max` compares by. */
  function MapTotals(pitchAreas: map<real, int>): real -> int
  {
    (p: real) => Lookup(pitchAreas, p)
  }

  function AreaOf(pitchAreas: map<real, int>): real -> real
  {
    (p: real) => Lookup(pitchAreas, p) as real
  }

  /**
   * The summary of the maps built from the finished sheet. The pitch map's
   * keys are `pitchOrder`, in insertion order; the predominant pitch is the
   * first one with the largest area, and a sheet without areas has none.
   */
  function Measurements(lineTotals: map<string, int>, pitchAreas: map<real, int>, pitchOrder: seq<real>, facetCount: nat): (r: Result<Summary, Error>)
    ensures r.Failure? <==> pitchOrder == []
    ensures r.Success? ==> r.value.predominantPitch in pitchOrder
    ensures r.Success? ==> forall p :: p in pitchOrder ==>
      Lookup(pitchAreas, p) <= Lookup(pitchAreas, r.value.predominantPitch)
    ensures r.Success? ==> forall j :: 0 <= j < |pitchOrder| && Lookup(pitchAreas, pitchOrder[j]) == Lookup(pitchAreas, r.value.predominantPitch) ==>
      exists i :: 0 <= i <= j && pitchOrder[i] == r.value.predominantPitch
  {
    if pitchOrder == [] then Failure(NoAreas)
    else
      var i := FirstMaxIndex(pitchOrder, AreaOf(pitchAreas));
      Success(Summary(
        SumOver(pitchOrder, MapTotals(pitchAreas)),
        facetCount,
        pitchOrder[i],
        Lookup(lineTotals, "R"),
        Lookup(lineTotals, "H"),
        Lookup(lineTotals, "V"),
        Lookup(lineTotals, "K"),
        Lookup(lineTotals, "E")))
  }

  /** The sum of int(area) over every row with an area. */
  function AreaTotal(records: seq<CreateDiagrams.SheetRecord>): int
  {
    if records == [] then 0
    else
      var r := records[|records| - 1];
      AreaTotal(records[..|records| - 1]) + (if r.area.Some? then Trunc(r.area.value) else 0)
  }

  predicate Distinct(order: seq<real>)
  {
    forall i, j :: 0 <= i < j < |order| ==> order[i] != order[j]
  }

  /** Sums over the same pitches agree when the summands agree on them. */
  lemma {:induction false} SumOverAgree(order: seq<real>, f: real -> int, g: real -> int)
    requires forall p :: p in order ==> f(p) == g(p)
    ensures SumOver(order, f) == SumOver(order, g)
  {
    if order != [] {
      var init := order[..|order| - 1];
      assert forall p :: p in init ==> p in order;
      SumOverAgree(init, f, g);
      var last := order[|order| - 1];
      assert last in order;
      assert f(last) == g(last);
      assert SumOver(order, f) == SumOver(init, f) + f(last);
      assert SumOver(order, g) == SumOver(init, g) + g(last);
    }
  }

  /** Adding t to the summand of pitch x adds t to a sum that lists x once, and nothing to one without x. */
  lemma {:induction false} SumOverBump(order: seq<real>, f: real -> int, g: real -> int, x: real, t: int)
    requires Distinct(order)
    requires forall p :: g(p) == f(p) + (if p == x then t else 0)
    ensures SumOver(order, g) == SumOver(order, f) + (if x in order then t else 0)
  {
    if order != [] {
      var init := order[..|order| - 1];
      SumOverBump(init, f, g, x, t);
      if order[|order| - 1] == x {
        assert x !in init by {
          forall i | 0 <= i < |init| ensures init[i] != x {
            assert order[i] != order[|order| - 1];
          }
        }
      }
      assert x in order <==> x in init || order[|order| - 1] == x by {
        assert order == init + [order[|order| - 1]];
      }
    }
  }

  /** A pitch no row with an area has contributes nothing. */
  lemma {:induction false} PitchAreaTotalAbsent(records: seq<CreateDiagrams.SheetRecord>, x: real)
    requires x !in CreateDiagrams.PitchOrder(records)
    ensures CreateDiagrams.PitchAreaTotal(records, x) == 0
  {
    if records != [] {
      PitchAreaTotalAbsent(records[..|records| - 1], x);
    }
  }

  function PitchTotals(records: seq<CreateDiagrams.SheetRecord>): real -> int
  {
    (p: real) => CreateDiagrams.PitchAreaTotal(records, p)
  }

  /** Summing the per-pitch totals over the pitch order counts every area exactly once. */
  lemma {:induction false} SumOfPitchTotals(records: seq<CreateDiagrams.SheetRecord>)
    ensures SumOver(CreateDiagrams.PitchOrder(records), PitchTotals(records)) == AreaTotal(records)
  {
    if records != [] {
      var init := records[..|records| - 1];
      var r := records[|records| - 1];
      var before := CreateDiagrams.PitchOrder(init);
      SumOfPitchTotals(init);
      CreateDiagrams.PitchOrderSpec(init);
      var t := if r.area.Some? then Trunc(r.area.value) else 0;
      SumOverBump(before, PitchTotals(init), PitchTotals(records), r.pitch, t);
      if r.area.Some? && r.pitch !in before {
        PitchAreaTotalAbsent(init, r.pitch);
        var after := CreateDiagrams.PitchOrder(records);
        assert after == before + [r.pitch];
        assert after[..|after| - 1] == before;
        assert PitchTotals(records)(r.pitch) == t;
      } else {
        assert CreateDiagrams.PitchOrder(records) == before;
        assert r.area.None? ==> t == 0;
      }
    }
  }

  /**
   * The report's totals are the sheet's: the total area is the sum of all
   * areas, each length total is its category's, and the facet count is the
   * number of filled area cells.
   */
  lemma ReportTotals(records: seq<CreateDiagrams.SheetRecord>, lineTotals: map<string, int>,
                     pitchAreas: map<real, int>, pitchOrder: seq<real>, facetCount: nat)
    requires forall c :: Lookup(lineTotals, c) == CreateDiagrams.CategoryTotal(records, c)
    requires forall p :: Lookup(pitchAreas, p) == CreateDiagrams.PitchAreaTotal(records, p)
    requires pitchOrder == CreateDiagrams.PitchOrder(records)
    requires facetCount == CreateDiagrams.CountAreas(records)
    requires pitchOrder != []
    ensures var r := Measurements(lineTotals, pitchAreas, pitchOrder, facetCount);
      && r.Success?
      && r.value.totalArea == AreaTotal(records)
      && r.value.facetCount == |set i | 0 <= i < |records| && records[i].area.Some?|
      && r.value.ridges == CreateDiagrams.CategoryTotal(records, "R")
      && r.value.hips == CreateDiagrams.CategoryTotal(records, "H")
      && r.value.valleys == CreateDiagrams.CategoryTotal(records, "V")
      && r.value.kings == CreateDiagrams.CategoryTotal(records, "K")
      && r.value.eaves == CreateDiagrams.CategoryTotal(records, "E")
  {
    PitchMapTotal(records, pitchAreas);
    CategoryRead(records, lineTotals, "R");
    CategoryRead(records, lineTotals, "H");
    CategoryRead(records, lineTotals, "V");
    CategoryRead(records, lineTotals, "K");
    CategoryRead(records, lineTotals, "E");
  }

  lemma CategoryRead(records: seq<CreateDiagrams.SheetRecord>, lineTotals: map<string, int>, c: string)
    requires forall c :: Lookup(lineTotals, c) == CreateDiagrams.CategoryTotal(records, c)
    ensures Lookup(lineTotals, c) == CreateDiagrams.CategoryTotal(records, c)
  {
  }

  /** Summing the pitch map over its keys gives the sum of all areas. */
  lemma PitchMapTotal(records: seq<CreateDiagrams.SheetRecord>, pitchAreas: map<real, int>)
    requires forall p :: Lookup(pitchAreas, p) == CreateDiagrams.PitchAreaTotal(records, p)
    ensures SumOver(CreateDiagrams.PitchOrder(records), MapTotals(pitchAreas)) == AreaTotal(records)
  {
    var order := CreateDiagrams.PitchOrder(records);
    SumOfPitchTotals(records);
    assert forall p :: p in order ==> MapTotals(pitchAreas)(p) == PitchTotals(records)(p);
    SumOverAgree(order, MapTotals(pitchAreas), PitchTotals(records));
  }

  /**
   * A sheet with some area has a predominant pitch: the pitch of one of its
   * rows with an area, whose area total no other such row's pitch exceeds.
   */
  lemma ReportPredominantPitch(records: seq<CreateDiagrams.SheetRecord>, lineTotals: map<string, int>,
                               pitchAreas: map<real, int>, pitchOrder: seq<real>, facetCount: nat)
    requires forall p :: Lookup(pitchAreas, p) == CreateDiagrams.PitchAreaTotal(records, p)
    requires pitchOrder == CreateDiagrams.PitchOrder(records)
    requires exists i :: 0 <= i < |records| && records[i].area.Some?
    ensures var r := Measurements(lineTotals, pitchAreas, pitchOrder, facetCount);
      && r.Success?
      && (exists i :: 0 <= i < |records| && records[i].area.Some? && records[i].pitch == r.value.predominantPitch)
      && (forall i :: 0 <= i < |records| && records[i].area.Some? ==>
            CreateDiagrams.PitchAreaTotal(records, records[i].pitch) <= CreateDiagrams.PitchAreaTotal(records, r.value.predominantPitch))
  {
    CreateDiagrams.PitchOrderSpec(records);
    var i :| 0 <= i < |records| && records[i].area.Some?;
    assert records[i].pitch in pitchOrder;
    var r := Measurements(lineTotals, pitchAreas, pitchOrder, facetCount);
    var best := r.value.predominantPitch;
    assert best in pitchOrder;
    forall j | 0 <= j < |records| && records[j].area.Some?
      ensures CreateDiagrams.PitchAreaTotal(records, records[j].pitch) <= CreateDiagrams.PitchAreaTotal(records, best)
    {
      assert records[j].pitch in pitchOrder;
    }
  }
}
