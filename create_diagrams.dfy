/**
 * The geometry and bookkeeping helpers of the diagram stage: facet names,
 * splitting drawn lines at the endpoints of other lines, and the totals
 * a finished data sheet is summarised into.
 */
module CreateDiagrams {
  import opened Common
  import opened Sorting

  // ---------------------------------------------------------------------
  // Facet names: Excel-style column letters
  // ---------------------------------------------------------------------

  function LetterChar(d: int): char
    requires 0 <= d < 26
  {
    (65 + d) as char
  }

  /** The name of column n (0-based) in bijective base 26: A..Z, AA..AZ, BA, ... */
  function LetterName(n: nat): (s: string)
    ensures |s| >= 1 && s[|s| - 1] == LetterChar(n % 26)
  {
    if n < 26 then [LetterChar(n)] else LetterName(n / 26 - 1) + [LetterChar(n % 26)]
  }

  /** Reads a column name back: the 1-based column number, 0 for the empty name. */
  function LetterValue(s: string): int
  {
    if s == [] then 0 else 26 * LetterValue(s[..|s| - 1]) + (s[|s| - 1] as int - 64)
  }

  predicate IsUpperName(s: string)
  {
    |s| > 0 && forall i :: 0 <= i < |s| ==> 'A' <= s[i] <= 'Z'
  }

  /** The name of the column before the 1-based column n: empty when n is 0. */
  function NamePrefix(n: nat): string
  {
    if n == 0 then "" else LetterName(n - 1)
  }

  /**
   * The letter id of index num. The loop peels off one base-26 digit per turn
   * and puts its letter in front; a negative num never enters the loop.
   */
  method LetterId(num: int) returns (s: string)
    ensures num >= 0 ==> s == LetterName(num)
    ensures num < 0 ==> s == ""
  {
    s := "";
    var n := num + 1;
    while n > 0
      invariant num < 0 ==> n <= 0 && s == ""
      invariant num >= 0 ==> n >= 0 && LetterName(num) == NamePrefix(n) + s
      decreases n
    {
      var q, remainder := (n - 1) / 26, (n - 1) % 26;
      LetterNameStep(n);
      AppendAssoc(NamePrefix(q), [LetterChar(remainder)], s);
      s := [LetterChar(remainder)] + s;
      n := q;
    }
  }

  /** The name of column n - 1 is the name of its leading digits followed by its last letter. */
  lemma LetterNameStep(n: nat)
    requires n >= 1
    ensures NamePrefix(n) == NamePrefix((n - 1) / 26) + [LetterChar((n - 1) % 26)]
  {
  }

  lemma AppendAssoc(a: string, b: string, c: string)
    ensures (a + b) + c == a + (b + c)
  {
  }

  /** Every name is a non-empty word over 'A'..'Z'. */
  lemma {:induction false} LetterNameIsUpper(n: nat)
    ensures IsUpperName(LetterName(n))
  {
    if n >= 26 {
      LetterNameIsUpper(n / 26 - 1);
    }
  }

  /** Decoding a name gives back its index: the naming is injective. */
  lemma {:induction false} LetterNameDecodes(n: nat)
    ensures LetterValue(LetterName(n)) == n + 1
  {
    if n >= 26 {
      var p := LetterName(n / 26 - 1);
      LetterNameDecodes(n / 26 - 1);
      assert (p + [LetterChar(n % 26)])[..|p|] == p;
    }
  }

  lemma LetterNameInjective(m: nat, n: nat)
    requires LetterName(m) == LetterName(n)
    ensures m == n
  {
    LetterNameDecodes(m);
    LetterNameDecodes(n);
  }

  lemma {:induction false} LetterValuePositive(s: string)
    requires IsUpperName(s)
    ensures LetterValue(s) >= 1
  {
    if |s| > 1 {
      LetterValuePositive(s[..|s| - 1]);
    }
  }

  /** Every non-empty upper-case word names some index: the naming is onto. */
  lemma {:induction false} LetterNameOnto(s: string)
    requires IsUpperName(s)
    ensures LetterValue(s) >= 1 && LetterName(LetterValue(s) - 1) == s
  {
    LetterValuePositive(s);
    var last := s[|s| - 1];
    var d := last as int - 64;
    if |s| > 1 {
      var p := s[..|s| - 1];
      LetterNameOnto(p);
      var n := LetterValue(s) - 1;
      assert n == 26 * LetterValue(p) + (d - 1);
      assert n / 26 == LetterValue(p) && n % 26 == d - 1;
      assert s == p + [last];
    }
  }

  lemma LetterNameExamples()
    ensures LetterName(0) == "A" && LetterName(25) == "Z"
    ensures LetterName(26) == "AA" && LetterName(701) == "ZZ" && LetterName(702) == "AAA"
  {
    assert LetterName(26 / 26 - 1) == "A";
    assert LetterName(701 / 26 - 1) == "Z";
    assert LetterName(702 / 26 - 1) == "AA";
  }

  // ---------------------------------------------------------------------
  // Points and lines of the drawing
  // ---------------------------------------------------------------------

  datatype Point = Point(x: real, y: real)

  /** A drawn line, as the pair of its endpoints `line[0]`, `line[1]`. */
  datatype Line = Line(a: Point, b: Point)

  /** The point equidistant from p and q along each axis. */
  function Midpoint(p: Point, q: Point): (m: Point)
    ensures m.x - p.x == q.x - m.x && m.y - p.y == q.y - m.y
  {
    Point((p.x + q.x) / 2.0, (p.y + q.y) / 2.0)
  }

  /** A distance that is zero exactly between a point and itself. */
  ghost predicate SeparatesPoints(dist: (Point, Point) -> real)
  {
    forall p, q :: dist(p, q) == 0.0 <==> p == q
  }

  /**
   * p lies on l strictly between its endpoints: it is at non-zero distance
   * from both, and the two distances add up to the line's length.
   */
  predicate PointLiesOnLine(p: Point, l: Line, dist: (Point, Point) -> real)
    ensures dist(p, l.a) == 0.0 || dist(p, l.b) == 0.0 ==> !PointLiesOnLine(p, l, dist)
    ensures PointLiesOnLine(p, l, dist) ==> dist(p, l.a) + dist(p, l.b) == dist(l.a, l.b)
  {
    var d1 := dist(p, l.a);
    var d2 := dist(p, l.b);
    d1 != 0.0 && d2 != 0.0 && d1 + d2 == dist(l.a, l.b)
  }

  /** A line's own endpoints never count as lying on it. */
  lemma EndpointsNotOnLine(l: Line, dist: (Point, Point) -> real)
    requires forall p :: dist(p, p) == 0.0
    ensures !PointLiesOnLine(l.a, l, dist) && !PointLiesOnLine(l.b, l, dist)
  {
    assert dist(l.a, l.a) == 0.0 && dist(l.b, l.b) == 0.0;
  }

  lemma OnLineIsNotEndpoint(p: Point, l: Line, dist: (Point, Point) -> real)
    requires SeparatesPoints(dist)
    requires PointLiesOnLine(p, l, dist)
    ensures p != l.a && p != l.b
  {
    assert dist(p, l.a) != 0.0 && dist(p, l.b) != 0.0;
  }

  // ---------------------------------------------------------------------
  // Line segmentation
  // ---------------------------------------------------------------------

  /** Python's tuple order on (x, y): lexicographic. */
  function LexLe(p: Point, q: Point): bool
  {
    p.x < q.x || (p.x == q.x && p.y <= q.y)
  }

  /** The endpoints of refLine that lie on line, in the order refLine stores them. */
  function Hits(line: Line, refLine: Line, dist: (Point, Point) -> real): seq<Point>
  {
    (if PointLiesOnLine(refLine.a, line, dist) then [refLine.a] else [])
    + (if PointLiesOnLine(refLine.b, line, dist) then [refLine.b] else [])
  }

  /** The points collected for line while scanning refs: hits of every ref unequal to line, repeats kept. */
  function Collected(line: Line, refs: seq<Line>, dist: (Point, Point) -> real): (r: seq<Point>)
    ensures |r| <= 2 * |refs|
  {
    if refs == [] then []
    else
      var last := refs[|refs| - 1];
      Collected(line, refs[..|refs| - 1], dist) + (if last == line then [] else Hits(line, last, dist))
  }

  /** The consecutive pieces of a polyline through points. */
  function Chain(points: seq<Point>): seq<Line>
    requires |points| >= 2
  {
    seq(|points| - 1, i requires 0 <= i < |points| - 1 => Line(points[i], points[i + 1]))
  }

  /** line cut at the given interior points, or line itself when there are none. */
  function Split(line: Line, interior: seq<Point>): seq<Line>
  {
    if interior == [] then [line] else Chain([line.a] + interior + [line.b])
  }

  function SortedHits(line: Line, lines: seq<Line>, dist: (Point, Point) -> real): seq<Point>
  {
    Sort(Collected(line, lines, dist), LexLe)
  }

  /** The segments one line of lines is cut into. */
  function LineSegments(line: Line, lines: seq<Line>, dist: (Point, Point) -> real): seq<Line>
  {
    Split(line, SortedHits(line, lines, dist))
  }

  /**
   * A line is cut into one more piece than it has collected points; the
   * pieces run from its first stored endpoint to its second, each starting
   * where the one before ends, and every cut lies strictly inside the line.
   */
  lemma LineSegmentsChain(line: Line, lines: seq<Line>, dist: (Point, Point) -> real)
    ensures var segs := LineSegments(line, lines, dist);
      && |segs| == |Collected(line, lines, dist)| + 1
      && segs[0].a == line.a
      && segs[|segs| - 1].b == line.b
      && (forall k :: 0 <= k < |segs| - 1 ==> segs[k].b == segs[k + 1].a)
      && (forall k :: 0 <= k < |segs| - 1 ==> PointLiesOnLine(segs[k].b, line, dist))
  {
    var pts := SortedHits(line, lines, dist);
    SplitChain(line, pts);
    SortedHitsSpec(line, lines, dist);
    forall k | 0 <= k < |pts|
      ensures PointLiesOnLine(pts[k], line, dist)
    {
      assert pts[k] in multiset(Collected(line, lines, dist));
      CollectedSound(line, lines, dist, pts[k]);
    }
  }

  /** The segments the lines of todo are cut into, line after line. */
  function SegmentsOf(todo: seq<Line>, lines: seq<Line>, dist: (Point, Point) -> real): seq<Line>
  {
    if todo == [] then []
    else SegmentsOf(todo[..|todo| - 1], lines, dist) + LineSegments(todo[|todo| - 1], lines, dist)
  }

  /** The inner scan: every endpoint of every other line that lies inside line, in scan order. */
  method IntersectingPoints(line: Line, lines: seq<Line>, dist: (Point, Point) -> real) returns (intersecting: seq<Point>)
    ensures intersecting == Collected(line, lines, dist)
  {
    intersecting := [];
    var j := 0;
    while j < |lines|
      invariant 0 <= j <= |lines|
      invariant intersecting == Collected(line, lines[..j], dist)
    {
      var refLine := lines[j];
      assert lines[..j + 1][..j] == lines[..j];
      if refLine != line {
        // the two endpoints of refLine, in stored order
        if PointLiesOnLine(refLine.a, line, dist) {
          intersecting := intersecting + [refLine.a];
        }
        if PointLiesOnLine(refLine.b, line, dist) {
          intersecting := intersecting + [refLine.b];
        }
      }
      j := j + 1;
    }
    assert lines[..j] == lines;
  }

  /** Appends the pieces of line cut at interior (already in order) to segments. */
  method AppendPieces(segments: seq<Line>, line: Line, interior: seq<Point>) returns (out: seq<Line>)
    ensures out == segments + Split(line, interior)
  {
    if |interior| == 0 {
      out := segments + [line];
    } else {
      var points := [line.a] + interior + [line.b];
      out := segments;
      var k := 0;
      while k < |interior| + 1
        invariant 0 <= k <= |interior| + 1
        invariant out == segments + Chain(points)[..k]
      {
        out := out + [Line(points[k], points[k + 1])];
        k := k + 1;
      }
      assert Chain(points)[..k] == Chain(points);
    }
  }

  /**
   * Splits each line at every endpoint of another line that lies strictly
   * inside it. The pieces run from the line's first stored endpoint through
   * the collected points in (x, y) order to its second endpoint.
   */
  method GetLineSegments(lines: seq<Line>, dist: (Point, Point) -> real) returns (segments: seq<Line>)
    ensures segments == SegmentsOf(lines, lines, dist)
  {
    segments := [];
    var i := 0;
    while i < |lines|
      invariant 0 <= i <= |lines|
      invariant segments == SegmentsOf(lines[..i], lines, dist)
    {
      segments := CutLine(segments, lines[i], lines, dist);
      SegmentsOfPrefix(lines, i, lines, dist);
      i := i + 1;
    }
    assert lines[..i] == lines;
  }

  /** The segments of the first i + 1 lines are those of the first i followed by those of line i. */
  lemma SegmentsOfPrefix(todo: seq<Line>, i: nat, lines: seq<Line>, dist: (Point, Point) -> real)
    requires i < |todo|
    ensures SegmentsOf(todo[..i + 1], lines, dist) == SegmentsOf(todo[..i], lines, dist) + LineSegments(todo[i], lines, dist)
  {
    assert todo[..i + 1][..i] == todo[..i];
  }

  /** One turn of the outer scan: collects the points inside line, orders them and appends the pieces. */
  method CutLine(segments: seq<Line>, line: Line, lines: seq<Line>, dist: (Point, Point) -> real) returns (out: seq<Line>)
    ensures out == segments + LineSegments(line, lines, dist)
  {
    var intersecting := IntersectingPoints(line, lines, dist);
    intersecting := Sort(intersecting, LexLe);
    out := AppendPieces(segments, line, intersecting);
  }

  /** The number of points collected over all lines of todo. */
  function TotalHits(todo: seq<Line>, lines: seq<Line>, dist: (Point, Point) -> real): nat
  {
    if todo == [] then 0
    else TotalHits(todo[..|todo| - 1], lines, dist) + |Collected(todo[|todo| - 1], lines, dist)|
  }

  /** A line with k collected points becomes k + 1 segments, so the output has one segment per line plus one per point. */
  lemma {:induction false} SegmentCount(todo: seq<Line>, lines: seq<Line>, dist: (Point, Point) -> real)
    ensures |SegmentsOf(todo, lines, dist)| == |todo| + TotalHits(todo, lines, dist)
  {
    if todo != [] {
      SegmentCount(todo[..|todo| - 1], lines, dist);
    }
  }

  lemma LexLeTotal()
    ensures TotalPreorder(LexLe)
  {
  }

  /**
   * Cutting a line at interior points gives a chain from the line's first
   * stored endpoint to its second, whose k-th piece ends at the k-th point;
   * without interior points the line is kept whole.
   */
  lemma SplitChain(line: Line, pts: seq<Point>)
    ensures pts == [] ==> Split(line, pts) == [line]
    ensures var segs := Split(line, pts);
      && |segs| == |pts| + 1
      && segs[0].a == line.a
      && segs[|segs| - 1].b == line.b
      && (forall k :: 0 <= k < |segs| - 1 ==> segs[k].b == segs[k + 1].a)
      && (forall k :: 0 <= k < |pts| ==> segs[k].b == pts[k])
  {
  }

  /** The points a line is cut at are its collected points, in (x, y) order. */
  lemma SortedHitsSpec(line: Line, lines: seq<Line>, dist: (Point, Point) -> real)
    ensures SortedBy(SortedHits(line, lines, dist), LexLe)
    ensures multiset(SortedHits(line, lines, dist)) == multiset(Collected(line, lines, dist))
  {
    LexLeTotal();
    SortSorted(Collected(line, lines, dist), LexLe);
  }

  /** Every collected point is an endpoint of a line unequal to line and lies strictly inside line. */
  lemma {:induction false} CollectedSound(line: Line, refs: seq<Line>, dist: (Point, Point) -> real, p: Point)
    requires p in Collected(line, refs, dist)
    ensures PointLiesOnLine(p, line, dist)
    ensures exists r :: r in refs && r != line && (p == r.a || p == r.b)
  {
    var last := refs[|refs| - 1];
    if p in Collected(line, refs[..|refs| - 1], dist) {
      CollectedSound(line, refs[..|refs| - 1], dist, p);
      var r :| r in refs[..|refs| - 1] && r != line && (p == r.a || p == r.b);
      assert r in refs;
    } else {
      assert last in refs;
    }
  }

  /** Conversely, every endpoint of another line lying inside line is collected. */
  lemma {:induction false} CollectedComplete(line: Line, refs: seq<Line>, dist: (Point, Point) -> real, r: Line, p: Point)
    requires r in refs && r != line
    requires p == r.a || p == r.b
    requires PointLiesOnLine(p, line, dist)
    ensures p in Collected(line, refs, dist)
  {
    var last := refs[|refs| - 1];
    if r != last {
      assert refs == refs[..|refs| - 1] + [last];
      assert r in refs[..|refs| - 1];
      CollectedComplete(line, refs[..|refs| - 1], dist, r, p);
    }
  }

  /** Segments come out grouped by line, in input order. */
  lemma {:induction false} SegmentsOfConcat(t1: seq<Line>, t2: seq<Line>, lines: seq<Line>, dist: (Point, Point) -> real)
    ensures SegmentsOf(t1 + t2, lines, dist) == SegmentsOf(t1, lines, dist) + SegmentsOf(t2, lines, dist)
  {
    if t2 != [] {
      var t := t1 + t2;
      assert t[..|t| - 1] == t1 + t2[..|t2| - 1];
      assert t[|t| - 1] == t2[|t2| - 1];
      SegmentsOfConcat(t1, t2[..|t2| - 1], lines, dist);
      var s1, s2, last := SegmentsOf(t1, lines, dist), SegmentsOf(t2[..|t2| - 1], lines, dist), LineSegments(t2[|t2| - 1], lines, dist);
      assert SegmentsOf(t, lines, dist) == (s1 + s2) + last;
      assert SegmentsOf(t2, lines, dist) == s2 + last;
      assert (s1 + s2) + last == s1 + (s2 + last);
    } else {
      assert t1 + t2 == t1;
    }
  }

  lemma SegmentsOfLineAt(todo: seq<Line>, i: nat, lines: seq<Line>, dist: (Point, Point) -> real)
    requires i < |todo|
    ensures SegmentsOf(todo, lines, dist)
      == SegmentsOf(todo[..i], lines, dist)
       + LineSegments(todo[i], lines, dist)
       + SegmentsOf(todo[i + 1..], lines, dist)
  {
    SegmentsOfPrefix(todo, i, lines, dist);
    assert todo[..i + 1] + todo[i + 1..] == todo;
    SegmentsOfConcat(todo[..i + 1], todo[i + 1..], lines, dist);
  }

  // ---------------------------------------------------------------------
  // Summary maps of a finished data sheet
  // ---------------------------------------------------------------------

  /**
   * A row of the finished sheet as it is read back: its category code, its
   * length and area (None where the cell is empty) and its pitch.
   */
  datatype SheetRecord = SheetRecord(lineType: string, length: Option<real>, pitch: real, area: Option<real>)

  /** The sum of int(length) over rows of category c with a length. */
  function CategoryTotal(records: seq<SheetRecord>, c: string): int
  {
    if records == [] then 0
    else
      var r := records[|records| - 1];
      CategoryTotal(records[..|records| - 1], c)
        + (if r.length.Some? && Upper(r.lineType) == c then Trunc(r.length.value) else 0)
  }

  /** The sum of int(area) over rows of pitch p with an area. */
  function PitchAreaTotal(records: seq<SheetRecord>, p: real): int
  {
    if records == [] then 0
    else
      var r := records[|records| - 1];
      PitchAreaTotal(records[..|records| - 1], p)
        + (if r.area.Some? && r.pitch == p then Trunc(r.area.value) else 0)
  }

  /** The categories of rows with a length. */
  function Categories(records: seq<SheetRecord>): set<string>
  {
    if records == [] then {}
    else
      var r := records[|records| - 1];
      Categories(records[..|records| - 1]) + (if r.length.Some? then {Upper(r.lineType)} else {})
  }

  /** The pitches of rows with an area, in order of first appearance. */
  function PitchOrder(records: seq<SheetRecord>): seq<real>
  {
    if records == [] then []
    else
      var r := records[|records| - 1];
      var before := PitchOrder(records[..|records| - 1]);
      before + (if r.area.Some? && r.pitch !in before then [r.pitch] else [])
  }

  /** pandas' `count()` of the area column: the number of rows with an area. */
  function CountAreas(records: seq<SheetRecord>): (n: nat)
    ensures n == |set i | 0 <= i < |records| && records[i].area.Some?|
  {
    if records == [] then 0
    else
      AreaIndicesStep(records);
      CountAreas(records[..|records| - 1]) + (if records[|records| - 1].area.Some? then 1 else 0)
  }

  /** The rows with an area are those of the rows before the last, plus the last if it has one. */
  lemma AreaIndicesStep(records: seq<SheetRecord>)
    requires records != []
    ensures var k := |records| - 1;
      var before := (set i | 0 <= i < k && records[..k][i].area.Some?);
      (set i | 0 <= i < |records| && records[i].area.Some?)
        == if records[k].area.Some? then before + {k} else before
  {
    var k := |records| - 1;
    assert (set i | 0 <= i < k && records[..k][i].area.Some?) == (set i | 0 <= i < k && records[i].area.Some?);
  }

  /**
   * One pass over the rows builds the per-category length totals and the
   * per-pitch area totals (each a defaultdict(int), so a key appears once a
   * row adds to it); the facet count is the number of filled area cells.
   * pitchOrder is the insertion order of the pitch dictionary's keys.
   */
  method MakeMaps(records: seq<SheetRecord>)
    returns (lineTotals: map<string, int>, pitchAreas: map<real, int>, pitchOrder: seq<real>, areaCount: nat)
    ensures forall c :: Lookup(lineTotals, c) == CategoryTotal(records, c)
    ensures lineTotals.Keys == Categories(records)
    ensures forall p :: Lookup(pitchAreas, p) == PitchAreaTotal(records, p)
    ensures pitchOrder == PitchOrder(records)
    ensures pitchAreas.Keys == set p | p in pitchOrder
    ensures areaCount == |set i | 0 <= i < |records| && records[i].area.Some?|
  {
    lineTotals, pitchAreas, pitchOrder := map[], map[], [];
    var i := 0;
    while i < |records|
      invariant 0 <= i <= |records|
      invariant forall c :: Lookup(lineTotals, c) == CategoryTotal(records[..i], c)
      invariant lineTotals.Keys == Categories(records[..i])
      invariant forall p :: Lookup(pitchAreas, p) == PitchAreaTotal(records[..i], p)
      invariant pitchOrder == PitchOrder(records[..i])
      invariant pitchAreas.Keys == set p | p in pitchOrder
    {
      lineTotals := AddLength(lineTotals, records, i);
      pitchAreas, pitchOrder := AddArea(pitchAreas, pitchOrder, records, i);
      i := i + 1;
    }
    assert records[..i] == records;
    areaCount := CountAreas(records);
  }

  /** One row's contribution to the length totals. */
  method AddLength(lineTotals: map<string, int>, records: seq<SheetRecord>, i: nat) returns (r: map<string, int>)
    requires i < |records|
    requires forall c :: Lookup(lineTotals, c) == CategoryTotal(records[..i], c)
    requires lineTotals.Keys == Categories(records[..i])
    ensures forall c :: Lookup(r, c) == CategoryTotal(records[..i + 1], c)
    ensures r.Keys == Categories(records[..i + 1])
  {
    var row := records[i];
    assert records[..i + 1][..i] == records[..i];
    r := lineTotals;
    if row.length.Some? {
      var key := Upper(row.lineType);
      r := r[key := Lookup(r, key) + Trunc(row.length.value)];
    }
  }

  /** One row's contribution to the per-pitch areas and the order pitches first appear in. */
  method AddArea(pitchAreas: map<real, int>, pitchOrder: seq<real>, records: seq<SheetRecord>, i: nat)
    returns (areas: map<real, int>, order: seq<real>)
    requires i < |records|
    requires forall p :: Lookup(pitchAreas, p) == PitchAreaTotal(records[..i], p)
    requires pitchOrder == PitchOrder(records[..i])
    requires pitchAreas.Keys == set p | p in pitchOrder
    ensures forall p :: Lookup(areas, p) == PitchAreaTotal(records[..i + 1], p)
    ensures order == PitchOrder(records[..i + 1])
    ensures areas.Keys == set p | p in order
  {
    var row := records[i];
    assert records[..i + 1][..i] == records[..i];
    areas, order := pitchAreas, pitchOrder;
    if row.area.Some? {
      if row.pitch !in areas {
        order := order + [row.pitch];
      }
      areas := areas[row.pitch := Lookup(areas, row.pitch) + Trunc(row.area.value)];
    }
  }

  /** A category is a key exactly when some row of that category has a length. */
  lemma {:induction false} CategoriesSpec(records: seq<SheetRecord>, c: string)
    ensures c in Categories(records)
      <==> exists i :: 0 <= i < |records| && records[i].length.Some? && Upper(records[i].lineType) == c
  {
    if records != [] {
      var k := |records| - 1;
      CategoriesSpec(records[..k], c);
      if c in Categories(records[..k]) {
        var i :| 0 <= i < k && records[..k][i].length.Some? && Upper(records[..k][i].lineType) == c;
        assert records[i] == records[..k][i];
      }
      if exists i :: 0 <= i < |records| && records[i].length.Some? && Upper(records[i].lineType) == c {
        var i :| 0 <= i < |records| && records[i].length.Some? && Upper(records[i].lineType) == c;
        if i < k {
          assert records[..k][i] == records[i];
        }
      }
    }
  }

  /** The pitch order lists each pitch with an area exactly once. */
  lemma {:induction false} PitchOrderSpec(records: seq<SheetRecord>)
    ensures forall i, j :: 0 <= i < j < |PitchOrder(records)| ==> PitchOrder(records)[i] != PitchOrder(records)[j]
    ensures forall p :: (p in PitchOrder(records)
      <==> exists i :: 0 <= i < |records| && records[i].area.Some? && records[i].pitch == p)
  {
    if records != [] {
      var k := |records| - 1;
      PitchOrderSpec(records[..k]);
      forall p
        ensures p in PitchOrder(records)
          <==> exists i :: 0 <= i < |records| && records[i].area.Some? && records[i].pitch == p
      {
        if p in PitchOrder(records[..k]) {
          var i :| 0 <= i < k && records[..k][i].area.Some? && records[..k][i].pitch == p;
          assert records[i] == records[..k][i];
        }
        if exists i :: 0 <= i < |records| && records[i].area.Some? && records[i].pitch == p {
          var i :| 0 <= i < |records| && records[i].area.Some? && records[i].pitch == p;
          if i < k {
            assert records[..k][i] == records[i];
          }
        }
      }
    }
  }
}
