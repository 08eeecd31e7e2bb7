/** The lasso's scanline polygon fill (`rasterizePolygon`): the polygon is
    closed by the edge from its last point back to its first, crossings are
    found with a half-open test, sorted and paired into horizontal spans. */
module LassoGeometry {
  import opened Basics

  /** A point in game-canvas coordinates. */
  datatype Point = Point(x: real, y: real)

  /** One horizontal run to paint on scanline `y`, from `x1` to `x2`. */
  datatype Span = Span(y: int, x1: int, x2: int)

  /** Whether the edge from `a` to `b` crosses scanline `y`: one endpoint is
      on or above it, the other strictly below (greater y). */
  predicate Crosses(a: Point, b: Point, y: real)
  {
    (a.y <= y && b.y > y) || (b.y <= y && a.y > y)
  }

  /** The x where a crossing edge meets scanline `y`, by linear
      interpolation; it never divides by zero and lies between the x values
      of the edge's endpoints. */
  function CrossingX(a: Point, b: Point, y: real): (x: real)
    requires Crosses(a, b, y)
    ensures MinReal(a.x, b.x) <= x <= MaxReal(a.x, b.x)
  {
    var t := (y - a.y) / (b.y - a.y);
    UnitQuotient(y - a.y, b.y - a.y);
    ConvexCombination(a.x, b.x, t);
    a.x + (y - a.y) / (b.y - a.y) * (b.x - a.x)
  }

  /** A horizontal edge never crosses a scanline. */
  lemma HorizontalEdgeNeverCrosses(a: Point, b: Point, y: real)
    requires a.y == b.y
    ensures !Crosses(a, b, y)
  {
  }

  /** The crossings of edges 0 .. n-1 with scanline `y`, in edge order; edge
      `i` runs from point `i` to point `(i + 1) % |poly|`. */
  function EdgeCrossings(poly: seq<Point>, y: real, n: nat): (c: seq<real>)
    requires n <= |poly|
    ensures |c| <= n
  {
    if n == 0 then []
    else
      var i := n - 1;
      var j := (i + 1) % |poly|;
      EdgeCrossings(poly, y, i) + (if Crosses(poly[i], poly[j], y) then [CrossingX(poly[i], poly[j], y)] else [])
  }

  /** All crossings of the closed polygon with scanline `y`. */
  function Crossings(poly: seq<Point>, y: real): seq<real>
  {
    EdgeCrossings(poly, y, |poly|)
  }

  predicate Ascending(s: seq<real>)
  {
    forall i, j :: 0 <= i < j < |s| ==> s[i] <= s[j]
  }

  /** Every element of `s` is at least `b`. */
  predicate LowerBound(b: real, s: seq<real>)
  {
    forall k :: 0 <= k < |s| ==> b <= s[k]
  }

  /** Inserts `x` before the first element not smaller than it. */
  function Insert(x: real, s: seq<real>): seq<real>
  {
    if s == [] || x <= s[0] then [x] + s else [s[0]] + Insert(x, s[1..])
  }

  /** Inserting adds exactly `x`. */
  lemma {:induction false} InsertPermutes(x: real, s: seq<real>)
    ensures multiset(Insert(x, s)) == multiset(s) + multiset{x} && |Insert(x, s)| == |s| + 1
  {
    if s != [] && x > s[0] {
      assert s == [s[0]] + s[1..];
      InsertPermutes(x, s[1..]);
    }
  }

  /** Inserting keeps every lower bound that `x` respects. */
  lemma {:induction false} InsertLowerBound(b: real, x: real, s: seq<real>)
    requires LowerBound(b, s) && b <= x
    ensures LowerBound(b, Insert(x, s))
  {
    if s != [] && x > s[0] {
      var t := s[1..];
      assert LowerBound(b, t);
      InsertLowerBound(b, x, t);
      var r := Insert(x, s);
      forall k | 0 <= k < |r|
        ensures b <= r[k]
      {
        if k > 0 {
          assert r[k] == Insert(x, t)[k - 1];
        }
      }
    }
  }

  /** Inserting into an ascending list keeps it ascending. */
  lemma {:induction false} InsertAscending(x: real, s: seq<real>)
    requires Ascending(s)
    ensures Ascending(Insert(x, s))
  {
    var r := Insert(x, s);
    if s == [] || x <= s[0] {
      forall i, j | 0 <= i < j < |r|
        ensures r[i] <= r[j]
      {
        assert r[j] == s[j - 1];
        if i > 0 {
          assert r[i] == s[i - 1];
        } else {
          assert s[0] <= s[j - 1];
        }
      }
    } else {
      var t := s[1..];
      InsertAscending(x, t);
      var rest := Insert(x, t);
      assert r == [s[0]] + rest;
      assert LowerBound(s[0], t);
      InsertLowerBound(s[0], x, t);
      forall i, j | 0 <= i < j < |r|
        ensures r[i] <= r[j]
      {
        assert r[j] == rest[j - 1];
        if i > 0 {
          assert r[i] == rest[i - 1];
        }
      }
    }
  }

  /** `Array.prototype.sort` with the comparator `(a, b) => a - b`, as an
      insertion sort. */
  function SortAscending(s: seq<real>): seq<real>
  {
    if s == [] then [] else Insert(s[0], SortAscending(s[1..]))
  }

  /** The sort yields an ascending permutation of its input. */
  lemma {:induction false} SortAscendingCorrect(s: seq<real>)
    ensures Ascending(SortAscending(s))
    ensures multiset(SortAscending(s)) == multiset(s) && |SortAscending(s)| == |s|
  {
    if s != [] {
      assert s == [s[0]] + s[1..];
      SortAscendingCorrect(s[1..]);
      InsertAscending(s[0], SortAscending(s[1..]));
      InsertPermutes(s[0], SortAscending(s[1..]));
    }
  }

  /** Consecutive crossings paired into spans: the first crossing of a pair
      rounded up, the second rounded down; an unmatched last crossing is
      ignored. */
  function PairSpans(c: seq<real>, y: int): seq<Span>
  {
    seq(|c| / 2, m requires 0 <= m < |c| / 2 => Span(y, Ceil(c[2 * m]), Floor(c[2 * m + 1])))
  }

  /** The spans of one scanline. */
  function ScanlineSpans(poly: seq<Point>, y: int): seq<Span>
  {
    PairSpans(SortAscending(Crossings(poly, y as real)), y)
  }

  /** The spans of scanlines `y`, `y + step`, ... up to `maxY`. */
  function Rows(poly: seq<Point>, y: int, maxY: int, step: int): seq<Span>
    requires step > 0
    decreases maxY - y
  {
    if y > maxY then [] else ScanlineSpans(poly, y) + Rows(poly, y + step, maxY, step)
  }

  /** The smallest y of a non-empty point list, found front to back. */
  function MinY(poly: seq<Point>): (m: real)
    requires |poly| > 0
    ensures forall i :: 0 <= i < |poly| ==> m <= poly[i].y
    ensures exists i :: 0 <= i < |poly| && m == poly[i].y
  {
    if |poly| == 1 then poly[0].y
    else
      var m := MinY(poly[..|poly| - 1]);
      var last := poly[|poly| - 1].y;
      assert forall i :: 0 <= i < |poly| - 1 ==> poly[..|poly| - 1][i] == poly[i];
      if last < m then last else m
  }

  /** The largest y of a non-empty point list, found front to back. */
  function MaxY(poly: seq<Point>): (m: real)
    requires |poly| > 0
    ensures forall i :: 0 <= i < |poly| ==> poly[i].y <= m
    ensures exists i :: 0 <= i < |poly| && m == poly[i].y
  {
    if |poly| == 1 then poly[0].y
    else
      var m := MaxY(poly[..|poly| - 1]);
      var last := poly[|poly| - 1].y;
      assert forall i :: 0 <= i < |poly| - 1 ==> poly[..|poly| - 1][i] == poly[i];
      if last > m then last else m
  }

  /** What `rasterizePolygon(poly, step)` returns. An empty list leaves the
      bounds infinite, so no scanline runs. */
  function Rasterize(poly: seq<Point>, step: int): seq<Span>
    requires step > 0
  {
    if |poly| == 0 then [] else Rows(poly, Ceil(MinY(poly)), Floor(MaxY(poly)), step)
  }

  /** Extending a prefix by one point updates each bound with that point. */
  lemma BoundsStep(poly: seq<Point>, k: nat)
    requires 1 <= k < |poly|
    ensures MinY(poly[..k + 1]) == if poly[k].y < MinY(poly[..k]) then poly[k].y else MinY(poly[..k])
    ensures MaxY(poly[..k + 1]) == if poly[k].y > MaxY(poly[..k]) then poly[k].y else MaxY(poly[..k])
  {
    assert poly[..k + 1][..k] == poly[..k];
  }

  /** The bounds loop of `rasterizePolygon` on a non-empty list. The
      first point sets both bounds; the source's comparisons against its
      infinite initial bounds do the same. */
  method PolygonBounds(poly: seq<Point>) returns (lo: real, hi: real)
    requires |poly| > 0
    ensures lo == MinY(poly) && hi == MaxY(poly)
  {
    lo, hi := poly[0].y, poly[0].y;
    var k := 1;
    while k < |poly|
      invariant 1 <= k <= |poly|
      invariant lo == MinY(poly[..k]) && hi == MaxY(poly[..k])
    {
      BoundsStep(poly, k);
      if poly[k].y < lo {
        lo := poly[k].y;
      }
      if poly[k].y > hi {
        hi := poly[k].y;
      }
      k := k + 1;
    }
    assert poly[..|poly|] == poly;
  }

  /** The edge loop of one scanline. */
  method CollectCrossings(poly: seq<Point>, y: int) returns (intersections: seq<real>)
    ensures intersections == Crossings(poly, y as real)
  {
    intersections := [];
    var n := |poly|;
    var i := 0;
    while i < n
      invariant 0 <= i <= n
      invariant intersections == EdgeCrossings(poly, y as real, i)
    {
      var j := (i + 1) % n;
      if Crosses(poly[i], poly[j], y as real) {
        intersections := intersections + [CrossingX(poly[i], poly[j], y as real)];
      }
      i := i + 1;
    }
  }

  /** The pairing loop of one scanline: `for (i = 0; i < length - 1; i += 2)`. */
  method PairCrossings(intersections: seq<real>, y: int) returns (row: seq<Span>)
    ensures row == PairSpans(intersections, y)
  {
    ghost var all := PairSpans(intersections, y);
    row := [];
    var p := 0;
    while p < |intersections| - 1
      invariant 0 <= p <= |intersections| && p % 2 == 0
      invariant row == all[..p / 2]
    {
      assert all[..p / 2 + 1] == all[..p / 2] + [all[p / 2]];
      row := row + [Span(y, Ceil(intersections[p]), Floor(intersections[p + 1]))];
      p := p + 2;
    }
    assert all[..p / 2] == all;
  }

  /** The body of the scanline loop: crossings, sort, pairing. */
  method ScanlineRow(poly: seq<Point>, y: int) returns (row: seq<Span>)
    ensures row == ScanlineSpans(poly, y)
  {
    var intersections := CollectCrossings(poly, y);
    intersections := SortAscending(intersections);
    row := PairCrossings(intersections, y);
  }

  /** One scanline's spans followed by those of the scanlines after it are
      the spans from that scanline on. */
  lemma RowsStep(poly: seq<Point>, done: seq<Span>, row: seq<Span>, y: int, maxY: int, step: int)
    requires step > 0 && y <= maxY && row == ScanlineSpans(poly, y)
    ensures (done + row) + Rows(poly, y + step, maxY, step) == done + Rows(poly, y, maxY, step)
  {
  }

  /** `rasterizePolygon`: the bounds, then for each scanline its crossings,
      sorted and paired. */
  method RasterizePolygon(poly: seq<Point>, step: int) returns (lines: seq<Span>)
    requires step > 0
    ensures lines == Rasterize(poly, step)
  {
    lines := [];
    if |poly| == 0 {
      return;
    }
    var lo, hi := PolygonBounds(poly);
    var minY, maxY := Ceil(lo), Floor(hi);
    ghost var total := Rows(poly, minY, maxY, step);
    var y := minY;
    while y <= maxY
      invariant lines + Rows(poly, y, maxY, step) == total
      decreases maxY - y
    {
      var row := ScanlineRow(poly, y);
      ghost var rest := Rows(poly, y + step, maxY, step);
      RowsStep(poly, lines, row, y, maxY, step);
      lines := lines + row;
      y := y + step;
      assert lines + rest == total;
    }
  }

  /** Whether a point lies strictly past scanline `y` (a larger y). */
  predicate Past(p: Point, y: real)
  {
    p.y > y
  }

  /** An edge crosses the scanline exactly when its endpoints lie on
      different sides of it. */
  lemma CrossesIffSidesDiffer(a: Point, b: Point, y: real)
    ensures Crosses(a, b, y) <==> Past(a, y) != Past(b, y)
  {
  }

  /** The index after `i` in a cyclic list of length `n`. */
  lemma NextIndex(i: int, n: int)
    requires 0 <= i < n
    ensures (i + 1) % n == if i + 1 < n then i + 1 else 0
  {
    if i + 1 == n {
      assert n % n == 0;
    }
  }

  /** How many of edges 0 .. n-1 cross scanline `y`; the last edge closes
      the polygon back to point 0. */
  function CrossingCount(poly: seq<Point>, y: real, n: nat): nat
    requires n <= |poly|
  {
    if n == 0 then 0
    else CrossingCount(poly, y, n - 1) + if Crosses(poly[n - 1], poly[if n < |poly| then n else 0], y) then 1 else 0
  }

  /** Each crossing edge contributes exactly one crossing. */
  lemma {:induction false} EdgeCrossingsLength(poly: seq<Point>, y: real, n: nat)
    requires n <= |poly|
    ensures |EdgeCrossings(poly, y, n)| == CrossingCount(poly, y, n)
  {
    if n > 0 {
      EdgeCrossingsLength(poly, y, n - 1);
      NextIndex(n - 1, |poly|);
    }
  }

  /** Along the open path through points 0 .. n, the number of crossing
      edges is odd exactly when the path's two ends lie on different sides
      of the scanline. */
  lemma {:induction false} PathCrossingParity(poly: seq<Point>, y: real, n: nat)
    requires n < |poly|
    ensures CrossingCount(poly, y, n) % 2 == 1 <==> Past(poly[0], y) != Past(poly[n], y)
  {
    if n > 0 {
      PathCrossingParity(poly, y, n - 1);
      CrossesIffSidesDiffer(poly[n - 1], poly[n], y);
    }
  }

  /** A closed polygon crosses every scanline an even number of times, so
      the pairing never meets an unmatched trailing crossing. */
  lemma CrossingCountEven(poly: seq<Point>, y: real)
    ensures |Crossings(poly, y)| % 2 == 0
  {
    var n := |poly|;
    EdgeCrossingsLength(poly, y, n);
    if n > 0 {
      PathCrossingParity(poly, y, n - 1);
      CrossesIffSidesDiffer(poly[n - 1], poly[0], y);
    }
  }

  /** `k` crossings give `k / 2` spans, the first of each pair rounded up and
      the second rounded down; on ascending crossings a span ends no later
      than the next one starts. */
  lemma PairSpansShape(c: seq<real>, y: int)
    requires Ascending(c)
    ensures |PairSpans(c, y)| == |c| / 2
    ensures forall m :: 0 <= m < |c| / 2 ==> PairSpans(c, y)[m] == Span(y, Ceil(c[2 * m]), Floor(c[2 * m + 1]))
    ensures forall m :: 0 <= m < |c| / 2 - 1 ==> PairSpans(c, y)[m].x2 <= PairSpans(c, y)[m + 1].x1
  {
    var r := PairSpans(c, y);
    forall m | 0 <= m < |c| / 2 - 1
      ensures r[m].x2 <= r[m + 1].x1
    {
      assert c[2 * m + 1] <= c[2 * m + 2];
      assert (Floor(c[2 * m + 1]) as real) <= (Ceil(c[2 * m + 2]) as real);
    }
  }

  /** On one scanline every crossing is used: the spans are exactly the
      consecutive pairs of the sorted crossings, in order along the line. */
  lemma ScanlinePairing(poly: seq<Point>, y: int)
    ensures 2 * |ScanlineSpans(poly, y)| == |Crossings(poly, y as real)|
    ensures var c := SortAscending(Crossings(poly, y as real));
      forall m :: 0 <= m < |ScanlineSpans(poly, y)| ==> ScanlineSpans(poly, y)[m] == Span(y, Ceil(c[2 * m]), Floor(c[2 * m + 1]))
    ensures forall m :: 0 <= m < |ScanlineSpans(poly, y)| - 1 ==> ScanlineSpans(poly, y)[m].x2 <= ScanlineSpans(poly, y)[m + 1].x1
  {
    var c := SortAscending(Crossings(poly, y as real));
    SortAscendingCorrect(Crossings(poly, y as real));
    CrossingCountEven(poly, y as real);
    PairSpansShape(c, y);
  }

  /** Whether `y` is `y0` plus a whole number of steps. */
  predicate OnGrid(y: int, y0: int, step: int)
    requires step > 0
    decreases y - y0
  {
    y == y0 || (y > y0 && OnGrid(y - step, y0, step))
  }

  /** Every span lies on a scanline `y0 + k * step` within [lo, hi]. */
  predicate OnScanlines(s: seq<Span>, y0: int, lo: int, hi: int, step: int)
    requires step > 0
  {
    forall k :: 0 <= k < |s| ==> lo <= s[k].y <= hi && OnGrid(s[k].y, y0, step)
  }

  /** Spans come in non-decreasing y. */
  predicate RowOrdered(s: seq<Span>)
  {
    forall i, j :: 0 <= i < j < |s| ==> s[i].y <= s[j].y
  }

  /** All spans of one scanline carry its y. */
  lemma ScanlineSpansY(poly: seq<Point>, y: int)
    ensures forall k :: 0 <= k < |ScanlineSpans(poly, y)| ==> ScanlineSpans(poly, y)[k].y == y
  {
  }

  /** A row of spans on scanline `y` followed by spans on later grid
      scanlines up to `maxY` keeps both properties. */
  lemma PrependRow(row: seq<Span>, rest: seq<Span>, y0: int, y: int, maxY: int, step: int)
    requires step > 0 && y <= maxY && OnGrid(y, y0, step)
    requires forall k :: 0 <= k < |row| ==> row[k].y == y
    requires OnScanlines(rest, y0, y + step, maxY, step) && RowOrdered(rest)
    ensures OnScanlines(row + rest, y0, y, maxY, step) && RowOrdered(row + rest)
  {
    var all := row + rest;
    forall k | 0 <= k < |all|
      ensures y <= all[k].y <= maxY && OnGrid(all[k].y, y0, step)
    {
      if k >= |row| {
        assert all[k] == rest[k - |row|];
      }
    }
    forall i, j | 0 <= i < j < |all|
      ensures all[i].y <= all[j].y
    {
      if j < |row| {
      } else if i < |row| {
        assert all[j] == rest[j - |row|];
      } else {
        assert all[i] == rest[i - |row|] && all[j] == rest[j - |row|];
      }
    }
  }

  /** Every span of `Rows` from `y` on lies on a scanline `y0 + k * step`
      between `y` and `maxY`, and the spans come in non-decreasing y. */
  lemma {:induction false} RowsOnScanlines(poly: seq<Point>, y0: int, y: int, maxY: int, step: int)
    requires step > 0 && OnGrid(y, y0, step)
    ensures OnScanlines(Rows(poly, y, maxY, step), y0, y, maxY, step)
    ensures RowOrdered(Rows(poly, y, maxY, step))
    decreases maxY - y
  {
    if y <= maxY {
      assert OnGrid(y + step, y0, step);
      RowsOnScanlines(poly, y0, y + step, maxY, step);
      ScanlineSpansY(poly, y);
      PrependRow(ScanlineSpans(poly, y), Rows(poly, y + step, maxY, step), y0, y, maxY, step);
    }
  }

  /** The scanlines of `rasterizePolygon` are `ceil(minY)`,
      `ceil(minY) + step`, ... and never pass `floor(maxY)`; spans come in
      non-decreasing y. */
  lemma RasterizeScanlines(poly: seq<Point>, step: int)
    requires step > 0
    ensures |poly| == 0 ==> Rasterize(poly, step) == []
    ensures |poly| > 0 ==>
      OnScanlines(Rasterize(poly, step), Ceil(MinY(poly)), Ceil(MinY(poly)), Floor(MaxY(poly)), step)
    ensures RowOrdered(Rasterize(poly, step))
  {
    if |poly| > 0 {
      RowsOnScanlines(poly, Ceil(MinY(poly)), Ceil(MinY(poly)), Floor(MaxY(poly)), step);
    }
  }

  /** Edges of a three-point polygon, spelled out. */
  lemma ThreePointCrossings(poly: seq<Point>, y: real)
    requires |poly| == 3
    ensures Crossings(poly, y)
      == (if Crosses(poly[0], poly[1], y) then [CrossingX(poly[0], poly[1], y)] else [])
      + (if Crosses(poly[1], poly[2], y) then [CrossingX(poly[1], poly[2], y)] else [])
      + (if Crosses(poly[2], poly[0], y) then [CrossingX(poly[2], poly[0], y)] else [])
  {
    assert (0 + 1) % 3 == 1 && (1 + 1) % 3 == 2 && (2 + 1) % 3 == 0;
    assert EdgeCrossings(poly, y, 1)
      == (if Crosses(poly[0], poly[1], y) then [CrossingX(poly[0], poly[1], y)] else []);
    assert EdgeCrossings(poly, y, 2) == EdgeCrossings(poly, y, 1)
      + (if Crosses(poly[1], poly[2], y) then [CrossingX(poly[1], poly[2], y)] else []);
  }

  const Triangle: seq<Point> := [Point(0.0, 0.0), Point(10.0, 0.0), Point(5.0, 10.0)]

  lemma TriangleRow0()
    ensures ScanlineSpans(Triangle, 0) == [Span(0, 0, 10)]
  {
    ThreePointCrossings(Triangle, 0.0);
    assert CrossingX(Triangle[1], Triangle[2], 0.0) == 10.0;
    assert CrossingX(Triangle[2], Triangle[0], 0.0) == 0.0;
    assert SortAscending([10.0, 0.0]) == [0.0, 10.0];
  }

  lemma TriangleRow8()
    ensures ScanlineSpans(Triangle, 8) == [Span(8, 4, 6)]
  {
    ThreePointCrossings(Triangle, 8.0);
    assert CrossingX(Triangle[1], Triangle[2], 8.0) == 6.0;
    assert CrossingX(Triangle[2], Triangle[0], 8.0) == 4.0;
    assert SortAscending([6.0, 4.0]) == [4.0, 6.0];
  }

  /** The triangle (0,0), (10,0), (5,10) at the fill's stride of 8 gives two
      spans that narrow towards the apex. */
  lemma TriangleExample()
    ensures Rasterize(Triangle, 8) == [Span(0, 0, 10), Span(8, 4, 6)]
  {
    assert MinY(Triangle) == 0.0 && MaxY(Triangle) == 10.0;
    RoundIntegers(0);
    RoundIntegers(10);
    TriangleRow0();
    TriangleRow8();
    assert Rows(Triangle, 16, 10, 8) == [];
  }

  const Sliver: seq<Point> := [Point(3.2, 0.0), Point(3.7, 0.0), Point(3.5, 2.0)]

  lemma SliverRow0()
    ensures ScanlineSpans(Sliver, 0) == [Span(0, 4, 3)]
  {
    ThreePointCrossings(Sliver, 0.0);
    assert CrossingX(Sliver[1], Sliver[2], 0.0) == 3.7;
    assert CrossingX(Sliver[2], Sliver[0], 0.0) == 3.2;
    assert SortAscending([3.7, 3.2]) == [3.2, 3.7];
    assert Ceil(3.2) == 4 && Floor(3.7) == 3;
  }

  /** A span need not satisfy x1 <= x2: a sliver whose two crossings fall
      between the same pair of integers yields x1 = x2 + 1. */
  lemma SliverSpanInverted()
    ensures Rasterize(Sliver, 8) == [Span(0, 4, 3)]
  {
    assert MinY(Sliver) == 0.0 && MaxY(Sliver) == 2.0;
    RoundIntegers(0);
    RoundIntegers(2);
    SliverRow0();
    assert Rows(Sliver, 8, 2, 8) == [];
  }
}
