// The graph data of the older com.johnnym.lagrange package: ranges with
// Long bounds and counts (lagrange/Range.kt) and the range list turned into
// graph points (lagrange/RangeData.kt). Its PointsData (lagrange/PointsData.kt)
// is the same code as the pointgraph one and is GraphData.NewPointsData.

module LegacyData {
  import opened Geometry
  import GraphData

  /** A range [from, to] of Long values and the Long count inside it. */
  datatype Range = Range(from: int, to: int, count: int)

  /**
   * The middle of a range in Long arithmetic: the sum is halved with
   * Kotlin's division, which rounds toward zero (so -3 / 2 is -1, where
   * Dafny's own division gives -2).
   */
  function Middle(r: Range): (m: int)
    ensures r.from <= r.to ==> r.from <= m <= r.to
    ensures r.from + r.to >= 0 ==> 2 * m <= r.from + r.to < 2 * m + 2
    ensures r.from + r.to < 0 ==> 2 * m - 2 < r.from + r.to <= 2 * m
  {
    TruncDiv(r.from + r.to, 2)
  }

  /** A negative odd sum is rounded up, toward zero. */
  lemma MiddleOfNegativeOddSum(r: Range)
    requires r.from + r.to < 0 && (r.from + r.to) % 2 == 1
    ensures 2 * Middle(r) == r.from + r.to + 1
  {
  }

  /** The width of the range (the property range of lagrange/Range.kt). */
  function Width(r: Range): (w: int)
    ensures r.from + w == r.to
    ensures w >= 0 <==> r.from <= r.to
  {
    r.to - r.from
  }

  /** A Long range seen as a Float range, as the Float expressions of RangeData use it. */
  function ToReal(r: Range): (f: GraphData.Range)
    ensures GraphData.Width(f) == Width(r) as real
  {
    GraphData.Range(r.from as real, r.to as real, r.count as real)
  }

  function ToReals(rangeList: seq<Range>): (fs: seq<GraphData.Range>)
    ensures |fs| == |rangeList|
    ensures forall i :: 0 <= i < |rangeList| ==> fs[i] == ToReal(rangeList[i])
  {
    seq(|rangeList|, i requires 0 <= i < |rangeList| => ToReal(rangeList[i]))
  }

  // ---------------------------------------------------------------------
  // RangeData
  // ---------------------------------------------------------------------

  datatype RangeData = RangeData(rangeList: seq<Range>, pointsData: GraphData.PointsData)

  /**
   * The graph points of a Long range list. As in the Float version, the
   * last range is represented by its end only; the half counts are halved
   * in Long arithmetic before they become Float coordinates.
   */
  ghost predicate RangeKnots(rangeList: seq<Range>, points: seq<Point>)
    requires |rangeList| >= 1
  {
    var n := |rangeList|;
    |points| == n + 1
    && points[0] == Point(rangeList[0].from as real, TruncDiv(rangeList[0].count, 2) as real)
    && (forall i :: 1 <= i < n ==>
          points[i] == Point(Middle(rangeList[i - 1]) as real, rangeList[i - 1].count as real))
    && points[n] == Point(rangeList[n - 1].to as real, TruncDiv(rangeList[n - 1].count, 2) as real)
  }

  /**
   * The legacy RangeData initializer: an empty list throws; otherwise the
   * points of RangeKnots, wrapped in a PointsData.
   */
  method NewRangeData(rangeList: seq<Range>) returns (r: Result<RangeData>)
    ensures |rangeList| == 0 <==> r.Throws?
    ensures r.Ok? ==>
      r.value.rangeList == rangeList && GraphData.ValidPointsData(r.value.pointsData)
      && RangeKnots(rangeList, r.value.pointsData.points)
  {
    if |rangeList| == 0 {
      return Throws("IndexOutOfBoundsException");
    }
    var n := |rangeList|;
    var points := [Point(rangeList[0].from as real, TruncDiv(rangeList[0].count, 2) as real)];
    var middlePoints := seq(n, i requires 0 <= i < n =>
      Point(Middle(rangeList[i]) as real, rangeList[i].count as real));
    points := points + middlePoints;
    points := points[|points| - 1 :=
      Point(rangeList[n - 1].to as real, TruncDiv(rangeList[n - 1].count, 2) as real)];
    var pd := GraphData.NewPointsData(points);
    r := Ok(RangeData(rangeList, pd.value));
  }

  /**
   * The x bounds of a range list in Long: from the first range's start to
   * the last range's end. The legacy widget reads these off its range data.
   */
  function MinX(rangeList: seq<Range>): int
    requires |rangeList| >= 1
  {
    rangeList[0].from
  }

  function MaxX(rangeList: seq<Range>): int
    requires |rangeList| >= 1
  {
    rangeList[|rangeList| - 1].to
  }

  function XRange(rangeList: seq<Range>): (w: int)
    requires |rangeList| >= 1
    ensures MinX(rangeList) + w == MaxX(rangeList)
  {
    MaxX(rangeList) - MinX(rangeList)
  }

  /** The Long bounds agree with the x bounds of the range data's points. */
  lemma BoundsMatchPoints(rangeList: seq<Range>, pd: GraphData.PointsData)
    requires |rangeList| >= 1 && GraphData.ValidPointsData(pd) && RangeKnots(rangeList, pd.points)
    ensures pd.minX == MinX(rangeList) as real && pd.maxX == MaxX(rangeList) as real
    ensures pd.xRange == XRange(rangeList) as real
  {
  }

  // ---------------------------------------------------------------------
  // getApproxCountInRange
  // ---------------------------------------------------------------------

  ghost predicate NonEmptyWidths(rangeList: seq<Range>)
  {
    forall i :: 0 <= i < |rangeList| ==> Width(rangeList[i]) != 0
  }

  /** The Float sum of the legacy getApproxCountInRange, over the ranges seen as Float. */
  function ApproxCount(rangeList: seq<Range>, lo: real, hi: real): real
    requires NonEmptyWidths(rangeList)
  {
    GraphData.ApproxCount(ToReals(rangeList), lo, hi)
  }

  function TotalCount(rangeList: seq<Range>): int
  {
    if rangeList == [] then 0 else rangeList[0].count + TotalCount(rangeList[1..])
  }

  lemma {:induction false} TotalCountToReal(rangeList: seq<Range>)
    ensures GraphData.TotalCount(ToReals(rangeList)) == TotalCount(rangeList) as real
  {
    if rangeList != [] {
      assert ToReals(rangeList)[1..] == ToReals(rangeList[1..]);
      TotalCountToReal(rangeList[1..]);
    }
  }

  /** An empty or inverted query counts nothing. */
  lemma ApproxCountEmptyQuery(rangeList: seq<Range>, lo: real, hi: real)
    requires NonEmptyWidths(rangeList) && hi <= lo
    ensures ApproxCount(rangeList, lo, hi) == 0.0
  {
    GraphData.ApproxCountEmptyQuery(ToReals(rangeList), lo, hi);
  }

  /** A query that meets no range counts nothing. */
  lemma ApproxCountDisjoint(rangeList: seq<Range>, lo: real, hi: real)
    requires NonEmptyWidths(rangeList)
    requires forall i :: 0 <= i < |rangeList| ==>
      rangeList[i].to as real <= lo || hi <= rangeList[i].from as real
    ensures ApproxCount(rangeList, lo, hi) == 0.0
  {
    GraphData.ApproxCountDisjoint(ToReals(rangeList), lo, hi);
  }

  /** A query covering every (increasing) range counts all counts. */
  lemma ApproxCountCovering(rangeList: seq<Range>, lo: real, hi: real)
    requires forall i :: 0 <= i < |rangeList| ==>
      lo <= rangeList[i].from as real && rangeList[i].from < rangeList[i].to && rangeList[i].to as real <= hi
    ensures NonEmptyWidths(rangeList)
    ensures ApproxCount(rangeList, lo, hi) == TotalCount(rangeList) as real
  {
    var fs := ToReals(rangeList);
    GraphData.ApproxCountCovering(fs, lo, hi);
    TotalCountToReal(rangeList);
  }
}
