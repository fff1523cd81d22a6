// The graph data of the pointgraph package: a list of points with its
// bounds (PointsData.kt), a range with the value counted in it (Range.kt) and
// a list of ranges turned into graph points (RangeData.kt).

module GraphData {
  import opened Geometry

  // ---------------------------------------------------------------------
  // PointsData
  // ---------------------------------------------------------------------

  /**
   * A list of points and the bounds the graph takes from it: x from the
   * first and last point, y from zero to the largest y (never below zero).
   */
  datatype PointsData = PointsData(points: seq<Point>, minX: real, maxX: real, minY: real, maxY: real, xRange: real)

  /** What the PointsData initializer establishes about its fields. */
  ghost predicate ValidPointsData(pd: PointsData)
  {
    |pd.points| >= 1
    && pd.minX == pd.points[0].x
    && pd.maxX == pd.points[|pd.points| - 1].x
    && pd.minY == 0.0
    && pd.xRange == pd.maxX - pd.minX
    && pd.maxY >= 0.0
    && (forall i :: 0 <= i < |pd.points| ==> pd.points[i].y <= pd.maxY)
    && (pd.maxY == 0.0 || exists i :: 0 <= i < |pd.points| && pd.points[i].y == pd.maxY)
  }

  /**
   * The PointsData initializer. An empty list throws (points[0] is read).
   * The running maximum starts at zero and walks a lazy sequence, so it
   * ends at the largest y, or at zero when no y is positive.
   */
  method NewPointsData(points: seq<Point>) returns (r: Result<PointsData>)
    ensures |points| == 0 <==> r.Throws?
    ensures r.Ok? ==> r.value.points == points && ValidPointsData(r.value)
  {
    if |points| == 0 {
      return Throws("IndexOutOfBoundsException");
    }
    var minX := points[0].x;
    var maxX := points[|points| - 1].x;
    var minY := 0.0;
    var xRange := maxX - minX;
    var maxYTemp := 0.0;
    var i := 0;
    while i < |points|
      invariant 0 <= i <= |points|
      invariant maxYTemp >= 0.0
      invariant forall j :: 0 <= j < i ==> points[j].y <= maxYTemp
      invariant maxYTemp == 0.0 || exists j :: 0 <= j < i && points[j].y == maxYTemp
    {
      if maxYTemp < points[i].y {
        maxYTemp := points[i].y;
      }
      i := i + 1;
    }
    r := Ok(PointsData(points, minX, maxX, minY, maxYTemp, xRange));
  }

  // ---------------------------------------------------------------------
  // Range
  // ---------------------------------------------------------------------

  /** A range [from, to] and the value counted in it. */
  datatype Range = Range(from: real, to: real, count: real)

  function Middle(r: Range): (m: real)
    ensures r.from <= r.to ==> r.from <= m <= r.to
    ensures m - r.from == r.to - m
  {
    (r.from + r.to) / 2.0
  }

  /** The width of the range (the property range of Range.kt). */
  function Width(r: Range): (w: real)
    ensures r.from + w == r.to
  {
    r.to - r.from
  }

  // ---------------------------------------------------------------------
  // RangeData
  // ---------------------------------------------------------------------

  datatype RangeData = RangeData(rangeList: seq<Range>, pointsData: PointsData)

  /**
   * The graph points of a range list: the first range's start at half its
   * count, the middles of all ranges but the last at their counts, and the
   * last range's end at half its count. The initializer adds the middle of
   * every range and then overwrites the last of them, so the last range is
   * represented by its end point alone.
   */
  ghost predicate RangeKnots(rangeList: seq<Range>, points: seq<Point>)
    requires |rangeList| >= 1
  {
    var n := |rangeList|;
    |points| == n + 1
    && points[0] == Point(rangeList[0].from, rangeList[0].count / 2.0)
    && (forall i :: 1 <= i < n ==> points[i] == Point(Middle(rangeList[i - 1]), rangeList[i - 1].count))
    && points[n] == Point(rangeList[n - 1].to, rangeList[n - 1].count / 2.0)
  }

  /**
   * The RangeData initializer: an empty range list throws (rangeList[0] is
   * read); otherwise the points are built as RangeKnots says and wrapped in
   * a PointsData.
   */
  method NewRangeData(rangeList: seq<Range>) returns (r: Result<RangeData>)
    ensures |rangeList| == 0 <==> r.Throws?
    ensures r.Ok? ==>
      r.value.rangeList == rangeList && ValidPointsData(r.value.pointsData)
      && RangeKnots(rangeList, r.value.pointsData.points)
  {
    if |rangeList| == 0 {
      return Throws("IndexOutOfBoundsException");
    }
    var n := |rangeList|;
    var points := [Point(rangeList[0].from, rangeList[0].count / 2.0)];
    var middlePoints := seq(n, i requires 0 <= i < n => Point(Middle(rangeList[i]), rangeList[i].count));
    points := points + middlePoints;
    points := points[|points| - 1 := Point(rangeList[n - 1].to, rangeList[n - 1].count / 2.0)];
    var pd := NewPointsData(points);
    r := Ok(RangeData(rangeList, pd.value));
  }

  /** Ranges laid end to end, each of positive width. */
  ghost predicate Contiguous(rangeList: seq<Range>)
  {
    (forall i :: 0 <= i < |rangeList| ==> rangeList[i].from < rangeList[i].to)
    && (forall i :: 0 <= i < |rangeList| - 1 ==> rangeList[i].to == rangeList[i + 1].from)
  }

  /**
   * For contiguous ranges the graph points go strictly left to right and span
   * exactly from the first range's start to the last range's end.
   */
  lemma ContiguousKnotsIncrease(rangeList: seq<Range>, points: seq<Point>)
    requires |rangeList| >= 1 && Contiguous(rangeList) && RangeKnots(rangeList, points)
    ensures forall i :: 0 <= i < |points| - 1 ==> points[i].x < points[i + 1].x
    ensures points[0].x == rangeList[0].from && points[|points| - 1].x == rangeList[|rangeList| - 1].to
  {
    var n := |rangeList|;
    forall i | 0 <= i < |points| - 1 ensures points[i].x < points[i + 1].x {
      if i == 0 {
        if n > 1 {
          assert points[1].x == Middle(rangeList[0]);
        }
      } else {
        assert points[i].x == Middle(rangeList[i - 1]);
        assert rangeList[i - 1].to == rangeList[i].from;
        if i + 1 < n {
          assert points[i + 1].x == Middle(rangeList[i]);
        }
      }
    }
  }

  // ---------------------------------------------------------------------
  // getApproxCountInRange
  // ---------------------------------------------------------------------

  function Max(a: real, b: real): real { if a >= b then a else b }
  function Min(a: real, b: real): real { if a <= b then a else b }

  /** No range of the list is empty (count / range would divide by zero). */
  ghost predicate NonEmptyWidths(rangeList: seq<Range>)
  {
    forall i :: 0 <= i < |rangeList| ==> Width(rangeList[i]) != 0.0
  }

  /** How much of [lo, hi] lies inside r (zero when they do not meet). */
  function Overlap(r: Range, lo: real, hi: real): real
  {
    Max(0.0, Min(r.to, hi) - Max(r.from, lo))
  }

  /** The share of r's count that falls in [lo, hi], assuming an even spread. */
  function Share(r: Range, lo: real, hi: real): real
    requires Width(r) != 0.0
  {
    Scaled(Overlap(r, lo, hi), r.count, Width(r))
  }

  /** A length times a count, over a width. */
  function Scaled(o: real, c: real, w: real): real
    requires w != 0.0
  {
    o * c / w
  }

  /** getApproxCountInRange: the shares of all ranges, summed. */
  function ApproxCount(rangeList: seq<Range>, lo: real, hi: real): real
    requires NonEmptyWidths(rangeList)
  {
    if rangeList == [] then 0.0
    else Share(rangeList[0], lo, hi) + ApproxCount(rangeList[1..], lo, hi)
  }

  function TotalCount(rangeList: seq<Range>): real
  {
    if rangeList == [] then 0.0 else rangeList[0].count + TotalCount(rangeList[1..])
  }

  /** An empty or inverted query interval counts nothing. */
  lemma {:induction false} ApproxCountEmptyQuery(rangeList: seq<Range>, lo: real, hi: real)
    requires NonEmptyWidths(rangeList) && hi <= lo
    ensures ApproxCount(rangeList, lo, hi) == 0.0
  {
    if rangeList != [] {
      var r := rangeList[0];
      assert Min(r.to, hi) - Max(r.from, lo) <= 0.0;
      ApproxCountEmptyQuery(rangeList[1..], lo, hi);
    }
  }

  /** A query interval that meets no range counts nothing. */
  lemma {:induction false} ApproxCountDisjoint(rangeList: seq<Range>, lo: real, hi: real)
    requires NonEmptyWidths(rangeList)
    requires forall i :: 0 <= i < |rangeList| ==> rangeList[i].to <= lo || hi <= rangeList[i].from
    ensures ApproxCount(rangeList, lo, hi) == 0.0
  {
    if rangeList != [] {
      var r := rangeList[0];
      assert Min(r.to, hi) - Max(r.from, lo) <= 0.0;
      ApproxCountDisjoint(rangeList[1..], lo, hi);
    }
  }

  /** A query interval that covers every range counts everything. */
  lemma {:induction false} ApproxCountCovering(rangeList: seq<Range>, lo: real, hi: real)
    requires forall i :: 0 <= i < |rangeList| ==> lo <= rangeList[i].from < rangeList[i].to <= hi
    ensures NonEmptyWidths(rangeList)
    ensures ApproxCount(rangeList, lo, hi) == TotalCount(rangeList)
  {
    if rangeList != [] {
      ShareWhole(rangeList[0], lo, hi);
      ApproxCountCovering(rangeList[1..], lo, hi);
    }
  }

  /** A query interval that covers a range gets its whole count. */
  lemma ShareWhole(r: Range, lo: real, hi: real)
    requires lo <= r.from < r.to <= hi
    ensures Width(r) != 0.0 && Share(r, lo, hi) == r.count
  {
    assert Overlap(r, lo, hi) == Width(r);
    ScaleCancel(Width(r), r.count);
  }

  lemma ScaleCancel(w: real, c: real)
    requires w != 0.0
    ensures w * c / w == c
  {
    assert (w * c / w) * w == c * w;
  }

  lemma QuotientNonNegative(o: real, c: real, w: real)
    requires o >= 0.0 && c >= 0.0 && w > 0.0
    ensures o * c / w >= 0.0
  {
    assert o * c >= 0.0;
  }

  /** The overlap lengths of two adjacent intervals add up. */
  lemma OverlapSplit(r: Range, lo: real, mid: real, hi: real)
    requires lo <= mid <= hi
    ensures Overlap(r, lo, hi) == Overlap(r, lo, mid) + Overlap(r, mid, hi)
  {
  }

  /** Scaling a sum of lengths scales each summand. */
  lemma ScaledAdd(a: real, b: real, c: real, w: real)
    requires w != 0.0
    ensures Scaled(a + b, c, w) == Scaled(a, c, w) + Scaled(b, c, w)
  {
    var p, q := a * c / w, b * c / w;
    assert p * w == a * c && q * w == b * c;
    assert (p + q) * w == (a + b) * c;
  }

  /** Splitting the query interval splits one range's share. */
  lemma ShareSplit(r: Range, lo: real, mid: real, hi: real)
    requires Width(r) != 0.0 && lo <= mid <= hi
    ensures Share(r, lo, hi) == Share(r, lo, mid) + Share(r, mid, hi)
  {
    OverlapSplit(r, lo, mid, hi);
    ScaledAdd(Overlap(r, lo, mid), Overlap(r, mid, hi), r.count, Width(r));
  }

  /** Splitting the query interval splits the count. */
  lemma {:induction false} ApproxCountSplit(rangeList: seq<Range>, lo: real, mid: real, hi: real)
    requires NonEmptyWidths(rangeList) && lo <= mid <= hi
    ensures ApproxCount(rangeList, lo, hi) == ApproxCount(rangeList, lo, mid) + ApproxCount(rangeList, mid, hi)
  {
    if rangeList != [] {
      ShareSplit(rangeList[0], lo, mid, hi);
      ApproxCountSplit(rangeList[1..], lo, mid, hi);
    }
  }

  /** With positive widths and non-negative counts every share, and so the sum, is non-negative. */
  lemma {:induction false} ApproxCountNonNegative(rangeList: seq<Range>, lo: real, hi: real)
    requires forall i :: 0 <= i < |rangeList| ==> Width(rangeList[i]) > 0.0 && rangeList[i].count >= 0.0
    ensures NonEmptyWidths(rangeList) && ApproxCount(rangeList, lo, hi) >= 0.0
  {
    if rangeList != [] {
      var r := rangeList[0];
      QuotientNonNegative(Overlap(r, lo, hi), r.count, Width(r));
      ApproxCountNonNegative(rangeList[1..], lo, hi);
    }
  }

  /** Widening the query interval never lowers the count. */
  lemma ApproxCountMonotone(rangeList: seq<Range>, lo: real, hi: real, lo': real, hi': real)
    requires forall i :: 0 <= i < |rangeList| ==> Width(rangeList[i]) > 0.0 && rangeList[i].count >= 0.0
    requires lo' <= lo <= hi <= hi'
    ensures NonEmptyWidths(rangeList)
    ensures ApproxCount(rangeList, lo, hi) <= ApproxCount(rangeList, lo', hi')
  {
    ApproxCountNonNegative(rangeList, lo', lo);
    ApproxCountNonNegative(rangeList, hi, hi');
    ApproxCountSplit(rangeList, lo', lo, hi');
    ApproxCountSplit(rangeList, lo, hi, hi');
  }
}
