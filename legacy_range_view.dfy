// The range picker of the original lagrange package (lagrange/LaGrange.kt):
// two selectors over the spline graph of a Long RangeData, with a bar
// graph of the ranges, Long numbers under the x axis and Long selector
// values. Its own touch rules differ from the later two-selector handler
// in two places: a press on both touch fields goes to the selector whose
// centre is close to it, and a press on both only picks a side once the
// finger has moved past a dead zone (one dp, a parameter here). The
// selector shapes are represented by their centres, the x axis indicators
// by the positions of their numbers.

module LegacyLaGrangeView {
  import opened Geometry
  import GraphData
  import Touch
  import opened Selectors
  import Paths
  import BezierSpline
  import Utils
  import Rects
  import LegacyData
  import PointGraphEndView

  /** A value listener call with the new Long value. */
  datatype ValueChange = MinValueChanged(value: int) | MaxValueChanged(value: int)

  /** Math.abs on Float. */
  function AbsReal(r: real): (a: real)
    ensures a >= 0.0 && (a == r || a == -r)
  {
    if r >= 0.0 then r else -r
  }

  /**
   * The flag update of onTouchEvent. minClose and maxClose say whether the
   * press is within a fifth of a touch field's width of that selector's
   * centre; deadZone is the distance a move must exceed to resolve a press
   * on both fields.
   */
  function LegacyStep(s: Touch.LaGrangeState, e: Touch.MotionEvent, inMinField: bool, inMaxField: bool,
                      minClose: bool, maxClose: bool, deadZone: real): Touch.LaGrangeState
  {
    match e
    case Down(x, y) =>
      var s := s.(actionDownXValue := x, actionDownYValue := y);
      if inMinField && inMaxField then
        if minClose && !maxClose then s.(minSelectorSelected := true)
        else if !minClose && maxClose then s.(maxSelectorSelected := true)
        else s.(bothSelectorsSelected := true)
      else if inMinField then s.(minSelectorSelected := true)
      else if inMaxField then s.(maxSelectorSelected := true)
      else s
    case Move(x) =>
      var s := s.(actionMoveXValue := x);
      if s.bothSelectorsSelected && AbsReal(x - s.actionDownXValue) > deadZone then
        if x < s.actionDownXValue then s.(bothSelectorsSelected := false, minSelectorSelected := true)
        else if x > s.actionDownXValue then s.(bothSelectorsSelected := false, maxSelectorSelected := true)
        else s
      else s
    case _ => s.(bothSelectorsSelected := false, minSelectorSelected := false, maxSelectorSelected := false)
  }

  /**
   * Away from its two extra rules the legacy update is the update of the
   * later two-selector handler: for every event that is neither a press on
   * both fields nor a move inside the dead zone of a press on both.
   */
  lemma LegacyStepAgrees(s: Touch.LaGrangeState, e: Touch.MotionEvent, inMinField: bool, inMaxField: bool,
                         minClose: bool, maxClose: bool, deadZone: real)
    requires !(e.Down? && inMinField && inMaxField)
    requires deadZone >= 0.0
    requires !(e.Move? && s.bothSelectorsSelected && AbsReal(e.x - s.actionDownXValue) <= deadZone)
    ensures LegacyStep(s, e, inMinField, inMaxField, minClose, maxClose, deadZone)
            == Touch.LaGrangeStep(s, e, inMinField, inMaxField)
  {
  }

  /**
   * A press on both fields from the idle state goes to the one selector
   * whose centre is close, and stays undecided when both or neither are.
   */
  lemma LegacyCentreRule(s: Touch.LaGrangeState, x: real, y: real, minClose: bool, maxClose: bool, deadZone: real)
    requires !Touch.AnySelected(s)
    ensures var t := LegacyStep(s, Touch.Down(x, y), true, true, minClose, maxClose, deadZone);
      t.minSelectorSelected == (minClose && !maxClose)
      && t.maxSelectorSelected == (maxClose && !minClose)
      && t.bothSelectorsSelected == (minClose == maxClose)
      && Touch.AtMostOneFlag(t)
  {
  }

  /** Inside the dead zone a press on both stays undecided, and no selector moves. */
  lemma LegacyDeadZone(s: Touch.LaGrangeState, x: real, inMinField: bool, inMaxField: bool,
                       minClose: bool, maxClose: bool, deadZone: real)
    requires s.bothSelectorsSelected && !s.minSelectorSelected && !s.maxSelectorSelected
    requires AbsReal(x - s.actionDownXValue) <= deadZone
    ensures var t := LegacyStep(s, Touch.Move(x), inMinField, inMaxField, minClose, maxClose, deadZone);
      t == s.(actionMoveXValue := x) && Touch.LaGrangeFired(t, Touch.Move(x)) == []
  {
  }

  /** One event keeps at most one flag set, provided a press finds no flag set. */
  lemma LegacyStepAtMostOne(s: Touch.LaGrangeState, e: Touch.MotionEvent, inMinField: bool, inMaxField: bool,
                            minClose: bool, maxClose: bool, deadZone: real)
    requires Touch.AtMostOneFlag(s) && (e.Down? ==> !Touch.AnySelected(s))
    ensures Touch.AtMostOneFlag(LegacyStep(s, e, inMinField, inMaxField, minClose, maxClose, deadZone))
  {
  }

  /** Range data the view can lay out: built by the RangeData initializer, with an x span and a y span. */
  ghost predicate DrawableRanges(rd: LegacyData.RangeData)
  {
    |rd.rangeList| >= 1
    && GraphData.ValidPointsData(rd.pointsData)
    && LegacyData.RangeKnots(rd.rangeList, rd.pointsData.points)
    && LegacyData.MinX(rd.rangeList) != LegacyData.MaxX(rd.rangeList)
    && rd.pointsData.maxY != rd.pointsData.minY
  }

  /**
   * The numbers loop of refreshGraphValues, in Long: i steps of
   * xRange / (size - 1), rounded toward zero, from minX.
   */
  function LegacyNumber(i: int, size: int, minX: int, xRange: int): int
    requires size >= 2
  {
    TruncDiv(i * xRange, size - 1) + minX
  }

  /** The first number is minX and the last is maxX, whatever the rounding. */
  lemma LegacyNumberEnds(size: int, minX: int, xRange: int)
    requires size >= 2
    ensures LegacyNumber(0, size, minX, xRange) == minX
    ensures LegacyNumber(size - 1, size, minX, xRange) == minX + xRange
  {
    var d := size - 1;
    assert 0 * xRange == 0 * d;
    TruncDivExact(0, d);
    assert (size - 1) * xRange == xRange * d;
    TruncDivExact(xRange, d);
  }

  /** For a non-negative xRange the numbers never decrease. */
  lemma LegacyNumberMonotone(i: int, j: int, size: int, minX: int, xRange: int)
    requires size >= 2 && xRange >= 0 && 0 <= i <= j
    ensures LegacyNumber(i, size, minX, xRange) <= LegacyNumber(j, size, minX, xRange)
  {
    var a, b := i * xRange, j * xRange;
    assert 0 <= a <= b by {
      assert b - a == (j - i) * xRange;
      NonNegativeProduct(i, xRange);
      NonNegativeProduct(j - i, xRange);
    }
    TruncDivMonotone(a, b, size - 1);
  }

  /**
   * The number positions of onSizeChanged: the centres of the first and
   * last indicators, and of each middle indicator, one indicator width plus
   * one gap after the previous one.
   */
  function NumberPosition(k: int, size: int, axisLeft: real, axisRight: real, lineThickness: real): real
    requires size >= 2
  {
    var pointsDistance := (axisRight - axisLeft - size as real * lineThickness) / (size - 1) as real;
    if k == 0 then axisLeft + lineThickness / 2.0
    else if k == size - 1 then axisRight - lineThickness / 2.0
    else axisLeft + k as real * (pointsDistance + lineThickness) + lineThickness / 2.0
  }

  /**
   * The numbers are evenly spaced from graphMinXPosition to
   * graphMaxXPosition: the x axis less half a line thickness at each end.
   */
  lemma NumberPositionsEven(k: int, size: int, axisLeft: real, axisRight: real, lineThickness: real)
    requires size >= 2 && 0 <= k < size
    ensures NumberPosition(k, size, axisLeft, axisRight, lineThickness)
            == Utils.Spaced(k, size, axisLeft + lineThickness / 2.0, axisRight - lineThickness / 2.0)
  {
    var lo, hi := axisLeft + lineThickness / 2.0, axisRight - lineThickness / 2.0;
    Utils.SpacedEnds(size, lo, hi);
    if 0 < k < size - 1 {
      var m := (size - 1) as real;
      var pointsDistance := (axisRight - axisLeft - size as real * lineThickness) / m;
      assert pointsDistance * m == axisRight - axisLeft - size as real * lineThickness;
      assert (pointsDistance + lineThickness) * m == hi - lo;
      Utils.DistanceFromProduct(pointsDistance + lineThickness, m, hi - lo);
      Utils.SpacedByDistance(k, size, lo, hi, pointsDistance + lineThickness);
    }
  }

  /** The top of one range's bar: across from its start to its end at the height of its count. */
  function RangeTop(r: LegacyData.Range, pd: GraphData.PointsData,
                    graphMinX: real, graphMaxX: real, graphTopY: real, lineY: real): seq<Paths.PathCommand>
    requires pd.xRange != 0.0 && pd.maxY != pd.minY
  {
    var countY := YPositionFromValue(r.count as real, graphTopY, lineY, pd.minY, pd.maxY);
    [Paths.LineTo(Point(XPositionFromValue(r.from as real, graphMinX, graphMaxX, pd.minX, pd.xRange), countY)),
     Paths.LineTo(Point(XPositionFromValue(r.to as real, graphMinX, graphMaxX, pd.minX, pd.xRange), countY))]
  }

  /** The tops of the bars of a range list, in order. */
  function BarTops(rangeList: seq<LegacyData.Range>, pd: GraphData.PointsData,
                   graphMinX: real, graphMaxX: real, graphTopY: real, lineY: real): (tops: seq<Paths.PathCommand>)
    requires pd.xRange != 0.0 && pd.maxY != pd.minY
    ensures |tops| == 2 * |rangeList|
  {
    if |rangeList| == 0 then []
    else BarTops(rangeList[..|rangeList| - 1], pd, graphMinX, graphMaxX, graphTopY, lineY)
         + RangeTop(rangeList[|rangeList| - 1], pd, graphMinX, graphMaxX, graphTopY, lineY)
  }

  /** The commands 2i and 2i + 1 of the tops are the top of range i. */
  lemma {:induction false} BarTopsAt(rangeList: seq<LegacyData.Range>, pd: GraphData.PointsData,
                                     graphMinX: real, graphMaxX: real, graphTopY: real, lineY: real, i: int)
    requires pd.xRange != 0.0 && pd.maxY != pd.minY && 0 <= i < |rangeList|
    ensures var tops := BarTops(rangeList, pd, graphMinX, graphMaxX, graphTopY, lineY);
      tops[2 * i..2 * i + 2] == RangeTop(rangeList[i], pd, graphMinX, graphMaxX, graphTopY, lineY)
    decreases |rangeList|
  {
    var n := |rangeList|;
    var init := rangeList[..n - 1];
    var front := BarTops(init, pd, graphMinX, graphMaxX, graphTopY, lineY);
    var last := RangeTop(rangeList[n - 1], pd, graphMinX, graphMaxX, graphTopY, lineY);
    var tops := BarTops(rangeList, pd, graphMinX, graphMaxX, graphTopY, lineY);
    assert tops == front + last;
    if i < n - 1 {
      BarTopsAt(init, pd, graphMinX, graphMaxX, graphTopY, lineY, i);
      PairInFront(front, last, 2 * i);
    } else {
      PairAtBack(front, last);
    }
  }

  /** A pair of commands inside the first part of a concatenation. */
  lemma PairInFront<T>(a: seq<T>, b: seq<T>, k: int)
    requires 0 <= k && k + 2 <= |a|
    ensures (a + b)[k..k + 2] == a[k..k + 2]
  {
  }

  /** The pair that makes up the second part of a concatenation. */
  lemma PairAtBack<T>(a: seq<T>, b: seq<T>)
    requires |b| == 2
    ensures (a + b)[|a|..|a| + 2] == b
  {
  }

  /**
   * The bar graph of generateBarGraphPath: from the height of 0 at minX,
   * the top of every range in turn, and down to the height of 0 at maxX.
   */
  function BarPath(rangeList: seq<LegacyData.Range>, pd: GraphData.PointsData,
                   graphMinX: real, graphMaxX: real, graphTopY: real, lineY: real): (path: seq<Paths.PathCommand>)
    requires |rangeList| >= 1 && pd.xRange != 0.0 && pd.maxY != pd.minY
    ensures |path| == 2 * |rangeList| + 2
  {
    var baseY := YPositionFromValue(0.0, graphTopY, lineY, pd.minY, pd.maxY);
    [Paths.MoveTo(Point(XPositionFromValue(LegacyData.MinX(rangeList) as real, graphMinX, graphMaxX, pd.minX, pd.xRange), baseY))]
    + BarTops(rangeList, pd, graphMinX, graphMaxX, graphTopY, lineY)
    + [Paths.LineTo(Point(XPositionFromValue(LegacyData.MaxX(rangeList) as real, graphMinX, graphMaxX, pd.minX, pd.xRange), baseY))]
  }

  /** The loop of generateBarGraphPath: a line to each end of every range's top, in order. */
  method IssueBarTops(path: Paths.GraphPath, rangeList: seq<LegacyData.Range>, pd: GraphData.PointsData,
                      gMin: real, gMax: real, top: real, lineY: real)
    requires pd.xRange != 0.0 && pd.maxY != pd.minY
    modifies path`commands
    ensures path.commands == old(path.commands) + BarTops(rangeList, pd, gMin, gMax, top, lineY)
  {
    var n := |rangeList|;
    var i := 0;
    while i < n
      invariant 0 <= i <= n
      invariant path.commands == old(path.commands) + BarTops(rangeList[..i], pd, gMin, gMax, top, lineY)
    {
      var r := rangeList[i];
      var countY := YPositionFromValue(r.count as real, top, lineY, pd.minY, pd.maxY);
      path.commands := path.commands
        + [Paths.LineTo(Point(XPositionFromValue(r.from as real, gMin, gMax, pd.minX, pd.xRange), countY))];
      path.commands := path.commands
        + [Paths.LineTo(Point(XPositionFromValue(r.to as real, gMin, gMax, pd.minX, pd.xRange), countY))];
      assert rangeList[..i + 1][..i] == rangeList[..i];
      i := i + 1;
    }
    assert rangeList[..n] == rangeList;
  }

  /** The bar graph starts and ends on the x axis line, at the graph's two edges. */
  lemma BarPathEnds(rd: LegacyData.RangeData, graphMinX: real, graphMaxX: real, graphTopY: real, lineY: real)
    requires DrawableRanges(rd)
    ensures var path := BarPath(rd.rangeList, rd.pointsData, graphMinX, graphMaxX, graphTopY, lineY);
      path[0] == Paths.MoveTo(Point(graphMinX, lineY))
      && path[|path| - 1] == Paths.LineTo(Point(graphMaxX, lineY))
  {
    var pd := rd.pointsData;
    LegacyData.BoundsMatchPoints(rd.rangeList, pd);
    YTransformEnds(graphTopY, lineY, pd.minY, pd.maxY);
    if graphMinX != graphMaxX {
      XTransformsAreAffine(pd.minX, graphMinX, graphMaxX, pd.minX, pd.maxX);
      XTransformsAreAffine(pd.maxX, graphMinX, graphMaxX, pd.minX, pd.maxX);
    }
    AffineEndpoints(pd.minX, pd.maxX, graphMinX, graphMaxX);
  }

  /**
   * Between the two ends the bar graph runs across the top of every range
   * in order, level, at the height of its count, from its start to its end.
   */
  lemma BarPathTops(rd: LegacyData.RangeData, graphMinX: real, graphMaxX: real, graphTopY: real, lineY: real, i: int)
    requires DrawableRanges(rd) && 0 <= i < |rd.rangeList|
    ensures var pd := rd.pointsData;
      var path := BarPath(rd.rangeList, pd, graphMinX, graphMaxX, graphTopY, lineY);
      var r := rd.rangeList[i];
      path[2 * i + 1].to.y == path[2 * i + 2].to.y
      && path[2 * i + 1].to.y == YPositionFromValue(r.count as real, graphTopY, lineY, pd.minY, pd.maxY)
      && path[2 * i + 1].to.x == XPositionFromValue(r.from as real, graphMinX, graphMaxX, pd.minX, pd.xRange)
      && path[2 * i + 2].to.x == XPositionFromValue(r.to as real, graphMinX, graphMaxX, pd.minX, pd.xRange)
  {
    var pd := rd.pointsData;
    LegacyData.BoundsMatchPoints(rd.rangeList, pd);
    var tops := BarTops(rd.rangeList, pd, graphMinX, graphMaxX, graphTopY, lineY);
    BarTopsAt(rd.rangeList, pd, graphMinX, graphMaxX, graphTopY, lineY, i);
    var path := BarPath(rd.rangeList, pd, graphMinX, graphMaxX, graphTopY, lineY);
    assert path[2 * i + 1] == tops[2 * i] && path[2 * i + 2] == tops[2 * i + 1];
  }

  /**
   * The Long values of two ordered selectors inside the graph are ordered
   * and inside [minX, maxX]: rounding toward zero keeps the order and the
   * whole-number bounds.
   */
  lemma LegacyValuesInBounds(minPosition: real, maxPosition: real, graphMinX: real, graphMaxX: real, minX: int, maxX: int)
    requires graphMinX < graphMaxX && minX < maxX
    requires Ordered(graphMinX, minPosition, maxPosition, graphMaxX)
    ensures var lo := TruncReal(XValueFromPosition(minPosition, graphMinX, graphMaxX, minX as real, (maxX - minX) as real));
      var hi := TruncReal(XValueFromPosition(maxPosition, graphMinX, graphMaxX, minX as real, (maxX - minX) as real));
      minX <= lo <= hi <= maxX
  {
    var a := XValueFromPosition(minPosition, graphMinX, graphMaxX, minX as real, (maxX - minX) as real);
    var b := XValueFromPosition(maxPosition, graphMinX, graphMaxX, minX as real, (maxX - minX) as real);
    XTransformsAreAffine(minPosition, graphMinX, graphMaxX, minX as real, maxX as real);
    XTransformsAreAffine(maxPosition, graphMinX, graphMaxX, minX as real, maxX as real);
    AffineKeepsOrder(minPosition, maxPosition, graphMinX, graphMaxX, minX as real, maxX as real);
    TruncRealMonotone(minX as real, a);
    TruncRealMonotone(a, b);
    TruncRealMonotone(b, maxX as real);
    TruncRealOfInt(minX);
    TruncRealOfInt(maxX);
  }

  /**
   * The view's private RectF.setYMiddle as written: it moves the top to
   * y less half the WIDTH, where the extension of the same name in
   * lagrange/utils/Extensions.kt uses the height.
   */
  method SetYMiddleAsWritten(r: Rects.RectF, y: real)
    modifies r
    ensures r.top == y - old(r.Width()) / 2.0 && r.left == old(r.left)
    ensures r.Width() == old(r.Width()) && r.Height() == old(r.Height())
    ensures r.CenterY() == y + (old(r.Height()) - old(r.Width())) / 2.0
  {
    r.OffsetTo(r.left, y - r.Width() / 2.0);
  }

  /**
   * As written, the rectangle's centre lands on y exactly when the
   * rectangle is square; the selector connect line (zero wide, a line
   * thickness high, when the view is first laid out) lands half its height
   * below y.
   */
  lemma SetYMiddleAsWrittenMisses(left: real, top: real, right: real, bottom: real, y: real)
    ensures var newTop := y - (right - left) / 2.0;
      var newCenterY := (newTop + newTop + (bottom - top)) / 2.0;
      (newCenterY == y <==> right - left == bottom - top)
      && (left == 0.0 && right == 0.0 && top == 0.0 && bottom == 4.0 && y == 10.0 ==> newCenterY == 12.0)
  {
  }

  class LaGrange {
    const lineYPosition: real
    const graphTopPosition: real
    const xAxisLeftRightPadding: real
    const lineThickness: real
    const selectorTouchDiameter: real
    const deadZone: real
    const splineGraphPath: Paths.GraphPath
    const barGraphPath: Paths.GraphPath
    /** The Long numbers under the x axis, lineMiddlePointsNum + 2 of them. */
    const numbers: array<int>
    const numbersPositions: array<real>

    var xAxisLeft: real
    var xAxisRight: real
    var graphMinXPosition: real
    var graphMaxXPosition: real
    var selectorsYPosition: real

    var actionDownXValue: real
    var actionDownYValue: real
    var actionMoveXValue: real
    var minSelectorSelected: bool
    var maxSelectorSelected: bool
    var bothSelectorsSelected: bool

    /** The centres of the min and the max selector (and of their touch fields). */
    var minSelectorXPosition: real
    var maxSelectorXPosition: real

    var rangeData: Option<LegacyData.RangeData>
    var minSelectorValue: int
    var maxSelectorValue: int
    /** The value listener calls made so far, in order. */
    var valueChanges: seq<ValueChange>

    /** The touch state. */
    function State(): Touch.LaGrangeState
      reads this`actionDownXValue, this`actionDownYValue, this`actionMoveXValue,
            this`minSelectorSelected, this`maxSelectorSelected, this`bothSelectorsSelected
    {
      Touch.LaGrangeState(actionDownXValue, actionDownYValue, actionMoveXValue,
                          minSelectorSelected, maxSelectorSelected, bothSelectorsSelected)
    }

    /** Whether a press at x is close to the centre of the min selector's touch field. */
    function MinCenterIsClose(x: real): bool
      reads this`minSelectorXPosition
    {
      AbsReal(minSelectorXPosition - x) < 0.2 * selectorTouchDiameter
    }

    /** Whether a press at x is close to the centre of the max selector's touch field. */
    function MaxCenterIsClose(x: real): bool
      reads this`maxSelectorXPosition
    {
      AbsReal(maxSelectorXPosition - x) < 0.2 * selectorTouchDiameter
    }

    /** The data, when present, can be laid out; there are at least the two end numbers. */
    ghost predicate Valid()
      reads this`rangeData
    {
      (rangeData.Some? ==> DrawableRanges(rangeData.value))
      && numbers.Length >= 2 && numbersPositions.Length == numbers.Length
      && splineGraphPath != barGraphPath
    }

    /** Each selector is drawn at the position of its value. */
    ghost predicate SelectorsAtValues()
      reads this`rangeData, this`graphMinXPosition, this`graphMaxXPosition,
            this`minSelectorXPosition, this`maxSelectorXPosition, this`minSelectorValue, this`maxSelectorValue
      requires Valid()
    {
      rangeData.Some? ==>
        var pd := rangeData.value.pointsData;
        minSelectorXPosition == XPositionFromValue(minSelectorValue as real, graphMinXPosition, graphMaxXPosition, pd.minX, pd.xRange)
        && maxSelectorXPosition == XPositionFromValue(maxSelectorValue as real, graphMinXPosition, graphMaxXPosition, pd.minX, pd.xRange)
    }

    /** Each value is the value of its selector's position, rounded toward zero. */
    ghost predicate ValuesAtSelectors()
      reads this`rangeData, this`graphMinXPosition, this`graphMaxXPosition,
            this`minSelectorXPosition, this`maxSelectorXPosition, this`minSelectorValue, this`maxSelectorValue
      requires Valid()
    {
      rangeData.Some? && graphMinXPosition != graphMaxXPosition ==>
        var pd := rangeData.value.pointsData;
        minSelectorValue == TruncReal(XValueFromPosition(minSelectorXPosition, graphMinXPosition, graphMaxXPosition, pd.minX, pd.xRange))
        && maxSelectorValue == TruncReal(XValueFromPosition(maxSelectorXPosition, graphMinXPosition, graphMaxXPosition, pd.minX, pd.xRange))
    }

    /** The numbers run from the data's minX to its maxX in Long steps. */
    ghost predicate NumbersAtData()
      reads this`rangeData, numbers
      requires Valid()
    {
      rangeData.Some? ==>
        var rl := rangeData.value.rangeList;
        forall i :: 0 <= i < numbers.Length ==>
          numbers[i] == LegacyNumber(i, numbers.Length, LegacyData.MinX(rl), LegacyData.XRange(rl))
    }

    /** Both paths hold the data's graphs in the current graph box. */
    ghost predicate PathsAtData()
      reads this`rangeData, this`graphMinXPosition, this`graphMaxXPosition,
            splineGraphPath`commands, barGraphPath`commands
      requires Valid()
    {
      rangeData.Some? ==>
        var pd := rangeData.value.pointsData;
        var knots := Paths.GraphPoints(pd, graphMinXPosition, lineYPosition, graphMaxXPosition, graphTopPosition);
        |knots| >= 2
        && splineGraphPath.commands == Paths.SplinePath(knots, BezierSpline.CurveControlPoints(knots),
                                                        graphMinXPosition, lineYPosition, graphMaxXPosition)
        && barGraphPath.commands == BarPath(rangeData.value.rangeList, pd, graphMinXPosition, graphMaxXPosition,
                                            graphTopPosition, lineYPosition)
    }

    constructor (lineMiddlePointsNum: nat, lineYPosition: real, graphTopPosition: real, xAxisLeftRightPadding: real,
                 lineThickness: real, selectorTouchDiameter: real, deadZone: real)
      ensures this.lineYPosition == lineYPosition && this.graphTopPosition == graphTopPosition
      ensures this.xAxisLeftRightPadding == xAxisLeftRightPadding && this.lineThickness == lineThickness
      ensures this.selectorTouchDiameter == selectorTouchDiameter && this.deadZone == deadZone
      ensures fresh(splineGraphPath) && fresh(barGraphPath) && fresh(numbers) && fresh(numbersPositions)
      ensures numbers.Length == lineMiddlePointsNum + 2
      ensures State() == Touch.LaGrangeInitial
      ensures rangeData == None && minSelectorValue == 0 && maxSelectorValue == 0 && valueChanges == []
      ensures Valid()
    {
      this.lineYPosition := lineYPosition;
      this.graphTopPosition := graphTopPosition;
      this.xAxisLeftRightPadding := xAxisLeftRightPadding;
      this.lineThickness := lineThickness;
      this.selectorTouchDiameter := selectorTouchDiameter;
      this.deadZone := deadZone;
      splineGraphPath := new Paths.GraphPath();
      barGraphPath := new Paths.GraphPath();
      numbers := new int[lineMiddlePointsNum + 2];
      numbersPositions := new real[lineMiddlePointsNum + 2];
      xAxisLeft, xAxisRight, graphMinXPosition, graphMaxXPosition, selectorsYPosition := 0.0, 0.0, 0.0, 0.0, 0.0;
      actionDownXValue, actionDownYValue, actionMoveXValue := 0.0, 0.0, 0.0;
      minSelectorSelected, maxSelectorSelected, bothSelectorsSelected := false, false, false;
      minSelectorXPosition, maxSelectorXPosition := 0.0, 0.0;
      rangeData := None;
      minSelectorValue, maxSelectorValue := 0, 0;
      valueChanges := [];
    }

    /**
     * getGraphPointsFromRangeData: the first point at the first range's
     * start and half its count, one point per range at its middle and
     * count, the last of them replaced by the last range's end and half its
     * count, each moved to its view position. These are the graph points
     * of the range data's PointsData.
     */
    method GetGraphPointsFromRangeData(rd: LegacyData.RangeData) returns (points: seq<Point>)
      requires DrawableRanges(rd)
      ensures points == Paths.GraphPoints(rd.pointsData, graphMinXPosition, lineYPosition, graphMaxXPosition, graphTopPosition)
    {
      var pd := rd.pointsData;
      var rangeList := rd.rangeList;
      LegacyData.BoundsMatchPoints(rangeList, pd);
      var n := |rangeList|;
      var gMin, gMax, top, lineY := graphMinXPosition, graphMaxXPosition, graphTopPosition, lineYPosition;
      points := [Point(XPositionFromValue(rangeList[0].from as real, graphMinXPosition, graphMaxXPosition, pd.minX, pd.xRange),
                       YPositionFromValue(TruncDiv(rangeList[0].count, 2) as real, graphTopPosition, lineYPosition, pd.minY, pd.maxY))];
      var middlePoints := seq(n, i requires 0 <= i < n =>
        Point(XPositionFromValue(LegacyData.Middle(rangeList[i]) as real, gMin, gMax, pd.minX, pd.xRange),
              YPositionFromValue(rangeList[i].count as real, top, lineY, pd.minY, pd.maxY)));
      points := points + middlePoints;
      points := points[|points| - 1 :=
        Point(XPositionFromValue(rangeList[n - 1].to as real, graphMinXPosition, graphMaxXPosition, pd.minX, pd.xRange),
              YPositionFromValue(TruncDiv(rangeList[n - 1].count, 2) as real, graphTopPosition, lineYPosition, pd.minY, pd.maxY))];
      assert Selectors.Drawable(pd);
      PointGraphEndView.GraphKnotsAreGraphPoints(pd, graphMinXPosition, graphMaxXPosition, graphTopPosition, lineYPosition);
      assert points == PointGraphEndView.GraphKnots(pd, graphMinXPosition, graphMaxXPosition, graphTopPosition, lineYPosition);
    }

    /** generateSplineGraphPath: the spline through the graph points, closed along the x axis line. */
    method GenerateSplineGraphPath()
      requires Valid() && rangeData.Some?
      modifies splineGraphPath`commands
      ensures var pd := rangeData.value.pointsData;
        var knots := Paths.GraphPoints(pd, graphMinXPosition, lineYPosition, graphMaxXPosition, graphTopPosition);
        |knots| >= 2
        && splineGraphPath.commands == Paths.SplinePath(knots, BezierSpline.CurveControlPoints(knots),
                                                        graphMinXPosition, lineYPosition, graphMaxXPosition)
    {
      var rd := rangeData.value;
      var knotsArr := GetGraphPointsFromRangeData(rd);
      LegacyData.BoundsMatchPoints(rd.rangeList, rd.pointsData);
      Paths.GraphPointsBounds(rd.pointsData, graphMinXPosition, lineYPosition, graphMaxXPosition, graphTopPosition);
      var cps := BezierSpline.GetCurveControlPoints(knotsArr);
      splineGraphPath.IssueSplinePath(knotsArr, cps.value, graphMinXPosition, lineYPosition, graphMaxXPosition);
    }

    /** generateBarGraphPath: reset, then the bar graph of BarPath, one range at a time. */
    method GenerateBarGraphPath()
      requires Valid() && rangeData.Some?
      modifies barGraphPath`commands
      ensures barGraphPath.commands == BarPath(rangeData.value.rangeList, rangeData.value.pointsData,
                                               graphMinXPosition, graphMaxXPosition, graphTopPosition, lineYPosition)
    {
      var rd := rangeData.value;
      var pd := rd.pointsData;
      LegacyData.BoundsMatchPoints(rd.rangeList, pd);
      var rangeList := rd.rangeList;
      var gMin, gMax, top, lineY := graphMinXPosition, graphMaxXPosition, graphTopPosition, lineYPosition;
      var baseY := YPositionFromValue(0.0, top, lineY, pd.minY, pd.maxY);
      barGraphPath.commands := [];
      barGraphPath.commands := barGraphPath.commands
        + [Paths.MoveTo(Point(XPositionFromValue(LegacyData.MinX(rangeList) as real, gMin, gMax, pd.minX, pd.xRange), baseY))];
      IssueBarTops(barGraphPath, rangeList, pd, gMin, gMax, top, lineY);
      barGraphPath.commands := barGraphPath.commands
        + [Paths.LineTo(Point(XPositionFromValue(LegacyData.MaxX(rangeList) as real, gMin, gMax, pd.minX, pd.xRange), baseY))];
    }

    /** The numbers loop of refreshGraphValues. */
    method RefreshNumbers()
      requires Valid() && rangeData.Some?
      modifies numbers
      ensures NumbersAtData()
    {
      var rl := rangeData.value.rangeList;
      var i := 0;
      while i < numbers.Length
        invariant 0 <= i <= numbers.Length
        invariant forall j :: 0 <= j < i ==>
          numbers[j] == LegacyNumber(j, numbers.Length, LegacyData.MinX(rl), LegacyData.XRange(rl))
      {
        numbers[i] := TruncDiv(i * LegacyData.XRange(rl), numbers.Length - 1) + LegacyData.MinX(rl);
        i := i + 1;
      }
    }

    /** refreshSelectorsPositions: both selectors move to the positions of their values. */
    method RefreshSelectorsPositions()
      requires Valid() && rangeData.Some?
      modifies this`minSelectorXPosition, this`maxSelectorXPosition
      ensures SelectorsAtValues()
    {
      var pd := rangeData.value.pointsData;
      minSelectorXPosition := XPositionFromValue(minSelectorValue as real, graphMinXPosition, graphMaxXPosition, pd.minX, pd.xRange);
      maxSelectorXPosition := XPositionFromValue(maxSelectorValue as real, graphMinXPosition, graphMaxXPosition, pd.minX, pd.xRange);
    }

    /**
     * refreshGraphValues(rangeData, minSelectorValue, maxSelectorValue):
     * the data, the numbers, the values (no listener is called), both
     * paths and the selectors.
     */
    method RefreshGraphValuesWith(rd: LegacyData.RangeData, minValue: int, maxValue: int)
      requires Valid() && DrawableRanges(rd)
      modifies this`rangeData, this`minSelectorValue, this`maxSelectorValue,
               this`minSelectorXPosition, this`maxSelectorXPosition,
               numbers, splineGraphPath`commands, barGraphPath`commands
      ensures rangeData == Some(rd) && minSelectorValue == minValue && maxSelectorValue == maxValue
      ensures Valid() && SelectorsAtValues() && NumbersAtData() && PathsAtData()
    {
      rangeData := Some(rd);
      RefreshNumbers();
      minSelectorValue := minValue;
      maxSelectorValue := maxValue;
      GenerateSplineGraphPath();
      GenerateBarGraphPath();
      RefreshSelectorsPositions();
    }

    /** setRangeData (and refreshGraphValues(rangeData)): new data selects its whole range. */
    method SetRangeData(rangeData: Option<LegacyData.RangeData>)
      requires Valid()
      requires rangeData.Some? ==> DrawableRanges(rangeData.value)
      modifies this`rangeData, this`minSelectorValue, this`maxSelectorValue,
               this`minSelectorXPosition, this`maxSelectorXPosition,
               numbers, splineGraphPath`commands, barGraphPath`commands
      ensures this.rangeData == rangeData && Valid() && SelectorsAtValues() && NumbersAtData() && PathsAtData()
      ensures rangeData.Some? ==>
        minSelectorValue == LegacyData.MinX(rangeData.value.rangeList)
        && maxSelectorValue == LegacyData.MaxX(rangeData.value.rangeList)
      ensures rangeData.None? ==> minSelectorValue == old(minSelectorValue) && maxSelectorValue == old(maxSelectorValue)
      ensures rangeData.None? ==>
        minSelectorXPosition == old(minSelectorXPosition) && maxSelectorXPosition == old(maxSelectorXPosition)
        && numbers[..] == old(numbers[..])
        && splineGraphPath.commands == old(splineGraphPath.commands) && barGraphPath.commands == old(barGraphPath.commands)
      ensures valueChanges == old(valueChanges) && State() == old(State())
    {
      this.rangeData := rangeData;
      if rangeData.Some? {
        var rl := rangeData.value.rangeList;
        RefreshGraphValuesWith(rangeData.value, LegacyData.MinX(rl), LegacyData.MaxX(rl));
      }
    }

    /**
     * The layout part of onSizeChanged: the x axis between the paddings,
     * the graph half a line thickness inside it, the selectors on the
     * axis's middle line, and the evenly spaced number positions.
     */
    method LayOut(w: int, h: int, paddingLeft: int, paddingTop: int, paddingRight: int, paddingBottom: int)
      requires Valid()
      modifies this`xAxisLeft, this`xAxisRight, this`graphMinXPosition, this`graphMaxXPosition,
               this`selectorsYPosition, numbersPositions
      ensures xAxisLeft == paddingLeft as real + xAxisLeftRightPadding
      ensures xAxisRight == (w - paddingRight) as real - xAxisLeftRightPadding
      ensures graphMinXPosition == xAxisLeft + lineThickness / 2.0
      ensures graphMaxXPosition == xAxisRight - lineThickness / 2.0
      ensures selectorsYPosition == lineYPosition + lineThickness / 2.0
      ensures forall k :: 0 <= k < numbersPositions.Length ==>
        numbersPositions[k] == Utils.Spaced(k, numbersPositions.Length, graphMinXPosition, graphMaxXPosition)
    {
      var viewStartX, viewEndX := paddingLeft as real, (w - paddingRight) as real;
      xAxisLeft := viewStartX + xAxisLeftRightPadding;
      xAxisRight := viewEndX - xAxisLeftRightPadding;
      PlaceNumbers();
      graphMinXPosition := xAxisLeft + lineThickness / 2.0;
      graphMaxXPosition := xAxisRight - lineThickness / 2.0;
      selectorsYPosition := (lineYPosition + (lineYPosition + lineThickness)) / 2.0;
    }

    /** The number positions: the two end indicators, then a loop over the middle ones. */
    method PlaceNumbers()
      requires Valid()
      modifies numbersPositions
      ensures forall k :: 0 <= k < numbersPositions.Length ==>
        numbersPositions[k] == Utils.Spaced(k, numbersPositions.Length,
                                            xAxisLeft + lineThickness / 2.0, xAxisRight - lineThickness / 2.0)
    {
      var size := numbersPositions.Length;
      var lo, hi := xAxisLeft + lineThickness / 2.0, xAxisRight - lineThickness / 2.0;
      numbersPositions[0] := xAxisLeft + lineThickness / 2.0;
      numbersPositions[size - 1] := xAxisRight - lineThickness / 2.0;
      NumberPositionsEven(0, size, xAxisLeft, xAxisRight, lineThickness);
      NumberPositionsEven(size - 1, size, xAxisLeft, xAxisRight, lineThickness);
      var middlePointsNum := size - 2;
      var pointsDistance := (xAxisRight - xAxisLeft - (2 + middlePointsNum) as real * lineThickness) / (middlePointsNum + 1) as real;
      assert pointsDistance == (xAxisRight - xAxisLeft - size as real * lineThickness) / (size - 1) as real;
      var i := 0;
      while i < middlePointsNum
        invariant 0 <= i <= middlePointsNum
        invariant numbersPositions[0] == Utils.Spaced(0, size, lo, hi)
        invariant numbersPositions[size - 1] == Utils.Spaced(size - 1, size, lo, hi)
        invariant forall k :: 1 <= k < i + 1 ==> numbersPositions[k] == Utils.Spaced(k, size, lo, hi)
      {
        var middlePointIndicatorX := xAxisLeft + (i + 1) as real * (pointsDistance + lineThickness);
        var position := middlePointIndicatorX + lineThickness / 2.0;
        assert position == NumberPosition(i + 1, size, xAxisLeft, xAxisRight, lineThickness);
        NumberPositionsEven(i + 1, size, xAxisLeft, xAxisRight, lineThickness);
        numbersPositions[i + 1] := position;
        i := i + 1;
      }
    }

    /**
     * onSizeChanged: the layout follows the new size and padding; with data
     * both paths are regenerated and the selectors are redrawn at their values.
     */
    method OnSizeChanged(w: int, h: int, paddingLeft: int, paddingTop: int, paddingRight: int, paddingBottom: int)
      requires Valid()
      modifies this`xAxisLeft, this`xAxisRight, this`graphMinXPosition, this`graphMaxXPosition,
               this`selectorsYPosition, this`minSelectorXPosition, this`maxSelectorXPosition,
               numbersPositions, splineGraphPath`commands, barGraphPath`commands
      ensures Valid() && SelectorsAtValues() && PathsAtData()
      ensures xAxisLeft == paddingLeft as real + xAxisLeftRightPadding
      ensures xAxisRight == (w - paddingRight) as real - xAxisLeftRightPadding
      ensures graphMinXPosition == xAxisLeft + lineThickness / 2.0
      ensures graphMaxXPosition == xAxisRight - lineThickness / 2.0
      ensures selectorsYPosition == lineYPosition + lineThickness / 2.0
      ensures forall k :: 0 <= k < numbersPositions.Length ==>
        numbersPositions[k] == Utils.Spaced(k, numbersPositions.Length, graphMinXPosition, graphMaxXPosition)
      ensures rangeData == old(rangeData) && minSelectorValue == old(minSelectorValue)
      ensures maxSelectorValue == old(maxSelectorValue) && valueChanges == old(valueChanges)
    {
      LayOut(w, h, paddingLeft, paddingTop, paddingRight, paddingBottom);
      if rangeData.Some? {
        Redraw();
      }
    }

    /** The data part of onSizeChanged: both paths and the selectors follow the new layout. */
    method Redraw()
      requires Valid() && rangeData.Some?
      modifies this`minSelectorXPosition, this`maxSelectorXPosition, splineGraphPath`commands, barGraphPath`commands
      ensures SelectorsAtValues() && PathsAtData()
    {
      GenerateSplineGraphPath();
      GenerateBarGraphPath();
      RefreshSelectorsPositions();
    }

    /**
     * The flag part of onTouchEvent, with the closeness of the press to
     * each selector's centre taken from the current selector positions.
     */
    method TrackSelectors(event: Touch.MotionEvent, isInMinField: (real, real) -> bool, isInMaxField: (real, real) -> bool)
      modifies this`actionDownXValue, this`actionDownYValue, this`actionMoveXValue,
               this`minSelectorSelected, this`maxSelectorSelected, this`bothSelectorsSelected
      ensures var hits := if event.Down? then (isInMinField(event.x, event.y), isInMaxField(event.x, event.y)) else (false, false);
        var close := if event.Down? then (MinCenterIsClose(event.x), MaxCenterIsClose(event.x)) else (false, false);
        State() == LegacyStep(old(State()), event, hits.0, hits.1, close.0, close.1, deadZone)
    {
      match event {
        case Down(x, y) =>
          actionDownXValue := x;
          actionDownYValue := y;
          if isInMinField(actionDownXValue, actionDownYValue) && isInMaxField(actionDownXValue, actionDownYValue) {
            var minCenterIsClose := false;
            var maxCenterIsClose := false;
            if AbsReal(minSelectorXPosition - actionDownXValue) < 0.2 * selectorTouchDiameter {
              minCenterIsClose := true;
            }
            if AbsReal(maxSelectorXPosition - actionDownXValue) < 0.2 * selectorTouchDiameter {
              maxCenterIsClose := true;
            }
            if minCenterIsClose && !maxCenterIsClose {
              minSelectorSelected := true;
            } else if !minCenterIsClose && maxCenterIsClose {
              maxSelectorSelected := true;
            } else {
              bothSelectorsSelected := true;
            }
          } else if isInMinField(actionDownXValue, actionDownYValue) {
            minSelectorSelected := true;
          } else if isInMaxField(actionDownXValue, actionDownYValue) {
            maxSelectorSelected := true;
          }
        case Move(x) =>
          actionMoveXValue := x;
          if bothSelectorsSelected {
            if AbsReal(actionMoveXValue - actionDownXValue) > deadZone {
              if actionMoveXValue < actionDownXValue {
                bothSelectorsSelected := false;
                minSelectorSelected := true;
              } else if actionMoveXValue > actionDownXValue {
                bothSelectorsSelected := false;
                maxSelectorSelected := true;
              }
            }
          }
        case _ =>
          bothSelectorsSelected := false;
          minSelectorSelected := false;
          maxSelectorSelected := false;
      }
    }

    /** updateSelectorValues: both Long values from the selector positions, rounded toward zero. */
    method UpdateSelectorValues()
      requires Valid() && rangeData.Some? && graphMinXPosition != graphMaxXPosition
      modifies this`minSelectorValue, this`maxSelectorValue
      ensures ValuesAtSelectors()
    {
      var pd := rangeData.value.pointsData;
      minSelectorValue := TruncReal(XValueFromPosition(minSelectorXPosition, graphMinXPosition, graphMaxXPosition, pd.minX, pd.xRange));
      maxSelectorValue := TruncReal(XValueFromPosition(maxSelectorXPosition, graphMinXPosition, graphMaxXPosition, pd.minX, pd.xRange));
    }

    /** A drag of the min selector: the clamped move, both values, then the min listeners with the new min. */
    method DragMinSelector(x: real)
      requires Valid() && rangeData.Some? && graphMinXPosition != graphMaxXPosition
      modifies this`minSelectorXPosition, this`minSelectorValue, this`maxSelectorValue, this`valueChanges
      ensures minSelectorXPosition == MinDrag(x, graphMinXPosition, maxSelectorXPosition)
      ensures ValuesAtSelectors()
      ensures valueChanges == old(valueChanges) + [MinValueChanged(minSelectorValue)]
      ensures old(Ordered(graphMinXPosition, minSelectorXPosition, maxSelectorXPosition, graphMaxXPosition)) ==>
        Ordered(graphMinXPosition, minSelectorXPosition, maxSelectorXPosition, graphMaxXPosition)
    {
      minSelectorXPosition := MinDrag(x, graphMinXPosition, maxSelectorXPosition);
      UpdateSelectorValues();
      valueChanges := valueChanges + [MinValueChanged(minSelectorValue)];
    }

    /** A drag of the max selector: the clamped move, both values, then the max listeners with the new max. */
    method DragMaxSelector(x: real)
      requires Valid() && rangeData.Some? && graphMinXPosition != graphMaxXPosition
      modifies this`maxSelectorXPosition, this`minSelectorValue, this`maxSelectorValue, this`valueChanges
      ensures maxSelectorXPosition == MaxDrag(x, minSelectorXPosition, graphMaxXPosition)
      ensures ValuesAtSelectors()
      ensures valueChanges == old(valueChanges) + [MaxValueChanged(maxSelectorValue)]
      ensures old(Ordered(graphMinXPosition, minSelectorXPosition, maxSelectorXPosition, graphMaxXPosition)) ==>
        Ordered(graphMinXPosition, minSelectorXPosition, maxSelectorXPosition, graphMaxXPosition)
    {
      maxSelectorXPosition := MaxDrag(x, minSelectorXPosition, graphMaxXPosition);
      UpdateSelectorValues();
      valueChanges := valueChanges + [MaxValueChanged(maxSelectorValue)];
    }

    /**
     * The drag part of onTouchEvent, after the flags have changed: the
     * selected selector, the min one first, follows the finger; a release
     * or cancel moves nothing.
     */
    method FollowFinger(event: Touch.MotionEvent)
      requires Valid() && rangeData.Some? && graphMinXPosition != graphMaxXPosition
      modifies this`minSelectorXPosition, this`maxSelectorXPosition, this`minSelectorValue, this`maxSelectorValue,
               this`valueChanges
      ensures var fired := Touch.LaGrangeFired(State(), event);
        (fired == [] ==>
           minSelectorXPosition == old(minSelectorXPosition) && maxSelectorXPosition == old(maxSelectorXPosition)
           && minSelectorValue == old(minSelectorValue) && maxSelectorValue == old(maxSelectorValue)
           && valueChanges == old(valueChanges))
        && (fired != [] ==> ValuesAtSelectors())
        && (forall x :: fired == [Touch.MinSelectorChanged(x)] ==>
              minSelectorXPosition == MinDrag(x, graphMinXPosition, old(maxSelectorXPosition))
              && maxSelectorXPosition == old(maxSelectorXPosition)
              && valueChanges == old(valueChanges) + [MinValueChanged(minSelectorValue)])
        && (forall x :: fired == [Touch.MaxSelectorChanged(x)] ==>
              maxSelectorXPosition == MaxDrag(x, old(minSelectorXPosition), graphMaxXPosition)
              && minSelectorXPosition == old(minSelectorXPosition)
              && valueChanges == old(valueChanges) + [MaxValueChanged(maxSelectorValue)])
      ensures old(Ordered(graphMinXPosition, minSelectorXPosition, maxSelectorXPosition, graphMaxXPosition)) ==>
        Ordered(graphMinXPosition, minSelectorXPosition, maxSelectorXPosition, graphMaxXPosition)
      ensures old(ValuesAtSelectors()) ==> ValuesAtSelectors()
    {
      if minSelectorSelected && !(event.Up? || event.Cancel?) {
        DragMinSelector(event.x);
      } else if maxSelectorSelected && !(event.Up? || event.Cancel?) {
        DragMaxSelector(event.x);
      }
    }

    /**
     * onTouchEvent: without data the event is not handled; with data the
     * flags change by LegacyStep, the selected selector (the min one first)
     * follows the finger, both values are assigned from the positions and
     * the listeners of the moved selector are called, and the event is
     * handled. A release always clears the flags, so no drag is reached
     * for a release or a cancel.
     */
    method OnTouchEvent(event: Touch.MotionEvent, isInMinField: (real, real) -> bool, isInMaxField: (real, real) -> bool)
      returns (handled: bool)
      requires Valid() && (rangeData.Some? ==> graphMinXPosition != graphMaxXPosition)
      modifies this`actionDownXValue, this`actionDownYValue, this`actionMoveXValue,
               this`minSelectorSelected, this`maxSelectorSelected, this`bothSelectorsSelected,
               this`minSelectorXPosition, this`maxSelectorXPosition, this`minSelectorValue, this`maxSelectorValue,
               this`valueChanges
      ensures handled == old(rangeData).Some?
      ensures !handled ==> unchanged(this)
      ensures Valid() && rangeData == old(rangeData)
      ensures graphMinXPosition == old(graphMinXPosition) && graphMaxXPosition == old(graphMaxXPosition)
      ensures handled ==>
        var hits := if event.Down? then (isInMinField(event.x, event.y), isInMaxField(event.x, event.y)) else (false, false);
        var close := if event.Down? then (old(MinCenterIsClose(event.x)), old(MaxCenterIsClose(event.x))) else (false, false);
        State() == LegacyStep(old(State()), event, hits.0, hits.1, close.0, close.1, deadZone)
      ensures handled ==>
        var fired := Touch.LaGrangeFired(State(), event);
        (fired == [] ==>
           minSelectorXPosition == old(minSelectorXPosition) && maxSelectorXPosition == old(maxSelectorXPosition)
           && minSelectorValue == old(minSelectorValue) && maxSelectorValue == old(maxSelectorValue)
           && valueChanges == old(valueChanges))
        && (fired != [] ==> ValuesAtSelectors())
        && (forall x :: fired == [Touch.MinSelectorChanged(x)] ==>
              minSelectorXPosition == MinDrag(x, graphMinXPosition, old(maxSelectorXPosition))
              && maxSelectorXPosition == old(maxSelectorXPosition)
              && valueChanges == old(valueChanges) + [MinValueChanged(minSelectorValue)])
        && (forall x :: fired == [Touch.MaxSelectorChanged(x)] ==>
              maxSelectorXPosition == MaxDrag(x, old(minSelectorXPosition), graphMaxXPosition)
              && minSelectorXPosition == old(minSelectorXPosition)
              && valueChanges == old(valueChanges) + [MaxValueChanged(maxSelectorValue)])
      ensures old(Ordered(graphMinXPosition, minSelectorXPosition, maxSelectorXPosition, graphMaxXPosition)) ==>
        Ordered(graphMinXPosition, minSelectorXPosition, maxSelectorXPosition, graphMaxXPosition)
      ensures old(ValuesAtSelectors()) ==> ValuesAtSelectors()
    {
      if rangeData.None? {
        return false;
      }
      TrackSelectors(event, isInMinField, isInMaxField);
      FollowFinger(event);
      return true;
    }

    /**
     * onRestoreInstanceState with a saved state: the saved data comes back
     * with the saved values, or no data at all; no listener is called.
     */
    method OnRestoreInstanceState(savedRangeData: Option<LegacyData.RangeData>,
                                  savedMinSelectorValue: int, savedMaxSelectorValue: int)
      requires Valid()
      requires savedRangeData.Some? ==> DrawableRanges(savedRangeData.value)
      modifies this`rangeData, this`minSelectorValue, this`maxSelectorValue,
               this`minSelectorXPosition, this`maxSelectorXPosition,
               numbers, splineGraphPath`commands, barGraphPath`commands
      ensures Valid() && SelectorsAtValues() && NumbersAtData() && PathsAtData()
      ensures rangeData == savedRangeData && valueChanges == old(valueChanges)
      ensures savedRangeData.Some? ==>
        minSelectorValue == savedMinSelectorValue && maxSelectorValue == savedMaxSelectorValue
      ensures savedRangeData.None? ==>
        minSelectorValue == old(minSelectorValue) && maxSelectorValue == old(maxSelectorValue)
        && minSelectorXPosition == old(minSelectorXPosition) && maxSelectorXPosition == old(maxSelectorXPosition)
        && numbers[..] == old(numbers[..])
        && splineGraphPath.commands == old(splineGraphPath.commands) && barGraphPath.commands == old(barGraphPath.commands)
      ensures State() == old(State())
      ensures graphMinXPosition == old(graphMinXPosition) && graphMaxXPosition == old(graphMaxXPosition)
      ensures xAxisLeft == old(xAxisLeft) && xAxisRight == old(xAxisRight) && selectorsYPosition == old(selectorsYPosition)
    {
      if savedRangeData.Some? {
        RefreshGraphValuesWith(savedRangeData.value, savedMinSelectorValue, savedMaxSelectorValue);
      } else {
        SetRangeData(savedRangeData);
      }
    }
  }
}
