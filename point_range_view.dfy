// The range picker of pointgraph/LaGrange.kt: two selectors over the
// spline graph of a PointsData, with evenly spaced numbers under the x
// axis. The view handles touches itself, with the same flag update as the
// two-selector touch handler (Touch.LaGrangeStep), and after every drag it
// assigns both selector values from the selector positions. The selector
// shapes are represented by the selector centres, the x axis indicators by
// their x positions; an animated selector move by the position it animates to.

module PointLaGrangeView {
  import opened Geometry
  import GraphData
  import Touch
  import opened Selectors
  import Paths
  import BezierSpline
  import Utils
  import LaGrangeView

  /**
   * The selector values onRestoreInstanceState leaves, as written: with
   * saved data, refreshGraphValues runs after the saved values are
   * assigned and resets them to the whole data range.
   */
  function RestoredSelectorValues(savedPointsData: Option<GraphData.PointsData>,
                                  savedMinSelectorValue: real, savedMaxSelectorValue: real): (values: (real, real))
    ensures savedPointsData.None? ==> values == (savedMinSelectorValue, savedMaxSelectorValue)
    ensures savedPointsData.Some? ==> values == (savedPointsData.value.minX, savedPointsData.value.maxX)
  {
    if savedPointsData.Some? then (savedPointsData.value.minX, savedPointsData.value.maxX)
    else (savedMinSelectorValue, savedMaxSelectorValue)
  }

  /**
   * A saved selection inside the saved data does not survive a restore:
   * for data over [0, 10] and a saved selection [3, 7] the selectors come
   * back at [0, 10].
   */
  lemma RestoreDiscardsSavedValues()
    ensures exists pd: GraphData.PointsData ::
      Drawable(pd) && pd.minX <= 3.0 <= 7.0 <= pd.maxX
      && RestoredSelectorValues(Some(pd), 3.0, 7.0) != (3.0, 7.0)
  {
    var pd := GraphData.PointsData([Point(0.0, 0.0), Point(5.0, 1.0), Point(10.0, 0.0)], 0.0, 10.0, 0.0, 1.0, 10.0);
    assert pd.points[1].y == pd.maxY;
    assert Drawable(pd);
    assert RestoredSelectorValues(Some(pd), 3.0, 7.0) == (0.0, 10.0);
  }

  class LaGrange {
    const graphTopFromTop: real
    const graphBottomFromBottom: real
    const graphLeftRightPadding: real
    const numbersYPositionFromBottom: real
    const xAxisThickness: real
    const graphPath: Paths.GraphPath
    /** The numbers under the x axis, xAxisNumberOfMiddlePoints + 2 of them. */
    const numbers: array<real>
    /** The x positions of the x axis indicators, one per number. */
    const indicatorsXPositions: array<real>

    var graphTop: real
    var graphBottom: real
    var graphLeft: real
    var graphRight: real
    var numbersYPosition: real
    var xAxisLeft: real
    var xAxisRight: real

    var actionDownXValue: real
    var actionDownYValue: real
    var actionMoveXValue: real
    var minSelectorSelected: bool
    var maxSelectorSelected: bool
    var bothSelectorsSelected: bool

    /** The centres of the min and the max selector. */
    var minSelectorXPosition: real
    var maxSelectorXPosition: real

    var pointsData: Option<GraphData.PointsData>
    var listenersEnabled: bool
    var minSelectorValue: real
    var maxSelectorValue: real
    /** The value listener calls made so far, in order. */
    var valueChanges: seq<LaGrangeView.ValueChange>

    /** The touch state, as the two-selector handler holds it. */
    function State(): Touch.LaGrangeState
      reads this`actionDownXValue, this`actionDownYValue, this`actionMoveXValue,
            this`minSelectorSelected, this`maxSelectorSelected, this`bothSelectorsSelected
    {
      Touch.LaGrangeState(actionDownXValue, actionDownYValue, actionMoveXValue,
                          minSelectorSelected, maxSelectorSelected, bothSelectorsSelected)
    }

    /**
     * The data, when present, can be laid out; there are at least the two
     * end numbers, and one indicator per number in an array of its own.
     */
    ghost predicate Valid()
      reads this`pointsData
    {
      (pointsData.Some? ==> Drawable(pointsData.value))
      && numbers.Length >= 2 && indicatorsXPositions.Length == numbers.Length
      && numbers != indicatorsXPositions
    }

    /** Each selector is drawn at the position of its value. */
    ghost predicate SelectorsAtValues()
      reads this`pointsData, this`graphLeft, this`graphRight,
               this`minSelectorXPosition, this`maxSelectorXPosition, this`minSelectorValue, this`maxSelectorValue
      requires Valid()
    {
      pointsData.Some? ==>
        var pd := pointsData.value;
        minSelectorXPosition == Affine(minSelectorValue, pd.minX, pd.maxX, graphLeft, graphRight)
        && maxSelectorXPosition == Affine(maxSelectorValue, pd.minX, pd.maxX, graphLeft, graphRight)
    }

    /** Each value is the value of its selector's position. */
    ghost predicate ValuesAtSelectors()
      reads this`pointsData, this`graphLeft, this`graphRight,
               this`minSelectorXPosition, this`maxSelectorXPosition, this`minSelectorValue, this`maxSelectorValue
      requires Valid()
    {
      pointsData.Some? && graphLeft != graphRight ==>
        var pd := pointsData.value;
        minSelectorValue == Affine(minSelectorXPosition, graphLeft, graphRight, pd.minX, pd.maxX)
        && maxSelectorValue == Affine(maxSelectorXPosition, graphLeft, graphRight, pd.minX, pd.maxX)
    }

    /** The numbers run evenly from the data's minX to its maxX. */
    ghost predicate NumbersAtData()
      reads this`pointsData, numbers
      requires Valid()
    {
      pointsData.Some? ==>
        forall i :: 0 <= i < numbers.Length ==>
          numbers[i] == Utils.Spaced(i, numbers.Length, pointsData.value.minX, pointsData.value.maxX)
    }

    /** The graph path holds the data's spline in the current graph box. */
    ghost predicate PathAtData()
      reads this`pointsData, this`graphLeft, this`graphBottom, this`graphRight, this`graphTop, graphPath`commands
      requires Valid()
    {
      pointsData.Some? ==>
        var knots := Paths.GraphPoints(pointsData.value, graphLeft, graphBottom, graphRight, graphTop);
        |knots| >= 2
        && graphPath.commands == Paths.SplinePath(knots, BezierSpline.CurveControlPoints(knots),
                                                  graphLeft, graphBottom, graphRight)
    }

    constructor (xAxisNumberOfMiddlePoints: nat, graphTopFromTop: real, graphBottomFromBottom: real,
                 graphLeftRightPadding: real, numbersYPositionFromBottom: real, xAxisThickness: real)
      ensures this.graphTopFromTop == graphTopFromTop && this.graphBottomFromBottom == graphBottomFromBottom
      ensures this.graphLeftRightPadding == graphLeftRightPadding
      ensures this.numbersYPositionFromBottom == numbersYPositionFromBottom && this.xAxisThickness == xAxisThickness
      ensures fresh(graphPath) && fresh(numbers) && fresh(indicatorsXPositions)
      ensures numbers.Length == xAxisNumberOfMiddlePoints + 2
      ensures State() == Touch.LaGrangeInitial
      ensures pointsData == None && listenersEnabled
      ensures minSelectorValue == 0.0 && maxSelectorValue == 0.0 && valueChanges == []
      ensures Valid()
    {
      this.graphTopFromTop := graphTopFromTop;
      this.graphBottomFromBottom := graphBottomFromBottom;
      this.graphLeftRightPadding := graphLeftRightPadding;
      this.numbersYPositionFromBottom := numbersYPositionFromBottom;
      this.xAxisThickness := xAxisThickness;
      graphPath := new Paths.GraphPath();
      numbers := new real[xAxisNumberOfMiddlePoints + 2];
      indicatorsXPositions := new real[xAxisNumberOfMiddlePoints + 2];
      graphTop, graphBottom, graphLeft, graphRight, numbersYPosition := 0.0, 0.0, 0.0, 0.0, 0.0;
      xAxisLeft, xAxisRight := 0.0, 0.0;
      actionDownXValue, actionDownYValue, actionMoveXValue := 0.0, 0.0, 0.0;
      minSelectorSelected, maxSelectorSelected, bothSelectorsSelected := false, false, false;
      minSelectorXPosition, maxSelectorXPosition := 0.0, 0.0;
      pointsData := None;
      listenersEnabled := true;
      minSelectorValue, maxSelectorValue := 0.0, 0.0;
      valueChanges := [];
    }

    /** The observable minSelectorValue: every assignment is reported while listeners are enabled. */
    method AssignMinSelectorValue(value: real)
      modifies this`minSelectorValue, this`valueChanges
      ensures minSelectorValue == value
      ensures valueChanges == old(valueChanges) + (if listenersEnabled then [LaGrangeView.MinValueChanged(value)] else [])
    {
      minSelectorValue := value;
      if listenersEnabled {
        valueChanges := valueChanges + [LaGrangeView.MinValueChanged(value)];
      }
    }

    /** The observable maxSelectorValue. */
    method AssignMaxSelectorValue(value: real)
      modifies this`maxSelectorValue, this`valueChanges
      ensures maxSelectorValue == value
      ensures valueChanges == old(valueChanges) + (if listenersEnabled then [LaGrangeView.MaxValueChanged(value)] else [])
    {
      maxSelectorValue := value;
      if listenersEnabled {
        valueChanges := valueChanges + [LaGrangeView.MaxValueChanged(value)];
      }
    }

    /** The min value, then the max value, each assigned and reported. */
    method AssignSelectorValues(minValue: real, maxValue: real)
      modifies this`minSelectorValue, this`maxSelectorValue, this`valueChanges
      ensures minSelectorValue == minValue && maxSelectorValue == maxValue
      ensures valueChanges == old(valueChanges) + (if listenersEnabled then [LaGrangeView.MinValueChanged(minValue),
                                                                             LaGrangeView.MaxValueChanged(maxValue)] else [])
    {
      AssignMinSelectorValue(minValue);
      AssignMaxSelectorValue(maxValue);
      if listenersEnabled {
        assert valueChanges == old(valueChanges) + [LaGrangeView.MinValueChanged(minValue)] + [LaGrangeView.MaxValueChanged(maxValue)];
      }
    }

    /** updateSelectorValues: both values from the selector positions, min first, each reported. */
    method UpdateSelectorValues()
      requires Valid() && pointsData.Some? && graphLeft != graphRight
      modifies this`minSelectorValue, this`maxSelectorValue, this`valueChanges
      ensures ValuesAtSelectors()
      ensures valueChanges == old(valueChanges) + (if listenersEnabled then [LaGrangeView.MinValueChanged(minSelectorValue),
                                                                             LaGrangeView.MaxValueChanged(maxSelectorValue)] else [])
    {
      var pd := pointsData.value;
      AssignSelectorValues(Affine(minSelectorXPosition, graphLeft, graphRight, pd.minX, pd.maxX),
                           Affine(maxSelectorXPosition, graphLeft, graphRight, pd.minX, pd.maxX));
    }

    /** refreshSelectorsPositions: both selectors move to the positions of their values. */
    method RefreshSelectorsPositions()
      requires Valid() && pointsData.Some?
      modifies this`minSelectorXPosition, this`maxSelectorXPosition
      ensures SelectorsAtValues()
    {
      var pd := pointsData.value;
      minSelectorXPosition := Affine(minSelectorValue, pd.minX, pd.maxX, graphLeft, graphRight);
      maxSelectorXPosition := Affine(maxSelectorValue, pd.minX, pd.maxX, graphLeft, graphRight);
    }

    /** Both values assigned (each reported), then both selectors drawn at them. */
    method MoveSelectorsTo(minValue: real, maxValue: real)
      requires Valid() && pointsData.Some?
      modifies this`minSelectorValue, this`maxSelectorValue, this`valueChanges,
               this`minSelectorXPosition, this`maxSelectorXPosition
      ensures minSelectorValue == minValue && maxSelectorValue == maxValue && SelectorsAtValues()
      ensures valueChanges == old(valueChanges) + (if listenersEnabled then [LaGrangeView.MinValueChanged(minValue),
                                                                             LaGrangeView.MaxValueChanged(maxValue)] else [])
    {
      AssignSelectorValues(minValue, maxValue);
      RefreshSelectorsPositions();
    }

    /** The numbers loop of refreshGraphValues: i steps of xRange / (size - 1) from minX. */
    method RefreshNumbers()
      requires Valid() && pointsData.Some?
      modifies numbers
      ensures NumbersAtData()
    {
      var pd := pointsData.value;
      var n, lo, hi, span := numbers.Length, pd.minX, pd.maxX, pd.xRange;
      assert span == hi - lo;
      var i := 0;
      while i < n
        invariant 0 <= i <= n
        invariant forall j :: 0 <= j < i ==> numbers[j] == Utils.Spaced(j, n, lo, hi)
      {
        var number := i as real * span / (n - 1) as real + lo;
        Utils.SpacedOfSpan(i, n, lo, hi, span);
        numbers[i] := number;
        i := i + 1;
      }
    }

    /** The data shapes of refreshGraphValues: the numbers and the graph path. */
    method RefreshDataShapes()
      requires Valid() && pointsData.Some?
      modifies numbers, graphPath
      ensures NumbersAtData() && PathAtData()
    {
      RefreshNumbers();
      graphPath.GeneratePath(pointsData.value, graphLeft, graphBottom, graphRight, graphTop);
    }

    /**
     * refreshGraphValues: with data, the numbers and the path are
     * refreshed, the values reset to the whole data range (each reported)
     * and the selectors moved there.
     */
    method RefreshGraphValues()
      requires Valid()
      modifies this`minSelectorValue, this`maxSelectorValue, this`valueChanges,
               this`minSelectorXPosition, this`maxSelectorXPosition, numbers, graphPath
      ensures Valid() && SelectorsAtValues() && NumbersAtData() && PathAtData()
      ensures pointsData.Some? ==>
        minSelectorValue == pointsData.value.minX && maxSelectorValue == pointsData.value.maxX
        && valueChanges == old(valueChanges) + (if listenersEnabled then [LaGrangeView.MinValueChanged(pointsData.value.minX),
                                                                          LaGrangeView.MaxValueChanged(pointsData.value.maxX)] else [])
      ensures pointsData.None? ==>
        unchanged(this) && unchanged(numbers) && unchanged(graphPath)
    {
      if pointsData.Some? {
        var pd := pointsData.value;
        RefreshDataShapes();
        MoveSelectorsTo(pd.minX, pd.maxX);
      }
    }

    /** setPointsData: the data, then refreshGraphValues (the scale animation is not modelled). */
    method SetPointsData(pointsData: Option<GraphData.PointsData>)
      requires Valid()
      requires pointsData.Some? ==> Drawable(pointsData.value)
      modifies this`pointsData, this`minSelectorValue, this`maxSelectorValue, this`valueChanges,
               this`minSelectorXPosition, this`maxSelectorXPosition, numbers, graphPath
      ensures this.pointsData == pointsData && Valid() && SelectorsAtValues() && NumbersAtData() && PathAtData()
      ensures listenersEnabled == old(listenersEnabled) && State() == old(State())
      ensures pointsData.Some? ==>
        minSelectorValue == pointsData.value.minX && maxSelectorValue == pointsData.value.maxX
        && valueChanges == old(valueChanges) + (if listenersEnabled then [LaGrangeView.MinValueChanged(pointsData.value.minX),
                                                                          LaGrangeView.MaxValueChanged(pointsData.value.maxX)] else [])
      ensures pointsData.None? ==>
        minSelectorValue == old(minSelectorValue) && maxSelectorValue == old(maxSelectorValue)
        && valueChanges == old(valueChanges)
    {
      this.pointsData := pointsData;
      RefreshGraphValues();
    }

    /**
     * setSelectorsValues: ignored while the min or the max selector is held
     * (a press on both fields does not block it) and without data;
     * otherwise the normalised values are assigned, min first, and the
     * selectors move to them.
     */
    method SetSelectorsValues(minValue: Option<real>, maxValue: Option<real>)
      requires Valid()
      modifies this`minSelectorValue, this`maxSelectorValue, this`valueChanges,
               this`minSelectorXPosition, this`maxSelectorXPosition
      ensures Valid()
      ensures old(minSelectorSelected || maxSelectorSelected) || old(pointsData).None? ==> unchanged(this)
      ensures !old(minSelectorSelected || maxSelectorSelected) && old(pointsData).Some? ==>
        var pd := old(pointsData).value;
        var r := NormalizeRange(minValue, maxValue, pd.minX, pd.maxX);
        pointsData == old(pointsData) && State() == old(State())
        && minSelectorValue == r.0 && maxSelectorValue == r.1
        && valueChanges == old(valueChanges) + (if listenersEnabled then [LaGrangeView.MinValueChanged(r.0),
                                                                          LaGrangeView.MaxValueChanged(r.1)] else [])
        && SelectorsAtValues() && ValuesAtSelectors()
        && (pd.minX < pd.maxX && graphLeft < graphRight ==>
              Ordered(graphLeft, minSelectorXPosition, maxSelectorXPosition, graphRight))
    {
      if minSelectorSelected || maxSelectorSelected {
        return;
      }
      if pointsData.None? {
        return;
      }
      var pd := pointsData.value;
      var r := NormalizeRange(minValue, maxValue, pd.minX, pd.maxX);
      AssignSelectorValues(r.0, r.1);
      minSelectorXPosition := Affine(r.0, pd.minX, pd.maxX, graphLeft, graphRight);
      maxSelectorXPosition := Affine(r.1, pd.minX, pd.maxX, graphLeft, graphRight);
      if graphLeft != graphRight {
        AffineInverse(r.0, pd.minX, pd.maxX, graphLeft, graphRight);
        AffineInverse(r.1, pd.minX, pd.maxX, graphLeft, graphRight);
      }
      if pd.minX < pd.maxX && graphLeft < graphRight {
        AffineKeepsOrder(r.0, r.1, pd.minX, pd.maxX, graphLeft, graphRight);
      }
    }

    /**
     * The layout part of onSizeChanged: the graph box, the numbers line,
     * the x axis (half its thickness wider than the graph on each side)
     * and its indicators, evenly spaced from one end of the axis to the other.
     */
    method LayOut(w: int, h: int, paddingLeft: int, paddingTop: int, paddingRight: int, paddingBottom: int)
      requires Valid()
      modifies this`graphTop, this`graphBottom, this`graphLeft, this`graphRight, this`numbersYPosition,
               this`xAxisLeft, this`xAxisRight, indicatorsXPositions
      ensures graphTop == paddingTop as real + graphTopFromTop
      ensures graphBottom == (h - paddingBottom) as real - graphBottomFromBottom
      ensures graphLeft == paddingLeft as real + graphLeftRightPadding
      ensures graphRight == (w - paddingRight) as real - graphLeftRightPadding
      ensures numbersYPosition == (h - paddingBottom) as real - numbersYPositionFromBottom
      ensures xAxisLeft == graphLeft - xAxisThickness / 2.0 && xAxisRight == graphRight + xAxisThickness / 2.0
      ensures forall i :: 0 <= i < indicatorsXPositions.Length ==>
        indicatorsXPositions[i] == Utils.Spaced(i, indicatorsXPositions.Length, xAxisLeft, xAxisRight)
    {
      var viewStartX, viewEndX := paddingLeft as real, (w - paddingRight) as real;
      var viewStartY, viewEndY := paddingTop as real, (h - paddingBottom) as real;
      graphTop := viewStartY + graphTopFromTop;
      graphBottom := viewEndY - graphBottomFromBottom;
      graphLeft := viewStartX + graphLeftRightPadding;
      graphRight := viewEndX - graphLeftRightPadding;
      numbersYPosition := viewEndY - numbersYPositionFromBottom;
      xAxisLeft := graphLeft - xAxisThickness / 2.0;
      xAxisRight := graphRight + xAxisThickness / 2.0;
      PlaceIndicators(xAxisLeft, xAxisRight);
    }

    /** The indicator loop of onSizeChanged: one step of (right - left) / (count - 1) per indicator. */
    method PlaceIndicators(left: real, right: real)
      requires Valid()
      modifies indicatorsXPositions
      ensures forall i :: 0 <= i < indicatorsXPositions.Length ==>
        indicatorsXPositions[i] == Utils.Spaced(i, indicatorsXPositions.Length, left, right)
    {
      var n := indicatorsXPositions.Length;
      var pointsDistance := (right - left) / (n - 1) as real;
      var i := 0;
      while i < n
        invariant 0 <= i <= n
        invariant forall j :: 0 <= j < i ==> indicatorsXPositions[j] == Utils.Spaced(j, n, left, right)
      {
        var position := left + i as real * pointsDistance;
        Utils.SpacedByDistance(i, n, left, right, pointsDistance);
        indicatorsXPositions[i] := position;
        i := i + 1;
      }
    }

    /**
     * onSizeChanged: the layout follows the new size and padding; with data
     * the graph path is regenerated and the selectors are redrawn at their values.
     */
    method OnSizeChanged(w: int, h: int, paddingLeft: int, paddingTop: int, paddingRight: int, paddingBottom: int)
      requires Valid()
      modifies this`graphTop, this`graphBottom, this`graphLeft, this`graphRight, this`numbersYPosition,
               this`xAxisLeft, this`xAxisRight, this`minSelectorXPosition, this`maxSelectorXPosition,
               indicatorsXPositions, graphPath
      ensures Valid() && SelectorsAtValues() && PathAtData()
      ensures graphTop == paddingTop as real + graphTopFromTop
      ensures graphBottom == (h - paddingBottom) as real - graphBottomFromBottom
      ensures graphLeft == paddingLeft as real + graphLeftRightPadding
      ensures graphRight == (w - paddingRight) as real - graphLeftRightPadding
      ensures numbersYPosition == (h - paddingBottom) as real - numbersYPositionFromBottom
      ensures xAxisLeft == graphLeft - xAxisThickness / 2.0 && xAxisRight == graphRight + xAxisThickness / 2.0
      ensures forall i :: 0 <= i < indicatorsXPositions.Length ==>
        indicatorsXPositions[i] == Utils.Spaced(i, indicatorsXPositions.Length, xAxisLeft, xAxisRight)
      ensures pointsData == old(pointsData) && minSelectorValue == old(minSelectorValue)
      ensures maxSelectorValue == old(maxSelectorValue) && valueChanges == old(valueChanges)
    {
      LayOut(w, h, paddingLeft, paddingTop, paddingRight, paddingBottom);
      if pointsData.Some? {
        Redraw();
      }
    }

    /** The data part of onSizeChanged: the path and the selectors follow the new layout. */
    method Redraw()
      requires Valid() && pointsData.Some?
      modifies this`minSelectorXPosition, this`maxSelectorXPosition, graphPath
      ensures SelectorsAtValues() && PathAtData()
    {
      graphPath.GeneratePath(pointsData.value, graphLeft, graphBottom, graphRight, graphTop);
      RefreshSelectorsPositions();
    }

    /**
     * The flag part of handleTouchEvent: a press records its point and sets
     * the flag of the touch fields it lands in (both, min or max); a move
     * in the both-state picks a side by its direction from the press point;
     * a release or a cancel clears every flag.
     */
    method TrackSelectors(event: Touch.MotionEvent, isInMinField: (real, real) -> bool, isInMaxField: (real, real) -> bool)
      modifies this`actionDownXValue, this`actionDownYValue, this`actionMoveXValue,
               this`minSelectorSelected, this`maxSelectorSelected, this`bothSelectorsSelected
      ensures var hits := if event.Down? then (isInMinField(event.x, event.y), isInMaxField(event.x, event.y)) else (false, false);
        State() == Touch.LaGrangeStep(old(State()), event, hits.0, hits.1)
    {
      match event {
        case Down(x, y) =>
          actionDownXValue := x;
          actionDownYValue := y;
          var minSelectorTouchFieldContainsTouch := isInMinField(actionDownXValue, actionDownYValue);
          var maxSelectorTouchFieldContainsTouch := isInMaxField(actionDownXValue, actionDownYValue);
          if minSelectorTouchFieldContainsTouch && maxSelectorTouchFieldContainsTouch {
            bothSelectorsSelected := true;
          } else if minSelectorTouchFieldContainsTouch {
            minSelectorSelected := true;
          } else if maxSelectorTouchFieldContainsTouch {
            maxSelectorSelected := true;
          }
        case Move(x) =>
          actionMoveXValue := x;
          if bothSelectorsSelected {
            if actionMoveXValue < actionDownXValue {
              bothSelectorsSelected := false;
              minSelectorSelected := true;
            } else if actionMoveXValue > actionDownXValue {
              bothSelectorsSelected := false;
              maxSelectorSelected := true;
            }
          }
        case _ =>
          bothSelectorsSelected := false;
          minSelectorSelected := false;
          maxSelectorSelected := false;
      }
    }

    /** A drag of the min selector to x, then both values from the positions. */
    method DragMinSelector(x: real)
      requires Valid() && pointsData.Some? && graphLeft != graphRight
      modifies this`minSelectorXPosition, this`minSelectorValue, this`maxSelectorValue, this`valueChanges
      ensures minSelectorXPosition == MinDrag(x, graphLeft, maxSelectorXPosition)
      ensures ValuesAtSelectors()
      ensures valueChanges == old(valueChanges) + (if listenersEnabled then [LaGrangeView.MinValueChanged(minSelectorValue),
                                                                             LaGrangeView.MaxValueChanged(maxSelectorValue)] else [])
      ensures old(Ordered(graphLeft, minSelectorXPosition, maxSelectorXPosition, graphRight)) ==>
        Ordered(graphLeft, minSelectorXPosition, maxSelectorXPosition, graphRight)
    {
      minSelectorXPosition := MinDrag(x, graphLeft, maxSelectorXPosition);
      UpdateSelectorValues();
    }

    /** A drag of the max selector to x, then both values from the positions. */
    method DragMaxSelector(x: real)
      requires Valid() && pointsData.Some? && graphLeft != graphRight
      modifies this`maxSelectorXPosition, this`minSelectorValue, this`maxSelectorValue, this`valueChanges
      ensures maxSelectorXPosition == MaxDrag(x, minSelectorXPosition, graphRight)
      ensures ValuesAtSelectors()
      ensures valueChanges == old(valueChanges) + (if listenersEnabled then [LaGrangeView.MinValueChanged(minSelectorValue),
                                                                             LaGrangeView.MaxValueChanged(maxSelectorValue)] else [])
      ensures old(Ordered(graphLeft, minSelectorXPosition, maxSelectorXPosition, graphRight)) ==>
        Ordered(graphLeft, minSelectorXPosition, maxSelectorXPosition, graphRight)
    {
      maxSelectorXPosition := MaxDrag(x, minSelectorXPosition, graphRight);
      UpdateSelectorValues();
    }

    /**
     * onTouchEvent: without data the event is not handled; with data the
     * flags change as in the two-selector handler, the selected selector
     * (the min one first) follows the finger, both values are assigned from
     * the positions, and the event is handled. A release always clears the
     * flags, so no drag is reached for a release or a cancel.
     */
    method OnTouchEvent(event: Touch.MotionEvent, isInMinField: (real, real) -> bool, isInMaxField: (real, real) -> bool)
      returns (handled: bool)
      requires Valid() && (pointsData.Some? ==> graphLeft != graphRight)
      modifies this`actionDownXValue, this`actionDownYValue, this`actionMoveXValue,
               this`minSelectorSelected, this`maxSelectorSelected, this`bothSelectorsSelected,
               this`minSelectorValue, this`maxSelectorValue, this`valueChanges,
               this`minSelectorXPosition, this`maxSelectorXPosition
      ensures handled == old(pointsData).Some?
      ensures !handled ==> unchanged(this)
      ensures Valid() && pointsData == old(pointsData) && listenersEnabled == old(listenersEnabled)
      ensures graphLeft == old(graphLeft) && graphRight == old(graphRight)
      ensures handled ==>
        var hits := if event.Down? then (isInMinField(event.x, event.y), isInMaxField(event.x, event.y)) else (false, false);
        State() == Touch.LaGrangeStep(old(State()), event, hits.0, hits.1)
      ensures handled ==>
        var fired := Touch.LaGrangeFired(State(), event);
        (fired == [] ==>
           minSelectorXPosition == old(minSelectorXPosition) && maxSelectorXPosition == old(maxSelectorXPosition)
           && minSelectorValue == old(minSelectorValue) && maxSelectorValue == old(maxSelectorValue)
           && valueChanges == old(valueChanges))
        && (fired != [] ==>
              ValuesAtSelectors()
              && valueChanges == old(valueChanges) + (if listenersEnabled then [LaGrangeView.MinValueChanged(minSelectorValue),
                                                                                LaGrangeView.MaxValueChanged(maxSelectorValue)] else []))
        && (forall x :: fired == [Touch.MinSelectorChanged(x)] ==>
              minSelectorXPosition == MinDrag(x, graphLeft, old(maxSelectorXPosition))
              && maxSelectorXPosition == old(maxSelectorXPosition))
        && (forall x :: fired == [Touch.MaxSelectorChanged(x)] ==>
              maxSelectorXPosition == MaxDrag(x, old(minSelectorXPosition), graphRight)
              && minSelectorXPosition == old(minSelectorXPosition))
      ensures old(Ordered(graphLeft, minSelectorXPosition, maxSelectorXPosition, graphRight)) ==>
        Ordered(graphLeft, minSelectorXPosition, maxSelectorXPosition, graphRight)
      ensures old(ValuesAtSelectors()) ==> ValuesAtSelectors()
    {
      if pointsData.None? {
        return false;
      }
      TrackSelectors(event, isInMinField, isInMaxField);
      FollowFinger(event);
      return true;
    }

    /**
     * The drag part of handleTouchEvent, after the flags have changed: the
     * selected selector, the min one first, follows the finger; a release
     * or cancel moves nothing.
     */
    method FollowFinger(event: Touch.MotionEvent)
      requires Valid() && pointsData.Some? && graphLeft != graphRight
      modifies this`minSelectorXPosition, this`maxSelectorXPosition, this`minSelectorValue, this`maxSelectorValue,
               this`valueChanges
      ensures var fired := Touch.LaGrangeFired(State(), event);
        (fired == [] ==>
           minSelectorXPosition == old(minSelectorXPosition) && maxSelectorXPosition == old(maxSelectorXPosition)
           && minSelectorValue == old(minSelectorValue) && maxSelectorValue == old(maxSelectorValue)
           && valueChanges == old(valueChanges))
        && (fired != [] ==>
              ValuesAtSelectors()
              && valueChanges == old(valueChanges) + (if listenersEnabled then [LaGrangeView.MinValueChanged(minSelectorValue),
                                                                                LaGrangeView.MaxValueChanged(maxSelectorValue)] else []))
        && (forall x :: fired == [Touch.MinSelectorChanged(x)] ==>
              minSelectorXPosition == MinDrag(x, graphLeft, old(maxSelectorXPosition))
              && maxSelectorXPosition == old(maxSelectorXPosition))
        && (forall x :: fired == [Touch.MaxSelectorChanged(x)] ==>
              maxSelectorXPosition == MaxDrag(x, old(minSelectorXPosition), graphRight)
              && minSelectorXPosition == old(minSelectorXPosition))
      ensures old(Ordered(graphLeft, minSelectorXPosition, maxSelectorXPosition, graphRight)) ==>
        Ordered(graphLeft, minSelectorXPosition, maxSelectorXPosition, graphRight)
      ensures old(ValuesAtSelectors()) ==> ValuesAtSelectors()
    {
      if minSelectorSelected && !(event.Up? || event.Cancel?) {
        DragMinSelector(event.x);
      } else if maxSelectorSelected && !(event.Up? || event.Cancel?) {
        DragMaxSelector(event.x);
      }
    }

    /**
     * onRestoreInstanceState with a saved state, as written: listeners off,
     * the saved data and values assigned, refreshGraphValues, listeners on.
     * With saved data the refresh resets the values (RestoredSelectorValues).
     */
    method OnRestoreInstanceState(savedPointsData: Option<GraphData.PointsData>,
                                  savedMinSelectorValue: real, savedMaxSelectorValue: real)
      requires Valid()
      requires savedPointsData.Some? ==> Drawable(savedPointsData.value)
      modifies this`listenersEnabled, this`pointsData, this`minSelectorValue, this`maxSelectorValue, this`valueChanges,
               this`minSelectorXPosition, this`maxSelectorXPosition, numbers, graphPath
      ensures Valid() && SelectorsAtValues() && NumbersAtData() && PathAtData()
      ensures pointsData == savedPointsData && listenersEnabled && valueChanges == old(valueChanges)
      ensures (minSelectorValue, maxSelectorValue)
              == RestoredSelectorValues(savedPointsData, savedMinSelectorValue, savedMaxSelectorValue)
    {
      TakeSavedState(savedPointsData, savedMinSelectorValue, savedMaxSelectorValue);
      RefreshGraphValues();
      listenersEnabled := true;
    }

    /** The first half of both restores: the saved fields come back with the listeners off. */
    method TakeSavedState(savedPointsData: Option<GraphData.PointsData>,
                          savedMinSelectorValue: real, savedMaxSelectorValue: real)
      requires Valid() && (savedPointsData.Some? ==> Drawable(savedPointsData.value))
      modifies this`listenersEnabled, this`pointsData, this`minSelectorValue, this`maxSelectorValue, this`valueChanges
      ensures Valid() && !listenersEnabled && pointsData == savedPointsData && valueChanges == old(valueChanges)
      ensures minSelectorValue == savedMinSelectorValue && maxSelectorValue == savedMaxSelectorValue
    {
      listenersEnabled := false;
      pointsData := savedPointsData;
      AssignSelectorValues(savedMinSelectorValue, savedMaxSelectorValue);
    }

    /**
     * onRestoreInstanceState as evidently intended: the saved values come
     * back with the saved data, the numbers and the path are refreshed and
     * the selectors drawn at the saved values, without any listener call.
     */
    method OnRestoreInstanceStateKeepingValues(savedPointsData: Option<GraphData.PointsData>,
                                               savedMinSelectorValue: real, savedMaxSelectorValue: real)
      requires Valid()
      requires savedPointsData.Some? ==> Drawable(savedPointsData.value)
      modifies this`listenersEnabled, this`pointsData, this`minSelectorValue, this`maxSelectorValue, this`valueChanges,
               this`minSelectorXPosition, this`maxSelectorXPosition, numbers, graphPath
      ensures Valid() && SelectorsAtValues() && NumbersAtData() && PathAtData()
      ensures pointsData == savedPointsData && listenersEnabled && valueChanges == old(valueChanges)
      ensures minSelectorValue == savedMinSelectorValue && maxSelectorValue == savedMaxSelectorValue
    {
      TakeSavedState(savedPointsData, savedMinSelectorValue, savedMaxSelectorValue);
      if pointsData.Some? {
        RefreshDataShapes();
        RefreshSelectorsPositions();
      }
      listenersEnabled := true;
    }
  }
}
