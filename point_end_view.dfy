// The end picker of pointgraph/GraphEnd.kt: the same one-selector picker as
// GraphEndView, drawing the data as a filled spline path. Unlike that view
// it regenerates the spline path whenever the data or the size changes,
// and it handles every touch event while it has data. The path is the
// command log of a Paths.GraphPath, filled with the same reset, moveTo,
// lineTo and cubicTo calls. The selector shapes are represented by the
// selector's centre; an animated selector move by the position it animates to.

module PointGraphEndView {
  import opened Geometry
  import GraphData
  import Touch
  import opened Selectors
  import Paths
  import BezierSpline
  import opened GraphEndView

  /**
   * getGraphPointsFromPointsData: every data point moved to its view
   * position, x by the value-to-centre transform and y by the y transform.
   */
  function GraphKnots(pd: GraphData.PointsData, graphMinX: real, graphMaxX: real, graphTopY: real, lineY: real)
    : (knots: seq<Point>)
    requires pd.xRange != 0.0 && pd.maxY != pd.minY
    ensures |knots| == |pd.points|
  {
    seq(|pd.points|, i requires 0 <= i < |pd.points| =>
      Point(XPositionFromValue(pd.points[i].x, graphMinX, graphMaxX, pd.minX, pd.xRange),
            YPositionFromValue(pd.points[i].y, graphTopY, lineY, pd.minY, pd.maxY)))
  }

  /**
   * The view's knots are the graph points of the point graph in the box
   * from the x axis line up to the graph top: x onto [graphMinX, graphMaxX],
   * 0 onto the line and maxY onto the top.
   */
  lemma GraphKnotsAreGraphPoints(pd: GraphData.PointsData, graphMinX: real, graphMaxX: real, graphTopY: real, lineY: real)
    requires Drawable(pd)
    ensures GraphKnots(pd, graphMinX, graphMaxX, graphTopY, lineY) == Paths.GraphPoints(pd, graphMinX, lineY, graphMaxX, graphTopY)
  {
    var a := GraphKnots(pd, graphMinX, graphMaxX, graphTopY, lineY);
    var b := Paths.GraphPoints(pd, graphMinX, lineY, graphMaxX, graphTopY);
    forall i | 0 <= i < |pd.points|
      ensures a[i] == b[i]
    {
      if graphMinX != graphMaxX {
        XTransformsAreAffine(pd.points[i].x, graphMinX, graphMaxX, pd.minX, pd.maxX);
      } else {
        assert a[i].x == graphMinX;
        AffineEndpoints(pd.minX, pd.maxX, graphMinX, graphMaxX);
        assert b[i].x == graphMinX;
      }
      YTransformIsAffine(pd.points[i].y, graphTopY, lineY, pd.minY, pd.maxY);
    }
  }

  class GraphEnd {
    const graphTopPositionFromTop: real
    const lineYPositionFromBottom: real
    const xAxisLeftRightPadding: real
    const splineGraphPath: Paths.GraphPath

    var graphTopYPosition: real
    var lineYPosition: real
    var graphMinXPosition: real
    var graphMaxXPosition: real

    var actionDownXValue: real
    var actionDownYValue: real
    var selectorSelected: bool

    /** The centre of the selector. */
    var selectorXPosition: real

    var pointsData: Option<GraphData.PointsData>
    var listenersEnabled: bool
    var selectorValue: real
    /** The SelectorListener calls made so far, in order. */
    var calls: seq<SelectorCall>

    /** The touch state, as the one-selector handler holds it. */
    function State(): Touch.GraphEndState
      reads this`actionDownXValue, this`actionDownYValue, this`selectorSelected
    {
      Touch.GraphEndState(actionDownXValue, actionDownYValue, selectorSelected)
    }

    /** The data, when present, can be laid out: both transforms divide by its spans. */
    ghost predicate Valid()
      reads this`pointsData
    {
      pointsData.Some? ==> Drawable(pointsData.value)
    }

    /** The selector is drawn at the position of its value. */
    ghost predicate SelectorAtValue()
      reads this`pointsData, this`selectorXPosition, this`selectorValue, this`graphMinXPosition, this`graphMaxXPosition
      requires Valid()
    {
      pointsData.Some? ==>
        selectorXPosition == XPositionFromValue(selectorValue, graphMinXPosition, graphMaxXPosition,
                                                pointsData.value.minX, pointsData.value.xRange)
    }

    /** The value is the value of the selector's position. */
    ghost predicate ValueAtSelector()
      reads this`pointsData, this`selectorXPosition, this`selectorValue, this`graphMinXPosition, this`graphMaxXPosition
      requires Valid()
    {
      pointsData.Some? && graphMinXPosition != graphMaxXPosition ==>
        selectorValue == XValueFromPosition(selectorXPosition, graphMinXPosition, graphMaxXPosition,
                                            pointsData.value.minX, pointsData.value.xRange)
    }

    /** The spline path holds the data's spline in the current graph box. */
    ghost predicate PathAtData()
      reads this`pointsData, this`graphMinXPosition, this`graphMaxXPosition, this`graphTopYPosition, this`lineYPosition,
            splineGraphPath`commands
      requires Valid()
    {
      pointsData.Some? ==>
        var knots := Paths.GraphPoints(pointsData.value, graphMinXPosition, lineYPosition, graphMaxXPosition, graphTopYPosition);
        |knots| >= 2
        && splineGraphPath.commands == Paths.SplinePath(knots, BezierSpline.CurveControlPoints(knots),
                                                        graphMinXPosition, lineYPosition, graphMaxXPosition)
    }

    constructor (graphTopPositionFromTop: real, lineYPositionFromBottom: real, xAxisLeftRightPadding: real)
      ensures this.graphTopPositionFromTop == graphTopPositionFromTop
      ensures this.lineYPositionFromBottom == lineYPositionFromBottom
      ensures this.xAxisLeftRightPadding == xAxisLeftRightPadding
      ensures fresh(splineGraphPath) && splineGraphPath.commands == []
      ensures State() == Touch.GraphEndState(0.0, 0.0, false)
      ensures pointsData == None && listenersEnabled && selectorValue == 0.0 && calls == []
      ensures Valid()
    {
      this.graphTopPositionFromTop := graphTopPositionFromTop;
      this.lineYPositionFromBottom := lineYPositionFromBottom;
      this.xAxisLeftRightPadding := xAxisLeftRightPadding;
      splineGraphPath := new Paths.GraphPath();
      graphTopYPosition, lineYPosition, graphMinXPosition, graphMaxXPosition := 0.0, 0.0, 0.0, 0.0;
      actionDownXValue, actionDownYValue, selectorSelected := 0.0, 0.0, false;
      selectorXPosition := 0.0;
      pointsData := None;
      listenersEnabled := true;
      selectorValue := 0.0;
      calls := [];
    }

    /** The observable selectorValue: every assignment is reported while listeners are enabled. */
    method AssignSelectorValue(value: real)
      modifies this`selectorValue, this`calls
      ensures selectorValue == value
      ensures calls == old(calls) + (if listenersEnabled then [OnValueChanged(value)] else [])
    {
      selectorValue := value;
      if listenersEnabled {
        calls := calls + [OnValueChanged(value)];
      }
    }

    /** refreshSelectorPosition: the selector moves to the position of its value. */
    method RefreshSelectorPosition()
      requires Valid() && pointsData.Some?
      modifies this`selectorXPosition
      ensures SelectorAtValue()
    {
      var pd := pointsData.value;
      selectorXPosition := XPositionFromValue(selectorValue, graphMinXPosition, graphMaxXPosition, pd.minX, pd.xRange);
    }

    /**
     * generateSplineGraphPath: the knots are the data points at their view
     * positions, and the path is reset and refilled with the spline through
     * them, closed along the x axis line.
     */
    method GenerateSplineGraphPath()
      requires Valid() && pointsData.Some?
      modifies splineGraphPath`commands
      ensures PathAtData()
    {
      var pd := pointsData.value;
      var knotsArr := GraphKnots(pd, graphMinXPosition, graphMaxXPosition, graphTopYPosition, lineYPosition);
      GraphKnotsAreGraphPoints(pd, graphMinXPosition, graphMaxXPosition, graphTopYPosition, lineYPosition);
      Paths.GraphPointsBounds(pd, graphMinXPosition, lineYPosition, graphMaxXPosition, graphTopYPosition);
      var cps := BezierSpline.GetCurveControlPoints(knotsArr);
      splineGraphPath.IssueSplinePath(knotsArr, cps.value, graphMinXPosition, lineYPosition, graphMaxXPosition);
    }

    /** refreshGraphValues(pointsData, selectorValue): the data, the value (reported), the path and the selector. */
    method RefreshGraphValuesWith(pd: GraphData.PointsData, value: real)
      requires Drawable(pd)
      modifies this`pointsData, this`selectorValue, this`calls, this`selectorXPosition, splineGraphPath`commands
      ensures pointsData == Some(pd) && selectorValue == value && Valid() && SelectorAtValue() && PathAtData()
      ensures calls == old(calls) + (if listenersEnabled then [OnValueChanged(value)] else [])
    {
      pointsData := Some(pd);
      AssignSelectorValue(value);
      GenerateSplineGraphPath();
      RefreshSelectorPosition();
    }

    /** refreshGraphValues(newPointsData): new data starts with the selector at its smallest x. */
    method RefreshGraphValues(newPointsData: Option<GraphData.PointsData>)
      requires newPointsData.Some? ==> Drawable(newPointsData.value)
      modifies this`pointsData, this`selectorValue, this`calls, this`selectorXPosition, splineGraphPath`commands
      ensures pointsData == newPointsData && Valid() && SelectorAtValue() && PathAtData()
      ensures newPointsData.Some? ==>
        selectorValue == newPointsData.value.minX
        && calls == old(calls) + (if listenersEnabled then [OnValueChanged(newPointsData.value.minX)] else [])
      ensures newPointsData.None? ==>
        selectorValue == old(selectorValue) && calls == old(calls) && selectorXPosition == old(selectorXPosition)
        && splineGraphPath.commands == old(splineGraphPath.commands)
    {
      pointsData := newPointsData;
      if newPointsData.Some? {
        RefreshGraphValuesWith(newPointsData.value, newPointsData.value.minX);
      }
    }

    /** setPointsData: the new data, value and path (the scale animation is not modelled). */
    method SetPointsData(pointsData: Option<GraphData.PointsData>)
      requires pointsData.Some? ==> Drawable(pointsData.value)
      modifies this`pointsData, this`selectorValue, this`calls, this`selectorXPosition, splineGraphPath`commands
      ensures this.pointsData == pointsData && Valid() && SelectorAtValue() && PathAtData()
      ensures pointsData.Some? ==>
        selectorValue == pointsData.value.minX
        && calls == old(calls) + (if listenersEnabled then [OnValueChanged(pointsData.value.minX)] else [])
      ensures pointsData.None? ==> selectorValue == old(selectorValue) && calls == old(calls)
      ensures State() == old(State()) && listenersEnabled == old(listenersEnabled)
      ensures graphMinXPosition == old(graphMinXPosition) && graphMaxXPosition == old(graphMaxXPosition)
      ensures graphTopYPosition == old(graphTopYPosition) && lineYPosition == old(lineYPosition)
    {
      RefreshGraphValues(pointsData);
    }

    /**
     * setSelectorValue: ignored while the selector is held and without
     * data; otherwise null means the smallest x, the value is clamped into
     * the data range, assigned (reported) and the selector moves there.
     */
    method SetSelectorValue(value: Option<real>)
      requires Valid()
      modifies this`selectorValue, this`calls, this`selectorXPosition
      ensures Valid() && State() == old(State()) && listenersEnabled == old(listenersEnabled)
      ensures graphTopYPosition == old(graphTopYPosition) && lineYPosition == old(lineYPosition)
      ensures graphMinXPosition == old(graphMinXPosition) && graphMaxXPosition == old(graphMaxXPosition)
      ensures old(selectorSelected) || old(pointsData).None? ==> unchanged(this)
      ensures !old(selectorSelected) && old(pointsData).Some? ==>
        var pd := old(pointsData).value;
        var v := NormalizeValue(value, pd.minX, pd.maxX);
        pointsData == old(pointsData) && selectorValue == v
        && calls == old(calls) + (if listenersEnabled then [OnValueChanged(v)] else [])
        && SelectorAtValue() && ValueAtSelector()
        && (pd.minX < pd.maxX && graphMinXPosition < graphMaxXPosition ==>
              graphMinXPosition <= selectorXPosition <= graphMaxXPosition)
    {
      if selectorSelected {
        return;
      }
      if pointsData.None? {
        return;
      }
      var pd := pointsData.value;
      var v := NormalizeValue(value, pd.minX, pd.maxX);
      AssignSelectorValue(v);
      selectorXPosition := XPositionFromValue(v, graphMinXPosition, graphMaxXPosition, pd.minX, pd.xRange);
      if graphMinXPosition != graphMaxXPosition {
        XTransformsInverse(v, graphMinXPosition, graphMaxXPosition, pd.minX, pd.maxX);
        if pd.minX < pd.maxX && graphMinXPosition < graphMaxXPosition {
          XTransformsAreAffine(v, graphMinXPosition, graphMaxXPosition, pd.minX, pd.maxX);
          AffineInRange(v, pd.minX, pd.maxX, graphMinXPosition, graphMaxXPosition);
        }
      }
    }

    /**
     * onSizeChanged: the x axis and the graph lines follow the new size and
     * padding, and with data the path is regenerated and the selector is
     * redrawn at its value.
     */
    method OnSizeChanged(w: int, h: int, paddingLeft: int, paddingTop: int, paddingRight: int, paddingBottom: int)
      requires Valid()
      modifies this`graphTopYPosition, this`lineYPosition, this`graphMinXPosition, this`graphMaxXPosition,
               this`selectorXPosition, splineGraphPath`commands
      ensures Valid() && SelectorAtValue() && PathAtData()
      ensures graphTopYPosition == paddingTop as real + graphTopPositionFromTop
      ensures lineYPosition == (h - paddingBottom) as real - lineYPositionFromBottom
      ensures graphMinXPosition == paddingLeft as real + xAxisLeftRightPadding
      ensures graphMaxXPosition == (w - paddingRight) as real - xAxisLeftRightPadding
      ensures pointsData == old(pointsData) && selectorValue == old(selectorValue) && calls == old(calls)
      ensures State() == old(State()) && listenersEnabled == old(listenersEnabled)
      ensures pointsData.None? ==> selectorXPosition == old(selectorXPosition)
    {
      var viewStartX, viewEndX := paddingLeft as real, (w - paddingRight) as real;
      var viewStartY, viewEndY := paddingTop as real, (h - paddingBottom) as real;
      graphTopYPosition := viewStartY + graphTopPositionFromTop;
      lineYPosition := viewEndY - lineYPositionFromBottom;
      graphMinXPosition := viewStartX + xAxisLeftRightPadding;
      graphMaxXPosition := viewEndX - xAxisLeftRightPadding;
      if pointsData.Some? {
        GenerateSplineGraphPath();
        RefreshSelectorPosition();
      }
    }

    /**
     * onTouchEvent: without data nothing happens and the event is not
     * handled. With data the flags change as in the one-selector handler
     * (isInSelectorTouchField is the touch field's hit test at the press
     * point); a press and a release are reported; while selected, the
     * selector follows the finger clamped into the graph and its value is
     * assigned. Every event is handled while there is data. A release
     * always clears the flag, so the drag is never reached for a release
     * or a cancel.
     */
    method OnTouchEvent(event: Touch.MotionEvent, isInSelectorTouchField: (real, real) -> bool) returns (handled: bool)
      requires Valid() && (pointsData.Some? ==> graphMinXPosition != graphMaxXPosition)
      modifies this`actionDownXValue, this`actionDownYValue, this`selectorSelected, this`calls,
               this`selectorXPosition, this`selectorValue
      ensures Valid() && pointsData == old(pointsData) && listenersEnabled == old(listenersEnabled)
      ensures graphMinXPosition == old(graphMinXPosition) && graphMaxXPosition == old(graphMaxXPosition)
      ensures graphTopYPosition == old(graphTopYPosition) && lineYPosition == old(lineYPosition)
      ensures splineGraphPath.commands == old(splineGraphPath.commands)
      ensures handled == old(pointsData).Some?
      ensures old(pointsData).None? ==> unchanged(this)
      ensures old(pointsData).Some? ==>
        var hit := event.Down? && isInSelectorTouchField(event.x, event.y);
        State() == Touch.GraphEndStep(old(State()), event, hit).0
        && calls == old(calls) + ListenerCalls(Touch.GraphEndStep(old(State()), event, hit).1, selectorValue, listenersEnabled)
      ensures old(pointsData).Some? && selectorSelected ==>
        selectorXPosition == Clamp(event.x, graphMinXPosition, graphMaxXPosition)
        && selectorValue == XValueFromPosition(selectorXPosition, graphMinXPosition, graphMaxXPosition,
                                               pointsData.value.minX, pointsData.value.xRange)
      ensures !selectorSelected ==>
        selectorXPosition == old(selectorXPosition) && selectorValue == old(selectorValue)
      ensures graphMinXPosition < graphMaxXPosition ==>
        (old(graphMinXPosition <= selectorXPosition <= graphMaxXPosition) ==>
           graphMinXPosition <= selectorXPosition <= graphMaxXPosition)
      ensures old(ValueAtSelector()) ==> ValueAtSelector()
    {
      if pointsData.None? {
        return false;
      }
      ghost var hit := event.Down? && isInSelectorTouchField(event.x, event.y);
      ghost var before := State();
      ghost var pressed := if hit then [OnSelectorPressed] else [];
      ghost var released := if (event.Up? || event.Cancel?) && before.selectorSelected then [OnSelectorReleased] else [];
      TrackSelection(event, isInSelectorTouchField);
      FollowFinger(event);
      handled := true;
      ghost var changed := if selectorSelected && listenersEnabled then [OnValueChanged(selectorValue)] else [];
      ListenerCallsOfStep(before, event, hit, selectorValue, listenersEnabled);
      assert calls == old(calls) + (pressed + released + changed);
    }

    /**
     * The drag part of onTouchEvent: a selected selector follows the finger
     * clamped into the graph and takes the value of its new position.
     */
    method FollowFinger(event: Touch.MotionEvent)
      requires Valid() && pointsData.Some? && graphMinXPosition != graphMaxXPosition
      requires (event.Up? || event.Cancel?) ==> !selectorSelected
      modifies this`selectorXPosition, this`selectorValue, this`calls
      ensures selectorSelected ==>
        selectorXPosition == Clamp(event.x, graphMinXPosition, graphMaxXPosition)
        && selectorValue == XValueFromPosition(selectorXPosition, graphMinXPosition, graphMaxXPosition,
                                               pointsData.value.minX, pointsData.value.xRange)
      ensures !selectorSelected ==> selectorXPosition == old(selectorXPosition) && selectorValue == old(selectorValue)
      ensures calls == old(calls) + (if selectorSelected && listenersEnabled then [OnValueChanged(selectorValue)] else [])
      ensures graphMinXPosition < graphMaxXPosition ==>
        (old(graphMinXPosition <= selectorXPosition <= graphMaxXPosition) ==>
           graphMinXPosition <= selectorXPosition <= graphMaxXPosition)
      ensures old(ValueAtSelector()) ==> ValueAtSelector()
    {
      if selectorSelected && !(event.Up? || event.Cancel?) {
        var pd := pointsData.value;
        var newXPosition := Clamp(event.x, graphMinXPosition, graphMaxXPosition);
        selectorXPosition := newXPosition;
        AssignSelectorValue(XValueFromPosition(selectorXPosition, graphMinXPosition, graphMaxXPosition, pd.minX, pd.xRange));
      }
    }

    /**
     * The flag part of onTouchEvent: a press records its point and selects
     * the selector when it lands in the touch field (reported); a release
     * or a cancel of a selected selector releases it (reported).
     */
    method TrackSelection(event: Touch.MotionEvent, isInSelectorTouchField: (real, real) -> bool)
      modifies this`actionDownXValue, this`actionDownYValue, this`selectorSelected, this`calls
      ensures var hit := event.Down? && isInSelectorTouchField(event.x, event.y);
        State() == Touch.GraphEndStep(old(State()), event, hit).0
        && calls == old(calls) + (if hit then [OnSelectorPressed] else [])
                   + (if (event.Up? || event.Cancel?) && old(selectorSelected) then [OnSelectorReleased] else [])
      ensures (event.Up? || event.Cancel?) ==> !selectorSelected
    {
      match event {
        case Down(x, y) =>
          actionDownXValue := x;
          actionDownYValue := y;
          if isInSelectorTouchField(actionDownXValue, actionDownYValue) {
            selectorSelected := true;
            calls := calls + [OnSelectorPressed];
          }
        case Move(_) =>
        case _ =>
          if selectorSelected {
            selectorSelected := false;
            calls := calls + [OnSelectorReleased];
          }
      }
    }

    /**
     * onRestoreInstanceState with a saved state: the saved data and value
     * come back without any listener call, and the listeners are enabled
     * again.
     */
    method OnRestoreInstanceState(savedPointsData: Option<GraphData.PointsData>, savedSelectorValue: real)
      requires savedPointsData.Some? ==> Drawable(savedPointsData.value)
      modifies this`listenersEnabled, this`pointsData, this`selectorValue, this`calls, this`selectorXPosition,
               splineGraphPath`commands
      ensures Valid() && SelectorAtValue() && PathAtData()
      ensures pointsData == savedPointsData && listenersEnabled && calls == old(calls)
      ensures savedPointsData.Some? ==> selectorValue == savedSelectorValue
      ensures savedPointsData.None? ==>
        selectorValue == old(selectorValue) && selectorXPosition == old(selectorXPosition)
        && splineGraphPath.commands == old(splineGraphPath.commands)
      ensures State() == old(State())
      ensures graphMinXPosition == old(graphMinXPosition) && graphMaxXPosition == old(graphMaxXPosition)
      ensures graphTopYPosition == old(graphTopYPosition) && lineYPosition == old(lineYPosition)
    {
      listenersEnabled := false;
      if savedPointsData.Some? {
        RefreshGraphValuesWith(savedPointsData.value, savedSelectorValue);
      } else {
        RefreshGraphValues(savedPointsData);
      }
      listenersEnabled := true;
    }
  }
}
