// The end picker of pointgraph/graphend/GraphEnd.kt: one selector over the
// graph of a PointsData, dragged inside the graph or set from outside, with
// its value kept as an observable field, and a graph that can be shown and
// hidden. The view handles touches itself, with the same flag update as
// the one-selector touch handler (Touch.GraphEndStep). The selector shapes
// are represented by the selector's centre; an animated selector move by
// the position it animates to. The spline path of this view is never
// filled by its own code and is not modelled here.

module GraphEndView {
  import opened Geometry
  import GraphData
  import Touch
  import opened Selectors

  /** A call of the view's SelectorListener. */
  datatype SelectorCall = OnSelectorPressed | OnValueChanged(newValue: real) | OnSelectorReleased

  /**
   * The listener calls of the view for the handler's calls of one event:
   * the press and the release are the same, and where the handler reports
   * a position the view assigns the new value, reported while listeners
   * are enabled.
   */
  function ListenerCalls(events: seq<Touch.SelectorEvent>, newValue: real, listenersEnabled: bool): (calls: seq<SelectorCall>)
    ensures |calls| <= |events|
  {
    if events == [] then []
    else
      var first := match events[0]
        case SelectorPressed => [OnSelectorPressed]
        case SelectorReleased => [OnSelectorReleased]
        case SelectorChanged(_) => if listenersEnabled then [OnValueChanged(newValue)] else [];
      first + ListenerCalls(events[1..], newValue, listenersEnabled)
  }

  /**
   * The view's listener calls for one event of the one-selector machine: a
   * press on a hit, a release of a selected selector, then the new value
   * whenever the selector is selected after the event.
   */
  lemma ListenerCallsOfStep(s: Touch.GraphEndState, e: Touch.MotionEvent, hit: bool, newValue: real, listenersEnabled: bool)
    ensures var (t, events) := Touch.GraphEndStep(s, e, hit);
      ListenerCalls(events, newValue, listenersEnabled)
      == (if e.Down? && hit then [OnSelectorPressed] else [])
         + (if (e.Up? || e.Cancel?) && s.selectorSelected then [OnSelectorReleased] else [])
         + (if t.selectorSelected && !(e.Up? || e.Cancel?) && listenersEnabled then [OnValueChanged(newValue)] else [])
  {
    Touch.GraphEndStepCalls(s, e, hit);
    var (t, events) := Touch.GraphEndStep(s, e, hit);
    var changed := if listenersEnabled then [OnValueChanged(newValue)] else [];
    if e.Down? && hit {
      assert events == [Touch.SelectorPressed, Touch.SelectorChanged(e.x)];
      assert events[1..][1..] == [];
      assert ListenerCalls(events, newValue, listenersEnabled) == [OnSelectorPressed] + changed;
    } else if events != [] {
      assert |events| == 1;
      assert events[1..] == [];
    }
  }

  class GraphEnd {
    const graphTopPositionFromTop: real
    const lineYPositionFromBottom: real
    const xAxisLeftRightPadding: real

    var graphIsShown: bool
    var graphTopYPosition: real
    var lineYPosition: real
    var graphMinXPosition: real
    var graphMaxXPosition: real

    var actionDownXValue: real
    var actionDownYValue: real
    var selectorSelected: bool

    /** The centre of the selector. */
    var selectorXPosition: real

    var pointsData: Option<GraphData.PointsData>
    var listenersEnabled: bool
    var selectorValue: real
    /** The SelectorListener calls made so far, in order. */
    var calls: seq<SelectorCall>

    /** The touch state, as the one-selector handler holds it. */
    function State(): Touch.GraphEndState
      reads this`actionDownXValue, this`actionDownYValue, this`selectorSelected
    {
      Touch.GraphEndState(actionDownXValue, actionDownYValue, selectorSelected)
    }

    /** The data, when present, is valid and has an x span the transforms can divide by. */
    ghost predicate Valid()
      reads this`pointsData
    {
      pointsData.Some? ==> GraphData.ValidPointsData(pointsData.value) && pointsData.value.minX != pointsData.value.maxX
    }

    /** The selector is drawn at the position of its value. */
    ghost predicate SelectorAtValue()
      reads this`pointsData, this`selectorXPosition, this`selectorValue, this`graphMinXPosition, this`graphMaxXPosition
      requires Valid()
    {
      pointsData.Some? ==>
        selectorXPosition == XPositionFromValue(selectorValue, graphMinXPosition, graphMaxXPosition,
                                                pointsData.value.minX, pointsData.value.xRange)
    }

    /** The value is the value of the selector's position. */
    ghost predicate ValueAtSelector()
      reads this`pointsData, this`selectorXPosition, this`selectorValue, this`graphMinXPosition, this`graphMaxXPosition
      requires Valid()
    {
      pointsData.Some? && graphMinXPosition != graphMaxXPosition ==>
        selectorValue == XValueFromPosition(selectorXPosition, graphMinXPosition, graphMaxXPosition,
                                            pointsData.value.minX, pointsData.value.xRange)
    }

    constructor (graphTopPositionFromTop: real, lineYPositionFromBottom: real, xAxisLeftRightPadding: real)
      ensures this.graphTopPositionFromTop == graphTopPositionFromTop
      ensures this.lineYPositionFromBottom == lineYPositionFromBottom
      ensures this.xAxisLeftRightPadding == xAxisLeftRightPadding
      ensures graphIsShown && State() == Touch.GraphEndState(0.0, 0.0, false)
      ensures pointsData == None && listenersEnabled && selectorValue == 0.0 && calls == []
      ensures Valid()
    {
      this.graphTopPositionFromTop := graphTopPositionFromTop;
      this.lineYPositionFromBottom := lineYPositionFromBottom;
      this.xAxisLeftRightPadding := xAxisLeftRightPadding;
      graphIsShown := true;
      graphTopYPosition, lineYPosition, graphMinXPosition, graphMaxXPosition := 0.0, 0.0, 0.0, 0.0;
      actionDownXValue, actionDownYValue, selectorSelected := 0.0, 0.0, false;
      selectorXPosition := 0.0;
      pointsData := None;
      listenersEnabled := true;
      selectorValue := 0.0;
      calls := [];
    }

    /** The observable selectorValue: every assignment is reported while listeners are enabled. */
    method AssignSelectorValue(value: real)
      modifies this`selectorValue, this`calls
      ensures selectorValue == value
      ensures calls == old(calls) + (if listenersEnabled then [OnValueChanged(value)] else [])
    {
      selectorValue := value;
      if listenersEnabled {
        calls := calls + [OnValueChanged(value)];
      }
    }

    /** refreshSelectorPosition: the selector moves to the position of its value. */
    method RefreshSelectorPosition()
      requires Valid() && pointsData.Some?
      modifies this`selectorXPosition
      ensures SelectorAtValue()
    {
      var pd := pointsData.value;
      selectorXPosition := XPositionFromValue(selectorValue, graphMinXPosition, graphMaxXPosition, pd.minX, pd.xRange);
    }

    /** refreshGraphValues(pointsData, selectorValue): the data, the value (reported) and the selector. */
    method RefreshGraphValuesWith(pd: GraphData.PointsData, value: real)
      requires GraphData.ValidPointsData(pd) && pd.minX != pd.maxX
      modifies this`pointsData, this`selectorValue, this`calls, this`selectorXPosition
      ensures pointsData == Some(pd) && selectorValue == value && Valid() && SelectorAtValue()
      ensures calls == old(calls) + (if listenersEnabled then [OnValueChanged(value)] else [])
    {
      pointsData := Some(pd);
      AssignSelectorValue(value);
      RefreshSelectorPosition();
    }

    /** refreshGraphValues(newPointsData): new data starts with the selector at its smallest x. */
    method RefreshGraphValues(newPointsData: Option<GraphData.PointsData>)
      requires newPointsData.Some? ==> GraphData.ValidPointsData(newPointsData.value) && newPointsData.value.minX != newPointsData.value.maxX
      modifies this`pointsData, this`selectorValue, this`calls, this`selectorXPosition
      ensures pointsData == newPointsData && Valid() && SelectorAtValue()
      ensures newPointsData.Some? ==>
        selectorValue == newPointsData.value.minX
        && calls == old(calls) + (if listenersEnabled then [OnValueChanged(newPointsData.value.minX)] else [])
      ensures newPointsData.None? ==>
        selectorValue == old(selectorValue) && calls == old(calls) && selectorXPosition == old(selectorXPosition)
    {
      pointsData := newPointsData;
      if newPointsData.Some? {
        RefreshGraphValuesWith(newPointsData.value, newPointsData.value.minX);
      }
    }

    /** setPointsData; an animated call also shows the graph. */
    method SetPointsData(pointsData: Option<GraphData.PointsData>, animated: bool)
      requires pointsData.Some? ==> GraphData.ValidPointsData(pointsData.value) && pointsData.value.minX != pointsData.value.maxX
      modifies this`pointsData, this`selectorValue, this`calls, this`selectorXPosition, this`graphIsShown
      ensures this.pointsData == pointsData && Valid() && SelectorAtValue()
      ensures pointsData.Some? ==>
        selectorValue == pointsData.value.minX
        && calls == old(calls) + (if listenersEnabled then [OnValueChanged(pointsData.value.minX)] else [])
      ensures pointsData.None? ==> selectorValue == old(selectorValue) && calls == old(calls)
      ensures graphIsShown == (animated || old(graphIsShown))
      ensures State() == old(State()) && listenersEnabled == old(listenersEnabled)
      ensures graphMinXPosition == old(graphMinXPosition) && graphMaxXPosition == old(graphMaxXPosition)
      ensures graphTopYPosition == old(graphTopYPosition) && lineYPosition == old(lineYPosition)
    {
      RefreshGraphValues(pointsData);
      if animated {
        ShowGraph();
      }
    }

    /**
     * setSelectorValue: ignored while the selector is held and without
     * data; otherwise null means the smallest x, the value is clamped into
     * the data range, assigned (reported) and the selector moves there.
     */
    method SetSelectorValue(value: Option<real>)
      requires Valid()
      modifies this`selectorValue, this`calls, this`selectorXPosition
      ensures Valid() && State() == old(State()) && listenersEnabled == old(listenersEnabled)
      ensures graphIsShown == old(graphIsShown) && graphTopYPosition == old(graphTopYPosition) && lineYPosition == old(lineYPosition)
      ensures graphMinXPosition == old(graphMinXPosition) && graphMaxXPosition == old(graphMaxXPosition)
      ensures old(selectorSelected) || old(pointsData).None? ==> unchanged(this)
      ensures !old(selectorSelected) && old(pointsData).Some? ==>
        var pd := old(pointsData).value;
        var v := NormalizeValue(value, pd.minX, pd.maxX);
        pointsData == old(pointsData) && selectorValue == v
        && calls == old(calls) + (if listenersEnabled then [OnValueChanged(v)] else [])
        && SelectorAtValue() && ValueAtSelector()
        && (pd.minX < pd.maxX && graphMinXPosition < graphMaxXPosition ==>
              graphMinXPosition <= selectorXPosition <= graphMaxXPosition)
    {
      if selectorSelected {
        return;
      }
      if pointsData.None? {
        return;
      }
      var pd := pointsData.value;
      var v := NormalizeValue(value, pd.minX, pd.maxX);
      AssignSelectorValue(v);
      selectorXPosition := XPositionFromValue(v, graphMinXPosition, graphMaxXPosition, pd.minX, pd.xRange);
      if graphMinXPosition != graphMaxXPosition {
        XTransformsInverse(v, graphMinXPosition, graphMaxXPosition, pd.minX, pd.maxX);
        if pd.minX < pd.maxX && graphMinXPosition < graphMaxXPosition {
          XTransformsAreAffine(v, graphMinXPosition, graphMaxXPosition, pd.minX, pd.maxX);
          AffineInRange(v, pd.minX, pd.maxX, graphMinXPosition, graphMaxXPosition);
        }
      }
    }

    /** toggleGraphVisibility: hides a shown graph and shows a hidden one. */
    method ToggleGraphVisibility()
      modifies this`graphIsShown
      ensures graphIsShown == !old(graphIsShown)
    {
      if graphIsShown {
        HideGraph();
      } else {
        ShowGraph();
      }
    }

    /** showGraph: the scale animation runs towards the full graph, and the graph counts as shown. */
    method ShowGraph()
      modifies this`graphIsShown
      ensures graphIsShown
    {
      graphIsShown := true;
    }

    /** hideGraph: the scale animation runs towards a flat graph, and the graph counts as hidden. */
    method HideGraph()
      modifies this`graphIsShown
      ensures !graphIsShown
    {
      graphIsShown := false;
    }

    /**
     * onSizeChanged: the x axis and the graph lines follow the new size and
     * padding, and with data the selector is redrawn at its value.
     */
    method OnSizeChanged(w: int, h: int, paddingLeft: int, paddingTop: int, paddingRight: int, paddingBottom: int)
      requires Valid()
      modifies this`graphTopYPosition, this`lineYPosition, this`graphMinXPosition, this`graphMaxXPosition,
               this`selectorXPosition
      ensures Valid() && SelectorAtValue()
      ensures graphTopYPosition == paddingTop as real + graphTopPositionFromTop
      ensures lineYPosition == (h - paddingBottom) as real - lineYPositionFromBottom
      ensures graphMinXPosition == paddingLeft as real + xAxisLeftRightPadding
      ensures graphMaxXPosition == (w - paddingRight) as real - xAxisLeftRightPadding
      ensures pointsData == old(pointsData) && selectorValue == old(selectorValue) && calls == old(calls)
      ensures State() == old(State()) && graphIsShown == old(graphIsShown) && listenersEnabled == old(listenersEnabled)
      ensures pointsData.None? ==> selectorXPosition == old(selectorXPosition)
    {
      var viewStartX, viewEndX := paddingLeft as real, (w - paddingRight) as real;
      var viewStartY, viewEndY := paddingTop as real, (h - paddingBottom) as real;
      graphTopYPosition := viewStartY + graphTopPositionFromTop;
      lineYPosition := viewEndY - lineYPositionFromBottom;
      graphMinXPosition := viewStartX + xAxisLeftRightPadding;
      graphMaxXPosition := viewEndX - xAxisLeftRightPadding;
      if pointsData.Some? {
        RefreshSelectorPosition();
      }
    }

    /**
     * onTouchEvent: without data nothing happens and the event is not
     * handled. With data the flags change as in the one-selector handler
     * (isInSelectionField is the selection field's hit test at the press
     * point); a press and a release are reported; while selected, the
     * selector follows the finger clamped into the graph and its value is
     * assigned. The event is handled exactly when the selector is selected
     * afterwards. A release always clears the flag, so the drag is never
     * reached for a release or a cancel.
     */
    method OnTouchEvent(event: Touch.MotionEvent, isInSelectionField: (real, real) -> bool) returns (handled: bool)
      requires Valid() && (pointsData.Some? ==> graphMinXPosition != graphMaxXPosition)
      modifies this`actionDownXValue, this`actionDownYValue, this`selectorSelected, this`calls,
               this`selectorXPosition, this`selectorValue
      ensures Valid() && pointsData == old(pointsData) && listenersEnabled == old(listenersEnabled)
      ensures graphMinXPosition == old(graphMinXPosition) && graphMaxXPosition == old(graphMaxXPosition)
      ensures graphTopYPosition == old(graphTopYPosition) && lineYPosition == old(lineYPosition)
      ensures graphIsShown == old(graphIsShown)
      ensures handled == (old(pointsData).Some? && selectorSelected)
      ensures old(pointsData).None? ==> unchanged(this)
      ensures old(pointsData).Some? ==>
        var hit := event.Down? && isInSelectionField(event.x, event.y);
        State() == Touch.GraphEndStep(old(State()), event, hit).0
        && calls == old(calls) + ListenerCalls(Touch.GraphEndStep(old(State()), event, hit).1, selectorValue, listenersEnabled)
      ensures old(pointsData).Some? && selectorSelected ==>
        selectorXPosition == Clamp(event.x, graphMinXPosition, graphMaxXPosition)
        && selectorValue == XValueFromPosition(selectorXPosition, graphMinXPosition, graphMaxXPosition,
                                               pointsData.value.minX, pointsData.value.xRange)
      ensures !selectorSelected ==>
        selectorXPosition == old(selectorXPosition) && selectorValue == old(selectorValue)
      ensures graphMinXPosition < graphMaxXPosition ==>
        (old(graphMinXPosition <= selectorXPosition <= graphMaxXPosition) ==>
           graphMinXPosition <= selectorXPosition <= graphMaxXPosition)
      ensures old(ValueAtSelector()) ==> ValueAtSelector()
    {
      if pointsData.None? {
        return false;
      }
      ghost var hit := event.Down? && isInSelectionField(event.x, event.y);
      ghost var before := State();
      ghost var pressed := if hit then [OnSelectorPressed] else [];
      ghost var released := if (event.Up? || event.Cancel?) && before.selectorSelected then [OnSelectorReleased] else [];
      TrackSelection(event, isInSelectionField);
      handled := FollowFinger(event);
      ghost var changed := if handled && listenersEnabled then [OnValueChanged(selectorValue)] else [];
      ListenerCallsOfStep(before, event, hit, selectorValue, listenersEnabled);
      assert calls == old(calls) + (pressed + released + changed);
    }

    /**
     * The drag part of onTouchEvent: a selected selector follows the finger
     * clamped into the graph and takes the value of its new position.
     */
    method FollowFinger(event: Touch.MotionEvent) returns (handled: bool)
      requires Valid() && pointsData.Some? && graphMinXPosition != graphMaxXPosition
      modifies this`selectorXPosition, this`selectorValue, this`calls
      ensures handled == (selectorSelected && !(event.Up? || event.Cancel?))
      ensures handled ==>
        selectorXPosition == Clamp(event.x, graphMinXPosition, graphMaxXPosition)
        && selectorValue == XValueFromPosition(selectorXPosition, graphMinXPosition, graphMaxXPosition,
                                               pointsData.value.minX, pointsData.value.xRange)
      ensures !handled ==> selectorXPosition == old(selectorXPosition) && selectorValue == old(selectorValue)
      ensures calls == old(calls) + (if handled && listenersEnabled then [OnValueChanged(selectorValue)] else [])
      ensures graphMinXPosition < graphMaxXPosition ==>
        (old(graphMinXPosition <= selectorXPosition <= graphMaxXPosition) ==>
           graphMinXPosition <= selectorXPosition <= graphMaxXPosition)
      ensures old(ValueAtSelector()) ==> ValueAtSelector()
    {
      if selectorSelected && !(event.Up? || event.Cancel?) {
        var pd := pointsData.value;
        var newXPosition := Clamp(event.x, graphMinXPosition, graphMaxXPosition);
        selectorXPosition := newXPosition;
        AssignSelectorValue(XValueFromPosition(selectorXPosition, graphMinXPosition, graphMaxXPosition, pd.minX, pd.xRange));
        handled := true;
      } else {
        handled := false;
      }
    }

    /**
     * The flag part of onTouchEvent: a press records its point and selects
     * the selector when it lands in the selection field (reported); a
     * release or a cancel of a selected selector releases it (reported).
     */
    method TrackSelection(event: Touch.MotionEvent, isInSelectionField: (real, real) -> bool)
      modifies this`actionDownXValue, this`actionDownYValue, this`selectorSelected, this`calls
      ensures var hit := event.Down? && isInSelectionField(event.x, event.y);
        State() == Touch.GraphEndStep(old(State()), event, hit).0
        && calls == old(calls) + (if hit then [OnSelectorPressed] else [])
                   + (if (event.Up? || event.Cancel?) && old(selectorSelected) then [OnSelectorReleased] else [])
      ensures (event.Up? || event.Cancel?) ==> !selectorSelected
    {
      match event {
        case Down(x, y) =>
          actionDownXValue := x;
          actionDownYValue := y;
          if isInSelectionField(actionDownXValue, actionDownYValue) {
            selectorSelected := true;
            calls := calls + [OnSelectorPressed];
          }
        case Move(_) =>
        case _ =>
          if selectorSelected {
            selectorSelected := false;
            calls := calls + [OnSelectorReleased];
          }
      }
    }

    /**
     * onRestoreInstanceState with a saved state: the saved data and value
     * come back without any listener call, and the listeners are enabled
     * again.
     */
    method OnRestoreInstanceState(savedPointsData: Option<GraphData.PointsData>, savedSelectorValue: real)
      requires savedPointsData.Some? ==> GraphData.ValidPointsData(savedPointsData.value) && savedPointsData.value.minX != savedPointsData.value.maxX
      modifies this`listenersEnabled, this`pointsData, this`selectorValue, this`calls, this`selectorXPosition
      ensures Valid() && SelectorAtValue()
      ensures pointsData == savedPointsData && listenersEnabled && calls == old(calls)
      ensures savedPointsData.Some? ==> selectorValue == savedSelectorValue
      ensures savedPointsData.None? ==> selectorValue == old(selectorValue) && selectorXPosition == old(selectorXPosition)
      ensures State() == old(State()) && graphIsShown == old(graphIsShown)
      ensures graphMinXPosition == old(graphMinXPosition) && graphMaxXPosition == old(graphMaxXPosition)
      ensures graphTopYPosition == old(graphTopYPosition) && lineYPosition == old(lineYPosition)
    {
      listenersEnabled := false;
      if savedPointsData.Some? {
        RefreshGraphValuesWith(savedPointsData.value, savedSelectorValue);
      } else {
        RefreshGraphValues(savedPointsData);
      }
      listenersEnabled := true;
    }
  }
}
