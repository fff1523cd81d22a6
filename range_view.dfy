// The range picker of pointgraph/lagrange/LaGrange.kt: two selectors over
// the graph of a PointsData, moved by the touch handler's callbacks or set
// from outside, with the two selector values kept as observable fields.
// The draw objects are represented by the two selector centres; the graph
// shapes they also hold are not part of this model. An animated selector
// move is represented by the position it animates to.

module LaGrangeView {
  import opened Geometry
  import GraphData
  import Touch
  import Dimensions
  import opened Selectors

  /** A value listener call: the min listeners get the new min, the max listeners the new max. */
  datatype ValueChange = MinValueChanged(value: real) | MaxValueChanged(value: real)

  class LaGrange {
    const animateSelectorChanges: bool
    const dimensions: Dimensions.LaGrangeDimensions
    const touchHandler: Touch.LaGrangeTouchHandler

    /** The centres of the min and the max selector. */
    var minSelectorXPosition: real
    var maxSelectorXPosition: real

    var pointsData: Option<GraphData.PointsData>
    var listenersEnabled: bool
    var minSelectorValue: real
    var maxSelectorValue: real
    /** The value listener calls made so far, in order. */
    var valueChanges: seq<ValueChange>

    /** The data, when present, has an x span the transforms can divide by. */
    ghost predicate Valid()
      reads this
    {
      pointsData.Some? ==> pointsData.value.minX != pointsData.value.maxX
    }

    /** Each selector is drawn at the position of its value. */
    ghost predicate SelectorsAtValues()
      reads this, dimensions
      requires Valid()
    {
      pointsData.Some? ==>
        var pd := pointsData.value;
        minSelectorXPosition == Affine(minSelectorValue, pd.minX, pd.maxX, dimensions.graphLeft, dimensions.graphRight)
        && maxSelectorXPosition == Affine(maxSelectorValue, pd.minX, pd.maxX, dimensions.graphLeft, dimensions.graphRight)
    }

    /** Each value is the value of its selector's position. */
    ghost predicate ValuesAtSelectors()
      reads this, dimensions
      requires Valid()
    {
      pointsData.Some? && dimensions.graphLeft != dimensions.graphRight ==>
        var pd := pointsData.value;
        minSelectorValue == Affine(minSelectorXPosition, dimensions.graphLeft, dimensions.graphRight, pd.minX, pd.maxX)
        && maxSelectorValue == Affine(maxSelectorXPosition, dimensions.graphLeft, dimensions.graphRight, pd.minX, pd.maxX)
    }

    constructor (animateSelectorChanges: bool, graphTopFromTop: real, graphBottomFromBottom: real,
                 graphLeftRightPadding: real, numbersYPositionFromBottom: real)
      ensures this.animateSelectorChanges == animateSelectorChanges
      ensures fresh(dimensions) && fresh(touchHandler)
      ensures touchHandler.State() == Touch.LaGrangeInitial && touchHandler.dispatched == []
      ensures pointsData == None && listenersEnabled
      ensures minSelectorValue == 0.0 && maxSelectorValue == 0.0 && valueChanges == []
      ensures Valid()
    {
      this.animateSelectorChanges := animateSelectorChanges;
      dimensions := new Dimensions.LaGrangeDimensions(graphTopFromTop, graphBottomFromBottom,
                                                      graphLeftRightPadding, numbersYPositionFromBottom);
      touchHandler := new Touch.LaGrangeTouchHandler();
      minSelectorXPosition, maxSelectorXPosition := 0.0, 0.0;
      pointsData := None;
      listenersEnabled := true;
      minSelectorValue, maxSelectorValue := 0.0, 0.0;
      valueChanges := [];
    }

    /** The observable minSelectorValue: every assignment is reported while listeners are enabled. */
    method AssignMinSelectorValue(value: real)
      modifies this`minSelectorValue, this`valueChanges
      ensures minSelectorValue == value
      ensures valueChanges == old(valueChanges) + (if listenersEnabled then [MinValueChanged(value)] else [])
    {
      minSelectorValue := value;
      if listenersEnabled {
        valueChanges := valueChanges + [MinValueChanged(value)];
      }
    }

    /** The observable maxSelectorValue. */
    method AssignMaxSelectorValue(value: real)
      modifies this`maxSelectorValue, this`valueChanges
      ensures maxSelectorValue == value
      ensures valueChanges == old(valueChanges) + (if listenersEnabled then [MaxValueChanged(value)] else [])
    {
      maxSelectorValue := value;
      if listenersEnabled {
        valueChanges := valueChanges + [MaxValueChanged(value)];
      }
    }

    /** transformSelectorXPositionToValue: the graph's left edge is minX and its right edge maxX. */
    function TransformSelectorXPositionToValue(pd: GraphData.PointsData, selectorXPosition: real): (value: real)
      reads dimensions
      requires dimensions.graphLeft != dimensions.graphRight
      ensures selectorXPosition == dimensions.graphLeft ==> value == pd.minX
      ensures selectorXPosition == dimensions.graphRight ==> value == pd.maxX
    {
      AffineEndpoints(dimensions.graphLeft, dimensions.graphRight, pd.minX, pd.maxX);
      Affine(selectorXPosition, dimensions.graphLeft, dimensions.graphRight, pd.minX, pd.maxX)
    }

    /** transformSelectorValueToXPosition: minX is drawn at the graph's left edge and maxX at its right edge. */
    function TransformSelectorValueToXPosition(pd: GraphData.PointsData, selectorValue: real): (position: real)
      reads dimensions
      requires pd.minX != pd.maxX
      ensures selectorValue == pd.minX ==> position == dimensions.graphLeft
      ensures selectorValue == pd.maxX ==> position == dimensions.graphRight
    {
      AffineEndpoints(pd.minX, pd.maxX, dimensions.graphLeft, dimensions.graphRight);
      Affine(selectorValue, pd.minX, pd.maxX, dimensions.graphLeft, dimensions.graphRight)
    }

    /** The two transforms undo each other, in both orders. */
    lemma TransformsInverse(pd: GraphData.PointsData, x: real)
      requires dimensions.graphLeft != dimensions.graphRight && pd.minX != pd.maxX
      ensures TransformSelectorXPositionToValue(pd, TransformSelectorValueToXPosition(pd, x)) == x
      ensures TransformSelectorValueToXPosition(pd, TransformSelectorXPositionToValue(pd, x)) == x
    {
      AffineInverse(x, pd.minX, pd.maxX, dimensions.graphLeft, dimensions.graphRight);
      AffineInverse(x, dimensions.graphLeft, dimensions.graphRight, pd.minX, pd.maxX);
    }

    /** resetDataDrawObjects: with data, both selectors move to the positions of their values. */
    method ResetDataDrawObjects()
      requires Valid()
      modifies this`minSelectorXPosition, this`maxSelectorXPosition
      ensures SelectorsAtValues()
      ensures pointsData.None? ==>
        minSelectorXPosition == old(minSelectorXPosition) && maxSelectorXPosition == old(maxSelectorXPosition)
    {
      if pointsData.Some? {
        var pd := pointsData.value;
        minSelectorXPosition := TransformSelectorValueToXPosition(pd, minSelectorValue);
        maxSelectorXPosition := TransformSelectorValueToXPosition(pd, maxSelectorValue);
      }
    }

    /**
     * setPointsData: new data resets the values to the whole data range
     * (each assignment reported) and redraws the selectors there; null data
     * keeps the values.
     */
    method SetPointsData(pointsData: Option<GraphData.PointsData>)
      requires pointsData.Some? ==> pointsData.value.minX != pointsData.value.maxX
      modifies this
      ensures this.pointsData == pointsData && Valid() && SelectorsAtValues()
      ensures listenersEnabled == old(listenersEnabled)
      ensures pointsData.Some? ==>
        minSelectorValue == pointsData.value.minX && maxSelectorValue == pointsData.value.maxX
        && valueChanges == old(valueChanges) + (if listenersEnabled then [MinValueChanged(pointsData.value.minX),
                                                                          MaxValueChanged(pointsData.value.maxX)] else [])
      ensures pointsData.None? ==>
        minSelectorValue == old(minSelectorValue) && maxSelectorValue == old(maxSelectorValue)
        && valueChanges == old(valueChanges)
        && minSelectorXPosition == old(minSelectorXPosition) && maxSelectorXPosition == old(maxSelectorXPosition)
    {
      this.pointsData := pointsData;
      if pointsData.Some? {
        AssignMinSelectorValue(pointsData.value.minX);
        AssignMaxSelectorValue(pointsData.value.maxX);
      }
      ResetDataDrawObjects();
    }

    /**
     * setSelectorsValues: ignored while the user holds a selector (any of
     * the three flags) and without data; otherwise the normalised values
     * are assigned, min first, and the selectors move to them.
     */
    method SetSelectorsValues(minValue: Option<real>, maxValue: Option<real>)
      requires Valid()
      modifies this
      ensures Valid()
      ensures old(touchHandler.IsAnySelectorSelected()) || old(pointsData).None? ==> unchanged(this)
      ensures !old(touchHandler.IsAnySelectorSelected()) && old(pointsData).Some? ==>
        var pd := old(pointsData).value;
        var r := NormalizeRange(minValue, maxValue, pd.minX, pd.maxX);
        pointsData == old(pointsData) && listenersEnabled == old(listenersEnabled)
        && minSelectorValue == r.0 && maxSelectorValue == r.1
        && valueChanges == old(valueChanges) + (if listenersEnabled then [MinValueChanged(r.0), MaxValueChanged(r.1)] else [])
        && SelectorsAtValues()
        && ValuesAtSelectors()
        && (pd.minX < pd.maxX && dimensions.graphLeft < dimensions.graphRight ==>
              Ordered(dimensions.graphLeft, minSelectorXPosition, maxSelectorXPosition, dimensions.graphRight))
    {
      if touchHandler.IsAnySelectorSelected() {
        return;
      }
      if pointsData.None? {
        return;
      }
      var pd := pointsData.value;
      var r := NormalizeRange(minValue, maxValue, pd.minX, pd.maxX);
      AssignMinSelectorValue(r.0);
      AssignMaxSelectorValue(r.1);
      minSelectorXPosition := TransformSelectorValueToXPosition(pd, r.0);
      maxSelectorXPosition := TransformSelectorValueToXPosition(pd, r.1);
      if dimensions.graphLeft != dimensions.graphRight {
        TransformsInverse(pd, r.0);
        TransformsInverse(pd, r.1);
      }
      if pd.minX < pd.maxX && dimensions.graphLeft < dimensions.graphRight {
        AffineKeepsOrder(r.0, r.1, pd.minX, pd.maxX, dimensions.graphLeft, dimensions.graphRight);
      }
    }

    /**
     * touchHandlerListener.minSelectorChanged: the drag is clamped to the
     * graph's left edge and the max selector, and with data the min value
     * becomes the value of the new position.
     */
    method MinSelectorChanged(xPosition: real)
      requires Valid() && dimensions.graphLeft != dimensions.graphRight
      modifies this`minSelectorXPosition, this`minSelectorValue, this`valueChanges
      ensures minSelectorXPosition == MinDrag(xPosition, dimensions.graphLeft, maxSelectorXPosition)
      ensures pointsData.Some? ==>
        minSelectorValue == TransformSelectorXPositionToValue(pointsData.value, minSelectorXPosition)
        && valueChanges == old(valueChanges) + (if listenersEnabled then [MinValueChanged(minSelectorValue)] else [])
      ensures pointsData.None? ==> minSelectorValue == old(minSelectorValue) && valueChanges == old(valueChanges)
    {
      var newXPosition := MinDrag(xPosition, dimensions.graphLeft, maxSelectorXPosition);
      minSelectorXPosition := newXPosition;
      if pointsData.Some? {
        AssignMinSelectorValue(TransformSelectorXPositionToValue(pointsData.value, minSelectorXPosition));
      }
    }

    /** touchHandlerListener.maxSelectorChanged: the mirror image of MinSelectorChanged. */
    method MaxSelectorChanged(xPosition: real)
      requires Valid() && dimensions.graphLeft != dimensions.graphRight
      modifies this`maxSelectorXPosition, this`maxSelectorValue, this`valueChanges
      ensures maxSelectorXPosition == MaxDrag(xPosition, minSelectorXPosition, dimensions.graphRight)
      ensures pointsData.Some? ==>
        maxSelectorValue == TransformSelectorXPositionToValue(pointsData.value, maxSelectorXPosition)
        && valueChanges == old(valueChanges) + (if listenersEnabled then [MaxValueChanged(maxSelectorValue)] else [])
      ensures pointsData.None? ==> maxSelectorValue == old(maxSelectorValue) && valueChanges == old(valueChanges)
    {
      var newXPosition := MaxDrag(xPosition, minSelectorXPosition, dimensions.graphRight);
      maxSelectorXPosition := newXPosition;
      if pointsData.Some? {
        AssignMaxSelectorValue(TransformSelectorXPositionToValue(pointsData.value, maxSelectorXPosition));
      }
    }

    /**
     * onTouchEvent: without data the event is not handled; with data the
     * touch handler takes it, its callback (at most one) moves a selector,
     * and the event is handled. A drag keeps the selectors in order inside
     * the graph and each value at the value of its selector.
     */
    method OnTouchEvent(event: Touch.MotionEvent, isInMinField: (real, real) -> bool, isInMaxField: (real, real) -> bool)
      returns (handled: bool)
      requires Valid() && (pointsData.Some? ==> dimensions.graphLeft != dimensions.graphRight)
      modifies this, touchHandler
      ensures handled == old(pointsData).Some?
      ensures !handled ==> unchanged(this) && unchanged(touchHandler)
      ensures Valid() && pointsData == old(pointsData) && listenersEnabled == old(listenersEnabled)
      ensures handled ==>
        var hits := if event.Down? then (isInMinField(event.x, event.y), isInMaxField(event.x, event.y)) else (false, false);
        touchHandler.State() == Touch.LaGrangeStep(old(touchHandler.State()), event, hits.0, hits.1)
      ensures handled ==>
        var fired := Touch.LaGrangeFired(touchHandler.State(), event);
        (fired == [] ==> unchanged(this))
        && (forall x :: fired == [Touch.MinSelectorChanged(x)] ==>
              minSelectorXPosition == MinDrag(x, dimensions.graphLeft, old(maxSelectorXPosition))
              && maxSelectorXPosition == old(maxSelectorXPosition) && maxSelectorValue == old(maxSelectorValue)
              && valueChanges == old(valueChanges) + (if listenersEnabled then [MinValueChanged(minSelectorValue)] else []))
        && (forall x :: fired == [Touch.MaxSelectorChanged(x)] ==>
              maxSelectorXPosition == MaxDrag(x, old(minSelectorXPosition), dimensions.graphRight)
              && minSelectorXPosition == old(minSelectorXPosition) && minSelectorValue == old(minSelectorValue)
              && valueChanges == old(valueChanges) + (if listenersEnabled then [MaxValueChanged(maxSelectorValue)] else []))
      ensures old(Ordered(dimensions.graphLeft, minSelectorXPosition, maxSelectorXPosition, dimensions.graphRight)) ==>
        Ordered(dimensions.graphLeft, minSelectorXPosition, maxSelectorXPosition, dimensions.graphRight)
      ensures old(ValuesAtSelectors()) ==> ValuesAtSelectors()
    {
      if pointsData.None? {
        return false;
      }
      var n := |touchHandler.dispatched|;
      touchHandler.HandleTouchEvent(event, isInMinField, isInMaxField);
      var fired := touchHandler.dispatched[n..];
      assert fired == Touch.LaGrangeFired(touchHandler.State(), event);
      if fired != [] {
        match fired[0]
        case MinSelectorChanged(x) => MinSelectorChanged(x);
        case MaxSelectorChanged(x) => MaxSelectorChanged(x);
      }
      return true;
    }

    /**
     * onSizeChanged: the dimensions are recomputed from the new size and
     * the padding, and the selectors are redrawn at their values.
     */
    method OnSizeChanged(w: int, h: int, paddingLeft: int, paddingTop: int, paddingRight: int, paddingBottom: int)
      requires Valid()
      modifies this`minSelectorXPosition, this`maxSelectorXPosition, dimensions
      ensures Valid() && SelectorsAtValues()
      ensures dimensions.graphLeft == paddingLeft as real + dimensions.graphLeftRightPadding
      ensures dimensions.graphRight == (w - paddingRight) as real - dimensions.graphLeftRightPadding
      ensures dimensions.graphTop == paddingTop as real + dimensions.graphTopFromTop
      ensures dimensions.graphBottom == (h - paddingBottom) as real - dimensions.graphBottomFromBottom
      ensures dimensions.numbersYPosition == (h - paddingBottom) as real - dimensions.numbersYPositionFromBottom
      ensures pointsData == old(pointsData) && minSelectorValue == old(minSelectorValue)
      ensures maxSelectorValue == old(maxSelectorValue) && valueChanges == old(valueChanges)
      ensures listenersEnabled == old(listenersEnabled)
    {
      dimensions.Update(paddingLeft, w - paddingRight, paddingTop, h - paddingBottom);
      ResetDataDrawObjects();
    }

    /**
     * onRestoreInstanceState with a saved state: the data and both values
     * come back without any listener call, the selectors are redrawn and
     * the listeners are enabled again.
     */
    method OnRestoreInstanceState(savedPointsData: Option<GraphData.PointsData>,
                                  savedMinSelectorValue: real, savedMaxSelectorValue: real)
      requires savedPointsData.Some? ==> savedPointsData.value.minX != savedPointsData.value.maxX
      modifies this`listenersEnabled, this`pointsData, this`minSelectorValue, this`maxSelectorValue,
               this`valueChanges, this`minSelectorXPosition, this`maxSelectorXPosition
      ensures Valid() && SelectorsAtValues()
      ensures pointsData == savedPointsData && listenersEnabled
      ensures minSelectorValue == savedMinSelectorValue && maxSelectorValue == savedMaxSelectorValue
      ensures valueChanges == old(valueChanges)
      ensures savedPointsData.None? ==>
        minSelectorXPosition == old(minSelectorXPosition) && maxSelectorXPosition == old(maxSelectorXPosition)
    {
      listenersEnabled := false;
      pointsData := savedPointsData;
      AssignMinSelectorValue(savedMinSelectorValue);
      AssignMaxSelectorValue(savedMaxSelectorValue);
      ResetDataDrawObjects();
      listenersEnabled := true;
    }
  }
}
