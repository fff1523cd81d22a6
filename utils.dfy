// The helpers of pointgraph/utils: the graph show/hide switch (GraphOps.kt)
// and the evenly spaced axis labels (AxisIndicatorLabels.kt) and axis
// indicator rectangles (AxisIndicators.kt).

module Utils {
  import opened Geometry
  import opened Rects

  // ---------------------------------------------------------------------
  // GraphOps
  // ---------------------------------------------------------------------

  /**
   * Whether the graph is shown, and the y-axis scale factor the graph is
   * drawn with. The animated branches only start a tween toward the target
   * factor; the factor itself is then changed by the animator later.
   */
  class GraphOps {
    var graphIsShown: bool
    var graphYAxisScaleFactor: real

    constructor ()
      ensures !graphIsShown && graphYAxisScaleFactor == ScaleFactorMin
    {
      graphIsShown := false;
      graphYAxisScaleFactor := ScaleFactorMin;
    }

    method ShowGraph(animated: bool)
      modifies this
      ensures graphIsShown
      ensures graphYAxisScaleFactor == if animated then old(graphYAxisScaleFactor) else ScaleFactorMax
    {
      if !animated {
        graphYAxisScaleFactor := ScaleFactorMax;
      }
      graphIsShown := true;
    }

    method HideGraph(animated: bool)
      modifies this
      ensures !graphIsShown
      ensures graphYAxisScaleFactor == if animated then old(graphYAxisScaleFactor) else ScaleFactorMin
    {
      if !animated {
        graphYAxisScaleFactor := ScaleFactorMin;
      }
      graphIsShown := false;
    }

    /** Flips the flag, so two toggles in a row restore it. */
    method ToggleGraphVisibility(animated: bool)
      modifies this
      ensures graphIsShown == !old(graphIsShown)
      ensures animated ==> graphYAxisScaleFactor == old(graphYAxisScaleFactor)
      ensures !animated ==> graphYAxisScaleFactor == if graphIsShown then ScaleFactorMax else ScaleFactorMin
    {
      if graphIsShown {
        HideGraph(animated);
      } else {
        ShowGraph(animated);
      }
    }
  }

  // ---------------------------------------------------------------------
  // Evenly spaced values
  // ---------------------------------------------------------------------

  /**
   * The i-th of n evenly spaced values from lo to hi: lo plus i steps of
   * (hi - lo) / (n - 1).
   */
  function Spaced(i: int, n: int, lo: real, hi: real): real
    requires n >= 2
  {
    i as real * (hi - lo) / (n - 1) as real + lo
  }

  /** The same value, with the span hi - lo given under another name. */
  lemma SpacedOfSpan(i: int, n: int, lo: real, hi: real, span: real)
    requires n >= 2 && span == hi - lo
    ensures i as real * span / (n - 1) as real + lo == Spaced(i, n, lo, hi)
  {
  }

  /** The first value is lo and the last is hi. */
  lemma SpacedEnds(n: int, lo: real, hi: real)
    requires n >= 2
    ensures Spaced(0, n, lo, hi) == lo && Spaced(n - 1, n, lo, hi) == hi
  {
    var m := (n - 1) as real;
    assert (n - 1) as real * (hi - lo) / m == hi - lo;
  }

  /** Consecutive values are one constant step apart. */
  lemma SpacedStep(i: int, n: int, lo: real, hi: real)
    requires n >= 2
    ensures Spaced(i + 1, n, lo, hi) - Spaced(i, n, lo, hi) == (hi - lo) / (n - 1) as real
  {
    var m := (n - 1) as real;
    var d := (hi - lo) / m;
    assert d * m == hi - lo;
    assert i as real * (hi - lo) / m == i as real * d by {
      assert i as real * d * m == i as real * (hi - lo);
    }
    assert (i + 1) as real * (hi - lo) / m == (i + 1) as real * d by {
      assert (i + 1) as real * d * m == (i + 1) as real * (hi - lo);
    }
  }

  /** For lo <= hi the values never decrease. */
  lemma SpacedMonotone(i: int, j: int, n: int, lo: real, hi: real)
    requires n >= 2 && lo <= hi && i <= j
    ensures Spaced(i, n, lo, hi) <= Spaced(j, n, lo, hi)
  {
    var m := (n - 1) as real;
    assert (j - i) as real * (hi - lo) >= 0.0;
    assert j as real * (hi - lo) - i as real * (hi - lo) == (j - i) as real * (hi - lo);
    assert (j - i) as real * (hi - lo) / m >= 0.0;
  }

  /** The step form start + i * distance used by setLimitValues gives the same values. */
  lemma SpacedByDistance(i: int, n: int, lo: real, hi: real, d: real)
    requires n >= 2 && d == (hi - lo) / (n - 1) as real
    ensures lo + i as real * d == Spaced(i, n, lo, hi)
  {
    var m := (n - 1) as real;
    assert d * m == hi - lo;
    assert i as real * d * m == i as real * (hi - lo);
  }

  /** A distance known by its product with the gap count is the quotient. */
  lemma DistanceFromProduct(d: real, m: real, span: real)
    requires m != 0.0 && d * m == span
    ensures d == span / m
  {
  }

  // ---------------------------------------------------------------------
  // AxisIndicatorLabels
  // ---------------------------------------------------------------------

  /** The numbers written under the x axis and where they are written. */
  class AxisIndicatorLabels {
    const numberOfLabels: int
    const numbers: array<real>
    const labelsXPositions: array<real>
    var labelsYPosition: real

    ghost predicate Valid()
      reads this
    {
      numberOfLabels >= 2 && numbers.Length == numberOfLabels && labelsXPositions.Length == numberOfLabels
      && numbers != labelsXPositions
    }

    /** Two labels more than the middle ones, all zero to begin with. */
    constructor (numberOfMiddleLabels: int)
      requires numberOfMiddleLabels >= 0
      ensures Valid() && numberOfLabels == numberOfMiddleLabels + 2
      ensures fresh(numbers) && fresh(labelsXPositions)
      ensures forall i :: 0 <= i < numberOfLabels ==> numbers[i] == 0.0 && labelsXPositions[i] == 0.0
      ensures labelsYPosition == 0.0
    {
      numberOfLabels := numberOfMiddleLabels + 2;
      labelsXPositions := new real[numberOfMiddleLabels + 2](_ => 0.0);
      numbers := new real[numberOfMiddleLabels + 2](_ => 0.0);
      labelsYPosition := 0.0;
    }

    /** updateNumbers: evenly spaced numbers from minValue to maxValue. */
    method UpdateNumbers(minValue: real, maxValue: real)
      requires Valid()
      modifies numbers
      ensures forall i :: 0 <= i < numbers.Length ==> numbers[i] == Spaced(i, numbers.Length, minValue, maxValue)
    {
      var range := maxValue - minValue;
      var n := numbers.Length;
      var i := 0;
      while i < n
        invariant 0 <= i <= n
        invariant forall j :: 0 <= j < i ==> numbers[j] == Spaced(j, n, minValue, maxValue)
      {
        var number := i as real * range / (n - 1) as real + minValue;
        SpacedOfSpan(i, n, minValue, maxValue, range);
        numbers[i] := number;
        i := i + 1;
      }
    }

    /** setLimitValues: evenly spaced label positions; the numbers stay as they are. */
    method SetLimitValues(labelsXStartPosition: real, labelsXEndPosition: real, labelsYPosition: real)
      requires Valid()
      modifies this, labelsXPositions
      ensures Valid() && this.labelsYPosition == labelsYPosition
      ensures forall i :: 0 <= i < numberOfLabels ==>
        labelsXPositions[i] == Spaced(i, numberOfLabels, labelsXStartPosition, labelsXEndPosition)
      ensures numbers[..] == old(numbers[..])
    {
      var labelsDistance := (labelsXEndPosition - labelsXStartPosition) / (numberOfLabels - 1) as real;
      var i := 0;
      while i < numberOfLabels
        invariant 0 <= i <= numberOfLabels
        invariant forall j :: 0 <= j < i ==>
          labelsXPositions[j] == Spaced(j, numberOfLabels, labelsXStartPosition, labelsXEndPosition)
        invariant numbers[..] == old(numbers[..])
      {
        var position := labelsXStartPosition + i as real * labelsDistance;
        SpacedByDistance(i, numberOfLabels, labelsXStartPosition, labelsXEndPosition, labelsDistance);
        labelsXPositions[i] := position;
        i := i + 1;
      }
      this.labelsYPosition := labelsYPosition;
    }
  }

  // ---------------------------------------------------------------------
  // AxisIndicators
  // ---------------------------------------------------------------------

  /** The little indicator rectangles along the x axis. */
  class AxisIndicators {
    const numberOfIndicators: int
    const xAxisIndicatorsRects: seq<Rect>
    const indicatorsXPositions: array<real>

    ghost predicate Valid()
      reads this
    {
      numberOfIndicators >= 2
      && |xAxisIndicatorsRects| == numberOfIndicators && indicatorsXPositions.Length == numberOfIndicators
      && forall i, j :: 0 <= i < j < numberOfIndicators ==> xAxisIndicatorsRects[i] != xAxisIndicatorsRects[j]
    }

    /**
     * numberOfMiddleIndicators + 2 separate copies of a rectangle the size of
     * the indicator drawable, at the origin.
     */
    constructor (numberOfMiddleIndicators: int, intrinsicWidth: int, intrinsicHeight: int)
      requires numberOfMiddleIndicators >= 0
      ensures Valid() && numberOfIndicators == numberOfMiddleIndicators + 2
      ensures fresh(indicatorsXPositions)
      ensures forall i :: 0 <= i < numberOfIndicators ==>
        fresh(xAxisIndicatorsRects[i])
        && xAxisIndicatorsRects[i].left == 0 && xAxisIndicatorsRects[i].top == 0
        && xAxisIndicatorsRects[i].right == intrinsicWidth && xAxisIndicatorsRects[i].bottom == intrinsicHeight
    {
      var n := numberOfMiddleIndicators + 2;
      var rects: seq<Rect> := [];
      while |rects| < n
        invariant |rects| <= n
        invariant forall i :: 0 <= i < |rects| ==>
          fresh(rects[i]) && rects[i].left == 0 && rects[i].top == 0
          && rects[i].right == intrinsicWidth && rects[i].bottom == intrinsicHeight
        invariant forall i, j :: 0 <= i < j < |rects| ==> rects[i] != rects[j]
      {
        var r := new Rect(0, 0, intrinsicWidth, intrinsicHeight);
        rects := rects + [r];
      }
      numberOfIndicators := n;
      xAxisIndicatorsRects := rects;
      indicatorsXPositions := new real[n](_ => 0.0);
    }

    /**
     * setLimitValues: evenly spaced positions from the axis start to its
     * end; each rectangle is centred on the Int truncation of its position
     * and of the axis y, keeping its size.
     */
    method SetLimitValues(axisXStartPosition: real, axisXEndPosition: real, axisYPosition: real)
      requires Valid()
      modifies indicatorsXPositions, xAxisIndicatorsRects
      ensures forall i :: 0 <= i < numberOfIndicators ==>
        indicatorsXPositions[i] == Spaced(i, numberOfIndicators, axisXStartPosition, axisXEndPosition)
      ensures forall i :: 0 <= i < numberOfIndicators ==>
        var r := xAxisIndicatorsRects[i];
        r.left == CenteredStart(TruncReal(indicatorsXPositions[i]), old(r.Width()))
        && r.top == CenteredStart(TruncReal(axisYPosition), old(r.Height()))
        && r.Width() == old(r.Width()) && r.Height() == old(r.Height())
    {
      var pointsDistance := (axisXEndPosition - axisXStartPosition) / (numberOfIndicators - 1) as real;
      var i := 0;
      while i < indicatorsXPositions.Length
        invariant 0 <= i <= numberOfIndicators
        invariant forall j :: 0 <= j < i ==>
          indicatorsXPositions[j] == Spaced(j, numberOfIndicators, axisXStartPosition, axisXEndPosition)
        invariant forall j :: 0 <= j < i ==>
          var r := xAxisIndicatorsRects[j];
          r.left == CenteredStart(TruncReal(indicatorsXPositions[j]), old(r.Width()))
          && r.top == CenteredStart(TruncReal(axisYPosition), old(r.Height()))
          && r.Width() == old(r.Width()) && r.Height() == old(r.Height())
        invariant forall j :: i <= j < numberOfIndicators ==>
          var r := xAxisIndicatorsRects[j];
          r.left == old(r.left) && r.top == old(r.top) && r.right == old(r.right) && r.bottom == old(r.bottom)
      {
        var indicatorXPosition := axisXStartPosition + i as real * pointsDistance;
        SpacedByDistance(i, numberOfIndicators, axisXStartPosition, axisXEndPosition, pointsDistance);
        indicatorsXPositions[i] := indicatorXPosition;
        var r := xAxisIndicatorsRects[i];
        r.SetXMiddle(TruncReal(indicatorXPosition));
        r.SetYMiddle(TruncReal(axisYPosition));
        i := i + 1;
      }
    }
  }
}
