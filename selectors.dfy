// The selector rules the range pickers and the end pickers share: how the
// external setters normalise a wanted value (default, clamp, order), how a
// drag is clamped, and how a selector's centre and its value are converted
// into each other.

module Selectors {
  import opened Geometry
  import GraphData

  /**
   * Data a view can lay out: what the PointsData initializer establishes,
   * with a non-empty x span and a non-empty y span (the transforms divide
   * by both; in Float an empty span gives NaN or an infinity).
   */
  ghost predicate Drawable(pd: GraphData.PointsData)
  {
    GraphData.ValidPointsData(pd) && pd.minX != pd.maxX && pd.minY != pd.maxY
  }

  /**
   * Drawable data has at least two points, so the spline views never hand
   * getCurveControlPoints fewer than two knots; one-point data, which has
   * minX == maxX, is exactly the data on which that call would throw.
   */
  lemma DrawableHasTwoKnots(pd: GraphData.PointsData)
    requires GraphData.ValidPointsData(pd)
    ensures Drawable(pd) ==> |pd.points| >= 2
    ensures |pd.points| == 1 ==> !Drawable(pd)
  {
  }

  /** The value of a nullable argument, or the default when it is null (Kotlin's ?:). */
  function OrElse(v: Option<real>, default: real): real
  {
    if v.Some? then v.value else default
  }

  /** Math.min(Math.max(v, lo), hi): v moved into [lo, hi]. */
  function Clamp(v: real, lo: real, hi: real): (c: real)
    ensures lo <= hi ==> lo <= c <= hi
    ensures lo <= v <= hi ==> c == v
    ensures lo <= hi ==> (v < lo ==> c == lo) && (v > hi ==> c == hi)
  {
    GraphData.Min(GraphData.Max(v, lo), hi)
  }

  /** Clamping is idempotent, and clamping a value already in range changes nothing. */
  lemma ClampIdempotent(v: real, lo: real, hi: real)
    requires lo <= hi
    ensures Clamp(Clamp(v, lo, hi), lo, hi) == Clamp(v, lo, hi)
  {
  }

  // ---------------------------------------------------------------------
  // External setters
  // ---------------------------------------------------------------------

  /**
   * The normalisation of setSelectorsValues: a null min defaults to minX
   * and a null max to maxX, both are clamped into [minX, maxX], and a max
   * below the min is raised to the min.
   */
  function NormalizeRange(minValue: Option<real>, maxValue: Option<real>, minX: real, maxX: real): (r: (real, real))
    ensures minX <= maxX ==> minX <= r.0 <= r.1 <= maxX
  {
    var lo := Clamp(OrElse(minValue, minX), minX, maxX);
    var hi := Clamp(OrElse(maxValue, maxX), minX, maxX);
    if lo > hi then (lo, lo) else (lo, hi)
  }

  /** Wanted values that are already ordered and in range are kept as they are. */
  lemma NormalizeRangeKeeps(a: real, b: real, minX: real, maxX: real)
    requires minX <= a <= b <= maxX
    ensures NormalizeRange(Some(a), Some(b), minX, maxX) == (a, b)
  {
  }

  /** Two nulls select the whole data range. */
  lemma NormalizeRangeDefaults(minX: real, maxX: real)
    requires minX <= maxX
    ensures NormalizeRange(None, None, minX, maxX) == (minX, maxX)
  {
  }

  /**
   * The min has priority: it is the wanted min clamped into the data range
   * whatever max is wanted, and the max is the wanted max clamped into
   * what is left, [min, maxX].
   */
  lemma NormalizeRangeMinFirst(minValue: Option<real>, maxValue: Option<real>, minX: real, maxX: real)
    requires minX <= maxX
    ensures var r := NormalizeRange(minValue, maxValue, minX, maxX);
      r.0 == Clamp(OrElse(minValue, minX), minX, maxX)
      && r.1 == Clamp(OrElse(maxValue, maxX), r.0, maxX)
  {
  }

  /** Normalising twice is normalising once. */
  lemma NormalizeRangeIdempotent(minValue: Option<real>, maxValue: Option<real>, minX: real, maxX: real)
    requires minX <= maxX
    ensures var r := NormalizeRange(minValue, maxValue, minX, maxX);
      NormalizeRange(Some(r.0), Some(r.1), minX, maxX) == r
  {
    var r := NormalizeRange(minValue, maxValue, minX, maxX);
    NormalizeRangeKeeps(r.0, r.1, minX, maxX);
  }

  /** The normalisation of setSelectorValue: null is minX, then a clamp into [minX, maxX]. */
  function NormalizeValue(value: Option<real>, minX: real, maxX: real): (v: real)
    ensures minX <= maxX ==> minX <= v <= maxX
    ensures value.None? && minX <= maxX ==> v == minX
    ensures value.Some? && minX <= value.value <= maxX ==> v == value.value
  {
    Clamp(OrElse(value, minX), minX, maxX)
  }

  // ---------------------------------------------------------------------
  // Drags
  // ---------------------------------------------------------------------

  /** The three selector centres are in order inside the graph. */
  predicate Ordered(graphLeft: real, minPosition: real, maxPosition: real, graphRight: real)
  {
    graphLeft <= minPosition <= maxPosition <= graphRight
  }

  /**
   * A drag of the min selector to x: never to the left of the graph, else
   * never past the max selector.
   */
  function MinDrag(x: real, graphLeft: real, maxPosition: real): (p: real)
    ensures graphLeft <= maxPosition ==> p == Clamp(x, graphLeft, maxPosition)
  {
    if x < graphLeft then graphLeft else if x > maxPosition then maxPosition else x
  }

  /**
   * A drag of the max selector to x: never to the right of the graph,
   * else never before the min selector.
   */
  function MaxDrag(x: real, minPosition: real, graphRight: real): (p: real)
    ensures minPosition <= graphRight ==> p == Clamp(x, minPosition, graphRight)
  {
    if x > graphRight then graphRight else if x < minPosition then minPosition else x
  }

  /** Either drag keeps the selectors in order inside the graph. */
  lemma DragsKeepOrder(x: real, graphLeft: real, minPosition: real, maxPosition: real, graphRight: real)
    requires Ordered(graphLeft, minPosition, maxPosition, graphRight)
    ensures Ordered(graphLeft, MinDrag(x, graphLeft, maxPosition), maxPosition, graphRight)
    ensures Ordered(graphLeft, minPosition, MaxDrag(x, minPosition, graphRight), graphRight)
  {
  }

  // ---------------------------------------------------------------------
  // Selector centre <-> selector value
  // ---------------------------------------------------------------------

  /**
   * On increasing intervals the affine map keeps two ordered in-range
   * points ordered and in range: values give ordered selector centres and
   * centres give ordered values.
   */
  lemma AffineKeepsOrder(a: real, b: real, lo: real, hi: real, lo': real, hi': real)
    requires lo < hi && lo' < hi' && lo <= a <= b <= hi
    ensures Ordered(lo', Affine(a, lo, hi, lo', hi'), Affine(b, lo, hi, lo', hi'), hi')
  {
    AffineInRange(a, lo, hi, lo', hi');
    AffineInRange(b, lo, hi, lo', hi');
    if a < b {
      AffineMonotone(a, b, lo, hi, lo', hi');
    }
  }

  /**
   * getXValueFromXGraphPosition of the end pickers and of the legacy range
   * picker: a centre in [graphMin, graphMax] to a value.
   */
  function XValueFromPosition(x: real, graphMin: real, graphMax: real, minX: real, xRange: real): real
    requires graphMax != graphMin
  {
    (x - graphMin) * xRange / (graphMax - graphMin) + minX
  }

  /** getXGraphPositionFromXValue: a value to a centre. */
  function XPositionFromValue(x: real, graphMin: real, graphMax: real, minX: real, xRange: real): real
    requires xRange != 0.0
  {
    (graphMax - graphMin) / xRange * (x - minX) + graphMin
  }

  /** getYGraphPositionFromYValue: the graph's y axis points down, from lineY at minY to topY at maxY. */
  function YPositionFromValue(y: real, topY: real, lineY: real, minY: real, maxY: real): real
    requires maxY != minY
  {
    (lineY - topY) / (maxY - minY) * (maxY - y) + topY
  }

  /** Both x transforms are the affine map between the graph and the data range. */
  lemma XTransformsAreAffine(x: real, graphMin: real, graphMax: real, minX: real, maxX: real)
    requires graphMax != graphMin && minX != maxX
    ensures XValueFromPosition(x, graphMin, graphMax, minX, maxX - minX) == Affine(x, graphMin, graphMax, minX, maxX)
    ensures XPositionFromValue(x, graphMin, graphMax, minX, maxX - minX) == Affine(x, minX, maxX, graphMin, graphMax)
  {
    AffineFromMin(x, graphMin, graphMax, minX, maxX);
    AffineFromMin(x, minX, maxX, graphMin, graphMax);
    var d := maxX - minX;
    assert (graphMax - graphMin) / d * (x - minX) == (x - minX) * (graphMax - graphMin) / d;
  }

  /**
   * The two x transforms undo each other: a value shown at its centre reads
   * back as the same value, and a centre turned into a value is shown at
   * the same centre.
   */
  lemma XTransformsInverse(x: real, graphMin: real, graphMax: real, minX: real, maxX: real)
    requires graphMax != graphMin && minX != maxX
    ensures XValueFromPosition(XPositionFromValue(x, graphMin, graphMax, minX, maxX - minX),
                               graphMin, graphMax, minX, maxX - minX) == x
    ensures XPositionFromValue(XValueFromPosition(x, graphMin, graphMax, minX, maxX - minX),
                               graphMin, graphMax, minX, maxX - minX) == x
  {
    XTransformsAreAffine(x, graphMin, graphMax, minX, maxX);
    var p := XPositionFromValue(x, graphMin, graphMax, minX, maxX - minX);
    XTransformsAreAffine(p, graphMin, graphMax, minX, maxX);
    AffineInverse(x, minX, maxX, graphMin, graphMax);
    var v := XValueFromPosition(x, graphMin, graphMax, minX, maxX - minX);
    XTransformsAreAffine(v, graphMin, graphMax, minX, maxX);
    AffineInverse(x, graphMin, graphMax, minX, maxX);
  }

  /** The y transform puts maxY on the top line and minY on the x axis line. */
  lemma YTransformEnds(topY: real, lineY: real, minY: real, maxY: real)
    requires maxY != minY
    ensures YPositionFromValue(maxY, topY, lineY, minY, maxY) == topY
    ensures YPositionFromValue(minY, topY, lineY, minY, maxY) == lineY
  {
    var k := (lineY - topY) / (maxY - minY);
    assert k * (maxY - minY) == lineY - topY;
  }

  /** The y transform is the affine map from [minY, maxY] onto [lineY, topY]. */
  lemma YTransformIsAffine(y: real, topY: real, lineY: real, minY: real, maxY: real)
    requires maxY != minY
    ensures YPositionFromValue(y, topY, lineY, minY, maxY) == Affine(y, minY, maxY, lineY, topY)
  {
    var d := maxY - minY;
    assert (topY - lineY) / d * (y - maxY) == (lineY - topY) / d * (maxY - y);
  }
}
