# PointGraph in Dafny

PointGraph is an Android widget library. It draws a smooth graph through a
list of data points. Selectors on the graph's x axis choose a value
(GraphEnd, one selector) or a range of values (LaGrange, two selectors).
This project models the library's logic and proves properties of it:

- the Bezier spline fitter that turns the graph's knots into cubic control
  points (a Thomas-algorithm tridiagonal solve);
- the affine value-to-pixel map and the data summaries: `PointsData` bounds,
  the knots `RangeData` builds from its bins, and the approximate count in
  an interval;
- the selector touch state machines. These are the two-selector handler, the
  one-selector handler and the inline copies of both in the views, including
  the legacy view's centre rule and dead zone;
- the views' own state: selector values, positions, the data, the graph
  paths, the axis numbers and their positions, and the listener calls;
- the small layout pieces: the dimension objects, evenly spaced axis labels
  and indicators, rectangle re-centring, the show/hide flag of `GraphOps`,
  and the command sequence of `GraphPath.generatePath`.

There are two packages. The `com.johnnym.pointgraph` package has three
views: `lagrange/LaGrange.kt`, which uses a separate touch handler; the
newer `LaGrange.kt`, which handles touches inline; and the two `GraphEnd`
views. The legacy `com.johnnym.lagrange` package has its own `Long`-valued
copies of the data classes and a range view with its own touch rules.

Numbers are `real`. Kotlin `Long` is `int`, with Kotlin's truncating
division (`Geometry.TruncDiv`) and truncating `toLong` (`Geometry.TruncReal`)
written out. A touch event is `Down(x, y) | Move(x) | Up | Cancel`. A
touch-field hit test (`RectF.contains`) is a function parameter. Listener
calls are an append-only log field of the view. A graph path is a `seq` of
`MoveTo | LineTo | CubicTo` commands. An animated move is modelled by its
target.

Files, one module each:

- `geometry.dfy`: points, results, options and the constants of
  `utils/Utils.kt`. Also the affine map and Kotlin's integer and `toLong`
  rounding.
- `spline.dfy`: `BezierSplineUtil`.
- `data.dfy`: the `PointsData`, `Range` and `RangeData` of `com.johnnym.pointgraph`.
- `legacy_data.dfy`: the same three classes in `com.johnnym.lagrange`.
- `touch.dfy`: both touch handlers.
- `selectors.dfy`: the normalisations, the drag clamps and the view transforms.
- `graph_path.dfy`: `GraphPath`.
- `rects.dfy`: the `RectF` and `Rect` extensions.
- `utils.dfy`: `GraphOps`, `AxisIndicatorLabels` and `AxisIndicators`.
- `dimensions.dfy`: `LaGrangeDimensions` and `GraphEndDimensions`.
- The views:
  - `range_view.dfy`: `pointgraph/lagrange/LaGrange.kt`.
  - `end_view.dfy`: `pointgraph/graphend/GraphEnd.kt`.
  - `point_end_view.dfy`: `pointgraph/GraphEnd.kt`.
  - `point_range_view.dfy`: `pointgraph/LaGrange.kt`.
  - `legacy_range_view.dfy`: `lagrange/LaGrange.kt`.

Where the code and its documentation disagree, the model follows the code:

- A value listener is called on every assignment of a value, changed or not.
  The observable delegates dispatch unconditionally.
- `pointgraph/LaGrange.kt` ignores `setSelectorsValues` only while the min
  or the max selector is held. A press that landed on both touch fields does
  not block it. `pointgraph/lagrange/LaGrange.kt` blocks on any of the three
  flags (`isAnySelectorSelected`). The legacy `lagrange/LaGrange.kt` has no
  `setSelectorsValues`.
- The legacy view reads `minX`, `maxX`, `xRange`, `minY` and `maxY` off its
  `RangeData`, but the legacy `RangeData` class declares none of them. The
  model takes `minX`/`maxX` as the first range's start and the last range's
  end (`LegacyData.MinX`, `LegacyData.MaxX`, `LegacyData.XRange`). It takes
  the y bounds from the range data's own `PointsData`, whose x bounds are
  proved equal to those (`LegacyData.BoundsMatchPoints`).
- The legacy `RangeData` assigns `Long` values to `Float` variables. The model
  converts each `Long` to a real, and halves counts in `Long` arithmetic first.

## Model

| member | source | states |
|---|---|---|
| Geometry.AffineEndpoints | library/src/main/java/com/johnnym/pointgraph/utils/Utils.kt:8-14 | affineTransformXToY sends minX to minY and maxX to maxY |
| Geometry.AffineFromMin | library/src/main/java/com/johnnym/pointgraph/utils/Utils.kt:8-14 | the map is the straight line through (minX, minY) with slope (maxY - minY) / (maxX - minX) |
| Geometry.AffineInverse | library/src/main/java/com/johnnym/pointgraph/utils/Utils.kt:8-14 | swapping the two intervals gives the inverse map: a value mapped there and back is unchanged |
| Geometry.AffineMonotone | library/src/main/java/com/johnnym/pointgraph/utils/Utils.kt:8-14 | on increasing intervals the map is strictly increasing |
| Geometry.AffineInRange | library/src/main/java/com/johnnym/pointgraph/utils/Utils.kt:8-14 | on increasing intervals the map takes [minX, maxX] into [minY, maxY] |
| Geometry.TruncDiv | library/src/main/java/com/johnnym/lagrange/Range.kt:5-6 | Kotlin Long division: the remainder is smaller than the divisor and takes the sign of the dividend, which fixes the quotient uniquely |
| Geometry.TruncReal | library/src/main/java/com/johnnym/lagrange/LaGrange.kt:559-562 | Float.toLong drops the fraction toward zero |
| Geometry.TruncRealMonotone | library/src/main/java/com/johnnym/lagrange/LaGrange.kt:559-562 | toLong never reverses an order |
| Geometry.TruncRealOfInt | library/src/main/java/com/johnnym/lagrange/LaGrange.kt:559-562 | toLong keeps a whole number as it is |
| Geometry.TruncDivMonotone | library/src/main/java/com/johnnym/lagrange/LaGrange.kt:593-595 | on non-negative dividends a positive divisor keeps their order, so the numbers never decrease |
| Geometry.TruncDivExact | library/src/main/java/com/johnnym/lagrange/LaGrange.kt:593-595 | an exact multiple divides back to its factor, so the end numbers are minX and maxX |
| BezierSpline.Pivot | library/src/main/java/com/johnnym/pointgraph/BezierSplineUtil.kt:92-100 | every pivot b of the forward sweep is at least 2, so no division by a pivot fails |
| BezierSpline.ThomasSolves | library/src/main/java/com/johnnym/pointgraph/BezierSplineUtil.kt:87-107 | the Thomas algorithm's output solves the tridiagonal system 2x0+x1=r0, x(i-1)+4xi+x(i+1)=ri, x(n-2)+3.5x(n-1)=r(n-1) |
| BezierSpline.ThomasRow | library/src/main/java/com/johnnym/pointgraph/BezierSplineUtil.kt:87-107 | the output satisfies each row of the system |
| BezierSpline.SolvesIff | library/src/main/java/com/johnnym/pointgraph/BezierSplineUtil.kt:87-107 | the system has exactly one solution, the Thomas algorithm's |
| BezierSpline.GetFirstControlPoints | library/src/main/java/com/johnnym/pointgraph/BezierSplineUtil.kt:87-108 | the array method returns a fresh array holding the Thomas solution of the right-hand side |
| BezierSpline.Decompose | library/src/main/java/com/johnnym/pointgraph/BezierSplineUtil.kt:92-100 | the first loop leaves the forward substitution in x and the pivot reciprocals in tmp |
| BezierSpline.BackSubstitute | library/src/main/java/com/johnnym/pointgraph/BezierSplineUtil.kt:102-105 | the second loop turns the forward substitution into the solution |
| BezierSpline.SetRhs | library/src/main/java/com/johnnym/pointgraph/BezierSplineUtil.kt:42-56 | the right-hand side is k0+2k1, then 4ki+2k(i+1), then (8k(n-1)+kn)/2, built the same way for x and y |
| BezierSpline.NaturalIsSystem | library/src/main/java/com/johnnym/pointgraph/BezierSplineUtil.kt:36-75 | with C1 continuity and a natural right end, C2 continuity plus a natural left end is exactly the tridiagonal system |
| BezierSpline.SecondFromFirst | library/src/main/java/com/johnnym/pointgraph/BezierSplineUtil.kt:61-75 | second control point i is 2k(i+1) - first(i+1), and the last is (kn + first(n-1))/2 |
| BezierSpline.NaturalSplineIffTwo | library/src/main/java/com/johnnym/pointgraph/BezierSplineUtil.kt:23-34 | for two knots the natural end conditions alone fix both control points |
| BezierSpline.NaturalSplineIff | library/src/main/java/com/johnnym/pointgraph/BezierSplineUtil.kt:13-78 | a choice of control points is a natural cubic spline through the knots if and only if it is the one getCurveControlPoints computes |
| BezierSpline.CurveControlPointsNatural | library/src/main/java/com/johnnym/pointgraph/BezierSplineUtil.kt:13-78 | as NaturalSplineIff, for both coordinates of the points at once |
| BezierSpline.TwoKnotsStraight | library/src/main/java/com/johnnym/pointgraph/BezierSplineUtil.kt:23-34 | two knots give one control point each, one third and two thirds of the way from k0 to k1 |
| BezierSpline.CurveSmoothAtKnots | library/src/main/java/com/johnnym/pointgraph/BezierSplineUtil.kt:66-70 | C1 continuity: each inner knot is the midpoint of the second control point before it and the first control point after it |
| BezierSpline.GetCurveControlPoints | library/src/main/java/com/johnnym/pointgraph/BezierSplineUtil.kt:13-78 | fewer than two knots is the IllegalArgumentException, and only then; otherwise the result is the natural spline's control points, one pair per segment |
| BezierSpline.AssembleControlPoints | library/src/main/java/com/johnnym/pointgraph/BezierSplineUtil.kt:61-77 | the first control points pair the two solutions, the second ones reflect the next first point through the next knot, and the last is halfway between the end knot and the last first point; together they are CurveControlPoints |
| GraphData.NewPointsData | library/src/main/java/com/johnnym/pointgraph/PointsData.kt:23-33 | an empty list throws, and only then; otherwise minX/maxX are the first and last x, minY is 0, xRange is maxX - minX, and maxY is at least 0 and at least every y, and is 0 or some point's y |
| GraphData.Middle | library/src/main/java/com/johnnym/pointgraph/Range.kt:22-23 | the middle lies between from and to and is equally far from both |
| GraphData.Width | library/src/main/java/com/johnnym/pointgraph/Range.kt:25-26 | from plus range is to |
| GraphData.NewRangeData | library/src/main/java/com/johnnym/pointgraph/RangeData.kt:23-49 | an empty list throws, and only then; otherwise there are n+1 knots: (from0, count0/2), then (middle, count) of each range but the last, then (to of the last, its count/2) |
| GraphData.ContiguousKnotsIncrease | library/src/main/java/com/johnnym/pointgraph/RangeData.kt:23-49 | for contiguous increasing ranges the knots go strictly left to right, from the first start to the last end |
| GraphData.ApproxCountEmptyQuery | library/src/main/java/com/johnnym/pointgraph/RangeData.kt:58-62 | an empty or inverted query counts 0 |
| GraphData.ApproxCountDisjoint | library/src/main/java/com/johnnym/pointgraph/RangeData.kt:58-62 | a query that meets no range counts 0 |
| GraphData.ApproxCountCovering | library/src/main/java/com/johnnym/pointgraph/RangeData.kt:58-62 | a query covering every range counts the sum of the counts |
| GraphData.ApproxCountSplit | library/src/main/java/com/johnnym/pointgraph/RangeData.kt:58-62 | splitting the query interval in two splits the count into two summands |
| GraphData.ApproxCountNonNegative | library/src/main/java/com/johnnym/pointgraph/RangeData.kt:58-62 | with positive widths and non-negative counts the count is non-negative |
| GraphData.ApproxCountMonotone | library/src/main/java/com/johnnym/pointgraph/RangeData.kt:58-62 | widening the query never lowers the count |
| LegacyData.Middle | library/src/main/java/com/johnnym/lagrange/Range.kt:5-6 | the Long middle lies between from and to, and is the sum halved toward zero |
| LegacyData.MiddleOfNegativeOddSum | library/src/main/java/com/johnnym/lagrange/Range.kt:5-6 | a negative odd sum is rounded up, unlike Euclidean division |
| LegacyData.Width | library/src/main/java/com/johnnym/lagrange/Range.kt:8-9 | from plus range is to, and range is non-negative exactly when from <= to |
| LegacyData.NewRangeData | library/src/main/java/com/johnnym/lagrange/RangeData.kt:10-36 | an empty list throws, and only then; otherwise n+1 knots, first (from0, count0/2 in Long), inner (middle, count), last (to, count/2), wrapped in a PointsData |
| LegacyData.BoundsMatchPoints | library/src/main/java/com/johnnym/lagrange/PointsData.kt:14-24 | the PointsData of range data has minX = first start, maxX = last end and xRange = their difference |
| LegacyData.XRange | library/src/main/java/com/johnnym/lagrange/LaGrange.kt:590-595 | minX plus xRange is maxX |
| LegacyData.ApproxCountEmptyQuery | library/src/main/java/com/johnnym/lagrange/RangeData.kt:38-42 | an empty or inverted query counts 0 |
| LegacyData.ApproxCountDisjoint | library/src/main/java/com/johnnym/lagrange/RangeData.kt:38-42 | a query meeting no range counts 0 |
| LegacyData.ApproxCountCovering | library/src/main/java/com/johnnym/lagrange/RangeData.kt:38-42 | a covering query counts the sum of the Long counts |
| Touch.LaGrangeDown | library/src/main/java/com/johnnym/pointgraph/lagrange/LaGrangeTouchHandler.kt:30-46 | a press records its point and sets both, min, max or no flag by the fields it lands in; only a single-field press calls a selector back |
| Touch.LaGrangeResolve | library/src/main/java/com/johnnym/pointgraph/lagrange/LaGrangeTouchHandler.kt:47-58 | in the both-state a move left of the press selects min, right selects max, and no move stays undecided with no callback |
| Touch.LaGrangeRelease | library/src/main/java/com/johnnym/pointgraph/lagrange/LaGrangeTouchHandler.kt:59-71 | release and cancel clear all three flags and call nothing |
| Touch.LaGrangeStepAtMostOne | library/src/main/java/com/johnnym/pointgraph/lagrange/LaGrangeTouchHandler.kt:26-64 | if a press finds no flag set, one event leaves at most one flag set |
| Touch.LaGrangeRunAtMostOne | library/src/main/java/com/johnnym/pointgraph/lagrange/LaGrangeTouchHandler.kt:26-64 | over any sequence of complete gestures from the idle state, at most one flag is ever set |
| Touch.LaGrangePressWithoutRelease | library/src/main/java/com/johnnym/pointgraph/lagrange/LaGrangeTouchHandler.kt:30-46 | without the release, a second press leaves two flags set (a press never clears stale flags) |
| Touch.LaGrangeTouchHandler.HandleTouchEvent | library/src/main/java/com/johnnym/pointgraph/lagrange/LaGrangeTouchHandler.kt:26-72 | the handler's new state is LaGrangeStep of the old, asking the hit tests only at a press, and its callbacks are LaGrangeFired |
| Touch.LaGrangeTouchHandler.IsAnySelectorSelected | library/src/main/java/com/johnnym/pointgraph/lagrange/LaGrangeTouchHandler.kt:74 | the disjunction of the three flags |
| Touch.GraphEndStepCalls | library/src/main/java/com/johnnym/pointgraph/graphend/GraphEndTouchHandler.kt:24-50 | a hit press selects and calls pressed then changed; a release or cancel deselects and calls released only if selected; a move calls changed exactly when selected |
| Touch.GraphEndStepMatched | library/src/main/java/com/johnnym/pointgraph/graphend/GraphEndTouchHandler.kt:35-46 | one event releases only an outstanding press, and leaves a press outstanding iff the selector is selected |
| Touch.GraphEndReleasesMatched | library/src/main/java/com/johnnym/pointgraph/graphend/GraphEndTouchHandler.kt:24-50 | over any event sequence a release is reported only after an unreleased press, and a press is outstanding at the end iff the selector is selected |
| Touch.GraphEndTouchHandler.HandleTouchEvent | library/src/main/java/com/johnnym/pointgraph/graphend/GraphEndTouchHandler.kt:24-50 | the handler's state and calls are those of GraphEndStep |
| Touch.GraphEndTouchHandler.IsSelectorSelected | library/src/main/java/com/johnnym/pointgraph/graphend/GraphEndTouchHandler.kt:52 | returns the flag |
| Selectors.Clamp | library/src/main/java/com/johnnym/pointgraph/lagrange/LaGrange.kt:151-157 | Math.min(Math.max(v, lo), hi) lies in [lo, hi], keeps a value inside it and sends a value below or above to that end |
| Selectors.ClampIdempotent | library/src/main/java/com/johnnym/pointgraph/lagrange/LaGrange.kt:151-157 | clamping twice is clamping once |
| Selectors.NormalizeRange | library/src/main/java/com/johnnym/pointgraph/lagrange/LaGrange.kt:151-164 | after the defaults, clamps and raising of max, minX <= min <= max <= maxX |
| Selectors.NormalizeRangeKeeps | library/src/main/java/com/johnnym/pointgraph/lagrange/LaGrange.kt:151-164 | ordered wanted values inside the data range are kept |
| Selectors.NormalizeRangeDefaults | library/src/main/java/com/johnnym/pointgraph/lagrange/LaGrange.kt:151-152 | a null min is minX and a null max is maxX |
| Selectors.NormalizeRangeMinFirst | library/src/main/java/com/johnnym/pointgraph/LaGrange.kt:272-286 | the min is the wanted min clamped into the data range, and the max is the wanted max clamped into [min, maxX] |
| Selectors.NormalizeRangeIdempotent | library/src/main/java/com/johnnym/pointgraph/lagrange/LaGrange.kt:151-164 | normalising twice is normalising once |
| Selectors.NormalizeValue | library/src/main/java/com/johnnym/pointgraph/graphend/GraphEnd.kt:236-240 | null is minX, the value is clamped into [minX, maxX], and a value inside it is kept |
| Selectors.DrawableHasTwoKnots | library/src/main/java/com/johnnym/pointgraph/BezierSplineUtil.kt:13-15 | drawable data has at least two points, so the spline views never reach the throw; one-point data is not drawable |
| Selectors.MinDrag | library/src/main/java/com/johnnym/pointgraph/lagrange/LaGrange.kt:58-64 | a min drag is x clamped into [graphLeft, max selector position] |
| Selectors.MaxDrag | library/src/main/java/com/johnnym/pointgraph/lagrange/LaGrange.kt:71-77 | a max drag is x clamped into [min selector position, graphRight] |
| Selectors.DragsKeepOrder | library/src/main/java/com/johnnym/pointgraph/lagrange/LaGrange.kt:58-82 | either drag keeps graphLeft <= minPos <= maxPos <= graphRight |
| Selectors.AffineKeepsOrder | library/src/main/java/com/johnnym/pointgraph/lagrange/LaGrange.kt:308-312 | the value/position map keeps two ordered in-range points ordered and in range |
| Selectors.XTransformsAreAffine | library/src/main/java/com/johnnym/pointgraph/GraphEnd.kt:435-441 | getXValueFromXGraphPosition and getXGraphPositionFromXValue are the affine maps between the graph's x span and the data's |
| Selectors.XTransformsInverse | library/src/main/java/com/johnnym/pointgraph/graphend/GraphEnd.kt:483-489 | the two x transforms undo each other, in both orders |
| Selectors.YTransformEnds | library/src/main/java/com/johnnym/pointgraph/GraphEnd.kt:443-445 | the y transform sends maxY to the graph top and minY to the x axis line |
| Selectors.YTransformIsAffine | library/src/main/java/com/johnnym/pointgraph/GraphEnd.kt:443-445 | the y transform is the affine map from [minY, maxY] onto [lineY, topY] |
| Paths.GraphPoints | library/src/main/java/com/johnnym/pointgraph/GraphPath.kt:42-50 | one knot per data point |
| Paths.GraphPointsBounds | library/src/main/java/com/johnnym/pointgraph/GraphPath.kt:42-50 | the knots start at the box's left edge and end at its right edge; y = 0 lands on the base line and y = maxY on the top line |
| Paths.SplinePathShape | library/src/main/java/com/johnnym/pointgraph/GraphPath.kt:27-39 | the path moves to the left end of the base line, lines to knot 0, has one cubic per segment ending at the next knot with smooth joins, and lines to the right end of the base line |
| Paths.GraphPath.GeneratePath | library/src/main/java/com/johnnym/pointgraph/GraphPath.kt:13-40 | stores the four bounds and replaces the commands with the spline path through the data's knots; the result depends on the arguments alone |
| Paths.GraphPath.IssueSplinePath | library/src/main/java/com/johnnym/pointgraph/GraphPath.kt:27-39 | reset, then the moveTo, lineTo and cubicTo calls give exactly the spline path |
| Rects.RectF.SetXMiddle | library/src/main/java/com/johnnym/pointgraph/utils/Extensions.kt:11-13 | left becomes x - width/2; size and top are kept, centerX and getXPosition become x |
| Rects.RectF.SetYMiddle | library/src/main/java/com/johnnym/lagrange/utils/Extensions.kt:21-23 | top becomes y - height/2; size and left are kept, and centerY becomes y |
| Rects.RectF.SetMiddle | library/src/main/java/com/johnnym/pointgraph/utils/Extensions.kt:6-9 | both centres move to (x, y), and the size is kept |
| Rects.Rect.SetXMiddle | library/src/main/java/com/johnnym/pointgraph/utils/Extensions.kt:28-30 | left becomes x - width/2 in Int division; the size is kept, and for a non-negative width centerX is x |
| Rects.Rect.SetYMiddle | library/src/main/java/com/johnnym/pointgraph/utils/Extensions.kt:32-34 | top becomes y - height/2 in Int division; the size is kept, and for a non-negative height centerY is y |
| Rects.Rect.SetMiddle | library/src/main/java/com/johnnym/pointgraph/utils/Extensions.kt:23-26 | both corners are centred as above, and the size is kept |
| Rects.CenteredStartExact | library/src/main/java/com/johnnym/pointgraph/utils/Extensions.kt:28-34 | an Int rect of non-negative size centred at x has centerX exactly x |
| Rects.CenteredStartNegativeOdd | library/src/main/java/com/johnnym/pointgraph/utils/Extensions.kt:28-34 | for a negative odd width the centre lands one left of x |
| Utils.GraphOps.constructor | library/src/main/java/com/johnnym/pointgraph/utils/GraphOps.kt:26-29 | starts hidden, with scale factor 0 |
| Utils.GraphOps.ShowGraph | library/src/main/java/com/johnnym/pointgraph/utils/GraphOps.kt:39-49 | shown afterwards; the non-animated call sets the factor to 1 |
| Utils.GraphOps.HideGraph | library/src/main/java/com/johnnym/pointgraph/utils/GraphOps.kt:51-61 | hidden afterwards; the non-animated call sets the factor to 0 |
| Utils.GraphOps.ToggleGraphVisibility | library/src/main/java/com/johnnym/pointgraph/utils/GraphOps.kt:31-37 | flips the flag (so two toggles restore it), with the factor of the show or hide it runs |
| Utils.SpacedEnds | library/src/main/java/com/johnnym/pointgraph/utils/AxisIndicatorLabels.kt:21-26 | the first spaced value is the start and the last is the end |
| Utils.SpacedStep | library/src/main/java/com/johnnym/pointgraph/utils/AxisIndicatorLabels.kt:21-26 | consecutive values differ by (end - start)/(n - 1) |
| Utils.SpacedMonotone | library/src/main/java/com/johnnym/pointgraph/utils/AxisIndicatorLabels.kt:21-26 | for start <= end the values never decrease |
| Utils.SpacedByDistance | library/src/main/java/com/johnnym/pointgraph/utils/AxisIndicators.kt:26-31 | start + i * distance is the same value as i * (end - start)/(n - 1) + start |
| Utils.AxisIndicatorLabels.constructor | library/src/main/java/com/johnnym/pointgraph/utils/AxisIndicatorLabels.kt:11-19 | numberOfMiddleLabels + 2 numbers and label positions |
| Utils.AxisIndicatorLabels.UpdateNumbers | library/src/main/java/com/johnnym/pointgraph/utils/AxisIndicatorLabels.kt:21-26 | numbers are evenly spaced from minValue to maxValue |
| Utils.AxisIndicatorLabels.SetLimitValues | library/src/main/java/com/johnnym/pointgraph/utils/AxisIndicatorLabels.kt:28-35 | label positions evenly spaced from start to end, the y stored, the numbers unchanged |
| Utils.AxisIndicators.constructor | library/src/main/java/com/johnnym/pointgraph/utils/AxisIndicators.kt:11-23 | numberOfMiddleIndicators + 2 separate rectangles of the drawable's size and as many positions |
| Utils.AxisIndicators.SetLimitValues | library/src/main/java/com/johnnym/pointgraph/utils/AxisIndicators.kt:25-35 | positions evenly spaced from the axis start to its end; each rectangle is centred on the Int truncations of its position and of the axis y, keeping its size |
| Dimensions.LaGrangeDimensions.Update | library/src/main/java/com/johnnym/pointgraph/lagrange/LaGrangeDimensions.kt:17-24 | the graph box and numbers line from the view edges and offsets alone, so the graph's width is the view's less two paddings |
| Dimensions.GraphEndDimensions.UpdateDimensions | library/src/main/java/com/johnnym/pointgraph/graphend/GraphEndDimensions.kt:15-20 | the graph box from the view edges and offsets alone, so the graph's width is the view's less two paddings |
| LaGrangeView.LaGrange.AssignMinSelectorValue | library/src/main/java/com/johnnym/pointgraph/lagrange/LaGrange.kt:96-101 | every assignment of the min value is reported to the min listeners while listeners are enabled |
| LaGrangeView.LaGrange.AssignMaxSelectorValue | library/src/main/java/com/johnnym/pointgraph/lagrange/LaGrange.kt:106-110 | every assignment of the max value is reported to the max listeners while listeners are enabled |
| LaGrangeView.LaGrange.TransformSelectorXPositionToValue | library/src/main/java/com/johnnym/pointgraph/lagrange/LaGrange.kt:308-309 | the graph's left edge is minX and its right edge maxX |
| LaGrangeView.LaGrange.TransformSelectorValueToXPosition | library/src/main/java/com/johnnym/pointgraph/lagrange/LaGrange.kt:311-312 | minX is drawn at the graph's left edge and maxX at its right edge |
| LaGrangeView.LaGrange.TransformsInverse | library/src/main/java/com/johnnym/pointgraph/lagrange/LaGrange.kt:308-312 | transformSelectorXPositionToValue and transformSelectorValueToXPosition undo each other |
| LaGrangeView.LaGrange.ResetDataDrawObjects | library/src/main/java/com/johnnym/pointgraph/lagrange/LaGrange.kt:300-306 | with data, both selectors move to the positions of their values |
| LaGrangeView.LaGrange.SetPointsData | library/src/main/java/com/johnnym/pointgraph/lagrange/LaGrange.kt:119-133 | new data resets the values to (minX, maxX), each reported, with the selectors there; null data keeps the values |
| LaGrangeView.LaGrange.SetSelectorsValues | library/src/main/java/com/johnnym/pointgraph/lagrange/LaGrange.kt:144-174 | nothing changes while any selector flag is set or without data; otherwise the normalised values are assigned min first, reported, and drawn |
| LaGrangeView.LaGrange.MinSelectorChanged | library/src/main/java/com/johnnym/pointgraph/lagrange/LaGrange.kt:58-69 | the min selector moves to the clamped drag; with data the min value becomes that position's value, reported |
| LaGrangeView.LaGrange.MaxSelectorChanged | library/src/main/java/com/johnnym/pointgraph/lagrange/LaGrange.kt:71-82 | the max selector moves to the clamped drag; with data the max value becomes that position's value, reported |
| LaGrangeView.LaGrange.OnTouchEvent | library/src/main/java/com/johnnym/pointgraph/lagrange/LaGrange.kt:232-245 | handled iff there is data; the handler steps as LaGrangeStep and at most one selector moves by its clamp; order of the selectors and values at their selectors are preserved |
| LaGrangeView.LaGrange.OnSizeChanged | library/src/main/java/com/johnnym/pointgraph/lagrange/LaGrange.kt:219-230 | the dimensions (graph box, numbers line) follow the new size and padding, and the selectors are redrawn at their values; listenersEnabled stays |
| LaGrangeView.LaGrange.OnRestoreInstanceState | library/src/main/java/com/johnnym/pointgraph/lagrange/LaGrange.kt:264-278 | the saved data and values come back with no listener call, the selectors at the values, listeners enabled again; null data keeps the selector positions |
| GraphEndView.ListenerCalls | library/src/main/java/com/johnnym/pointgraph/graphend/GraphEnd.kt:357-389 | the view's calls for the handler's events, at most one per event; the calls of a whole event are stated by ListenerCallsOfStep |
| GraphEndView.ListenerCallsOfStep | library/src/main/java/com/johnnym/pointgraph/graphend/GraphEnd.kt:357-389 | one event's listener calls: pressed on a hit press, released on releasing a selected selector, then the new value while selected and listeners are enabled |
| GraphEndView.GraphEnd.AssignSelectorValue | library/src/main/java/com/johnnym/pointgraph/graphend/GraphEnd.kt:101-106 | every assignment of the value is reported while listeners are enabled |
| GraphEndView.GraphEnd.RefreshSelectorPosition | library/src/main/java/com/johnnym/pointgraph/graphend/GraphEnd.kt:511-513 | the selector is drawn at the position of its value |
| GraphEndView.GraphEnd.RefreshGraphValuesWith | library/src/main/java/com/johnnym/pointgraph/graphend/GraphEnd.kt:503-509 | the data and the given value, reported while listeners are enabled, with the selector at the value |
| GraphEndView.GraphEnd.RefreshGraphValues | library/src/main/java/com/johnnym/pointgraph/graphend/GraphEnd.kt:495-509 | new data puts the value at minX (reported) and the selector at it; null data changes nothing else |
| GraphEndView.GraphEnd.SetPointsData | library/src/main/java/com/johnnym/pointgraph/graphend/GraphEnd.kt:215-222 | as RefreshGraphValues; an animated call also shows the graph; layout stays |
| GraphEndView.GraphEnd.SetSelectorValue | library/src/main/java/com/johnnym/pointgraph/graphend/GraphEnd.kt:230-248 | nothing changes while selected or without data; otherwise the normalised value is assigned, reported and drawn, inside the graph; data, touch flags, layout, listenersEnabled and graphIsShown stay |
| GraphEndView.GraphEnd.ToggleGraphVisibility | library/src/main/java/com/johnnym/pointgraph/graphend/GraphEnd.kt:274-280 | flips graphIsShown |
| GraphEndView.GraphEnd.ShowGraph | library/src/main/java/com/johnnym/pointgraph/graphend/GraphEnd.kt:285-290 | sets graphIsShown |
| GraphEndView.GraphEnd.HideGraph | library/src/main/java/com/johnnym/pointgraph/graphend/GraphEnd.kt:295-300 | clears graphIsShown |
| GraphEndView.GraphEnd.OnSizeChanged | library/src/main/java/com/johnnym/pointgraph/graphend/GraphEnd.kt:309-346 | the graph lines and x span follow the new size and padding; the selector is redrawn at its value; only the layout and selector position change, listenersEnabled stays |
| GraphEndView.GraphEnd.OnTouchEvent | library/src/main/java/com/johnnym/pointgraph/graphend/GraphEnd.kt:348-390 | handled iff there is data and the selector is selected afterwards; flags and calls as GraphEndStep and ListenerCalls; while selected the selector is at the drag clamped into the graph and the value its value; data, layout, listenersEnabled and graphIsShown stay |
| GraphEndView.GraphEnd.FollowFinger | library/src/main/java/com/johnnym/pointgraph/graphend/GraphEnd.kt:373-387 | handled iff selected after the step; then the selector is at the clamped drag and the value its value, reported while listeners are enabled; otherwise nothing moves |
| GraphEndView.GraphEnd.TrackSelection | library/src/main/java/com/johnnym/pointgraph/graphend/GraphEnd.kt:357-370 | a hit press selects (reported pressed); a release or cancel of a selected selector deselects (reported released) |
| GraphEndView.GraphEnd.OnRestoreInstanceState | library/src/main/java/com/johnnym/pointgraph/graphend/GraphEnd.kt:419-434 | saved data and value come back with no listener call, listeners enabled again; null data keeps the value and selector; touch flags, layout and graphIsShown stay |
| PointGraphEndView.GraphKnots | library/src/main/java/com/johnnym/pointgraph/GraphEnd.kt:484-492 | one knot per data point; GraphKnotsAreGraphPoints shows they are GraphPath's graph points |
| PointGraphEndView.GraphKnotsAreGraphPoints | library/src/main/java/com/johnnym/pointgraph/GraphEnd.kt:484-492 | the view's knots are GraphPath's graph points in the box from the x axis line to the graph top |
| PointGraphEndView.GraphEnd.AssignSelectorValue | library/src/main/java/com/johnnym/pointgraph/GraphEnd.kt:102-107 | every assignment of the value is reported while listeners are enabled |
| PointGraphEndView.GraphEnd.GenerateSplineGraphPath | library/src/main/java/com/johnnym/pointgraph/GraphEnd.kt:464-478 | the path becomes the spline through the data's knots, closed along the x axis line |
| PointGraphEndView.GraphEnd.RefreshSelectorPosition | library/src/main/java/com/johnnym/pointgraph/GraphEnd.kt:480-482 | the selector is drawn at the position of its value |
| PointGraphEndView.GraphEnd.RefreshGraphValuesWith | library/src/main/java/com/johnnym/pointgraph/GraphEnd.kt:455-462 | the data and the given value, reported while listeners are enabled, the path regenerated and the selector at the value |
| PointGraphEndView.GraphEnd.RefreshGraphValues | library/src/main/java/com/johnnym/pointgraph/GraphEnd.kt:447-462 | new data puts the value at minX (reported), regenerates the path and draws the selector; null data changes nothing else |
| PointGraphEndView.GraphEnd.SetPointsData | library/src/main/java/com/johnnym/pointgraph/GraphEnd.kt:212-224 | as RefreshGraphValues; layout stays |
| PointGraphEndView.GraphEnd.SetSelectorValue | library/src/main/java/com/johnnym/pointgraph/GraphEnd.kt:226-244 | nothing changes while selected or without data; otherwise the normalised value is assigned, reported and drawn; data, path, touch flags, layout and listenersEnabled stay |
| PointGraphEndView.GraphEnd.OnSizeChanged | library/src/main/java/com/johnnym/pointgraph/GraphEnd.kt:261-296 | the graph top, the x axis line and the x span (the axis ends) follow the new size and padding; with data the path is regenerated and the selector redrawn; listenersEnabled stays |
| PointGraphEndView.GraphEnd.OnTouchEvent | library/src/main/java/com/johnnym/pointgraph/GraphEnd.kt:298-340 | handled iff there is data; flags and calls as GraphEndStep and ListenerCalls; while selected the selector is at the drag clamped into the graph; data, path, layout and listenersEnabled stay |
| PointGraphEndView.GraphEnd.FollowFinger | library/src/main/java/com/johnnym/pointgraph/GraphEnd.kt:323-329 | while selected the selector is at the clamped drag and the value its value, reported while listeners are enabled; otherwise nothing moves |
| PointGraphEndView.GraphEnd.TrackSelection | library/src/main/java/com/johnnym/pointgraph/GraphEnd.kt:307-320 | a hit press selects (reported); a release or cancel of a selected selector deselects (reported) |
| PointGraphEndView.GraphEnd.OnRestoreInstanceState | library/src/main/java/com/johnnym/pointgraph/GraphEnd.kt:369-384 | saved data and value come back with the path, with no listener call; null data keeps value, selector and path; touch flags and layout stay |
| PointLaGrangeView.LaGrange.AssignMinSelectorValue | library/src/main/java/com/johnnym/pointgraph/LaGrange.kt:81-87 | every assignment of the min value is reported while listeners are enabled |
| PointLaGrangeView.LaGrange.AssignMaxSelectorValue | library/src/main/java/com/johnnym/pointgraph/LaGrange.kt:89-96 | every assignment of the max value is reported while listeners are enabled |
| PointLaGrangeView.LaGrange.UpdateSelectorValues | library/src/main/java/com/johnnym/pointgraph/LaGrange.kt:569-572 | both values from the selector positions, min then max, each reported |
| PointLaGrangeView.LaGrange.RefreshNumbers | library/src/main/java/com/johnnym/pointgraph/LaGrange.kt:576-578 | numbers[i] = i * xRange/(size - 1) + minX |
| PointLaGrangeView.LaGrange.RefreshSelectorsPositions | library/src/main/java/com/johnnym/pointgraph/LaGrange.kt:589-592 | both selectors are drawn at the positions of their values |
| PointLaGrangeView.LaGrange.RefreshGraphValues | library/src/main/java/com/johnnym/pointgraph/LaGrange.kt:574-587 | with data: the numbers, the path, the values reset to (minX, maxX) and reported, the selectors drawn there |
| PointLaGrangeView.LaGrange.SetPointsData | library/src/main/java/com/johnnym/pointgraph/LaGrange.kt:245-255 | the data, then RefreshGraphValues |
| PointLaGrangeView.LaGrange.SetSelectorsValues | library/src/main/java/com/johnnym/pointgraph/LaGrange.kt:266-296 | nothing changes while min or max is held or without data (the both-state does not block); otherwise normalised, assigned min first, reported, drawn |
| PointLaGrangeView.LaGrange.LayOut | library/src/main/java/com/johnnym/pointgraph/LaGrange.kt:341-379 | the graph box, numbers line and x axis from the new size, with indicators evenly spaced along the axis |
| PointLaGrangeView.LaGrange.PlaceIndicators | library/src/main/java/com/johnnym/pointgraph/LaGrange.kt:360-367 | indicator positions evenly spaced from left to right |
| PointLaGrangeView.LaGrange.OnSizeChanged | library/src/main/java/com/johnnym/pointgraph/LaGrange.kt:341-385 | the layout (x axis ends, graph box, numbers line) follows the new size; with data the path is regenerated and the selectors redrawn |
| PointLaGrangeView.LaGrange.Redraw | library/src/main/java/com/johnnym/pointgraph/LaGrange.kt:380-383 | with data the path is the data's spline in the new box and the selectors sit at their values |
| PointLaGrangeView.LaGrange.TrackSelectors | library/src/main/java/com/johnnym/pointgraph/LaGrange.kt:405-436 | the inline flag update is LaGrangeStep |
| PointLaGrangeView.LaGrange.DragMinSelector | library/src/main/java/com/johnnym/pointgraph/LaGrange.kt:439-446 | the min selector at the clamped drag, both values from the positions and reported, order kept |
| PointLaGrangeView.LaGrange.DragMaxSelector | library/src/main/java/com/johnnym/pointgraph/LaGrange.kt:447-456 | the max selector at the clamped drag, both values from the positions and reported, order kept |
| PointLaGrangeView.LaGrange.FollowFinger | library/src/main/java/com/johnnym/pointgraph/LaGrange.kt:437-455 | the selected selector (min first) follows the finger by its clamp and both values are reported; with none selected nothing moves |
| PointLaGrangeView.LaGrange.OnTouchEvent | library/src/main/java/com/johnnym/pointgraph/LaGrange.kt:387-463 | handled iff there is data; flags as LaGrangeStep; no callback changes nothing else, a callback moves one selector by its clamp and reports both values; order and values at selectors preserved |
| PointLaGrangeView.RestoredSelectorValues | library/src/main/java/com/johnnym/pointgraph/LaGrange.kt:515-529 | the values restore leaves as written: with saved data, (minX, maxX) whatever was saved |
| PointLaGrangeView.RestoreDiscardsSavedValues | library/src/main/java/com/johnnym/pointgraph/LaGrange.kt:515-529 | data over [0, 10] with a saved selection [3, 7] comes back selecting [0, 10] |
| PointLaGrangeView.LaGrange.OnRestoreInstanceState | library/src/main/java/com/johnnym/pointgraph/LaGrange.kt:515-529 | as written: the saved data comes back with RestoredSelectorValues, numbers, path and selectors, with no listener call |
| PointLaGrangeView.LaGrange.OnRestoreInstanceStateKeepingValues | library/src/main/java/com/johnnym/pointgraph/lagrange/LaGrange.kt:264-278 | corrected restore: the saved data and the saved values, numbers, path and selectors, with no listener call |
| LegacyLaGrangeView.AbsReal | library/src/main/java/com/johnnym/lagrange/LaGrange.kt:323-328 | Math.abs on Float is non-negative and is r or -r |
| LegacyLaGrangeView.LegacyStepAgrees | library/src/main/java/com/johnnym/lagrange/LaGrange.kt:312-360 | away from a press on both fields and a move inside the dead zone of an undecided press, the legacy flag update is the two-selector handler's |
| LegacyLaGrangeView.LegacyCentreRule | library/src/main/java/com/johnnym/lagrange/LaGrange.kt:318-335 | a press on both fields selects min iff only min's centre is close, max iff only max's is, and stays undecided iff both or neither are |
| LegacyLaGrangeView.LegacyDeadZone | library/src/main/java/com/johnnym/lagrange/LaGrange.kt:344-354 | inside the dead zone an undecided press stays undecided and no selector moves |
| LegacyLaGrangeView.LegacyStepAtMostOne | library/src/main/java/com/johnnym/lagrange/LaGrange.kt:312-360 | if a press finds no flag set, one event leaves at most one flag set |
| LegacyLaGrangeView.LegacyNumberEnds | library/src/main/java/com/johnnym/lagrange/LaGrange.kt:593-595 | the first Long number is minX and the last is maxX, whatever the rounding |
| LegacyLaGrangeView.LegacyNumberMonotone | library/src/main/java/com/johnnym/lagrange/LaGrange.kt:593-595 | for xRange >= 0 the Long numbers never decrease |
| LegacyLaGrangeView.NumberPositionsEven | library/src/main/java/com/johnnym/lagrange/LaGrange.kt:271-284 | the indicator-centre formulas put the numbers evenly spaced from graphMinXPosition to graphMaxXPosition |
| LegacyLaGrangeView.BarTopsAt | library/src/main/java/com/johnnym/lagrange/LaGrange.kt:627-634 | commands 2i and 2i+1 of the bar tops are range i's two top corners |
| LegacyLaGrangeView.BarPathEnds | library/src/main/java/com/johnnym/lagrange/LaGrange.kt:621-639 | the bar graph starts at the left end and ends at the right end of the x axis line |
| LegacyLaGrangeView.BarPathTops | library/src/main/java/com/johnnym/lagrange/LaGrange.kt:627-634 | range i's bar top runs level at its count's height from its start to its end |
| LegacyLaGrangeView.LegacyValuesInBounds | library/src/main/java/com/johnnym/lagrange/LaGrange.kt:559-566 | the Long values of ordered selectors inside the graph are ordered and inside [minX, maxX] |
| LegacyLaGrangeView.SetYMiddleAsWritten | library/src/main/java/com/johnnym/lagrange/LaGrange.kt:485-487 | as written: the top becomes y - width/2, so the centre lands at y + (height - width)/2 |
| LegacyLaGrangeView.SetYMiddleAsWrittenMisses | library/src/main/java/com/johnnym/lagrange/LaGrange.kt:485-487 | the centre lands on y iff the rectangle is square; the 0-wide, 4-high connect line centred at 10 lands at 12 |
| LegacyLaGrangeView.LaGrange.GetGraphPointsFromRangeData | library/src/main/java/com/johnnym/lagrange/LaGrange.kt:646-684 | the imperative knot list is GraphPath's graph points of the range data's PointsData |
| LegacyLaGrangeView.LaGrange.GenerateSplineGraphPath | library/src/main/java/com/johnnym/lagrange/LaGrange.kt:605-619 | the spline path through those knots, closed along the x axis line |
| LegacyLaGrangeView.LaGrange.GenerateBarGraphPath | library/src/main/java/com/johnnym/lagrange/LaGrange.kt:621-639 | the bar path: reset, base at minX, the top of every range, base at maxX |
| LegacyLaGrangeView.IssueBarTops | library/src/main/java/com/johnnym/lagrange/LaGrange.kt:627-634 | the loop appends exactly the bar tops (BarTops) of the range list, in order, to the path's commands |
| LegacyLaGrangeView.LaGrange.RefreshNumbers | library/src/main/java/com/johnnym/lagrange/LaGrange.kt:593-595 | numbers[i] = i * xRange/(size - 1) + minX in Long division |
| LegacyLaGrangeView.LaGrange.RefreshSelectorsPositions | library/src/main/java/com/johnnym/lagrange/LaGrange.kt:641-644 | both selectors are drawn at the positions of their values |
| LegacyLaGrangeView.LaGrange.RefreshGraphValuesWith | library/src/main/java/com/johnnym/lagrange/LaGrange.kt:590-603 | the data, numbers and values (no listener call), both paths and the selectors at the values |
| LegacyLaGrangeView.LaGrange.SetRangeData | library/src/main/java/com/johnnym/lagrange/LaGrange.kt:576-588 | new data selects (minX, maxX); null data keeps the values, positions, numbers and both paths; no listener call |
| LegacyLaGrangeView.LaGrange.LayOut | library/src/main/java/com/johnnym/lagrange/LaGrange.kt:259-293 | the x axis between the paddings, the graph half a line thickness inside it, selectors on the axis middle, numbers evenly spaced across the graph |
| LegacyLaGrangeView.LaGrange.PlaceNumbers | library/src/main/java/com/johnnym/lagrange/LaGrange.kt:271-284 | the number positions are evenly spaced between the two end indicator centres |
| LegacyLaGrangeView.LaGrange.OnSizeChanged | library/src/main/java/com/johnnym/lagrange/LaGrange.kt:259-304 | the layout (x axis ends, graph span half a line thickness inside, selectors line) follows the new size; with data both paths are regenerated and the selectors redrawn |
| LegacyLaGrangeView.LaGrange.Redraw | library/src/main/java/com/johnnym/lagrange/LaGrange.kt:299-303 | with data both paths are the data's graphs in the new box and the selectors sit at their values |
| LegacyLaGrangeView.LaGrange.TrackSelectors | library/src/main/java/com/johnnym/lagrange/LaGrange.kt:312-360 | the flag update is LegacyStep, with centre closeness from the current selector positions |
| LegacyLaGrangeView.LaGrange.UpdateSelectorValues | library/src/main/java/com/johnnym/lagrange/LaGrange.kt:559-562 | both values are the toLong of their positions' values |
| LegacyLaGrangeView.LaGrange.DragMinSelector | library/src/main/java/com/johnnym/lagrange/LaGrange.kt:363-371 | the min selector at the clamped drag, both values updated, only the min listeners called, order kept |
| LegacyLaGrangeView.LaGrange.DragMaxSelector | library/src/main/java/com/johnnym/lagrange/LaGrange.kt:372-380 | the max selector at the clamped drag, both values updated, only the max listeners called, order kept |
| LegacyLaGrangeView.LaGrange.FollowFinger | library/src/main/java/com/johnnym/lagrange/LaGrange.kt:363-380 | the selected selector (min first) follows the finger; with none selected nothing moves |
| LegacyLaGrangeView.LaGrange.OnTouchEvent | library/src/main/java/com/johnnym/lagrange/LaGrange.kt:306-391 | handled iff there is data; flags as LegacyStep; a fired selector moves by its clamp and calls its own listeners; order and values at selectors preserved |
| LegacyLaGrangeView.LaGrange.OnRestoreInstanceState | library/src/main/java/com/johnnym/lagrange/LaGrange.kt:422-435 | the saved data comes back with the saved values, numbers, paths and selectors, with no listener call; null data keeps the values, positions, numbers and both paths; touch flags and layout stay |

## Left out

- Float rounding, NaN and infinities. Arithmetic is exact over the reals, so
  members that divide by a span require it nonzero. In Float a zero span
  gives NaN or infinity in the transforms rather than an error.
- PointGraphEndView.GraphEnd.SetPointsData, RefreshGraphValues, OnSizeChanged,
  OnRestoreInstanceState and PointLaGrangeView.LaGrange.SetPointsData,
  RefreshGraphValues, OnSizeChanged, OnRestoreInstanceState,
  OnRestoreInstanceStateKeepingValues require `Drawable` data, for new data
  directly and for the stored data through `Valid()`. That excludes data with
  a single point. In the source such data reaches `getCurveControlPoints` with
  one knot, directly in `pointgraph/GraphEnd.kt` (lines 447-478) and through
  `GraphPath.generatePath` in `pointgraph/LaGrange.kt` (lines 380-383 and
  574-587). That call throws `IllegalArgumentException`
  (`BezierSplineUtil.kt:13-15`). The views' model does not carry that
  exception. `BezierSpline.GetCurveControlPoints` models the throw itself,
  and `Selectors.DrawableHasTwoKnots` shows that one-point data is exactly
  what the requires excludes.
- Canvas drawing, paints and the drawing classes: every `onDraw` and `draw*`
  function, the selector and touch-field rectangles, and the selected-graph
  clip. Selector positions are fields holding the centres.
- Attribute and resource parsing, `onMeasure`, and `convertDpToPixel`. The
  dimensions they produce are constructor parameters, the legacy dead zone of
  one dp included.
- Parcelable serialisation and saved-state classes. Restore takes the saved
  fields as parameters. A state that is not a saved state goes to the
  framework and is not modelled.
- `ValueAnimator` tweening, `invalidate` and
  `requestDisallowInterceptTouchEvent`. Animated moves are modelled by their
  target.
- The graph's y scale factor in the views, which exists only to animate
  showing the graph. `GraphOps` keeps it, with its non-animated values.
- Adding and removing listeners, and the lists they live in. Each listener
  call is an entry of the view's log, so the log says what was dispatched,
  not to whom.
- The sample application.
- LegacyLaGrangeView.LaGrange.RefreshNumbers: Kotlin `Long` wrap-around of
  `i * rangeData.xRange` (`lagrange/LaGrange.kt:594`) is not modelled, because
  Long values are unbounded integers. A product past 2^63 - 1 would wrap in
  the source. The saturation of `toLong` for huge Floats is not modelled
  either.
- Rects.Rect.SetXMiddle, SetYMiddle, SetMiddle: the `Int` edges of
  `android.graphics.Rect` are unbounded integers, and the `Int` overflow of
  their sums is not modelled.
- Touch.MotionEvent has down, move, up and cancel only. Other actions, such
  as a second pointer going down or up, are not modelled. The source's
  inline handlers still run the drag for them, with the first pointer's x
  (`lagrange/LaGrange.kt:363-380`, `pointgraph/LaGrange.kt:437-456`).
- `library/src/main/java/com/johnnym/pointgraph/graphend/GraphEnd.kt`
  declares a spline path and `getGraphPointsFromPointsData`, but none of
  its code fills the path. That view has no path in the model.
- `GraphPath.generatePath` calls `createBezierSplineControlPoints`, which is
  not part of this model. It is taken to be `getCurveControlPoints`.
- The legacy `RangeData` approximate count is stated for its empty,
  disjoint and covering queries only. Its split and monotonicity lemmas are
  proved for the Float copy.
- `LegacyLaGrangeView.LaGrange`: the setYMiddle re-centring of the selector
  shapes during layout is left out, because the shapes are not modelled.
  The re-centring is stated on its own in `LegacyLaGrangeView.SetYMiddleAsWritten`.

## Findings

| source | as written | input that shows it | evidently intended | confidence | as-written member | corrected member |
|---|---|---|---|---|---|---|
| library/src/main/java/com/johnnym/lagrange/LaGrange.kt:485-487 | the view's private `RectF.setYMiddle` moves the top to y minus half the width | the selector connect line is 0 wide and `selectedLineThickness` high (say 4); centred at y = 10 its centre lands at 12 | y minus half the height, as the extension in lagrange/utils/Extensions.kt:21-23 does | not executed | LegacyLaGrangeView.SetYMiddleAsWritten, LegacyLaGrangeView.SetYMiddleAsWrittenMisses | Rects.RectF.SetYMiddle |
| library/src/main/java/com/johnnym/pointgraph/LaGrange.kt:515-529 | restore assigns the saved values, then `refreshGraphValues()` resets them to (minX, maxX) | saved data over [0, 10] with a saved selection [3, 7] comes back selecting [0, 10] | the saved selection survives a restore, as in pointgraph/lagrange/LaGrange.kt:264-278 and lagrange/LaGrange.kt:422-435 | not executed | PointLaGrangeView.RestoredSelectorValues, PointLaGrangeView.RestoreDiscardsSavedValues | PointLaGrangeView.LaGrange.OnRestoreInstanceStateKeepingValues |
