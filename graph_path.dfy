// The filled spline path of the point graph (pointgraph/GraphPath.kt): the
// data points moved into view coordinates become the knots of a Bezier
// spline, and the path runs along the base line, up to the first knot,
// through every spline segment and back down to the base line.
// The path buffer is modelled as the sequence of commands issued since the
// last reset.

module Paths {
  import opened Geometry
  import GraphData
  import BezierSpline

  /** The Path calls the graph issues. */
  datatype PathCommand =
    | MoveTo(to: Point)
    | LineTo(to: Point)
    | CubicTo(control1: Point, control2: Point, to: Point)

  /**
   * getGraphPointsFromPointsData: every data point mapped into the graph
   * box, x from [minX, maxX] onto [graphMinX, graphMaxX] and y from
   * [minY, maxY] onto [graphMinY, graphMaxY]. An empty x or y span would
   * divide by zero (a NaN in Float) and is excluded.
   */
  function GraphPoints(pd: GraphData.PointsData, graphMinX: real, graphMinY: real, graphMaxX: real, graphMaxY: real)
    : (knots: seq<Point>)
    requires pd.minX != pd.maxX && pd.minY != pd.maxY
    ensures |knots| == |pd.points|
  {
    seq(|pd.points|, i requires 0 <= i < |pd.points| =>
      Point(Affine(pd.points[i].x, pd.minX, pd.maxX, graphMinX, graphMaxX),
            Affine(pd.points[i].y, pd.minY, pd.maxY, graphMinY, graphMaxY)))
  }

  /**
   * The knots start at the left edge of the graph box and end at its right
   * edge; a point at zero lands on the base line and a point at the largest
   * y on the top line.
   */
  lemma GraphPointsBounds(pd: GraphData.PointsData, graphMinX: real, graphMinY: real, graphMaxX: real, graphMaxY: real)
    requires GraphData.ValidPointsData(pd) && pd.minX != pd.maxX && pd.minY != pd.maxY
    ensures var knots := GraphPoints(pd, graphMinX, graphMinY, graphMaxX, graphMaxY);
      |knots| >= 2
      && knots[0].x == graphMinX && knots[|knots| - 1].x == graphMaxX
      && (forall i :: 0 <= i < |knots| && pd.points[i].y == 0.0 ==> knots[i].y == graphMinY)
      && (forall i :: 0 <= i < |knots| && pd.points[i].y == pd.maxY ==> knots[i].y == graphMaxY)
  {
    AffineEndpoints(pd.minX, pd.maxX, graphMinX, graphMaxX);
    AffineEndpoints(pd.minY, pd.maxY, graphMinY, graphMaxY);
  }

  /**
   * The commands generatePath issues for the given knots and control
   * points: a move to the left end of the base line, a line up to the first
   * knot, one cubic segment per pair of knots, and a line down to the right
   * end of the base line.
   */
  function SplinePath(knots: seq<Point>, cp: BezierSpline.ControlPoints, graphMinX: real, graphMinY: real, graphMaxX: real)
    : (path: seq<PathCommand>)
    requires |knots| >= 2 && |cp.first| == |knots| - 1 && |cp.second| == |knots| - 1
    ensures |path| == |knots| + 2
  {
    var n := |knots| - 1;
    [MoveTo(Point(graphMinX, graphMinY)), LineTo(knots[0])]
    + seq(n, i requires 0 <= i < n => CubicTo(cp.first[i], cp.second[i], knots[i + 1]))
    + [LineTo(Point(graphMaxX, graphMinY))]
  }

  /**
   * The spline path is closed along the base line and passes through
   * every knot, and its cubic segments meet smoothly: where two segments
   * meet, the knot is the midpoint of the control points on either side.
   */
  lemma SplinePathShape(knots: seq<Point>, graphMinX: real, graphMinY: real, graphMaxX: real)
    requires |knots| >= 2
    ensures var cp := BezierSpline.CurveControlPoints(knots);
      var path := SplinePath(knots, cp, graphMinX, graphMinY, graphMaxX);
      var n := |knots| - 1;
      path[0] == MoveTo(Point(graphMinX, graphMinY))
      && path[|path| - 1] == LineTo(Point(graphMaxX, graphMinY))
      && path[1].to == knots[0]
      && (forall i :: 2 <= i < n + 2 ==> path[i].CubicTo? && path[i].to == knots[i - 1])
      && (forall i :: 2 <= i < n + 1 ==>
            path[i].control2.x + path[i + 1].control1.x == 2.0 * path[i].to.x
            && path[i].control2.y + path[i + 1].control1.y == 2.0 * path[i].to.y)
  {
    var cp := BezierSpline.CurveControlPoints(knots);
    SplinePathAt(knots, cp, graphMinX, graphMinY, graphMaxX);
    BezierSpline.CurveSmoothAtKnots(knots);
  }

  /** The commands of the spline path, one by one, for any control points. */
  lemma SplinePathAt(knots: seq<Point>, cp: BezierSpline.ControlPoints, graphMinX: real, graphMinY: real, graphMaxX: real)
    requires |knots| >= 2 && |cp.first| == |knots| - 1 && |cp.second| == |knots| - 1
    ensures var path := SplinePath(knots, cp, graphMinX, graphMinY, graphMaxX);
      path[0] == MoveTo(Point(graphMinX, graphMinY))
      && path[1] == LineTo(knots[0])
      && path[|path| - 1] == LineTo(Point(graphMaxX, graphMinY))
      && forall i :: 2 <= i < |knots| + 1 ==> path[i] == CubicTo(cp.first[i - 2], cp.second[i - 2], knots[i - 1])
  {
  }

  /** GraphPath: a Path that remembers the graph box it was last drawn into. */
  class GraphPath {
    var graphMinXPosition: real
    var graphMinYPosition: real
    var graphMaxXPosition: real
    var graphMaxYPosition: real
    var commands: seq<PathCommand>

    constructor ()
      ensures graphMinXPosition == 0.0 && graphMinYPosition == 0.0
      ensures graphMaxXPosition == 0.0 && graphMaxYPosition == 0.0
      ensures commands == []
    {
      graphMinXPosition, graphMinYPosition, graphMaxXPosition, graphMaxYPosition := 0.0, 0.0, 0.0, 0.0;
      commands := [];
    }

    /**
     * generatePath: stores the graph box, then resets the path and issues
     * the spline path through the data points moved into that box. The
     * result depends on the arguments alone, so repeating a call changes
     * nothing.
     */
    method GeneratePath(pointsData: GraphData.PointsData, graphMinXPosition: real, graphMinYPosition: real,
                        graphMaxXPosition: real, graphMaxYPosition: real)
      requires GraphData.ValidPointsData(pointsData)
      requires pointsData.minX != pointsData.maxX && pointsData.minY != pointsData.maxY
      modifies this
      ensures this.graphMinXPosition == graphMinXPosition && this.graphMinYPosition == graphMinYPosition
      ensures this.graphMaxXPosition == graphMaxXPosition && this.graphMaxYPosition == graphMaxYPosition
      ensures var knots := GraphPoints(pointsData, graphMinXPosition, graphMinYPosition, graphMaxXPosition, graphMaxYPosition);
        |knots| >= 2
        && commands == SplinePath(knots, BezierSpline.CurveControlPoints(knots),
                                  graphMinXPosition, graphMinYPosition, graphMaxXPosition)
    {
      this.graphMinXPosition := graphMinXPosition;
      this.graphMinYPosition := graphMinYPosition;
      this.graphMaxXPosition := graphMaxXPosition;
      this.graphMaxYPosition := graphMaxYPosition;

      var knotsArr := GraphPoints(pointsData, graphMinXPosition, graphMinYPosition, graphMaxXPosition, graphMaxYPosition);
      GraphPointsBounds(pointsData, graphMinXPosition, graphMinYPosition, graphMaxXPosition, graphMaxYPosition);
      var cps := BezierSpline.GetCurveControlPoints(knotsArr);
      IssueSplinePath(knotsArr, cps.value, graphMinXPosition, graphMinYPosition, graphMaxXPosition);
    }

    /** reset() followed by the moveTo, lineTo and cubicTo calls of generatePath. */
    method IssueSplinePath(knotsArr: seq<Point>, cp: BezierSpline.ControlPoints,
                           graphMinXPosition: real, graphMinYPosition: real, graphMaxXPosition: real)
      requires |knotsArr| >= 2 && |cp.first| == |knotsArr| - 1 && |cp.second| == |knotsArr| - 1
      modifies this`commands
      ensures commands == SplinePath(knotsArr, cp, graphMinXPosition, graphMinYPosition, graphMaxXPosition)
    {
      var firstCP, secondCP := cp.first, cp.second;
      commands := [];
      commands := commands + [MoveTo(Point(graphMinXPosition, graphMinYPosition))];
      commands := commands + [LineTo(knotsArr[0])];
      var i := 0;
      while i < |firstCP|
        invariant 0 <= i <= |firstCP|
        invariant |commands| == i + 2
        invariant commands[0] == MoveTo(Point(graphMinXPosition, graphMinYPosition))
        invariant commands[1] == LineTo(knotsArr[0])
        invariant forall j :: 2 <= j < i + 2 ==> commands[j] == CubicTo(firstCP[j - 2], secondCP[j - 2], knotsArr[j - 1])
      {
        commands := commands + [CubicTo(firstCP[i], secondCP[i], knotsArr[i + 1])];
        i := i + 1;
      }
      commands := commands + [LineTo(Point(graphMaxXPosition, graphMinYPosition))];
      assert commands == SplinePath(knotsArr, cp, graphMinXPosition, graphMinYPosition, graphMaxXPosition);
    }
  }
}
