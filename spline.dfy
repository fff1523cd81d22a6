// Open-ended natural cubic Bezier spline through a list of knots
// (pointgraph/BezierSplineUtil.kt).
//
// For n + 1 knots K[0..n] the spline has n cubic segments; segment i runs
// from K[i] to K[i+1] with control points First[i] and Second[i]. The first
// control points solve a tridiagonal linear system (one per coordinate) by
// the Thomas algorithm; the second control points follow from them.

module BezierSpline {
  import opened Geometry

  /** First and second control points, one of each per spline segment. */
  datatype ControlPoints = ControlPoints(first: seq<Point>, second: seq<Point>)

  // ---------------------------------------------------------------------
  // The tridiagonal system and its Thomas-algorithm solution
  // ---------------------------------------------------------------------

  /**
   * Main diagonal of the n x n system: 2 in the first row, 3.5 in the last
   * row, 4 in between; both off-diagonals are 1.
   */
  function Diag(i: nat, n: nat): real
  {
    if i == 0 then 2.0 else if i < n - 1 then 4.0 else 3.5
  }

  /** Left-hand side of row i of the system, for the unknowns x. */
  function Row(x: seq<real>, i: nat): real
    requires i < |x|
  {
    (if i > 0 then x[i - 1] else 0.0) + Diag(i, |x|) * x[i] + (if i < |x| - 1 then x[i + 1] else 0.0)
  }

  /** x solves the system with right-hand side r. */
  ghost predicate Solves(x: seq<real>, r: seq<real>)
  {
    |x| == |r| && forall i :: 0 <= i < |r| ==> Row(x, i) == r[i]
  }

  /**
   * The pivots of the forward elimination (the variable b of the source):
   * the diagonal minus the previous pivot's reciprocal. Each is at least 2,
   * so no division by a pivot fails.
   */
  function Pivot(i: nat, n: nat): (m: real)
    ensures m >= 2.0
  {
    if i == 0 then 2.0 else Diag(i, n) - 1.0 / Pivot(i - 1, n)
  }

  /** Forward substitution: the value x[i] holds after the first loop. */
  function Forward(r: seq<real>, i: nat): real
    requires i < |r|
  {
    if i == 0 then r[0] / 2.0 else (r[i] - Forward(r, i - 1)) / Pivot(i, |r|)
  }

  /** Back substitution: the value x[i] holds after the second loop. */
  function Back(r: seq<real>, i: nat): real
    requires i < |r|
    decreases |r| - i
  {
    if i == |r| - 1 then Forward(r, i)
    else Forward(r, i) - 1.0 / Pivot(i, |r|) * Back(r, i + 1)
  }

  /** The vector the Thomas algorithm computes for the right-hand side r. */
  function ThomasSolve(r: seq<real>): (x: seq<real>)
    ensures |x| == |r|
  {
    seq(|r|, i requires 0 <= i < |r| => Back(r, i))
  }

  lemma ForwardStep(r: seq<real>, i: nat)
    requires 0 < i < |r|
    ensures Pivot(i, |r|) * Forward(r, i) == r[i] - Forward(r, i - 1)
  {
  }

  /** Multiplying by a pivot undoes dividing by it. */
  lemma Reciprocal(p: real)
    requires p >= 2.0
    ensures p * (1.0 / p) == 1.0
  {
  }

  /** One row of the system, from the forward and the backward step at that row. */
  lemma RowAlgebra(xm: real, xi: real, xp: real, fm: real, fi: real, p: real, c: real, d: real, r: real)
    requires xm == fm - c * xi
    requires p * xi + xp == p * fi
    requires p * fi == r - fm
    requires d == p + c
    ensures xm + d * xi + xp == r
  {
    assert d * xi == p * xi + c * xi;
  }

  /** Solving the relation q * a + b == q * f for a, given q * c == 1. */
  lemma Eliminate(q: real, c: real, a: real, b: real, f: real)
    requires q * c == 1.0
    requires q * a + b == q * f
    ensures a == f - c * b
  {
    assert c * (q * a) + c * b == c * (q * f);
    assert c * (q * a) == (c * q) * a;
    assert c * (q * f) == (c * q) * f;
  }

  /** Multiplying out one back-substitution step. */
  lemma MulOut(p: real, c: real, f: real, b: real)
    requires p * c == 1.0
    ensures p * (f - c * b) + b == p * f
  {
    assert p * (c * b) == (p * c) * b;
  }

  lemma BackStep(r: seq<real>, i: nat)
    requires i < |r| - 1
    ensures Pivot(i, |r|) * Back(r, i) + Back(r, i + 1) == Pivot(i, |r|) * Forward(r, i)
  {
    var p := Pivot(i, |r|);
    Reciprocal(p);
    MulOut(p, 1.0 / p, Forward(r, i), Back(r, i + 1));
  }

  /** Row i of the system expanded for a row with both neighbours. */
  lemma RowInner(x: seq<real>, i: nat)
    requires 0 < i < |x| - 1
    ensures Row(x, i) == x[i - 1] + 4.0 * x[i] + x[i + 1]
  {
  }

  /** The pivot recurrence: each diagonal entry is its pivot plus the previous reciprocal. */
  lemma DiagSplit(i: nat, n: nat)
    requires 0 < i
    ensures Diag(i, n) == Pivot(i, n) + 1.0 / Pivot(i - 1, n)
  {
  }

  /** Back substitution at row i - 1, written with the reciprocal of its pivot. */
  lemma BackPrev(r: seq<real>, i: nat)
    requires 0 < i < |r|
    ensures Back(r, i - 1) == Forward(r, i - 1) - 1.0 / Pivot(i - 1, |r|) * Back(r, i)
  {
  }

  /** One step of the back-substitution loop produces Back's value. */
  lemma BackValue(r: seq<real>, j: nat, xj: real, t: real, xn: real)
    requires j < |r| - 1
    requires xj == Forward(r, j) && t == 1.0 / Pivot(j, |r|) && xn == Back(r, j + 1)
    ensures xj - t * xn == Back(r, j)
  {
  }

  lemma ThomasRowFirst(r: seq<real>)
    requires |r| >= 1
    ensures Row(ThomasSolve(r), 0) == r[0]
  {
    var x := ThomasSolve(r);
    if |r| > 1 {
      BackStep(r, 0);
      assert Row(x, 0) == 2.0 * x[0] + x[1];
    } else {
      assert Row(x, 0) == 2.0 * x[0];
    }
  }

  lemma ThomasRowInner(r: seq<real>, i: nat)
    requires 0 < i < |r| - 1
    ensures Row(ThomasSolve(r), i) == r[i]
  {
    DiagSplit(i, |r|);
    BackPrev(r, i);
    ForwardStep(r, i);
    BackStep(r, i);
    assert 4.0 * Back(r, i) == Pivot(i, |r|) * Back(r, i) + 1.0 / Pivot(i - 1, |r|) * Back(r, i);
    RowInner(ThomasSolve(r), i);
  }

  lemma ThomasRowLast(r: seq<real>)
    requires |r| >= 2
    ensures Row(ThomasSolve(r), |r| - 1) == r[|r| - 1]
  {
    var x, n := ThomasSolve(r), |r|;
    var i := n - 1;
    var p, c := Pivot(i, n), 1.0 / Pivot(i - 1, n);
    DiagSplit(i, n);
    BackPrev(r, i);
    ForwardStep(r, i);
    assert Row(x, i) == x[i - 1] + 3.5 * x[i] + 0.0;
    RowAlgebra(Back(r, i - 1), Back(r, i), 0.0, Forward(r, i - 1), Forward(r, i), p, c, 3.5, r[i]);
  }

  /** The Thomas algorithm's output satisfies row i of the system. */
  lemma ThomasRow(r: seq<real>, i: nat)
    requires i < |r|
    ensures Row(ThomasSolve(r), i) == r[i]
  {
    if i == 0 {
      ThomasRowFirst(r);
    } else if i < |r| - 1 {
      ThomasRowInner(r, i);
    } else {
      ThomasRowLast(r);
    }
  }

  /** The Thomas algorithm's output solves the system. */
  lemma ThomasSolves(r: seq<real>)
    ensures Solves(ThomasSolve(r), r)
  {
    forall i | 0 <= i < |r| ensures Row(ThomasSolve(r), i) == r[i] {
      ThomasRow(r, i);
    }
  }

  /** One step of eliminating x[i - 1] from row i of the system. */
  lemma ForwardAlgebra(q: real, c: real, p: real, d: real, xm: real, xi: real, xp: real, fm: real, fi: real, r: real)
    requires q * c == 1.0 && d == p + c
    requires q * xm + xi == q * fm
    requires xm + d * xi + xp == r
    requires p * fi == r - fm
    ensures p * xi + xp == p * fi
  {
    Eliminate(q, c, xm, xi, fm);
    assert d * xi == p * xi + c * xi;
  }

  /** Any solution agrees with the forward substitution row by row. */
  lemma {:induction false} SolutionForward(x: seq<real>, r: seq<real>, i: nat)
    requires Solves(x, r) && i < |r| - 1
    ensures Pivot(i, |r|) * x[i] + x[i + 1] == Pivot(i, |r|) * Forward(r, i)
  {
    assert Row(x, i) == r[i];
    if i == 0 {
      assert Row(x, 0) == 2.0 * x[0] + x[1];
    } else {
      SolutionForward(x, r, i - 1);
      SolutionForwardStep(x, r, i);
    }
  }

  /** The step of SolutionForward: row i carries the relation from row i - 1 to row i. */
  lemma SolutionForwardStep(x: seq<real>, r: seq<real>, i: nat)
    requires |x| == |r| && 0 < i < |r| - 1 && Row(x, i) == r[i]
    requires Pivot(i - 1, |r|) * x[i - 1] + x[i] == Pivot(i - 1, |r|) * Forward(r, i - 1)
    ensures Pivot(i, |r|) * x[i] + x[i + 1] == Pivot(i, |r|) * Forward(r, i)
  {
    var n := |r|;
    var q := Pivot(i - 1, n);
    Reciprocal(q);
    DiagSplit(i, n);
    ForwardStep(r, i);
    RowInner(x, i);
    ForwardAlgebra(q, 1.0 / q, Pivot(i, n), 4.0, x[i - 1], x[i], x[i + 1], Forward(r, i - 1), Forward(r, i), r[i]);
  }

  /** A pivot is nonzero, so it cancels from both sides. */
  lemma PivotCancel(p: real, a: real, b: real)
    requires p >= 2.0 && p * a == p * b
    ensures a == b
  {
  }

  /** The last row with x[n - 2] eliminated: the pivot times the last unknown. */
  lemma LastRowEliminated(x: seq<real>, r: seq<real>, i: nat)
    requires |x| == |r| && i == |r| - 1 && i >= 1
    requires Pivot(i - 1, |r|) * x[i - 1] + x[i] == Pivot(i - 1, |r|) * Forward(r, i - 1)
    requires Row(x, i) == r[i]
    ensures Pivot(i, |r|) * x[i] == Pivot(i, |r|) * Forward(r, i)
  {
    var p, q := Pivot(i, |r|), Pivot(i - 1, |r|);
    var xm, xi, fm, fi := x[i - 1], x[i], Forward(r, i - 1), Forward(r, i);
    assert q * (1.0 / q) == 1.0 by { Reciprocal(q); }
    assert 3.5 == p + 1.0 / q by { DiagSplit(i, |r|); }
    assert xm + 3.5 * xi + 0.0 == r[i];
    assert p * fi == r[i] - fm by { ForwardStep(r, i); }
    ForwardAlgebra(q, 1.0 / q, p, 3.5, xm, xi, 0.0, fm, fi, r[i]);
  }

  /** Any solution of the system ends in the value forward substitution ends in. */
  lemma SolutionLast(x: seq<real>, r: seq<real>)
    requires Solves(x, r) && |r| >= 1
    ensures x[|r| - 1] == Forward(r, |r| - 1)
  {
    var n := |r|;
    assert Row(x, n - 1) == r[n - 1];
    if n == 1 {
      assert Row(x, 0) == 2.0 * x[0];
    } else {
      SolutionForward(x, r, n - 2);
      LastRowEliminated(x, r, n - 1);
      PivotCancel(Pivot(n - 1, n), x[n - 1], Forward(r, n - 1));
    }
  }

  /** Back substitution is the only value consistent with the next unknown's. */
  lemma BackUnique(r: seq<real>, i: nat, xi: real, xn: real)
    requires i < |r| - 1
    requires Pivot(i, |r|) * xi + xn == Pivot(i, |r|) * Forward(r, i)
    requires xn == Back(r, i + 1)
    ensures xi == Back(r, i)
  {
    BackStep(r, i);
    PivotCancel(Pivot(i, |r|), xi, Back(r, i));
  }

  /** Any solution of the system equals back substitution from row i on. */
  lemma {:induction false} SolutionBack(x: seq<real>, r: seq<real>, i: nat)
    requires Solves(x, r) && i < |r|
    ensures x[i] == Back(r, i)
    decreases |r| - i
  {
    if i == |r| - 1 {
      SolutionLast(x, r);
    } else {
      SolutionBack(x, r, i + 1);
      SolutionForward(x, r, i);
      BackUnique(r, i, x[i], x[i + 1]);
    }
  }

  /** The system has exactly one solution, and it is the Thomas algorithm's. */
  lemma SolvesIff(x: seq<real>, r: seq<real>)
    ensures Solves(x, r) <==> x == ThomasSolve(r)
  {
    ThomasSolves(r);
    if Solves(x, r) {
      forall i | 0 <= i < |r| ensures x[i] == ThomasSolve(r)[i] {
        SolutionBack(x, r, i);
      }
    }
  }

  /**
   * getFirstControlPoints: the Thomas algorithm on a fresh solution array,
   * with a workspace holding the reciprocals of the pivots.
   */
  method GetFirstControlPoints(rhs: array<real>) returns (x: array<real>)
    requires rhs.Length >= 1
    ensures fresh(x) && x[..] == ThomasSolve(rhs[..])
  {
    var n := rhs.Length;
    x := new real[n];
    var tmp := new real[n];
    Decompose(rhs, x, tmp);
    BackSubstitute(x, tmp, rhs[..]);
  }

  /** Decomposition and forward substitution (the first loop of getFirstControlPoints). */
  method Decompose(rhs: array<real>, x: array<real>, tmp: array<real>)
    requires rhs.Length >= 1 && x.Length == tmp.Length == rhs.Length
    requires x != tmp && x != rhs && tmp != rhs
    modifies x, tmp
    ensures forall j :: 0 <= j < x.Length ==> x[j] == Forward(rhs[..], j)
    ensures forall j :: 1 <= j < x.Length ==> tmp[j] == 1.0 / Pivot(j - 1, x.Length)
  {
    var n := rhs.Length;
    ghost var r := rhs[..];
    var b := 2.0;
    x[0] := rhs[0] / b;
    var i := 1;
    while i < n
      invariant 1 <= i <= n
      invariant b == Pivot(i - 1, n)
      invariant forall j :: 0 <= j < i ==> x[j] == Forward(r, j)
      invariant forall j :: 1 <= j < i ==> tmp[j] == 1.0 / Pivot(j - 1, n)
    {
      tmp[i] := 1.0 / b;
      b := (if i < n - 1 then 4.0 else 3.5) - tmp[i];
      assert b == Pivot(i, n);
      x[i] := (rhs[i] - x[i - 1]) / b;
      assert x[i] == Forward(r, i);
      i := i + 1;
    }
  }

  /** Back substitution (the second loop of getFirstControlPoints). */
  method BackSubstitute(x: array<real>, tmp: array<real>, ghost r: seq<real>)
    requires x != tmp && x.Length == tmp.Length == |r| >= 1
    requires forall j :: 0 <= j < |r| ==> x[j] == Forward(r, j)
    requires forall j :: 1 <= j < |r| ==> tmp[j] == 1.0 / Pivot(j - 1, |r|)
    modifies x
    ensures x[..] == ThomasSolve(r)
  {
    var n := x.Length;
    var i := 1;
    while i < n
      invariant 1 <= i <= n
      invariant forall j :: 0 <= j < n - i ==> x[j] == Forward(r, j)
      invariant forall j :: n - i <= j < n ==> x[j] == Back(r, j)
    {
      var xj, t, xn := x[n - i - 1], tmp[n - i], x[n - i];
      BackValue(r, n - i - 1, xj, t, xn);
      x[n - i - 1] := xj - t * xn;
      i := i + 1;
    }
  }

  // ---------------------------------------------------------------------
  // Control points, one coordinate at a time
  // ---------------------------------------------------------------------

  /** Right-hand side of the system for the knot coordinates k (n = |k| - 1 >= 2). */
  function Rhs(k: seq<real>): (r: seq<real>)
    requires |k| >= 3
    ensures |r| == |k| - 1
  {
    var n := |k| - 1;
    seq(n, i requires 0 <= i < n =>
      if i == 0 then k[0] + 2.0 * k[1]
      else if i == n - 1 then (8.0 * k[n - 1] + k[n]) / 2.0
      else 4.0 * k[i] + 2.0 * k[i + 1])
  }

  /** One coordinate of the first control points. */
  function FirstCoords(k: seq<real>): (f: seq<real>)
    requires |k| >= 2
    ensures |f| == |k| - 1
  {
    if |k| == 2 then [(2.0 * k[0] + k[1]) / 3.0] else ThomasSolve(Rhs(k))
  }

  /** One coordinate of the second control points. */
  function SecondCoords(k: seq<real>): (s: seq<real>)
    requires |k| >= 2
    ensures |s| == |k| - 1
  {
    var f, n := FirstCoords(k), |k| - 1;
    if n == 1 then [2.0 * f[0] - k[0]]
    else
      seq(n, i requires 0 <= i < n =>
        if i < n - 1 then 2.0 * k[i + 1] - f[i + 1] else (k[n] + f[n - 1]) / 2.0)
  }

  /**
   * The conditions that define a natural cubic spline through the knots k
   * with control points f (first) and s (second), one coordinate at a time:
   * equal first derivatives where two segments meet, equal second
   * derivatives there, and zero second derivative at both open ends.
   */
  ghost predicate NaturalSpline(k: seq<real>, f: seq<real>, s: seq<real>)
    requires |k| >= 2
  {
    var n := |k| - 1;
    |f| == n && |s| == n
    && (forall i :: 0 <= i < n - 1 ==> s[i] + f[i + 1] == 2.0 * k[i + 1])
    && (forall i :: 0 <= i < n - 1 ==> f[i] - 2.0 * s[i] == s[i + 1] - 2.0 * f[i + 1])
    && k[0] - 2.0 * f[0] + s[0] == 0.0
    && f[n - 1] - 2.0 * s[n - 1] + k[n] == 0.0
  }

  /** Under C1 continuity and a natural right end, C2 and a natural left end are the system. */
  lemma NaturalIsSystem(k: seq<real>, f: seq<real>, s: seq<real>)
    requires |k| >= 3 && |f| == |k| - 1 && |s| == |k| - 1
    requires forall i :: 0 <= i < |k| - 2 ==> s[i] == 2.0 * k[i + 1] - f[i + 1]
    requires s[|k| - 2] == (k[|k| - 1] + f[|k| - 2]) / 2.0
    ensures NaturalSpline(k, f, s) <==> Solves(f, Rhs(k))
  {
    var n := |k| - 1;
    var r := Rhs(k);
    // Row 0 is the natural left end; row i + 1 is C2 at knot i + 1.
    assert (k[0] - 2.0 * f[0] + s[0] == 0.0) <==> Row(f, 0) == r[0];
    forall i | 0 <= i < n - 1
      ensures (f[i] - 2.0 * s[i] == s[i + 1] - 2.0 * f[i + 1]) <==> Row(f, i + 1) == r[i + 1]
    {
      if i + 1 < n - 1 {
        assert Row(f, i + 1) == f[i] + 4.0 * f[i + 1] + f[i + 2];
      } else {
        assert Row(f, i + 1) == f[i] + 3.5 * f[i + 1];
      }
    }
    if Solves(f, Rhs(k)) {
      assert NaturalSpline(k, f, s) by {
        forall i | 0 <= i < n - 1
          ensures f[i] - 2.0 * s[i] == s[i + 1] - 2.0 * f[i + 1]
        {
          assert Row(f, i + 1) == r[i + 1];
        }
        assert Row(f, 0) == r[0];
      }
    }
    if NaturalSpline(k, f, s) {
      forall i | 0 <= i < n ensures Row(f, i) == r[i] {
        if i > 0 {
          assert f[i - 1] - 2.0 * s[i - 1] == s[i] - 2.0 * f[i];
        }
      }
    }
  }

  /** The second control points follow from the first: C1 continuity and a natural right end. */
  lemma SecondFromFirst(k: seq<real>)
    requires |k| >= 3
    ensures var f, s := FirstCoords(k), SecondCoords(k);
      (forall i :: 0 <= i < |k| - 2 ==> s[i] == 2.0 * k[i + 1] - f[i + 1])
      && s[|k| - 2] == (k[|k| - 1] + f[|k| - 2]) / 2.0
  {
  }

  /** For two knots the natural end conditions alone fix both control points. */
  lemma NaturalSplineIffTwo(k: seq<real>, f: seq<real>, s: seq<real>)
    requires |k| == 2
    ensures NaturalSpline(k, f, s) <==> (f == FirstCoords(k) && s == SecondCoords(k))
  {
    if NaturalSpline(k, f, s) {
      assert s[0] == 2.0 * f[0] - k[0];
      assert f == FirstCoords(k);
    }
  }

  /** For three or more knots the Thomas solution gives a natural spline. */
  lemma NaturalSplineOfSolution(k: seq<real>)
    requires |k| >= 3
    ensures NaturalSpline(k, FirstCoords(k), SecondCoords(k))
  {
    ThomasSolves(Rhs(k));
    SecondFromFirst(k);
    NaturalIsSystem(k, FirstCoords(k), SecondCoords(k));
  }

  /** For three or more knots a natural spline's control points are the Thomas solution's. */
  lemma NaturalSplineUnique(k: seq<real>, f: seq<real>, s: seq<real>)
    requires |k| >= 3 && NaturalSpline(k, f, s)
    ensures f == FirstCoords(k) && s == SecondCoords(k)
  {
    NaturalIsSystem(k, f, s);
    SolvesIff(f, Rhs(k));
    SecondFromFirst(k);
    assert forall i :: 0 <= i < |k| - 1 ==> s[i] == SecondCoords(k)[i];
  }

  /**
   * The control points of getCurveControlPoints are those of the natural
   * cubic spline through the knots, and no other control points are.
   */
  lemma NaturalSplineIff(k: seq<real>, f: seq<real>, s: seq<real>)
    requires |k| >= 2
    ensures NaturalSpline(k, f, s) <==> (f == FirstCoords(k) && s == SecondCoords(k))
  {
    if |k| == 2 {
      NaturalSplineIffTwo(k, f, s);
    } else {
      NaturalSplineOfSolution(k);
      if NaturalSpline(k, f, s) {
        NaturalSplineUnique(k, f, s);
      }
    }
  }

  // ---------------------------------------------------------------------
  // Control points of a list of knots
  // ---------------------------------------------------------------------

  function Xs(ps: seq<Point>): (xs: seq<real>)
    ensures |xs| == |ps| && forall i :: 0 <= i < |ps| ==> xs[i] == ps[i].x
  {
    seq(|ps|, i requires 0 <= i < |ps| => ps[i].x)
  }

  function Ys(ps: seq<Point>): (ys: seq<real>)
    ensures |ys| == |ps| && forall i :: 0 <= i < |ps| ==> ys[i] == ps[i].y
  {
    seq(|ps|, i requires 0 <= i < |ps| => ps[i].y)
  }

  function Zip(xs: seq<real>, ys: seq<real>): (ps: seq<Point>)
    requires |xs| == |ys|
    ensures |ps| == |xs| && forall i :: 0 <= i < |xs| ==> ps[i] == Point(xs[i], ys[i])
  {
    seq(|xs|, i requires 0 <= i < |xs| => Point(xs[i], ys[i]))
  }

  /** The control points getCurveControlPoints returns for at least two knots. */
  function CurveControlPoints(knots: seq<Point>): ControlPoints
    requires |knots| >= 2
  {
    var xs, ys := Xs(knots), Ys(knots);
    ControlPoints(Zip(FirstCoords(xs), FirstCoords(ys)), Zip(SecondCoords(xs), SecondCoords(ys)))
  }

  /** Natural cubic spline conditions on points, both coordinates at once. */
  ghost predicate NaturalSplinePoints(knots: seq<Point>, cp: ControlPoints)
    requires |knots| >= 2
  {
    |cp.first| == |cp.second| == |knots| - 1
    && NaturalSpline(Xs(knots), Xs(cp.first), Xs(cp.second))
    && NaturalSpline(Ys(knots), Ys(cp.first), Ys(cp.second))
  }

  /** The control points are the natural spline's, and are the only ones that are. */
  lemma CurveControlPointsNatural(knots: seq<Point>, cp: ControlPoints)
    requires |knots| >= 2
    ensures NaturalSplinePoints(knots, cp) <==> cp == CurveControlPoints(knots)
  {
    var xs, ys := Xs(knots), Ys(knots);
    NaturalSplineIff(xs, Xs(cp.first), Xs(cp.second));
    NaturalSplineIff(ys, Ys(cp.first), Ys(cp.second));
    var c := CurveControlPoints(knots);
    assert Xs(c.first) == FirstCoords(xs) && Ys(c.first) == FirstCoords(ys);
    assert Xs(c.second) == SecondCoords(xs) && Ys(c.second) == SecondCoords(ys);
    if NaturalSplinePoints(knots, cp) {
      assert cp.first == c.first;
      assert cp.second == c.second;
    }
  }

  /**
   * Two knots give a straight segment: the control points are at one third
   * and two thirds of the way from the first knot to the second.
   */
  lemma TwoKnotsStraight(knots: seq<Point>)
    requires |knots| == 2
    ensures var c := CurveControlPoints(knots);
      |c.first| == 1 && |c.second| == 1
      && c.first[0] == Point(knots[0].x + (knots[1].x - knots[0].x) / 3.0,
                             knots[0].y + (knots[1].y - knots[0].y) / 3.0)
      && c.second[0] == Point(knots[0].x + 2.0 * (knots[1].x - knots[0].x) / 3.0,
                              knots[0].y + 2.0 * (knots[1].y - knots[0].y) / 3.0)
  {
  }

  /**
   * C1 continuity at the inner knots: each inner knot is the midpoint of the
   * second control point before it and the first control point after it.
   */
  lemma CurveSmoothAtKnots(knots: seq<Point>)
    requires |knots| >= 2
    ensures var c := CurveControlPoints(knots);
      forall i :: 0 <= i < |knots| - 2 ==>
        c.second[i].x + c.first[i + 1].x == 2.0 * knots[i + 1].x
        && c.second[i].y + c.first[i + 1].y == 2.0 * knots[i + 1].y
  {
    var c := CurveControlPoints(knots);
    CurveControlPointsNatural(knots, c);
    var xs, ys := Xs(knots), Ys(knots);
    assert NaturalSpline(xs, Xs(c.first), Xs(c.second));
    assert NaturalSpline(ys, Ys(c.first), Ys(c.second));
  }

  /** Fills the right-hand side vector from one coordinate of the knots. */
  method SetRhs(rhs: array<real>, k: seq<real>)
    requires |k| >= 3 && rhs.Length == |k| - 1
    modifies rhs
    ensures rhs[..] == Rhs(k)
  {
    var n := |k| - 1;
    var i := 1;
    while i < n - 1
      invariant 1 <= i <= n - 1
      invariant forall j :: 1 <= j < i ==> rhs[j] == Rhs(k)[j]
    {
      rhs[i] := 4.0 * k[i] + 2.0 * k[i + 1];
      i := i + 1;
    }
    rhs[0] := k[0] + 2.0 * k[1];
    rhs[n - 1] := (8.0 * k[n - 1] + k[n]) / 2.0;
  }

  /**
   * getCurveControlPoints: fewer than two knots is an IllegalArgumentException;
   * otherwise one first and one second control point per segment.
   */
  method GetCurveControlPoints(knots: seq<Point>) returns (r: Result<ControlPoints>)
    ensures |knots| < 2 <==> r.Throws?
    ensures r.Ok? ==> |knots| >= 2 && r.value == CurveControlPoints(knots)
  {
    if |knots| < 2 {
      return Throws("IllegalArgumentException: At least two knot points are required");
    }
    var n := |knots| - 1;
    if n == 1 {
      var x := (2.0 * knots[0].x + knots[1].x) / 3.0;
      var y := (2.0 * knots[0].y + knots[1].y) / 3.0;
      var first := [Point(x, y)];
      x := 2.0 * first[0].x - knots[0].x;
      y := 2.0 * first[0].y - knots[0].y;
      return Ok(ControlPoints(first, [Point(x, y)]));
    }
    var kx, ky := Xs(knots), Ys(knots);
    var rhs := new real[n];
    SetRhs(rhs, kx);
    var x := GetFirstControlPoints(rhs);
    SetRhs(rhs, ky);
    var y := GetFirstControlPoints(rhs);
    var cp := AssembleControlPoints(knots, x, y);
    r := Ok(cp);
  }

  /**
   * The last loop of getCurveControlPoints: the first control points pair
   * up the two solutions, and each second control point is read off the
   * next first one (the last one off the end knot).
   */
  method AssembleControlPoints(knots: seq<Point>, x: array<real>, y: array<real>) returns (cp: ControlPoints)
    requires |knots| >= 3
    requires x[..] == FirstCoords(Xs(knots)) && y[..] == FirstCoords(Ys(knots))
    ensures cp == CurveControlPoints(knots)
  {
    var n := |knots| - 1;
    ghost var kx, ky := Xs(knots), Ys(knots);
    ghost var fx, fy := FirstCoords(kx), FirstCoords(ky);
    ghost var sx, sy := SecondCoords(kx), SecondCoords(ky);
    SecondFromFirst(kx);
    SecondFromFirst(ky);
    var first: seq<Point> := [];
    var second: seq<Point> := [];
    var i := 0;
    while i < n
      invariant 0 <= i <= n
      invariant |first| == i && forall j :: 0 <= j < i ==> first[j] == Point(fx[j], fy[j])
      invariant |second| == i && forall j :: 0 <= j < i ==> second[j] == Point(sx[j], sy[j])
    {
      first := first + [Point(x[i], y[i])];
      if i < n - 1 {
        var xx := 2.0 * knots[i + 1].x - x[i + 1];
        var yy := 2.0 * knots[i + 1].y - y[i + 1];
        second := second + [Point(xx, yy)];
      } else {
        var xx := (knots[n].x + x[n - 1]) / 2.0;
        var yy := (knots[n].y + y[n - 1]) / 2.0;
        second := second + [Point(xx, yy)];
      }
      i := i + 1;
    }
    assert first == Zip(fx, fy);
    assert second == Zip(sx, sy);
    cp := ControlPoints(first, second);
  }
}
