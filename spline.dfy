/** Cubic-spline utility of the NRLMSISE-00 engine (`spline`, `splint`,
    `splini` of Nrlmsise00.hpp): Numerical-Recipes second derivatives, point
    evaluation after a bisection search, and the running integral from the
    first node. The methods work on the caller's arrays like the C++ code; the
    functions beside them are their specifications. */
module SplineUtil {
  import opened Numerics

  /** An end slope above this value asks for a natural end (zero second derivative). */
  const NaturalSlope: real := 0.99e30

  ghost predicate StrictlyIncreasing(xs: seq<real>)
  {
    forall i, j :: 0 <= i < j < |xs| ==> xs[i] < xs[j]
  }

  // ---------------------------------------------------------------------------
  // spline: second derivatives by forward elimination and back-substitution
  // ---------------------------------------------------------------------------

  /** The first row of the forward sweep: natural, or clamped to slope `yp1`. */
  function SweepStart(m: Math, x0: real, x1: real, y0: real, y1: real, yp1: real): (cu: (real, real))
    ensures yp1 > NaturalSlope ==> cu == (0.0, 0.0)
  {
    if yp1 > NaturalSlope then (0.0, 0.0)
    else (-0.5, Div(m, 3.0, x1 - x0) * (Div(m, y1 - y0, x1 - x0) - yp1))
  }

  /** Row `i` of the forward sweep from nodes `i - 1, i, i + 1` and row `i - 1`. */
  function SweepRow(m: Math, xl: real, xc: real, xr: real, yl: real, yc: real, yr: real, cPrev: real, uPrev: real): (cu: (real, real))
  {
    var sig := Div(m, xc - xl, xr - xl);
    var p := sig * cPrev + 2.0;
    var slopes := Div(m, yr - yc, xr - xc) - Div(m, yc - yl, xc - xl);
    (Div(m, sig - 1.0, p), Div(m, Div(m, 6.0 * slopes, xr - xl) - sig * uPrev, p))
  }

  /** The first `len` entries of the forward sweep: the decomposition values the
      forward loop leaves in `y2` and the right-hand sides it leaves in `u`. */
  function Sweep(m: Math, x: seq<real>, y: seq<real>, yp1: real, len: nat): (r: (seq<real>, seq<real>))
    requires 2 <= |x| == |y| && 1 <= len <= |x| - 1
    ensures |r.0| == len && |r.1| == len
    decreases len
  {
    if len == 1 then
      var cu := SweepStart(m, x[0], x[1], y[0], y[1], yp1);
      ([cu.0], [cu.1])
    else
      var prev := Sweep(m, x, y, yp1, len - 1);
      var i := len - 1;
      var cu := SweepRow(m, x[i - 1], x[i], x[i + 1], y[i - 1], y[i], y[i + 1], prev.0[i - 1], prev.1[i - 1]);
      (prev.0 + [cu.0], prev.1 + [cu.1])
  }

  /** Back-substitution: `r[k] = c[k] * r[k + 1] + u[k]` from the last entry down. */
  function BackSubstitute(c: seq<real>, u: seq<real>, last: real): (r: seq<real>)
    requires |c| == |u|
    ensures |r| == |c| + 1 && r[|c|] == last
    decreases |c|
  {
    if |c| == 0 then [last]
    else
      var rest := BackSubstitute(c[1..], u[1..], last);
      [BackStep(c[0], rest[0], u[0])] + rest
  }

  /** One back-substitution step, `y2[k] * y2[k + 1] + u[k]`. */
  function BackStep(c: real, next: real, u: real): real
  {
    c * next + u
  }

  /** The end condition at the last node: natural, or clamped to slope `ypn`. */
  function EndCondition(m: Math, xl: real, xr: real, yl: real, yr: real, ypn: real): (qu: (real, real))
    ensures ypn > NaturalSlope ==> qu == (0.0, 0.0)
  {
    if ypn > NaturalSlope then (0.0, 0.0)
    else (0.5, Div(m, 3.0, xr - xl) * (ypn - Div(m, yr - yl, xr - xl)))
  }

  /** The last second derivative, from the end condition and the last sweep row. */
  function LastSecondDerivative(m: Math, qu: (real, real), cPrev: real, uPrev: real): real
  {
    Div(m, qu.1 - qu.0 * uPrev, qu.0 * cPrev + 1.0)
  }

  /** The second derivatives `spline` writes into `y2[0..n-1]`. */
  function SecondDerivatives(m: Math, x: seq<real>, y: seq<real>, yp1: real, ypn: real): (y2: seq<real>)
    requires 2 <= |x| == |y|
    ensures |y2| == |x|
  {
    var n := |x|;
    var sw := Sweep(m, x, y, yp1, n - 1);
    var qu := EndCondition(m, x[n - 2], x[n - 1], y[n - 2], y[n - 1], ypn);
    BackSubstitute(sw.0, sw.1, LastSecondDerivative(m, qu, sw.0[n - 2], sw.1[n - 2]))
  }

  /** `spline`: writes the second derivatives of the interpolating cubic through
      `(x[i], y[i])`, `i < n`, into `y2[0..n-1]` and nothing else. The
      work vector `u` is local, as in the C++ code. */
  method Spline(m: Math, x: array<real>, y: array<real>, n: int, yp1: real, ypn: real, y2: array<real>)
    requires 2 <= n <= x.Length && n <= y.Length && n <= y2.Length
    requires y2 != x && y2 != y
    modifies y2
    ensures y2[..n] == SecondDerivatives(m, x[..n], y[..n], yp1, ypn)
    ensures y2[n..] == old(y2[n..])
  {
    var u := ForwardSweep(m, x, y, n, yp1, y2);
    ghost var c := y2[..n - 1];
    var qu := EndCondition(m, x[n - 2], x[n - 1], y[n - 2], y[n - 1], ypn);
    y2[n - 1] := LastSecondDerivative(m, qu, y2[n - 2], u[n - 2]);
    assert y2[..n - 1] == c;
    BackSubstitution(y2, u, n);
  }

  /** The forward loop of `spline`: rows `0 .. n - 2` of the sweep, the
      decomposition into `y2` and the right-hand sides into the work vector `u`. */
  method ForwardSweep(m: Math, x: array<real>, y: array<real>, n: int, yp1: real, y2: array<real>) returns (u: seq<real>)
    requires 2 <= n <= x.Length && n <= y.Length && n <= y2.Length
    requires y2 != x && y2 != y
    modifies y2
    ensures (y2[..n - 1], u) == Sweep(m, x[..n], y[..n], yp1, n - 1)
    ensures y2[n - 1..] == old(y2[n - 1..])
  {
    ghost var xs, ys := x[..n], y[..n];
    var start := SweepStart(m, x[0], x[1], y[0], y[1], yp1);
    y2[0] := start.0;
    u := [start.1];
    assert (y2[..1], u) == Sweep(m, xs, ys, yp1, 1) by {
      assert xs[0] == x[0] && xs[1] == x[1] && ys[0] == y[0] && ys[1] == y[1];
      assert y2[..1] == [start.0];
    }
    var i := 1;
    while i < n - 1
      invariant 1 <= i <= n - 1
      invariant (y2[..i], u) == Sweep(m, xs, ys, yp1, i)
      invariant y2[n - 1..] == old(y2[n - 1..])
    {
      var row := SweepRow(m, x[i - 1], x[i], x[i + 1], y[i - 1], y[i], y[i + 1], y2[i - 1], u[i - 1]);
      ghost var done := y2[..i];
      assert (done + [row.0], u + [row.1]) == Sweep(m, xs, ys, yp1, i + 1) by {
        assert xs[i - 1] == x[i - 1] && xs[i] == x[i] && xs[i + 1] == x[i + 1];
        assert ys[i - 1] == y[i - 1] && ys[i] == y[i] && ys[i + 1] == y[i + 1];
      }
      y2[i] := row.0;
      u := u + [row.1];
      assert y2[..i + 1] == done + [row.0];
      i := i + 1;
    }
  }

  /** The backward loop of `spline`: `y2[k] := y2[k] * y2[k + 1] + u[k]` for
      `k = n - 2` down to `0`. */
  method BackSubstitution(y2: array<real>, u: seq<real>, n: int)
    requires 2 <= n <= y2.Length && n - 1 == |u|
    modifies y2
    ensures y2[..n] == BackSubstitute(old(y2[..n - 1]), u, old(y2[n - 1]))
    ensures y2[n..] == old(y2[n..])
  {
    ghost var c, uu, last := y2[..n - 1], u, y2[n - 1];
    assert y2[n - 1..n] == [last];
    var k := n - 2;
    while k >= 0
      invariant -1 <= k <= n - 2
      invariant y2[k + 1..n] == BackSubstitute(c[k + 1..], uu[k + 1..], last)
      invariant y2[..k + 1] == c[..k + 1]
      invariant y2[n..] == old(y2[n..])
    {
      ghost var rest := BackSubstitute(c[k + 1..], uu[k + 1..], last);
      assert y2[k] == c[k] && u[k] == uu[k] && y2[k + 1] == rest[0];
      y2[k] := BackStep(y2[k], y2[k + 1], u[k]);
      assert y2[k + 1..n] == rest;
      assert c[k..][1..] == c[k + 1..] && uu[k..][1..] == uu[k + 1..];
      assert BackSubstitute(c[k..], uu[k..], last) == [BackStep(c[k], rest[0], uu[k])] + rest;
      assert y2[k..n] == [y2[k]] + y2[k + 1..n];
      k := k - 1;
    }
    assert c[0..] == c && uu[0..] == uu;
    assert y2[..n] == y2[0..n];
  }

  /** The forward sweep is built by appending: shorter sweeps are prefixes. */
  lemma {:induction false} SweepPrefix(m: Math, x: seq<real>, y: seq<real>, yp1: real, i: nat, len: nat)
    requires 2 <= |x| == |y| && 1 <= len <= |x| - 1 && i < len
    ensures Sweep(m, x, y, yp1, len).0[i] == Sweep(m, x, y, yp1, i + 1).0[i]
    ensures Sweep(m, x, y, yp1, len).1[i] == Sweep(m, x, y, yp1, i + 1).1[i]
    decreases len
  {
    if len > i + 1 {
      SweepPrefix(m, x, y, yp1, i, len - 1);
    }
  }

  /** With both end slopes above the sentinel (a natural spline), the second
      derivative vanishes at both ends. */
  lemma NaturalSplineEnds(m: Math, x: seq<real>, y: seq<real>, yp1: real, ypn: real)
    requires 2 <= |x| == |y|
    requires yp1 > NaturalSlope && ypn > NaturalSlope
    ensures SecondDerivatives(m, x, y, yp1, ypn)[0] == 0.0
    ensures SecondDerivatives(m, x, y, yp1, ypn)[|x| - 1] == 0.0
  {
    var n := |x|;
    var sw := Sweep(m, x, y, yp1, n - 1);
    SweepPrefix(m, x, y, yp1, 0, n - 1);
    assert sw.0[0] == 0.0 && sw.1[0] == 0.0;
    var last := LastSecondDerivative(m, (0.0, 0.0), sw.0[n - 2], sw.1[n - 2]);
    assert last == 0.0;
    if n > 2 {
      var rest := BackSubstitute(sw.0[1..], sw.1[1..], last);
      assert BackSubstitute(sw.0, sw.1, last)[0] == BackStep(sw.0[0], rest[0], sw.1[0]);
    }
  }

  /** On strictly increasing nodes every forward-sweep value lies in (-1, 0], so
      every pivot `sig * y2[i - 1] + 2` is above 1 and the sweep never divides
      by zero. */
  lemma {:induction false} SweepBounded(m: Math, x: seq<real>, y: seq<real>, yp1: real, len: nat)
    requires 2 <= |x| == |y| && 1 <= len <= |x| - 1
    requires StrictlyIncreasing(x)
    ensures forall i :: 0 <= i < len ==> -1.0 < Sweep(m, x, y, yp1, len).0[i] <= 0.0
    decreases len
  {
    if len > 1 {
      SweepBounded(m, x, y, yp1, len - 1);
      var prev := Sweep(m, x, y, yp1, len - 1);
      var i := len - 1;
      SweepRowBounded(m, x[i - 1], x[i], x[i + 1], y[i - 1], y[i], y[i + 1], prev.0[i - 1], prev.1[i - 1]);
    }
  }

  /** One row of the sweep keeps its value in (-1, 0]. */
  lemma SweepRowBounded(m: Math, xl: real, xc: real, xr: real, yl: real, yc: real, yr: real, cPrev: real, uPrev: real)
    requires xl < xc < xr && -1.0 < cPrev <= 0.0
    ensures -1.0 < SweepRow(m, xl, xc, xr, yl, yc, yr, cPrev, uPrev).0 <= 0.0
  {
    var sig := Div(m, xc - xl, xr - xl);
    SigmaInUnitInterval(m, xl, xc, xr);
    PivotAboveOne(sig, cPrev);
    QuotientInOpenUnit(m, sig - 1.0, sig * cPrev + 2.0);
  }

  /** `sig` of three increasing nodes is strictly between 0 and 1. */
  lemma SigmaInUnitInterval(m: Math, a: real, b: real, c: real)
    requires a < b < c
    ensures 0.0 < Div(m, b - a, c - a) < 1.0
  {
    var d := c - a;
    assert Div(m, b - a, d) == (b - a) / d;
    assert (b - a) / d + (c - b) / d == d / d;
    assert d / d == 1.0;
    assert (c - b) / d > 0.0;
  }

  lemma PivotAboveOne(sig: real, prev: real)
    requires 0.0 < sig < 1.0 && -1.0 < prev <= 0.0
    ensures 1.0 < sig * prev + 2.0 <= 2.0
  {
    assert sig * prev <= 0.0;
    assert sig * prev > -1.0 by {
      assert sig * prev >= sig * -1.0;
    }
  }

  lemma QuotientInOpenUnit(m: Math, num: real, p: real)
    requires -1.0 < num < 0.0 && 1.0 < p
    ensures -1.0 < Div(m, num, p) <= 0.0
  {
    assert Div(m, num, p) == num / p;
    assert num / p > -1.0 / p;
  }

  /** The point above `x` on the line with intercept `alpha` and slope `beta`. */
  function LinePoint(alpha: real, beta: real, x: real): real
  {
    alpha + beta * x
  }

  /** A natural spline through collinear points has zero curvature everywhere:
      the forward sweep's right-hand sides all vanish. */
  lemma {:induction false} CollinearSweepIsZero(m: Math, x: seq<real>, y: seq<real>, alpha: real, beta: real, yp1: real, len: nat)
    requires 2 <= |x| == |y| && 1 <= len <= |x| - 1
    requires StrictlyIncreasing(x) && yp1 > NaturalSlope
    requires forall i :: 0 <= i < |x| ==> y[i] == LinePoint(alpha, beta, x[i])
    ensures forall i :: 0 <= i < len ==> Sweep(m, x, y, yp1, len).1[i] == 0.0
    decreases len
  {
    if len > 1 {
      CollinearSweepIsZero(m, x, y, alpha, beta, yp1, len - 1);
      SweepBounded(m, x, y, yp1, len - 1);
      var prev := Sweep(m, x, y, yp1, len - 1);
      var i := len - 1;
      assert prev.1[i - 1] == 0.0;
      assert y[i - 1] == LinePoint(alpha, beta, x[i - 1]) && y[i] == LinePoint(alpha, beta, x[i])
          && y[i + 1] == LinePoint(alpha, beta, x[i + 1]);
      SweepRowOfLine(m, alpha, beta, x[i - 1], x[i], x[i + 1], y[i - 1], y[i], y[i + 1], prev.0[i - 1]);
      var r := Sweep(m, x, y, yp1, len);
      assert r.1 == prev.1 + [SweepRow(m, x[i - 1], x[i], x[i + 1], y[i - 1], y[i], y[i + 1], prev.0[i - 1], prev.1[i - 1]).1];
      forall j | 0 <= j < len
        ensures r.1[j] == 0.0
      {
        if j < len - 1 {
          assert r.1[j] == prev.1[j];
        }
      }
    }
  }

  /** A sweep row over three collinear points with a zero right-hand side
      before it has a zero right-hand side. */
  lemma SweepRowOfLine(m: Math, alpha: real, beta: real, xl: real, xc: real, xr: real, yl: real, yc: real, yr: real, cPrev: real)
    requires xl < xc < xr && -1.0 < cPrev <= 0.0
    requires yl == LinePoint(alpha, beta, xl) && yc == LinePoint(alpha, beta, xc) && yr == LinePoint(alpha, beta, xr)
    ensures SweepRow(m, xl, xc, xr, yl, yc, yr, cPrev, 0.0).1 == 0.0
  {
    var sig := Div(m, xc - xl, xr - xl);
    SigmaInUnitInterval(m, xl, xc, xr);
    PivotAboveOne(sig, cPrev);
    SlopeOfLine(m, alpha, beta, xc, xr);
    SlopeOfLine(m, alpha, beta, xl, xc);
    assert Div(m, 6.0 * 0.0, xr - xl) == 0.0;
  }

  lemma SlopeOfLine(m: Math, alpha: real, beta: real, a: real, b: real)
    requires a < b
    ensures Div(m, LinePoint(alpha, beta, b) - LinePoint(alpha, beta, a), b - a) == beta
  {
    assert (alpha + beta * b) - (alpha + beta * a) == beta * (b - a);
    assert Div(m, beta * (b - a), b - a) == beta * (b - a) / (b - a);
  }

  /** Back-substitution with zero right-hand sides and a zero last entry is zero. */
  lemma {:induction false} BackSubstituteZero(c: seq<real>, u: seq<real>)
    requires |c| == |u|
    requires forall i :: 0 <= i < |u| ==> u[i] == 0.0
    ensures forall i :: 0 <= i <= |c| ==> BackSubstitute(c, u, 0.0)[i] == 0.0
    decreases |c|
  {
    if |c| > 0 {
      BackSubstituteZero(c[1..], u[1..]);
    }
  }

  /** The natural spline through collinear data on strictly increasing nodes
      has all second derivatives zero: it reproduces the straight line. */
  lemma NaturalSplineOfLineIsFlat(m: Math, x: seq<real>, y: seq<real>, alpha: real, beta: real, yp1: real, ypn: real)
    requires 2 <= |x| == |y|
    requires StrictlyIncreasing(x) && yp1 > NaturalSlope && ypn > NaturalSlope
    requires forall i :: 0 <= i < |x| ==> y[i] == LinePoint(alpha, beta, x[i])
    ensures forall i :: 0 <= i < |x| ==> SecondDerivatives(m, x, y, yp1, ypn)[i] == 0.0
  {
    var n := |x|;
    CollinearSweepIsZero(m, x, y, alpha, beta, yp1, n - 1);
    var sw := Sweep(m, x, y, yp1, n - 1);
    assert LastSecondDerivative(m, (0.0, 0.0), sw.0[n - 2], sw.1[n - 2]) == 0.0;
    BackSubstituteZero(sw.0, sw.1);
  }

  /** The right-hand side of the spline's equation at a middle node: six times
      the change of slope there over the width of the two intervals. */
  function CurvatureRhs(m: Math, xl: real, xc: real, xr: real, yl: real, yc: real, yr: real): real
  {
    Div(m, 6.0 * (Div(m, yr - yc, xr - xc) - Div(m, yc - yl, xc - xl)), xr - xl)
  }

  /** Every back-substituted entry below the last is `c[k] * r[k + 1] + u[k]`. */
  lemma {:induction false} BackSubstituteStep(c: seq<real>, u: seq<real>, last: real, k: nat)
    requires |c| == |u| && k < |c|
    ensures BackSubstitute(c, u, last)[k] == BackStep(c[k], BackSubstitute(c, u, last)[k + 1], u[k])
    decreases |c|
  {
    var rest := BackSubstitute(c[1..], u[1..], last);
    assert BackSubstitute(c, u, last) == [BackStep(c[0], rest[0], u[0])] + rest;
    if k > 0 {
      BackSubstituteStep(c[1..], u[1..], last, k - 1);
    }
  }

  /** A sweep row as elimination: its two entries times the pivot are
      `sig - 1` and the right-hand side less `sig` times the previous one. */
  lemma SweepRowPivot(m: Math, xl: real, xc: real, xr: real, yl: real, yc: real, yr: real, cPrev: real, uPrev: real)
    requires xl < xc < xr && -1.0 < cPrev <= 0.0
    ensures var sig := Div(m, xc - xl, xr - xl); var p := sig * cPrev + 2.0;
      var cu := SweepRow(m, xl, xc, xr, yl, yc, yr, cPrev, uPrev);
      && cu.0 * p == sig - 1.0
      && cu.1 * p == CurvatureRhs(m, xl, xc, xr, yl, yc, yr) - sig * uPrev
  {
    var sig := Div(m, xc - xl, xr - xl);
    SigmaInUnitInterval(m, xl, xc, xr);
    PivotAboveOne(sig, cPrev);
  }

  /** The elimination step behind one sweep row, on plain numbers: with
      pivot `p`, `c * p == sig - 1` and `u * p == rhs - sig * uPrev`, two
      back-substitution steps solve `sig zl + 2 zc + (1 - sig) zr == rhs`. */
  lemma RowElimination(sig: real, cPrev: real, uPrev: real, rhs: real, p: real, c: real, u: real, zl: real, zc: real, zr: real)
    requires p == sig * cPrev + 2.0
    requires c * p == sig - 1.0 && u * p == rhs - sig * uPrev
    requires zl == BackStep(cPrev, zc, uPrev) && zc == BackStep(c, zr, u)
    ensures sig * zl + 2.0 * zc + (1.0 - sig) * zr == rhs
  {
    assert p * zc == (c * p) * zr + u * p;
    assert sig * zl == sig * cPrev * zc + sig * uPrev;
  }

  /** One sweep row and the two back-substitution steps through it solve the
      spline's equation at the middle node. */
  lemma SweepRowSolves(m: Math, xl: real, xc: real, xr: real, yl: real, yc: real, yr: real,
                       cPrev: real, uPrev: real, zl: real, zc: real, zr: real)
    requires xl < xc < xr && -1.0 < cPrev <= 0.0
    requires zl == BackStep(cPrev, zc, uPrev)
    requires var cu := SweepRow(m, xl, xc, xr, yl, yc, yr, cPrev, uPrev); zc == BackStep(cu.0, zr, cu.1)
    ensures var sig := Div(m, xc - xl, xr - xl);
      sig * zl + 2.0 * zc + (1.0 - sig) * zr == CurvatureRhs(m, xl, xc, xr, yl, yc, yr)
  {
    hide SweepRow, Div, CurvatureRhs, BackStep;
    SweepRowPivot(m, xl, xc, xr, yl, yc, yr, cPrev, uPrev);
    var sig := Div(m, xc - xl, xr - xl);
    var cu := SweepRow(m, xl, xc, xr, yl, yc, yr, cPrev, uPrev);
    RowElimination(sig, cPrev, uPrev, CurvatureRhs(m, xl, xc, xr, yl, yc, yr), sig * cPrev + 2.0,
                   cu.0, cu.1, zl, zc, zr);
  }

  /** `SecondDerivatives` unfolded: back-substitution of the whole sweep from
      the last entry the end condition gives. */
  lemma SecondDerivativesUnfold(m: Math, x: seq<real>, y: seq<real>, yp1: real, ypn: real)
    requires 2 <= |x| == |y|
    ensures var n := |x|; var sw := Sweep(m, x, y, yp1, n - 1);
      var qu := EndCondition(m, x[n - 2], x[n - 1], y[n - 2], y[n - 1], ypn);
      SecondDerivatives(m, x, y, yp1, ypn) == BackSubstitute(sw.0, sw.1, LastSecondDerivative(m, qu, sw.0[n - 2], sw.1[n - 2]))
  {
  }

  /** Entry `i` of any longer sweep is the sweep row of entry `i - 1`. */
  lemma SweepEntry(m: Math, x: seq<real>, y: seq<real>, yp1: real, i: nat, len: nat)
    requires 2 <= |x| == |y| && 1 <= i < len <= |x| - 1
    ensures var sw := Sweep(m, x, y, yp1, len);
      var cu := SweepRow(m, x[i - 1], x[i], x[i + 1], y[i - 1], y[i], y[i + 1], sw.0[i - 1], sw.1[i - 1]);
      cu.0 == sw.0[i] && cu.1 == sw.1[i]
  {
    SweepPrefix(m, x, y, yp1, i, len);
    SweepPrefix(m, x, y, yp1, i - 1, len);
    SweepPrefix(m, x, y, yp1, i - 1, i);
  }

  /** Entry 0 of any sweep is the first row. */
  lemma SweepFirst(m: Math, x: seq<real>, y: seq<real>, yp1: real, len: nat)
    requires 2 <= |x| == |y| && 1 <= len <= |x| - 1
    ensures var sw := Sweep(m, x, y, yp1, len); var cu := SweepStart(m, x[0], x[1], y[0], y[1], yp1);
      sw.0[0] == cu.0 && sw.1[0] == cu.1
  {
    SweepPrefix(m, x, y, yp1, 0, len);
  }

  /** Three neighbouring nodes of a strictly increasing sequence. */
  lemma IncreasingAround(x: seq<real>, i: nat)
    requires StrictlyIncreasing(x) && 1 <= i <= |x| - 2
    ensures x[i - 1] < x[i] < x[i + 1]
  {
  }

  /** The second derivatives `spline` computes on strictly increasing nodes
      solve the tridiagonal system of a cubic spline at every interior node:
      `sig * y2[i-1] + 2 y2[i] + (1 - sig) y2[i+1]` is six times the change of
      slope at `x[i]` over `x[i+1] - x[i-1]`. */
  lemma SplineInteriorEquations(m: Math, x: seq<real>, y: seq<real>, yp1: real, ypn: real, i: nat)
    requires 2 <= |x| == |y| && StrictlyIncreasing(x) && 1 <= i <= |x| - 2
    ensures var y2 := SecondDerivatives(m, x, y, yp1, ypn);
      var sig := Div(m, x[i] - x[i - 1], x[i + 1] - x[i - 1]);
      sig * y2[i - 1] + 2.0 * y2[i] + (1.0 - sig) * y2[i + 1]
        == CurvatureRhs(m, x[i - 1], x[i], x[i + 1], y[i - 1], y[i], y[i + 1])
  {
    hide Sweep, SweepStart, SweepRow, BackSubstitute, SecondDerivatives, LastSecondDerivative, EndCondition, Div, CurvatureRhs, StrictlyIncreasing, BackStep;
    var n := |x|;
    IncreasingAround(x, i);
    var sw := Sweep(m, x, y, yp1, n - 1);
    var last := LastSecondDerivative(m, EndCondition(m, x[n - 2], x[n - 1], y[n - 2], y[n - 1], ypn), sw.0[n - 2], sw.1[n - 2]);
    var y2 := SecondDerivatives(m, x, y, yp1, ypn);
    assert y2 == BackSubstitute(sw.0, sw.1, last) by {
      SecondDerivativesUnfold(m, x, y, yp1, ypn);
    }
    var cu := SweepRow(m, x[i - 1], x[i], x[i + 1], y[i - 1], y[i], y[i + 1], sw.0[i - 1], sw.1[i - 1]);
    assert cu.0 == sw.0[i] && cu.1 == sw.1[i] by {
      SweepEntry(m, x, y, yp1, i, n - 1);
    }
    assert -1.0 < sw.0[i - 1] <= 0.0 by {
      SweepBounded(m, x, y, yp1, n - 1);
    }
    assert y2[i - 1] == BackStep(sw.0[i - 1], y2[i], sw.1[i - 1]) by {
      BackSubstituteStep(sw.0, sw.1, last, i - 1);
    }
    assert y2[i] == BackStep(cu.0, y2[i + 1], cu.1) by {
      BackSubstituteStep(sw.0, sw.1, last, i);
    }
    SweepRowSolves(m, x[i - 1], x[i], x[i + 1], y[i - 1], y[i], y[i + 1], sw.0[i - 1], sw.1[i - 1],
                   y2[i - 1], y2[i], y2[i + 1]);
  }

  /** With a clamped first end (slope `yp1` at or below the sentinel) the
      second derivatives meet the first end equation of a cubic spline with
      that slope: `2 y2[0] + y2[1]` is six times the difference of the first
      interval's slope and `yp1` over the first interval. */
  lemma SplineClampedStart(m: Math, x: seq<real>, y: seq<real>, yp1: real, ypn: real)
    requires 2 <= |x| == |y| && yp1 <= NaturalSlope
    ensures var y2 := SecondDerivatives(m, x, y, yp1, ypn);
      2.0 * y2[0] + y2[1] == 2.0 * (Div(m, 3.0, x[1] - x[0]) * (Div(m, y[1] - y[0], x[1] - x[0]) - yp1))
  {
    var n := |x|;
    var first := SweepStart(m, x[0], x[1], y[0], y[1], yp1);
    assert first.0 == -0.5;
    assert first.1 == Div(m, 3.0, x[1] - x[0]) * (Div(m, y[1] - y[0], x[1] - x[0]) - yp1);
    hide Sweep, SweepStart, SweepRow, BackSubstitute, SecondDerivatives, LastSecondDerivative, EndCondition, Div, CurvatureRhs, StrictlyIncreasing;
    var sw := Sweep(m, x, y, yp1, n - 1);
    var last := LastSecondDerivative(m, EndCondition(m, x[n - 2], x[n - 1], y[n - 2], y[n - 1], ypn), sw.0[n - 2], sw.1[n - 2]);
    SecondDerivativesUnfold(m, x, y, yp1, ypn);
    SweepFirst(m, x, y, yp1, n - 1);
    BackSubstituteStep(sw.0, sw.1, last, 0);
  }

  /** The clamped end condition: half, and three over the last interval times
      the difference of `ypn` and the last interval's slope. */
  lemma EndConditionClamped(m: Math, xl: real, xr: real, yl: real, yr: real, ypn: real)
    requires ypn <= NaturalSlope
    ensures var qu := EndCondition(m, xl, xr, yl, yr, ypn);
      qu.0 == 0.5 && qu.1 == Div(m, 3.0, xr - xl) * (ypn - Div(m, yr - yl, xr - xl))
  {
  }

  /** The last second derivative solves the last row of the system. */
  lemma LastSecondDerivativeSolves(m: Math, qu: (real, real), c: real, u: real)
    requires qu.0 == 0.5 && -1.0 < c <= 0.0
    ensures LastSecondDerivative(m, qu, c, u) * (0.5 * c + 1.0) == qu.1 - 0.5 * u
  {
  }

  /** The last end equation on plain numbers: with `last * (c / 2 + 1) == q - u / 2`
      and `z` one back-substitution step from `last`, `z + 2 last == 2 q`. */
  lemma LastRowElimination(c: real, u: real, q: real, last: real, z: real)
    requires last * (0.5 * c + 1.0) == q - 0.5 * u && z == BackStep(c, last, u)
    ensures z + 2.0 * last == 2.0 * q
  {
    assert last * (0.5 * c + 1.0) == 0.5 * (c * last) + last;
  }

  /** With a clamped last end (slope `ypn` at or below the sentinel) the
      second derivatives on strictly increasing nodes meet the last end
      equation of a cubic spline with that slope: `y2[n-2] + 2 y2[n-1]` is six
      times the difference of `ypn` and the last interval's slope over the
      last interval. */
  lemma SplineClampedEnd(m: Math, x: seq<real>, y: seq<real>, yp1: real, ypn: real)
    requires 2 <= |x| == |y| && StrictlyIncreasing(x) && ypn <= NaturalSlope
    ensures var y2 := SecondDerivatives(m, x, y, yp1, ypn); var n := |x|;
      y2[n - 2] + 2.0 * y2[n - 1] == 2.0 * (Div(m, 3.0, x[n - 1] - x[n - 2]) * (ypn - Div(m, y[n - 1] - y[n - 2], x[n - 1] - x[n - 2])))
  {
    hide Sweep, SweepStart, SweepRow, BackSubstitute, SecondDerivatives, LastSecondDerivative, EndCondition, Div, CurvatureRhs, StrictlyIncreasing, BackStep;
    var n := |x|;
    var qu := EndCondition(m, x[n - 2], x[n - 1], y[n - 2], y[n - 1], ypn);
    EndConditionClamped(m, x[n - 2], x[n - 1], y[n - 2], y[n - 1], ypn);
    var sw := Sweep(m, x, y, yp1, n - 1);
    var last := LastSecondDerivative(m, qu, sw.0[n - 2], sw.1[n - 2]);
    var y2 := SecondDerivatives(m, x, y, yp1, ypn);
    assert y2 == BackSubstitute(sw.0, sw.1, last) by {
      SecondDerivativesUnfold(m, x, y, yp1, ypn);
    }
    assert -1.0 < sw.0[n - 2] <= 0.0 by {
      SweepBounded(m, x, y, yp1, n - 1);
    }
    LastSecondDerivativeSolves(m, qu, sw.0[n - 2], sw.1[n - 2]);
    assert y2[n - 2] == BackStep(sw.0[n - 2], last, sw.1[n - 2]) by {
      BackSubstituteStep(sw.0, sw.1, last, n - 2);
    }
    LastRowElimination(sw.0[n - 2], sw.1[n - 2], qu.1, last, y2[n - 2]);
  }

  // ---------------------------------------------------------------------------
  // splint: evaluation after bisection
  // ---------------------------------------------------------------------------

  /** The bisection of `splint`: narrows `[klo, khi]` to adjacent nodes that
      bracket `x` (a node at or below `x`, and one above `x` or the last one). */
  function Bisect(xa: seq<real>, x: real, klo: int, khi: int): (r: (int, int))
    requires 0 <= klo <= khi < |xa|
    ensures klo <= r.0 <= r.1 <= khi
    ensures klo < khi ==> r.1 == r.0 + 1
    ensures klo == khi ==> r == (klo, khi)
    ensures (klo == r.0 || xa[r.0] <= x) && (r.1 == khi || x < xa[r.1])
    decreases khi - klo
  {
    if khi - klo > 1 then
      var k := (khi + klo) / 2;
      if xa[k] > x then Bisect(xa, x, klo, k) else Bisect(xa, x, k, khi)
    else (klo, khi)
  }

  /** The cubic on `[xlo, xhi]` with end values `ylo, yhi` and second
      derivatives `y2lo, y2hi`, evaluated at `x`. */
  function Cubic(xlo: real, xhi: real, ylo: real, yhi: real, y2lo: real, y2hi: real, x: real): real
    requires xlo != xhi
  {
    var h := xhi - xlo;
    var a := (xhi - x) / h;
    var b := (x - xlo) / h;
    a * ylo + b * yhi + ((a * a * a - a) * y2lo + (b * b * b - b) * y2hi) * h * h / 6.0
  }

  /** The cubic takes its end values at the ends of its interval. */
  lemma CubicAtEnds(xlo: real, xhi: real, ylo: real, yhi: real, y2lo: real, y2hi: real)
    requires xlo != xhi
    ensures Cubic(xlo, xhi, ylo, yhi, y2lo, y2hi, xlo) == ylo
    ensures Cubic(xlo, xhi, ylo, yhi, y2lo, y2hi, xhi) == yhi
  {
    var h := xhi - xlo;
    assert (xhi - xlo) / h == 1.0 && (xlo - xlo) / h == 0.0;
    assert (xhi - xhi) / h == 0.0;
  }

  /** The value `splint` computes: the cubic on the bracketing interval, or the
      MathmaticalError it throws when that interval has zero width. */
  function Interpolate(xa: seq<real>, ya: seq<real>, y2a: seq<real>, x: real): Result<real>
    requires 1 <= |xa| && |ya| == |xa| && |y2a| == |xa|
  {
    var br := Bisect(xa, x, 0, |xa| - 1);
    var klo, khi := br.0, br.1;
    if xa[khi] - xa[klo] == 0.0 then Failure(MathmaticalError)
    else Success(Cubic(xa[klo], xa[khi], ya[klo], ya[khi], y2a[klo], y2a[khi], x))
  }

  /** `splint`: bisection for the bracketing interval, then cubic evaluation. */
  method Splint(xa: array<real>, ya: array<real>, y2a: array<real>, n: int, x: real) returns (r: Result<real>)
    requires 1 <= n <= xa.Length && n <= ya.Length && n <= y2a.Length
    ensures r == Interpolate(xa[..n], ya[..n], y2a[..n], x)
  {
    var klo := 0;
    var khi := n - 1;
    while khi - klo > 1
      invariant 0 <= klo <= khi < n
      invariant Bisect(xa[..n], x, klo, khi) == Bisect(xa[..n], x, 0, n - 1)
    {
      var k := (khi + klo) / 2;
      assert xa[..n][k] == xa[k];
      if xa[k] > x {
        khi := k;
      } else {
        klo := k;
      }
    }
    assert Bisect(xa[..n], x, klo, khi) == (klo, khi);
    assert xa[..n][klo] == xa[klo] && xa[..n][khi] == xa[khi] && ya[..n][klo] == ya[klo] && ya[..n][khi] == ya[khi];
    assert y2a[..n][klo] == y2a[klo] && y2a[..n][khi] == y2a[khi];
    var h := xa[khi] - xa[klo];
    if h == 0.0 {
      return Failure(MathmaticalError);
    }
    r := Success(Cubic(xa[klo], xa[khi], ya[klo], ya[khi], y2a[klo], y2a[khi], x));
  }

  /** On strictly increasing nodes the bracketing interval never has zero
      width, so `splint` never throws; with a single node it always throws. */
  lemma InterpolateFailsOnlyOnDegenerateNodes(xa: seq<real>, ya: seq<real>, y2a: seq<real>, x: real)
    requires 1 <= |xa| && |ya| == |xa| && |y2a| == |xa|
    ensures StrictlyIncreasing(xa) && 2 <= |xa| ==> Interpolate(xa, ya, y2a, x).Success?
    ensures |xa| == 1 ==> Interpolate(xa, ya, y2a, x) == Failure(MathmaticalError)
  {
    var br := Bisect(xa, x, 0, |xa| - 1);
    if StrictlyIncreasing(xa) && 2 <= |xa| {
      assert xa[br.0] < xa[br.1];
    }
  }

  /** Evaluation reproduces the data at every node (`a = 1, b = 0` at the lower
      end of the bracketing interval, `a = 0, b = 1` at the last node). */
  lemma InterpolateAtNode(xa: seq<real>, ya: seq<real>, y2a: seq<real>, i: int)
    requires 2 <= |xa| && |ya| == |xa| && |y2a| == |xa|
    requires StrictlyIncreasing(xa)
    requires 0 <= i < |xa|
    ensures Interpolate(xa, ya, y2a, xa[i]) == Success(ya[i])
  {
    var n := |xa|;
    var x := xa[i];
    var br := Bisect(xa, x, 0, n - 1);
    var klo, khi := br.0, br.1;
    assert xa[klo] < xa[khi];
    CubicAtEnds(xa[klo], xa[khi], ya[klo], ya[khi], y2a[klo], y2a[khi]);
    if i < n - 1 {
      assert klo == i;
    } else {
      assert khi == n - 1;
    }
  }

  // ---------------------------------------------------------------------------
  // splini: integral from the first node
  // ---------------------------------------------------------------------------

  /** The upper limit on interval `[klo, klo + 1]`: `x`, clamped to the right
      node except on the last interval. */
  function UpperLimit(xa: seq<real>, x: real, klo: int): (xx: real)
    requires 0 <= klo && klo + 1 < |xa|
    ensures xx <= x && (klo + 2 < |xa| ==> xx <= xa[klo + 1])
    ensures xx == x || xx == xa[klo + 1]
  {
    if klo + 2 < |xa| then (if x < xa[klo + 1] then x else xa[klo + 1]) else x
  }

  /** The integral of the cubic on `[xlo, xhi]` from `xlo` to `xx`. */
  function CubicIntegral(m: Math, xlo: real, xhi: real, ylo: real, yhi: real, y2lo: real, y2hi: real, xx: real): real
  {
    var h := xhi - xlo;
    var a := Div(m, xhi - xx, h);
    var b := Div(m, xx - xlo, h);
    var a2 := a * a;
    var b2 := b * b;
    ((1.0 - a2) * ylo / 2.0 + b2 * yhi / 2.0
      + ((-(1.0 + a2 * a2) / 4.0 + a2 / 2.0) * y2lo + (b2 * b2 / 4.0 - b2 / 2.0) * y2hi) * h * h / 6.0) * h
  }

  /** The contribution of interval `[klo, klo + 1]`. */
  function IntervalIntegral(m: Math, xa: seq<real>, ya: seq<real>, y2a: seq<real>, x: real, klo: int): real
    requires 0 <= klo && klo + 1 < |xa| && |ya| == |xa| && |y2a| == |xa|
  {
    CubicIntegral(m, xa[klo], xa[klo + 1], ya[klo], ya[klo + 1], y2a[klo], y2a[klo + 1], UpperLimit(xa, x, klo))
  }

  /** The integral `splini` accumulates from interval `klo` onwards: intervals
      are added while `x` lies beyond their left node. */
  function IntegralFrom(m: Math, xa: seq<real>, ya: seq<real>, y2a: seq<real>, x: real, klo: int): real
    requires 0 <= klo < |xa| && |ya| == |xa| && |y2a| == |xa|
    decreases |xa| - klo
  {
    if x > xa[klo] && klo + 1 < |xa| then
      IntervalIntegral(m, xa, ya, y2a, x, klo) + IntegralFrom(m, xa, ya, y2a, x, klo + 1)
    else 0.0
  }

  /** The value `splini` computes: the integral of the spline from `xa[0]` to `x`. */
  function Integrate(m: Math, xa: seq<real>, ya: seq<real>, y2a: seq<real>, x: real): real
    requires 1 <= |xa| && |ya| == |xa| && |y2a| == |xa|
  {
    IntegralFrom(m, xa, ya, y2a, x, 0)
  }

  /** `splini`: accumulates the integral interval by interval. */
  method Splini(m: Math, xa: array<real>, ya: array<real>, y2a: array<real>, n: int, x: real) returns (y: real)
    requires 1 <= n <= xa.Length && n <= ya.Length && n <= y2a.Length
    ensures y == Integrate(m, xa[..n], ya[..n], y2a[..n], x)
  {
    ghost var xs, ys, y2s := xa[..n], ya[..n], y2a[..n];
    var yi := 0.0;
    var klo := 0;
    var khi := 1;
    while x > xa[klo] && khi < n
      invariant 0 <= klo < n && khi == klo + 1
      invariant yi + IntegralFrom(m, xs, ys, y2s, x, klo) == Integrate(m, xs, ys, y2s, x)
      decreases n - klo
    {
      var xx := x;
      if khi < n - 1 {
        xx := if x < xa[khi] then x else xa[khi];
      }
      assert xx == UpperLimit(xs, x, klo);
      yi := yi + CubicIntegral(m, xa[klo], xa[khi], ya[klo], ya[khi], y2a[klo], y2a[khi], xx);
      klo := klo + 1;
      khi := khi + 1;
    }
    y := yi;
  }

  /** Nothing is integrated at or below the first node. */
  lemma IntegrateBelowFirstNode(m: Math, xa: seq<real>, ya: seq<real>, y2a: seq<real>, x: real)
    requires 1 <= |xa| && |ya| == |xa| && |y2a| == |xa|
    requires x <= xa[0]
    ensures Integrate(m, xa, ya, y2a, x) == 0.0
  {
  }

  /** On a constant profile with zero curvature the integral of the cubic is
      the constant times the covered width. */
  lemma CubicIntegralOfConstant(m: Math, xlo: real, xhi: real, c: real, xx: real)
    requires xlo < xhi
    ensures CubicIntegral(m, xlo, xhi, c, c, 0.0, 0.0, xx) == c * (xx - xlo)
  {
    var h := xhi - xlo;
    var a := Div(m, xhi - xx, h);
    var b := Div(m, xx - xlo, h);
    assert a == (xhi - xx) / h && b == (xx - xlo) / h;
    assert a + b == h / h;
    assert h / h == 1.0;
    assert a == 1.0 - b;
    assert b * h == xx - xlo;
    var a2 := a * a;
    var b2 := b * b;
    assert a2 == 1.0 - 2.0 * b + b2;
    assert (1.0 - a2) * c / 2.0 + b2 * c / 2.0 == b * c;
    assert CubicIntegral(m, xlo, xhi, c, c, 0.0, 0.0, xx) == b * c * h;
  }

  /** The integral is exact on a constant profile: for strictly increasing
      nodes and `x` at or beyond the first node it is `c * (x - xa[0])`,
      including past the last node, where the last interval is not clamped. */
  lemma {:induction false} IntegralFromOfConstant(m: Math, xa: seq<real>, ya: seq<real>, y2a: seq<real>, x: real, klo: int, c: real)
    requires 0 <= klo < |xa| && |ya| == |xa| && |y2a| == |xa|
    requires StrictlyIncreasing(xa)
    requires forall i :: 0 <= i < |xa| ==> ya[i] == c && y2a[i] == 0.0
    requires xa[klo] <= x && (klo < |xa| - 1 || x == xa[klo])
    ensures IntegralFrom(m, xa, ya, y2a, x, klo) == c * (x - xa[klo])
    decreases |xa| - klo
  {
    if x > xa[klo] && klo + 1 < |xa| {
      var khi := klo + 1;
      CubicIntegralOfConstant(m, xa[klo], xa[khi], c, UpperLimit(xa, x, klo));
      if x <= xa[khi] {
        assert IntegralFrom(m, xa, ya, y2a, x, khi) == 0.0;
      } else if khi < |xa| - 1 {
        IntegralFromOfConstant(m, xa, ya, y2a, x, khi, c);
      } else {
        assert IntegralFrom(m, xa, ya, y2a, x, khi) == 0.0;
      }
    }
  }

  lemma IntegrateConstantProfile(m: Math, xa: seq<real>, ya: seq<real>, y2a: seq<real>, x: real, c: real)
    requires 2 <= |xa| && |ya| == |xa| && |y2a| == |xa|
    requires StrictlyIncreasing(xa)
    requires forall i :: 0 <= i < |xa| ==> ya[i] == c && y2a[i] == 0.0
    requires xa[0] <= x
    ensures Integrate(m, xa, ya, y2a, x) == c * (x - xa[0])
  {
    IntegralFromOfConstant(m, xa, ya, y2a, x, 0, c);
  }
}
