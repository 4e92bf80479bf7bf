/** When a regression can succeed at all (internal/service/comps/bpo_market.go): exactly when the columns
    of its design, intercept included, are independent. So it needs at least as many rows as coefficients. */
module RegressionRank {
  import opened LinearAlgebra
  import opened GaussJordan
  import opened LeastSquares

  // ---- X'X and X have the same kernel ------------------------------------------------------------

  lemma KernelOfDesignToGram(d: Matrix, w: Vec)
    requires (forall i :: 0 <= i < |d| ==> |d[i]| == |w|) && MatVec(d, w) == Zero(|d|)
    ensures MatVec(GramTo(d, |w|, |d|), w) == Zero(|w|)
  {
    var g, q := GramTo(d, |w|, |d|), Predictions(d, w);
    forall i | 0 <= i < |d| ensures q[i] == 0.0 { assert MatVec(d, w)[i] == Zero(|d|)[i]; }
    forall a | 0 <= a < |w| ensures MatVec(g, w)[a] == Zero(|w|)[a] {
      GramTimes(d, w, a);
      WeightedColumnIsDot(d, q, |w|, a, |d|);
      DotZero(FeatureColumn(d, |w|, a), q, |d|);
    }
  }

  /** From X'X w = 0 follows |X w|^2 = w'(X'X w) = 0. */
  lemma KernelOfGramToDesign(d: Matrix, w: Vec)
    requires (forall i :: 0 <= i < |d| ==> |d[i]| == |w|) && MatVec(GramTo(d, |w|, |d|), w) == Zero(|w|)
    ensures MatVec(d, w) == Zero(|d|)
  {
    var g, q := GramTo(d, |w|, |d|), Predictions(d, w);
    var z := WeightedColumns(d, q, |w|, |d|);
    forall a | 0 <= a < |w| ensures z[a] == 0.0 {
      GramTimes(d, w, a);
      assert MatVec(g, w)[a] == Zero(|w|)[a];
    }
    Exchange(d, q, w, |d|);
    DotSymmetric(z, w, |w|);
    DotZero(w, z, |w|);
    SquaresZero(q, q, |d|);
    assert MatVec(d, w) == Zero(|d|);
  }

  // ---- More columns than rows --------------------------------------------------------------------

  /** A row with f times the pivot row taken off, without the last entry. */
  ghost function ReducedRowBy(row: Vec, pivot: Vec, f: real): (r: Vec)
    requires |row| == |pivot| > 0
    ensures |r| == |row| - 1
  {
    seq(|row| - 1, j requires 0 <= j < |row| - 1 => -f * pivot[j] + row[j])
  }

  lemma DotExtended(row: Vec, w: Vec, x: real)
    requires |row| == |w| + 1
    ensures Dot(row, w + [x]) == DotTo(row, w, |w|) + row[|w|] * x
  {
    var v := w + [x];
    DotAgrees(row, v, row, w, |w|);
    assert v[|w|] == x;
  }

  /** Extending w by x so that the pivot row sends it to zero sends another row where its reduced row sends w. */
  lemma ExtendSolution(row: Vec, pivot: Vec, w: Vec, x: real, f: real)
    requires |row| == |pivot| == |w| + 1 && f * pivot[|w|] == row[|w|] && x * pivot[|w|] == -DotTo(pivot, w, |w|)
    ensures Dot(row, w + [x]) == Dot(ReducedRowBy(row, pivot, f), w)
  {
    hide DotTo;
    var n := |w|;
    DotExtended(row, w, x);
    DotLinear(ReducedRowBy(row, pivot, f), -f, pivot, row, w, n);
    PivotCancels(DotTo(pivot, w, n), pivot[n], x, row[n], f);
  }

  lemma PivotSolved(pivot: Vec, w: Vec, x: real)
    requires |pivot| == |w| + 1 && x * pivot[|w|] == -DotTo(pivot, w, |w|)
    ensures Dot(pivot, w + [x]) == 0.0
  {
    DotExtended(pivot, w, x);
  }

  lemma PivotCancels(s: real, p: real, x: real, r: real, f: real)
    requires f * p == r && x * p == -s
    ensures r * x == -f * s
  {
    assert r * x == f * (x * p);
  }

  lemma Quotient(s: real, p: real)
    requires p != 0.0
    ensures s / p * p == s && -(s / p) * p == -s
  {
    var q := s / p;
    assert q * p == s && (-q) * p == -(q * p);
  }

  /** With more columns than rows some non-zero vector is sent to zero. */
  lemma {:induction false} TooFewRows(d: Matrix, p: nat) returns (v: Vec)
    requires |d| < p && forall i :: 0 <= i < |d| ==> |d[i]| == p
    ensures |v| == p && v != Zero(p) && MatVec(d, v) == Zero(|d|)
    decreases p
  {
    var n := p - 1;
    if r :| 0 <= r < |d| && d[r][n] != 0.0 {
      v := SolveAround(d, p, r);
    } else {
      v := Unit(p, n);
      assert v[n] == 1.0 && Zero(p)[n] == 0.0;
      forall i | 0 <= i < |d| ensures MatVec(d, v)[i] == Zero(|d|)[i] { DotUnit(d[i], v, n, p); }
    }
  }

  ghost predicate Pivot(d: Matrix, p: nat, r: nat) {
    r < |d| && p > 0 && (forall i :: 0 <= i < |d| ==> |d[i]| == p) && d[r][p - 1] != 0.0
  }

  ghost function ReducedAt(d: Matrix, p: nat, r: nat, i: nat): (row: Vec)
    requires Pivot(d, p, r) && i < |d|
    ensures |row| == p - 1
  {
    ReducedRowBy(d[i], d[r], d[i][p - 1] / d[r][p - 1])
  }

  ghost function Reduced(d: Matrix, p: nat, r: nat): (e: Matrix)
    requires Pivot(d, p, r)
    ensures |e| == |d| - 1 && forall i :: 0 <= i < |e| ==> |e[i]| == p - 1
  {
    var e := seq(|d| - 1, i requires 0 <= i < |d| - 1 => ReducedAt(d, p, r, if i < r then i else i + 1));
    assert forall i :: 0 <= i < |e| ==> e[i] == ReducedAt(d, p, r, if i < r then i else i + 1);
    e
  }

  /** The pivot row r takes one row and one column away. */
  lemma {:induction false} SolveAround(d: Matrix, p: nat, r: nat) returns (v: Vec)
    requires |d| < p && Pivot(d, p, r)
    ensures |v| == p && v != Zero(p) && MatVec(d, v) == Zero(|d|)
    decreases p, 0
  {
    var n := p - 1;
    var w := TooFewRows(Reduced(d, p, r), n);
    var x := -(DotTo(d[r], w, n) / d[r][n]);
    Quotient(DotTo(d[r], w, n), d[r][n]);
    v := w + [x];
    var j :| 0 <= j < n && w[j] != Zero(n)[j];
    assert v[j] != Zero(p)[j];
    forall i | 0 <= i < |d| ensures MatVec(d, v)[i] == Zero(|d|)[i] { RowVanishes(d, p, r, w, x, i); }
  }

  lemma RowVanishes(d: Matrix, p: nat, r: nat, w: Vec, x: real, i: nat)
    requires Pivot(d, p, r) && i < |d|
    requires |w| == p - 1 && x * d[r][p - 1] == -DotTo(d[r], w, p - 1)
    requires MatVec(Reduced(d, p, r), w) == Zero(|d| - 1)
    ensures Dot(d[i], w + [x]) == 0.0
  {
    if i == r {
      PivotSolved(d[r], w, x);
    } else {
      var f := d[i][p - 1] / d[r][p - 1];
      Quotient(d[i][p - 1], d[r][p - 1]);
      ExtendSolution(d[i], d[r], w, x, f);
      var k := if i < r then i else i - 1;
      assert Reduced(d, p, r)[k] == ReducedAt(d, p, r, i);
      assert MatVec(Reduced(d, p, r), w)[k] == Zero(|d| - 1)[k];
    }
  }

  // ---- When a fit exists -------------------------------------------------------------------------

  /** X'X is accepted, for some pivot tolerance, exactly when the columns of X are independent. */
  lemma FitExistsIffIndependent(d: Matrix, p: nat)
    requires forall i :: 0 <= i < |d| ==> |d[i]| == p
    ensures Acceptable(GramTo(d, p, |d|)) <==> NoKernel(d, p)
  {
    var g := GramTo(d, p, |d|);
    InvertibleIffAccepted(g);
    if NoKernel(d, p) {
      forall w: Vec | |w| == p && MatVec(g, w) == Zero(p) ensures w == Zero(p) { KernelOfGramToDesign(d, w); }
    }
    if NoKernel(g, p) {
      forall w: Vec | |w| == p && MatVec(d, w) == Zero(|d|) ensures w == Zero(p) { KernelOfDesignToGram(d, w); }
    }
  }

  /** A fit with p coefficients needs at least p rows, whatever the rows are. */
  lemma FitNeedsRows(d: Matrix, p: nat)
    requires (forall i :: 0 <= i < |d| ==> |d[i]| == p) && |d| < p
    ensures !Acceptable(GramTo(d, p, |d|)) && Invert(GramTo(d, p, |d|), PIVOT_TOLERANCE).Singular?
  {
    assert Invert(GramTo(d, p, |d|), PIVOT_TOLERANCE).Inverse? ==> Acceptable(GramTo(d, p, |d|));
    var v := TooFewRows(d, p);
    assert !NoKernel(d, p);
    FitExistsIffIndependent(d, p);
  }

  // ---- A feature that never varies ---------------------------------------------------------------

  /** Feature j has one value over all rows. */
  ghost predicate ConstantFeature(xs: Matrix, j: nat) {
    && (forall i :: 0 <= i < |xs| ==> j < |xs[i]|)
    && (forall i, k :: 0 <= i < |xs| && 0 <= k < |xs| ==> xs[i][j] == xs[k][j])
  }

  /** The column of a constant feature is a multiple of the intercept column. */
  lemma ConstantFeatureDot(x: Vec, p: nat, j: nat, c: real, v: Vec, k: nat)
    requires j + 1 < p && j < |x| && x[j] == c && |v| == p && k <= p
    requires forall a :: 0 <= a < p ==> v[a] == if a == 0 then -c else if a == j + 1 then 1.0 else 0.0
    ensures DotTo(DesignRow(x, p), v, k) == (if k > 0 then -c else 0.0) + (if k > j + 1 then c else 0.0)
  {
    if k > 0 { ConstantFeatureDot(x, p, j, c, v, k - 1); }
  }

  lemma ConstantFeatureMeansKernel(xs: Matrix, p: nat, j: nat)
    requires j + 1 < p && ConstantFeature(xs, j)
    ensures !NoKernel(Design(xs, p), p)
  {
    var d, c := Design(xs, p), if xs == [] then 0.0 else xs[0][j];
    var v := seq(p, a requires 0 <= a < p => if a == 0 then -c else if a == j + 1 then 1.0 else 0.0);
    forall i | 0 <= i < |d| ensures MatVec(d, v)[i] == Zero(|d|)[i] { ConstantFeatureDot(xs[i], p, j, c, v, p); }
    assert MatVec(d, v) == Zero(|d|);
    assert v[j + 1] != Zero(p)[j + 1];
  }

  /** A feature that has the same value in every row makes every fit fail. */
  lemma FitNeedsVariation(xs: Matrix, p: nat, j: nat)
    requires j + 1 < p && ConstantFeature(xs, j)
    ensures var g := GramTo(Design(xs, p), p, |xs|); !Acceptable(g) && Invert(g, PIVOT_TOLERANCE).Singular?
  {
    var d := Design(xs, p);
    assert Invert(GramTo(d, p, |d|), PIVOT_TOLERANCE).Inverse? ==> Acceptable(GramTo(d, p, |d|));
    ConstantFeatureMeansKernel(xs, p, j);
    FitExistsIffIndependent(d, p);
  }
}
