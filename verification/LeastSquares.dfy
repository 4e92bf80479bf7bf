/** solveOLS and olsRSquared (internal/service/comps/bpo_market.go): the market-rate regression.

    The loops accumulate X'X and X'y and multiply by the inverse. What the fit promises is proved
    about the coefficients themselves: the normal equations, the least sum of squared residuals
    among all coefficient vectors, and that no other vector reaches it. */
module LeastSquares {
  import opened LinearAlgebra
  import opened GaussJordan
  import opened Reals

  datatype Fit = NoFit | Coefficients(coef: Vec)

  /** One design row: the intercept 1 followed by the features, cut or zero-padded to p entries
      as the copy into a fresh slice of length p does. */
  function DesignRow(x: Vec, p: nat): (row: Vec)
    ensures |row| == p
  {
    seq(p, k requires 0 <= k < p => if k == 0 then 1.0 else if k - 1 < |x| then x[k - 1] else 0.0)
  }

  function Design(xs: Matrix, p: nat): (d: Matrix)
    ensures |d| == |xs| && forall i :: 0 <= i < |d| ==> |d[i]| == p
  {
    seq(|xs|, i requires 0 <= i < |xs| => DesignRow(xs[i], p))
  }

  // ---- Sums over the rows ----------------------------------------------------------------------

  /** The first k terms of r1*d1[a] + r2*d2[a] + ... */
  ghost function WeightedColumn(d: Matrix, r: Vec, a: nat, k: nat): real
    requires k <= |d| && k <= |r| && forall i :: 0 <= i < |d| ==> a < |d[i]|
  {
    if k == 0 then 0.0 else WeightedColumn(d, r, a, k - 1) + r[k - 1] * d[k - 1][a]
  }

  ghost function WeightedColumns(d: Matrix, r: Vec, p: nat, k: nat): (v: Vec)
    requires k <= |d| && k <= |r| && forall i :: 0 <= i < |d| ==> |d[i]| == p
    ensures |v| == p
  {
    seq(p, a requires 0 <= a < p => WeightedColumn(d, r, a, k))
  }

  ghost function FeatureColumn(d: Matrix, p: nat, a: nat): (v: Vec)
    requires a < p && forall i :: 0 <= i < |d| ==> |d[i]| == p
    ensures |v| == |d|
  {
    seq(|d|, i requires 0 <= i < |d| => d[i][a])
  }

  ghost function GramTo(d: Matrix, p: nat, k: nat): (g: Matrix)
    requires k <= |d| && forall i :: 0 <= i < |d| ==> |d[i]| == p
    ensures IsMatrix(g, p, p)
  {
    seq(p, a requires 0 <= a < p => WeightedColumns(d, FeatureColumn(d, p, a), p, k))
  }

  ghost function Predictions(d: Matrix, c: Vec): (v: Vec)
    requires forall i :: 0 <= i < |d| ==> |d[i]| == |c|
    ensures |v| == |d|
  {
    seq(|d|, i requires 0 <= i < |d| => Dot(d[i], c))
  }

  ghost function Residuals(d: Matrix, y: Vec, c: Vec): (v: Vec)
    requires |y| >= |d| && forall i :: 0 <= i < |d| ==> |d[i]| == |c|
    ensures |v| == |d|
  {
    seq(|d|, i requires 0 <= i < |d| => y[i] - Dot(d[i], c))
  }

  ghost function SumOfSquares(v: Vec): real { Dot(v, v) }

  ghost function SquaredError(d: Matrix, y: Vec, c: Vec): real
    requires |y| >= |d| && forall i :: 0 <= i < |d| ==> |d[i]| == |c|
  {
    SumOfSquares(Residuals(d, y, c))
  }

  lemma {:induction false} SquaresNonNegative(v: Vec, k: nat)
    requires k <= |v|
    ensures DotTo(v, v, k) >= 0.0
  {
    if k > 0 { SquaresNonNegative(v, k - 1); }
  }

  lemma {:induction false} SquaresZero(v: Vec, w: Vec, k: nat)
    requires k <= |v| && v == w && DotTo(v, w, k) == 0.0
    ensures forall i :: 0 <= i < k ==> v[i] == 0.0
  {
    if k > 0 {
      SquaresNonNegative(v, k - 1);
      SquareAndRestZero(v[k - 1], w[k - 1], DotTo(v, w, k - 1));
      SquaresZero(v, w, k - 1);
    }
  }

  lemma ExchangeTerm(d: Matrix, r: Vec, c: Vec, k: nat)
    requires 0 < k <= |d| && |d| <= |r| && forall i :: 0 <= i < |d| ==> |d[i]| == |c|
    ensures DotTo(r, Predictions(d, c), k) == r[k - 1] * DotTo(d[k - 1], c, |c|) + DotTo(r, Predictions(d, c), k - 1)
    ensures forall a :: 0 <= a < |c| ==>
      WeightedColumns(d, r, |c|, k)[a] == r[k - 1] * d[k - 1][a] + WeightedColumns(d, r, |c|, k - 1)[a]
  {
    assert Predictions(d, c)[k - 1] == DotTo(d[k - 1], c, |c|);
  }

  lemma ExchangeStart(d: Matrix, r: Vec, c: Vec)
    requires |d| <= |r| && forall i :: 0 <= i < |d| ==> |d[i]| == |c|
    ensures DotTo(r, Predictions(d, c), 0) == Dot(WeightedColumns(d, r, |c|, 0), c)
  {
    DotSymmetric(WeightedColumns(d, r, |c|, 0), c, |c|);
    DotZero(c, WeightedColumns(d, r, |c|, 0), |c|);
  }

  /** Exchange of the two sums: over rows of r[i]*(d[i].c), over columns of c[a]*(sum of r[i]*d[i][a]). */
  lemma {:induction false} Exchange(d: Matrix, r: Vec, c: Vec, k: nat)
    requires k <= |d| && |d| <= |r| && forall i :: 0 <= i < |d| ==> |d[i]| == |c|
    ensures DotTo(r, Predictions(d, c), k) == Dot(WeightedColumns(d, r, |c|, k), c)
  {
    hide WeightedColumns, Predictions;
    if k == 0 {
      ExchangeStart(d, r, c);
    } else {
      Exchange(d, r, c, k - 1);
      ExchangeTerm(d, r, c, k);
      DotLinear(WeightedColumns(d, r, |c|, k), r[k - 1], d[k - 1], WeightedColumns(d, r, |c|, k - 1), c, |c|);
    }
  }

  /** X'X c, entry a: the a-th column weighted by the predictions. */
  lemma GramTimes(d: Matrix, c: Vec, a: nat)
    requires a < |c| && forall i :: 0 <= i < |d| ==> |d[i]| == |c|
    ensures Dot(GramTo(d, |c|, |d|)[a], c) == WeightedColumn(d, Predictions(d, c), a, |d|)
  {
    Exchange(d, FeatureColumn(d, |c|, a), c, |d|);
    WeightedColumnIsDot(d, Predictions(d, c), |c|, a, |d|);
  }

  lemma {:induction false} WeightedColumnIsDot(d: Matrix, r: Vec, p: nat, a: nat, k: nat)
    requires k <= |d| && k <= |r| && a < p && forall i :: 0 <= i < |d| ==> |d[i]| == p
    ensures WeightedColumn(d, r, a, k) == DotTo(FeatureColumn(d, p, a), r, k)
  {
    if k > 0 { WeightedColumnIsDot(d, r, p, a, k - 1); }
  }

  lemma {:induction false} WeightedColumnDifference(d: Matrix, y: Vec, c: Vec, a: nat, k: nat)
    requires a < |c| && k <= |d| <= |y| && forall i :: 0 <= i < |d| ==> |d[i]| == |c|
    ensures WeightedColumn(d, Residuals(d, y, c), a, k) ==
            WeightedColumn(d, y, a, k) - WeightedColumn(d, Predictions(d, c), a, k)
  {
    if k > 0 { WeightedColumnDifference(d, y, c, a, k - 1); }
  }

  // ---- What a fit promises -------------------------------------------------------------------

  /** Every column of the design is orthogonal to the residuals. */
  ghost predicate NormalEquations(d: Matrix, y: Vec, c: Vec)
    requires |y| >= |d| && forall i :: 0 <= i < |d| ==> |d[i]| == |c|
  {
    forall a :: 0 <= a < |c| ==> WeightedColumn(d, Residuals(d, y, c), a, |d|) == 0.0
  }

  ghost function Difference(c: Vec, e: Vec): (v: Vec)
    requires |c| == |e|
    ensures |v| == |c|
  {
    seq(|c|, i requires 0 <= i < |c| => c[i] - e[i])
  }

  lemma {:induction false} SquareOfSum(s: Vec, r: Vec, q: Vec, k: nat)
    requires k <= |s| && k <= |r| && k <= |q|
    requires forall i :: 0 <= i < k ==> s[i] == r[i] + q[i]
    ensures DotTo(s, s, k) == DotTo(r, r, k) + 2.0 * DotTo(r, q, k) + DotTo(q, q, k)
  {
    if k > 0 {
      SquareOfSum(s, r, q, k - 1);
      var x, y := r[k - 1], q[k - 1];
      assert (x + y) * (x + y) == x * x + 2.0 * (x * y) + y * y;
    }
  }

  /** Pythagoras: away from a solution of the normal equations the error grows by the squared
      distance between the two sets of predictions. */
  lemma ErrorDecomposes(d: Matrix, y: Vec, c: Vec, e: Vec)
    requires |y| >= |d| && |e| == |c| && forall i :: 0 <= i < |d| ==> |d[i]| == |c|
    requires NormalEquations(d, y, c)
    ensures SquaredError(d, y, e) == SquaredError(d, y, c) + SumOfSquares(Predictions(d, Difference(c, e)))
  {
    var r, w := Residuals(d, y, c), Difference(c, e);
    var q := Predictions(d, w);
    forall i | 0 <= i < |d| ensures Residuals(d, y, e)[i] == r[i] + q[i] {
      DotSymmetric(d[i], w, |c|);
      DotSymmetric(d[i], c, |c|);
      DotSymmetric(d[i], e, |c|);
      DotLinear(w, -1.0, e, c, d[i], |c|);
    }
    SquareOfSum(Residuals(d, y, e), r, q, |d|);
    Exchange(d, r, w, |d|);
    var z := WeightedColumns(d, r, |c|, |d|);
    DotSymmetric(z, w, |c|);
    DotZero(w, z, |c|);
  }

  /** No coefficient vector has a smaller error, and with an inverse of X'X at hand only c has the least one. */
  lemma NormalEquationsAreOptimal(d: Matrix, y: Vec, c: Vec, inverse: Matrix, e: Vec)
    requires |y| >= |d| && |e| == |c| && forall i :: 0 <= i < |d| ==> |d[i]| == |c|
    requires NormalEquations(d, y, c) && IsInverse(GramTo(d, |c|, |d|), inverse)
    ensures SquaredError(d, y, c) <= SquaredError(d, y, e)
    ensures SquaredError(d, y, e) == SquaredError(d, y, c) ==> e == c
  {
    ErrorDecomposes(d, y, c, e);
    var w := Difference(c, e);
    var q := Predictions(d, w);
    SquaresNonNegative(q, |d|);
    if SquaredError(d, y, e) == SquaredError(d, y, c) {
      SquaresZero(q, q, |d|);
      var g, zero := GramTo(d, |c|, |d|), seq(|c|, _ => 0.0);
      forall a | 0 <= a < |c| ensures MatVec(g, w)[a] == zero[a] {
        GramTimes(d, w, a);
        WeightedColumnIsDot(d, q, |c|, a, |d|);
        DotZero(FeatureColumn(d, |c|, a), q, |d|);
      }
      assert MatVec(g, w) == zero;
      forall a | 0 <= a < |c| ensures e[a] == c[a] {
        InverseHasNoKernel(g, inverse, w, a);
        assert w[a] == 0.0;
      }
    }
  }

  /** Multiplying X'y by the inverse of X'X solves the normal equations. */
  lemma InverseSolvesNormalEquations(d: Matrix, y: Vec, c: Vec)
    requires |y| >= |d| && forall i :: 0 <= i < |d| ==> |d[i]| == |c|
    requires Invert(GramTo(d, |c|, |d|), PIVOT_TOLERANCE).Inverse?
    requires forall i :: 0 <= i < |Invert(GramTo(d, |c|, |d|), PIVOT_TOLERANCE).matrix| ==>
               |Invert(GramTo(d, |c|, |d|), PIVOT_TOLERANCE).matrix[i]| == |c|
    requires c == MatVec(Invert(GramTo(d, |c|, |d|), PIVOT_TOLERANCE).matrix, WeightedColumns(d, y, |c|, |d|))
    ensures NormalEquations(d, y, c)
  {
    var g, z := GramTo(d, |c|, |d|), WeightedColumns(d, y, |c|, |d|);
    InvertSolves(g, PIVOT_TOLERANCE, c, z);
    assert MatVec(g, c) == z;
    forall a | 0 <= a < |c| ensures WeightedColumn(d, Residuals(d, y, c), a, |d|) == 0.0 {
      GramTimes(d, c, a);
      WeightedColumnDifference(d, y, c, a, |d|);
      assert MatVec(g, c)[a] == z[a];
    }
  }

  // ---- The loops -----------------------------------------------------------------------------

  /** coef satisfies the normal equations, and no other vector has so small a squared error. */
  ghost predicate BestFit(d: Matrix, y: Vec, coef: Vec)
    requires |y| >= |d| && forall i :: 0 <= i < |d| ==> |d[i]| == |coef|
  {
    && NormalEquations(d, y, coef)
    && forall e: Vec :: |e| == |coef| ==>
         && SquaredError(d, y, coef) <= SquaredError(d, y, e)
         && (SquaredError(d, y, e) == SquaredError(d, y, coef) ==> e == coef)
  }

  /** solveOLS. The error return (no rows, or a rejected pivot) is NoFit. */
  method SolveOLS(xs: Matrix, y: Vec) returns (fit: Fit)
    requires |y| >= |xs|
    ensures |xs| == 0 ==> fit.NoFit?
    ensures |xs| > 0 ==>
      var p := |xs[0]| + 1;
      var d := Design(xs, p);
      && (fit.NoFit? <==> Invert(GramTo(d, p, |d|), PIVOT_TOLERANCE).Singular?)
      && (fit.Coefficients? ==>
            |fit.coef| == p && BestFit(d, y, fit.coef))
  {
    var n := |xs|;
    if n == 0 {
      return NoFit;
    }
    var p := |xs[0]| + 1;
    var gram, xty := AccumulateGram(xs, y, p);
    ghost var d := Design(xs, p);
    var inv, ok := InvertMatrix(gram);
    if !ok {
      return NoFit;
    }
    var coef := Multiply(inv, xty);
    InverseSolvesNormalEquations(d, y, coef);
    forall e: Vec | |e| == p
      ensures SquaredError(d, y, coef) <= SquaredError(d, y, e)
      ensures SquaredError(d, y, e) == SquaredError(d, y, coef) ==> e == coef
    {
      NormalEquationsAreOptimal(d, y, coef, inv, e);
    }
    fit := Coefficients(coef);
  }

  function PlusMultiple(v: Vec, f: real, row: Vec): (r: Vec)
    requires |v| == |row|
    ensures |r| == |v|
  {
    seq(|v|, j requires 0 <= j < |v| => v[j] + f * row[j])
  }

  /** The triple loop of solveOLS: xtX and xtY grow by one row's products per pass. */
  method AccumulateGram(xs: Matrix, y: Vec, p: nat) returns (gram: Matrix, xty: Vec)
    requires |y| >= |xs|
    ensures gram == GramTo(Design(xs, p), p, |xs|)
    ensures xty == WeightedColumns(Design(xs, p), y, p, |xs|)
  {
    hide GramTo, WeightedColumns, DesignRow;
    ghost var d := Design(xs, p);
    var xtX := new Vec[p](_ => seq(p, _ => 0.0));
    var xtY := new real[p](_ => 0.0);
    GramStart(d, y, p, xtX[..], xtY[..]);
    for i := 0 to |xs|
      invariant xtX[..] == GramTo(d, p, i)
      invariant xtY[..] == WeightedColumns(d, y, p, i)
    {
      ghost var g, z := xtX[..], xtY[..];
      AddRow(xtX, xtY, DesignRow(xs[i], p), y[i]);
      GramStep(d, y, p, i, g, z, xtX[..], xtY[..]);
    }
    gram, xty := xtX[..], xtY[..];
  }

  lemma GramStart(d: Matrix, y: Vec, p: nat, g: Matrix, z: Vec)
    requires |d| <= |y| && IsMatrix(g, p, p) && |z| == p && forall i :: 0 <= i < |d| ==> |d[i]| == p
    requires forall a, b :: 0 <= a < p && 0 <= b < p ==> g[a][b] == 0.0
    requires forall a :: 0 <= a < p ==> z[a] == 0.0
    ensures g == GramTo(d, p, 0) && z == WeightedColumns(d, y, p, 0)
  {
    forall a | 0 <= a < p ensures g[a] == GramTo(d, p, 0)[a] {
      assert forall b :: 0 <= b < p ==> GramTo(d, p, 0)[a][b] == 0.0;
    }
  }

  lemma GramStep(d: Matrix, y: Vec, p: nat, k: nat, g: Matrix, z: Vec, g': Matrix, z': Vec)
    requires k < |d| <= |y| && forall i :: 0 <= i < |d| ==> |d[i]| == p
    requires g == GramTo(d, p, k) && z == WeightedColumns(d, y, p, k)
    requires |g'| == p && forall a :: 0 <= a < p ==> g'[a] == PlusMultiple(g[a], d[k][a], d[k])
    requires |z'| == p && forall a :: 0 <= a < p ==> z'[a] == z[a] + d[k][a] * y[k]
    ensures g' == GramTo(d, p, k + 1) && z' == WeightedColumns(d, y, p, k + 1)
  {
    forall a | 0 <= a < p ensures g'[a] == GramTo(d, p, k + 1)[a] {
      var v := FeatureColumn(d, p, a);
      forall b | 0 <= b < p ensures g'[a][b] == GramTo(d, p, k + 1)[a][b] {
        assert WeightedColumn(d, v, b, k + 1) == WeightedColumn(d, v, b, k) + v[k] * d[k][b];
      }
    }
    forall a | 0 <= a < p ensures z'[a] == WeightedColumns(d, y, p, k + 1)[a] {
      assert WeightedColumn(d, y, a, k + 1) == WeightedColumn(d, y, a, k) + y[k] * d[k][a];
    }
  }

  /** One pass of the outer loop: row holds the design entries of one sale, target its price. */
  method AddRow(xtX: array<Vec>, xtY: array<real>, row: Vec, target: real)
    requires xtX.Length == xtY.Length == |row| && forall a :: 0 <= a < |row| ==> |xtX[a]| == |row|
    modifies xtX, xtY
    ensures forall a :: 0 <= a < |row| ==> xtX[a] == PlusMultiple(old(xtX[a]), row[a], row)
    ensures forall a :: 0 <= a < |row| ==> xtY[a] == old(xtY[a]) + row[a] * target
  {
    for a := 0 to |row|
      invariant forall s :: 0 <= s < a ==> xtX[s] == PlusMultiple(old(xtX[s]), row[s], row)
      invariant forall s :: a <= s < |row| ==> xtX[s] == old(xtX[s])
      invariant forall s :: 0 <= s < a ==> xtY[s] == old(xtY[s]) + row[s] * target
      invariant forall s :: a <= s < |row| ==> xtY[s] == old(xtY[s])
    {
      AddToRow(xtX, a, row);
      xtY[a] := xtY[a] + row[a] * target;
    }
  }

  method AddToRow(xtX: array<Vec>, a: nat, row: Vec)
    requires a < xtX.Length == |row| && |xtX[a]| == |row|
    modifies xtX
    ensures xtX[..] == old(xtX[..])[a := PlusMultiple(old(xtX[a]), row[a], row)]
  {
    ghost var before := xtX[..];
    for b := 0 to |row|
      invariant |xtX[a]| == |row|
      invariant forall s :: 0 <= s < xtX.Length && s != a ==> xtX[s] == before[s]
      invariant forall t :: 0 <= t < b ==> xtX[a][t] == before[a][t] + row[a] * row[t]
      invariant forall t :: b <= t < |row| ==> xtX[a][t] == before[a][t]
    {
      xtX[a] := xtX[a][b := xtX[a][b] + row[a] * row[b]];
    }
    ghost var want := PlusMultiple(before[a], row[a], row);
    assert forall t :: 0 <= t < |row| ==> xtX[a][t] == want[t];
    assert xtX[a] == want;
    assert xtX[..] == before[a := want];
  }

  /** The final double loop of solveOLS. */
  method Multiply(m: Matrix, v: Vec) returns (r: Vec)
    requires forall i :: 0 <= i < |m| ==> |m[i]| == |v|
    ensures r == MatVec(m, v)
  {
    var coef := new real[|m|](_ => 0.0);
    for i := 0 to |m|
      invariant forall k :: 0 <= k < i ==> coef[k] == MatVec(m, v)[k]
      invariant forall k :: i <= k < |m| ==> coef[k] == 0.0
    {
      for j := 0 to |v|
        invariant forall k :: 0 <= k < i ==> coef[k] == MatVec(m, v)[k]
        invariant forall k :: i < k < |m| ==> coef[k] == 0.0
        invariant coef[i] == DotTo(m[i], v, j)
      {
        coef[i] := coef[i] + m[i][j] * v[j];
      }
    }
    r := coef[..];
  }

  // ---- The score -----------------------------------------------------------------------------

  ghost function Deviations(y: Vec, center: real): (v: Vec) {
    seq(|y|, i requires 0 <= i < |y| => y[i] - center)
  }

  ghost function Variation(y: Vec): real
    requires |y| > 0
  {
    SumOfSquares(Deviations(y, Mean(y)))
  }

  /** olsRSquared before the clamp at 0. */
  ghost function Explained(ssRes: real, ssTot: real): real
    requires ssTot > 0.0
  {
    1.0 - ssRes / ssTot
  }

  const LEAST_VARIATION := 0.000000001

  /** The score of a coefficient vector: 0 without rows or with almost no variation to explain. */
  ghost function Score(xs: Matrix, y: Vec, coef: Vec): real
    requires |xs| == |y| && |coef| > 0
  {
    if |y| == 0 || Variation(y) < LEAST_VARIATION then 0.0
    else
      var raw := Explained(SquaredError(Design(xs, |coef|), y, coef), Variation(y));
      if raw > 0.0 then raw else 0.0
  }

  method OlsRSquared(xs: Matrix, y: Vec, coef: Vec) returns (r: real)
    requires |xs| == |y| && |coef| > 0 && forall i :: 0 <= i < |xs| ==> |xs[i]| + 1 == |coef|
    ensures r == Score(xs, y, coef)
  {
    if |y| == 0 {
      return 0.0;
    }
    var mean := Average(y);
    var ssRes, ssTot := SquaredSums(xs, y, coef, mean);
    if ssTot < LEAST_VARIATION {
      return 0.0;
    }
    r := 1.0 - ssRes / ssTot;
    if r < 0.0 {
      r := 0.0;
    }
  }

  method SquaredSums(xs: Matrix, y: Vec, coef: Vec, mean: real) returns (ssRes: real, ssTot: real)
    requires |xs| == |y| && |coef| > 0 && forall i :: 0 <= i < |xs| ==> |xs[i]| + 1 == |coef|
    ensures ssRes == SquaredError(Design(xs, |coef|), y, coef) && ssTot == SumOfSquares(Deviations(y, mean))
  {
    ghost var res, dev := Residuals(Design(xs, |coef|), y, coef), Deviations(y, mean);
    ssTot, ssRes := 0.0, 0.0;
    for i := 0 to |xs|
      invariant ssRes == DotTo(res, res, i) && ssTot == DotTo(dev, dev, i)
    {
      var pred := Predict(xs[i], coef);
      assert res[i] == y[i] - pred && dev[i] == y[i] - mean;
      ssRes := ssRes + (y[i] - pred) * (y[i] - pred);
      ssTot := ssTot + (y[i] - mean) * (y[i] - mean);
    }
  }

  method Average(y: Vec) returns (mean: real)
    requires |y| > 0
    ensures mean == Mean(y)
  {
    mean := 0.0;
    for i := 0 to |y|
      invariant mean == SumTo(y, i)
    {
      mean := mean + y[i];
    }
    mean := mean / |y| as real;
  }

  method Predict(x: Vec, coef: Vec) returns (pred: real)
    requires |x| + 1 == |coef|
    ensures pred == Dot(DesignRow(x, |coef|), coef)
  {
    pred := coef[0];
    ghost var row := DesignRow(x, |coef|);
    assert DotTo(row, coef, 1) == DotTo(row, coef, 0) + row[0] * coef[0];
    for j := 0 to |x|
      invariant pred == DotTo(row, coef, j + 1)
    {
      assert row[j + 1] == x[j];
      pred := pred + coef[j + 1] * x[j];
    }
  }

  /** The intercept column makes the constant fit a candidate, so a least-squares fit never does
      worse than the mean: the score lies in [0, 1] before the clamp. It is the share of the
      variation that the predictions explain. */
  lemma FitScoreNeedsNoClamp(xs: Matrix, y: Vec, coef: Vec)
    requires |xs| == |y| && |y| > 0 && |coef| > 0 && forall i :: 0 <= i < |xs| ==> |xs[i]| + 1 == |coef|
    requires NormalEquations(Design(xs, |coef|), y, coef)
    requires Variation(y) >= LEAST_VARIATION
    ensures var d := Design(xs, |coef|);
            var flat := Unit(|coef|, 0)[0 := Mean(y)];
            && 0.0 <= Explained(SquaredError(d, y, coef), Variation(y)) <= 1.0
            && Explained(SquaredError(d, y, coef), Variation(y)) ==
                 SumOfSquares(Predictions(d, Difference(coef, flat))) / Variation(y)
  {
    var d, flat := Design(xs, |coef|), Unit(|coef|, 0)[0 := Mean(y)];
    forall i | 0 <= i < |d| ensures Dot(d[i], flat) == Mean(y) {
      var zero := seq(|coef|, _ => 0.0);
      DotSymmetric(d[i], flat, |coef|);
      DotLinear(flat, Mean(y), Unit(|coef|, 0), zero, d[i], |coef|);
      DotSymmetric(Unit(|coef|, 0), d[i], |coef|);
      DotUnit(d[i], Unit(|coef|, 0), 0, |coef|);
      DotSymmetric(zero, d[i], |coef|);
      DotZero(d[i], zero, |coef|);
    }
    assert Residuals(d, y, flat) == Deviations(y, Mean(y));
    ErrorDecomposes(d, y, coef, flat);
    var e, q, t := SquaredError(d, y, coef), SumOfSquares(Predictions(d, Difference(coef, flat))), Variation(y);
    SquaresNonNegative(Residuals(d, y, coef), |d|);
    SquaresNonNegative(Predictions(d, Difference(coef, flat)), |d|);
    assert t == e + q;
    ShareOfWhole(e, q, t);
  }

  lemma ShareOfWhole(e: real, q: real, t: real)
    requires t > 0.0 && e >= 0.0 && q >= 0.0 && t == e + q
    ensures 1.0 - e / t == q / t && 0.0 <= q / t <= 1.0
  {
    QuotientOfSum(e, q, t);
    QuotientSign(e, t);
    QuotientSign(q, t);
    SelfQuotient(t);
  }
}
