/** invertMatrix (internal/service/comps/bpo_market.go): Gauss-Jordan elimination with partial
    pivoting on the augmented matrix [m | I].

    The in-place loops are proved equal to the stage function Eliminate. What a stage keeps is the
    null space: a vector v ++ -w is annihilated by [m | I] exactly when m v = w, and swapping,
    scaling and subtracting rows change no null space. */
module GaussJordan {
  import opened Reals
  import opened LinearAlgebra

  const PIVOT_TOLERANCE: real := 0.000000000001

  datatype Inversion = Singular | Inverse(matrix: Matrix)

  // ---- The stages as functions -------------------------------------------------------------

  function PivotTo(a: Matrix, col: nat, r: nat): (p: nat)
    requires col < r <= |a|
    requires forall i :: 0 <= i < |a| ==> col < |a[i]|
    ensures col <= p < r
    ensures forall i :: col <= i < r ==> Abs(a[i][col]) <= Abs(a[p][col])
  {
    if r == col + 1 then col else
      var p := PivotTo(a, col, r - 1);
      if Abs(a[r - 1][col]) > Abs(a[p][col]) then r - 1 else p
  }

  function SwapRows(a: Matrix, i: nat, j: nat): (b: Matrix)
    requires i < |a| && j < |a|
  {
    a[i := a[j]][j := a[i]]
  }

  function DivideRow(row: Vec, d: real): (r: Vec)
    requires d != 0.0
    ensures |r| == |row|
  {
    seq(|row|, j requires 0 <= j < |row| => row[j] / d)
  }

  function SubtractMultiple(row: Vec, f: real, pivot: Vec): (r: Vec)
    requires |row| == |pivot|
    ensures |r| == |row|
  {
    seq(|row|, j requires 0 <= j < |row| => row[j] - f * pivot[j])
  }

  function ClearColumn(a: Matrix, col: nat): (b: Matrix)
    requires col < |a| && forall i :: 0 <= i < |a| ==> |a[i]| == |a[col]| && col < |a[i]|
  {
    seq(|a|, r requires 0 <= r < |a| =>
      if r == col then a[col] else SubtractMultiple(a[r], a[r][col], a[col]))
  }

  predicate Augmented(a: Matrix) {
    forall i :: 0 <= i < |a| ==> |a[i]| == 2 * |a|
  }

  /** One pass of the outer loop once a usable pivot row p has been found. */
  function Stage(a: Matrix, col: nat, p: nat): (b: Matrix)
    requires Augmented(a) && col <= p < |a| && a[p][col] != 0.0
    ensures Augmented(b) && |b| == |a|
  {
    var s := SwapRows(a, col, p);
    ClearColumn(s[col := DivideRow(s[col], s[col][col])], col)
  }

  function Eliminate(a: Matrix, col: nat, tolerance: real): (r: Inversion)
    requires Augmented(a) && col <= |a| && tolerance > 0.0
    ensures r.Inverse? ==> Augmented(r.matrix) && |r.matrix| == |a|
    decreases |a| - col
  {
    if col == |a| then Inverse(a) else
      var p := PivotTo(a, col, |a|);
      if Abs(a[p][col]) < tolerance then Singular
      else Eliminate(Stage(a, col, p), col + 1, tolerance)
  }

  function Augment(m: Matrix): (a: Matrix)
    requires forall i :: 0 <= i < |m| ==> |m[i]| == |m|
    ensures Augmented(a) && |a| == |m|
  {
    seq(|m|, i requires 0 <= i < |m| =>
      seq(2 * |m|, j requires 0 <= j < 2 * |m| =>
        if j < |m| then m[i][j] else if j == |m| + i then 1.0 else 0.0))
  }

  function RightHalf(a: Matrix): (r: Matrix)
    requires Augmented(a)
  {
    seq(|a|, i requires 0 <= i < |a| => a[i][|a|..])
  }

  function Invert(m: Matrix, tolerance: real): (r: Inversion)
    requires tolerance > 0.0
    requires forall i :: 0 <= i < |m| ==> |m[i]| == |m|
  {
    match Eliminate(Augment(m), 0, tolerance)
    case Singular => Singular
    case Inverse(a) => Inverse(RightHalf(a))
  }

  // ---- The null space is kept ----------------------------------------------------------------

  ghost predicate Annihilates(a: Matrix, u: Vec)
    requires forall i :: 0 <= i < |a| ==> |a[i]| == |u|
  {
    forall i :: 0 <= i < |a| ==> Dot(a[i], u) == 0.0
  }

  lemma SwapKeepsNullSpace(a: Matrix, i: nat, j: nat, u: Vec)
    requires i < |a| && j < |a| && forall k :: 0 <= k < |a| ==> |a[k]| == |u|
    ensures forall k :: 0 <= k < |a| ==> |SwapRows(a, i, j)[k]| == |u|
    ensures Annihilates(SwapRows(a, i, j), u) <==> Annihilates(a, u)
  {
    var b := SwapRows(a, i, j);
    assert b[i] == a[j] && b[j] == a[i] && forall k :: 0 <= k < |a| && k != i && k != j ==> b[k] == a[k];
  }

  lemma DivideDot(row: Vec, d: real, u: Vec)
    requires |row| == |u| && d != 0.0
    ensures Dot(row, u) == d * Dot(DivideRow(row, d), u)
  {
    var q := DivideRow(row, d);
    var zero := seq(|u|, _ => 0.0);
    DotLinear(row, d, q, zero, u, |u|);
    DotSymmetric(zero, u, |u|);
    DotZero(u, zero, |u|);
  }

  lemma DivideKeepsNullSpace(a: Matrix, i: nat, d: real, u: Vec)
    requires i < |a| && d != 0.0 && forall k :: 0 <= k < |a| ==> |a[k]| == |u|
    ensures Annihilates(a[i := DivideRow(a[i], d)], u) <==> Annihilates(a, u)
  {
    DivideDot(a[i], d, u);
    var b := a[i := DivideRow(a[i], d)];
    assert Dot(a[i], u) == d * Dot(b[i], u);
    assert Dot(b[i], u) == 0.0 <==> Dot(a[i], u) == 0.0;
    assert forall k :: 0 <= k < |a| && k != i ==> b[k] == a[k];
  }

  lemma ClearKeepsNullSpace(a: Matrix, col: nat, u: Vec)
    requires col < |a| && col < |u| && forall k :: 0 <= k < |a| ==> |a[k]| == |u|
    ensures Annihilates(ClearColumn(a, col), u) <==> Annihilates(a, u)
  {
    var b := ClearColumn(a, col);
    assert b[col] == a[col];
    forall r | 0 <= r < |a| && r != col
      ensures Dot(b[r], u) == Dot(a[r], u) - a[r][col] * Dot(a[col], u)
    {
      DotLinear(b[r], -a[r][col], a[col], a[r], u, |u|);
    }
  }

  lemma StageKeepsNullSpace(a: Matrix, col: nat, p: nat, u: Vec)
    requires Augmented(a) && col <= p < |a| && a[p][col] != 0.0 && |u| == 2 * |a|
    ensures Annihilates(Stage(a, col, p), u) <==> Annihilates(a, u)
  {
    SwapKeepsNullSpace(a, col, p, u);
    var s := SwapRows(a, col, p);
    DivideKeepsNullSpace(s, col, s[col][col], u);
    ClearKeepsNullSpace(s[col := DivideRow(s[col], s[col][col])], col, u);
  }

  // ---- Columns already treated stay unit columns -----------------------------------------------

  ghost predicate UnitColumns(a: Matrix, col: nat)
    requires Augmented(a) && col <= |a|
  {
    forall r, j {:trigger a[r][j]} :: 0 <= r < |a| && 0 <= j < col ==> a[r][j] == if r == j then 1.0 else 0.0
  }

  lemma StageMakesUnitColumn(a: Matrix, col: nat, p: nat)
    requires Augmented(a) && col <= p < |a| && a[p][col] != 0.0
    requires UnitColumns(a, col)
    ensures UnitColumns(Stage(a, col, p), col + 1)
  {
    var s := SwapRows(a, col, p);
    var t := s[col := DivideRow(s[col], s[col][col])];
    SwappedPivotRow(a, col, p);
    PivotRow(s[col], col);
    forall r, j | 0 <= r < |a| && 0 <= j < col + 1
      ensures ClearColumn(t, col)[r][j] == if r == j then 1.0 else 0.0
    {
      if r != col {
        ClearedEntry(t[r][j], t[r][col], t[col][j]);
      }
    }
  }

  lemma SwappedPivotRow(a: Matrix, col: nat, p: nat)
    requires Augmented(a) && col <= p < |a| && a[p][col] != 0.0 && UnitColumns(a, col)
    ensures var s := SwapRows(a, col, p);
      && s[col][col] != 0.0 && (forall j :: 0 <= j < col ==> s[col][j] == 0.0)
      && forall r, j :: 0 <= r < |a| && r != col && 0 <= j < col ==> s[r][j] == if r == j then 1.0 else 0.0
  {
  }

  /** Dividing by the pivot makes it 1 and leaves zeros alone. */
  lemma PivotRow(row: Vec, col: nat)
    requires col < |row| && row[col] != 0.0 && forall j :: 0 <= j < col ==> row[j] == 0.0
    ensures DivideRow(row, row[col])[col] == 1.0 && forall j :: 0 <= j < col ==> DivideRow(row, row[col])[j] == 0.0
  {
    SelfQuotient(row[col]);
  }

  lemma ClearedEntry(x: real, f: real, y: real)
    ensures y == 0.0 ==> x - f * y == x
    ensures y == 1.0 && f == x ==> x - f * y == 0.0
  {
  }

  lemma EliminateStep(a: Matrix, col: nat, t: real)
    requires Augmented(a) && col < |a| && 0.0 < t <= Abs(a[PivotTo(a, col, |a|)][col])
    ensures a[PivotTo(a, col, |a|)][col] != 0.0
    ensures Eliminate(a, col, t) == Eliminate(Stage(a, col, PivotTo(a, col, |a|)), col + 1, t)
  {
  }

  lemma {:induction false} EliminateEndsInUnitColumns(a: Matrix, col: nat, tolerance: real)
    requires Augmented(a) && col <= |a| && tolerance > 0.0 && UnitColumns(a, col)
    requires Eliminate(a, col, tolerance).Inverse?
    ensures UnitColumns(Eliminate(a, col, tolerance).matrix, |a|)
    decreases |a| - col
  {
    if col < |a| {
      var p := PivotTo(a, col, |a|);
      StageMakesUnitColumn(a, col, p);
      EliminateEndsInUnitColumns(Stage(a, col, p), col + 1, tolerance);
    }
  }

  lemma {:induction false} EliminateKeepsNullSpace(a: Matrix, col: nat, tolerance: real, u: Vec)
    requires Augmented(a) && col <= |a| && tolerance > 0.0 && |u| == 2 * |a|
    requires Eliminate(a, col, tolerance).Inverse?
    ensures Annihilates(Eliminate(a, col, tolerance).matrix, u) <==> Annihilates(a, u)
    decreases |a| - col
  {
    if col < |a| {
      var p := PivotTo(a, col, |a|);
      StageKeepsNullSpace(a, col, p, u);
      EliminateKeepsNullSpace(Stage(a, col, p), col + 1, tolerance, u);
    }
  }

  /** A successful elimination ends with the identity on the left and the original null space. */
  lemma EliminateSound(a: Matrix, tolerance: real, u: Vec)
    requires Augmented(a) && tolerance > 0.0 && |u| == 2 * |a| && Eliminate(a, 0, tolerance).Inverse?
    ensures var b := Eliminate(a, 0, tolerance).matrix;
            UnitColumns(b, |b|) && (Annihilates(b, u) <==> Annihilates(a, u))
  {
    EliminateEndsInUnitColumns(a, 0, tolerance);
    EliminateKeepsNullSpace(a, 0, tolerance, u);
  }

  // ---- The theorem: a two-sided inverse ------------------------------------------------------

  ghost predicate Square(m: Matrix) { IsMatrix(m, |m|, |m|) }

  ghost function Column(m: Matrix, j: nat): Vec
    requires forall i :: 0 <= i < |m| ==> j < |m[i]|
  {
    seq(|m|, i requires 0 <= i < |m| => m[i][j])
  }

  /** b is a right and a left inverse of m, entry by entry. */
  ghost predicate IsInverse(m: Matrix, b: Matrix) {
    && Square(m) && Square(b) && |m| == |b|
    && (forall i, j {:trigger Dot(m[i], Column(b, j))} :: 0 <= i < |m| && 0 <= j < |m| ==>
          Dot(m[i], Column(b, j)) == if i == j then 1.0 else 0.0)
    && (forall i, j {:trigger Dot(b[i], Column(m, j))} :: 0 <= i < |m| && 0 <= j < |m| ==>
          Dot(b[i], Column(m, j)) == if i == j then 1.0 else 0.0)
  }

  lemma AugmentAnnihilates(m: Matrix, v: Vec, w: Vec)
    requires Square(m) && |v| == |m| && |w| == |m|
    ensures Annihilates(Augment(m), v + Scale(w, -1.0)) <==> MatVec(m, v) == w
  {
    var a, u, n := Augment(m), v + Scale(w, -1.0), |m|;
    forall i | 0 <= i < n
      ensures Dot(a[i], u) == MatVec(m, v)[i] - w[i]
    {
      DotSplit(a[i], u, n, n);
      DotAgrees(a[i], u, m[i], v, n);
      DotSymmetric(a[i][n..], u[n..], n);
      DotUnit(u[n..], a[i][n..], i, n);
    }
    if Annihilates(a, u) {
      assert forall i :: 0 <= i < n ==> Dot(a[i], u) == 0.0 && MatVec(m, v)[i] == w[i];
    }
  }

  lemma ReducedRow(a: Matrix, v: Vec, w: Vec, i: nat)
    requires Augmented(a) && UnitColumns(a, |a|) && |v| == |a| && |w| == |a| && i < |a|
    ensures Dot(a[i], v + Scale(w, -1.0)) == v[i] - Dot(RightHalf(a)[i], w)
  {
    var u, n, right := v + Scale(w, -1.0), |a|, RightHalf(a)[i];
    DotSplit(a[i], u, n, n);
    DotSymmetric(a[i], u, n);
    DotUnit(u, a[i], i, n);
    NegatedDot(right, w, u[n..]);
  }

  lemma NegatedDot(r: Vec, w: Vec, u: Vec)
    requires |r| == |w| == |u| && forall j :: 0 <= j < |w| ==> u[j] == -1.0 * w[j]
    ensures Dot(r, u) == -Dot(r, w)
  {
    var n := |w|;
    var zero := seq(n, _ => 0.0);
    DotSymmetric(r, u, n);
    DotSymmetric(w, r, n);
    DotLinear(u, -1.0, w, zero, r, n);
    DotSymmetric(zero, r, n);
    DotZero(r, zero, n);
  }

  lemma ReducedAnnihilates(a: Matrix, v: Vec, w: Vec)
    requires Augmented(a) && UnitColumns(a, |a|) && |v| == |a| && |w| == |a|
    ensures Annihilates(a, v + Scale(w, -1.0)) <==> v == MatVec(RightHalf(a), w)
  {
    var u, image := v + Scale(w, -1.0), MatVec(RightHalf(a), w);
    forall i | 0 <= i < |a|
      ensures Dot(a[i], u) == v[i] - image[i]
    {
      ReducedRow(a, v, w, i);
    }
    if Annihilates(a, u) {
      assert forall i :: 0 <= i < |a| ==> Dot(a[i], u) == 0.0 && v[i] == image[i];
    }
  }

  /** Solving m v = w is the same as multiplying w by the computed matrix. */
  lemma InvertSolves(m: Matrix, tolerance: real, v: Vec, w: Vec)
    requires Square(m) && tolerance > 0.0 && |v| == |m| && |w| == |m|
    requires Invert(m, tolerance).Inverse?
    ensures var b := Invert(m, tolerance).matrix; Square(b) && |b| == |m|
    ensures MatVec(m, v) == w <==> v == MatVec(Invert(m, tolerance).matrix, w)
  {
    var a := Eliminate(Augment(m), 0, tolerance).matrix;
    var u := v + Scale(w, -1.0);
    EliminateSound(Augment(m), tolerance, u);
    AugmentAnnihilates(m, v, w);
    ReducedAnnihilates(a, v, w);
  }

  lemma ColumnIsImage(m: Matrix, j: nat)
    requires Square(m) && j < |m|
    ensures MatVec(m, Unit(|m|, j)) == Column(m, j)
  {
    forall i | 0 <= i < |m|
      ensures MatVec(m, Unit(|m|, j))[i] == Column(m, j)[i]
    {
      DotUnit(m[i], Unit(|m|, j), j, |m|);
    }
  }

  lemma InvertIsInverse(m: Matrix, tolerance: real)
    requires Square(m) && tolerance > 0.0 && Invert(m, tolerance).Inverse?
    ensures IsInverse(m, Invert(m, tolerance).matrix)
  {
    var b, n := Invert(m, tolerance).matrix, |m|;
    InvertSolves(m, tolerance, Unit(n, 0), Unit(n, 0));
    forall j | 0 <= j < n
      ensures MatVec(m, Column(b, j)) == Unit(n, j) && MatVec(b, Column(m, j)) == Unit(n, j)
    {
      ColumnIsImage(b, j);
      InvertSolves(m, tolerance, Column(b, j), Unit(n, j));
      ColumnIsImage(m, j);
      InvertSolves(m, tolerance, Unit(n, j), Column(m, j));
    }
    forall i, j | 0 <= i < n && 0 <= j < n
      ensures Dot(m[i], Column(b, j)) == (if i == j then 1.0 else 0.0)
      ensures Dot(b[i], Column(m, j)) == (if i == j then 1.0 else 0.0)
    {
      assert MatVec(m, Column(b, j))[i] == Unit(n, j)[i];
      assert MatVec(b, Column(m, j))[i] == Unit(n, j)[i];
    }
  }

  // ---- The tolerance is the only reason an invertible matrix is rejected ------------------------

  /** A vector that a matrix with a dead column col maps to zero. */
  ghost function DeadColumnVector(a: Matrix, col: nat): Vec
    requires Augmented(a) && col < |a|
  {
    seq(2 * |a|, i requires 0 <= i < 2 * |a| => if i < col then -a[i][col] else if i == col then 1.0 else 0.0)
  }

  lemma {:induction false} DeadColumnDot(a: Matrix, col: nat, r: nat, k: nat)
    requires Augmented(a) && col < |a| && UnitColumns(a, col) && r < |a| && k <= 2 * |a|
    ensures DotTo(a[r], DeadColumnVector(a, col), k) ==
            (if r < col && r < k then -a[r][col] else 0.0) + (if col < k then a[r][col] else 0.0)
  {
    if k > 0 {
      DeadColumnDot(a, col, r, k - 1);
    }
  }

  lemma DeadColumnVanishes(a: Matrix, col: nat)
    requires Augmented(a) && col < |a| && UnitColumns(a, col)
    requires forall i :: col <= i < |a| ==> a[i][col] == 0.0
    ensures Annihilates(a, DeadColumnVector(a, col))
  {
    var u, n := DeadColumnVector(a, col), |a|;
    forall r | 0 <= r < n ensures Dot(a[r], u) == 0.0 { DeadColumnDot(a, col, r, 2 * n); }
  }

  lemma InverseHasNoKernel(m: Matrix, b: Matrix, v: Vec, col: nat)
    requires IsInverse(m, b) && |v| == |m| && col < |m|
    requires MatVec(m, v) == seq(|m|, _ => 0.0)
    ensures v[col] == 0.0
  {
    // b (m v) = v, term by term: the sum over the columns of m.
    KernelSum(m, b[col], v, |m|);
    var zero := seq(|m|, _ => 0.0);
    forall i | 0 <= i < |m| ensures Dot(m[i], v) == 0.0 { assert MatVec(m, v)[i] == zero[i]; }
    DotZero(b[col], MatVec(m, v), |m|);
    var e := RowTimes(m, b[col], |m|);
    forall j | 0 <= j < |m| ensures e[j] == if j == col then 1.0 else 0.0 {
      assert Dot(b[col], Column(m, j)) == if col == j then 1.0 else 0.0;
    }
    DotSymmetric(e, v, |m|);
    DotUnit(v, e, col, |m|);
  }

  /** The first k terms of row * column, column by column. */
  ghost function RowTimes(m: Matrix, b: Vec, k: nat): (e: Vec)
    requires Square(m) && |b| == |m| && k <= |m|
    ensures |e| == |m| && forall j :: 0 <= j < |m| ==> e[j] == DotTo(b, Column(m, j), k)
  {
    seq(|m|, j requires 0 <= j < |m| => DotTo(b, Column(m, j), k))
  }

  lemma KernelTerm(m: Matrix, b: Vec, v: Vec, k: nat)
    requires Square(m) && |b| == |v| == |m| && 0 < k <= |m|
    ensures DotTo(b, MatVec(m, v), k) == b[k - 1] * DotTo(m[k - 1], v, |m|) + DotTo(b, MatVec(m, v), k - 1)
    ensures forall j :: 0 <= j < |m| ==> RowTimes(m, b, k)[j] == b[k - 1] * m[k - 1][j] + RowTimes(m, b, k - 1)[j]
  {
    assert MatVec(m, v)[k - 1] == DotTo(m[k - 1], v, |m|);
    forall j | 0 <= j < |m| ensures RowTimes(m, b, k)[j] == b[k - 1] * m[k - 1][j] + RowTimes(m, b, k - 1)[j] {
      assert DotTo(b, Column(m, j), k) == DotTo(b, Column(m, j), k - 1) + b[k - 1] * Column(m, j)[k - 1];
    }
  }

  lemma KernelStart(m: Matrix, b: Vec, v: Vec)
    requires Square(m) && |b| == |v| == |m|
    ensures DotTo(b, MatVec(m, v), 0) == Dot(RowTimes(m, b, 0), v)
  {
    DotSymmetric(RowTimes(m, b, 0), v, |m|);
    DotZero(v, RowTimes(m, b, 0), |m|);
  }

  /** The first k rows: sum over i of b[i]*(m[i].v) equals sum over j of v[j]*(sum over i of b[i]*m[i][j]). */
  lemma {:induction false} KernelSum(m: Matrix, b: Vec, v: Vec, k: nat)
    requires Square(m) && |b| == |v| == |m| && k <= |m|
    ensures DotTo(b, MatVec(m, v), k) == Dot(RowTimes(m, b, k), v)
  {
    hide RowTimes;
    if k == 0 {
      KernelStart(m, b, v);
    } else {
      KernelSum(m, b, v, k - 1);
      KernelTerm(m, b, v, k);
      DotLinear(RowTimes(m, b, k), b[k - 1], m[k - 1], RowTimes(m, b, k - 1), v, |m|);
    }
  }

  ghost function Zero(n: nat): (v: Vec)
    ensures |v| == n
  {
    seq(n, _ => 0.0)
  }

  /** m sends no vector but zero to zero. */
  ghost predicate NoKernel(m: Matrix, cols: nat)
    requires forall i :: 0 <= i < |m| ==> |m[i]| == cols
  {
    forall v: Vec :: |v| == cols && MatVec(m, v) == Zero(|m|) ==> v == Zero(cols)
  }

  ghost predicate HasInverse(m: Matrix) { exists b :: IsInverse(m, b) }

  lemma InverseMeansNoKernel(m: Matrix)
    requires Square(m) && HasInverse(m)
    ensures NoKernel(m, |m|)
  {
    var b :| IsInverse(m, b);
    forall v: Vec | |v| == |m| && MatVec(m, v) == Zero(|m|) ensures v == Zero(|m|) {
      assert MatVec(m, v) == seq(|m|, _ => 0.0);
      forall c | 0 <= c < |m| ensures v[c] == 0.0 { InverseHasNoKernel(m, b, v, c); }
    }
  }

  /** No stage of the elimination from column col on meets a zero pivot. */
  ghost predicate PivotsUsable(a: Matrix, col: nat)
    requires Augmented(a) && col <= |a|
    decreases |a| - col
  {
    col < |a| ==>
      var p := PivotTo(a, col, |a|);
      a[p][col] != 0.0 && PivotsUsable(Stage(a, col, p), col + 1)
  }

  /** A zero pivot exposes a non-zero vector that the matrix sends to zero. */
  lemma {:induction false} ZeroPivotMeansKernel(a: Matrix, col: nat) returns (v: Vec)
    requires Augmented(a) && col <= |a| && UnitColumns(a, col) && !PivotsUsable(a, col)
    ensures |v| == |a| && v != Zero(|a|) && Annihilates(a, v + Scale(Zero(|a|), -1.0))
    decreases |a| - col
  {
    var p := PivotTo(a, col, |a|);
    if a[p][col] == 0.0 {
      var u := DeadColumnVector(a, col);
      DeadColumnVanishes(a, col);
      v := u[..|a|];
      assert v[col] != Zero(|a|)[col];
      assert u == v + Scale(Zero(|a|), -1.0);
    } else {
      StageMakesUnitColumn(a, col, p);
      v := ZeroPivotMeansKernel(Stage(a, col, p), col + 1);
      StageKeepsNullSpace(a, col, p, v + Scale(Zero(|a|), -1.0));
    }
  }

  lemma NoKernelMeansUsable(m: Matrix)
    requires Square(m) && NoKernel(m, |m|)
    ensures PivotsUsable(Augment(m), 0)
  {
    if !PivotsUsable(Augment(m), 0) {
      var v := ZeroPivotMeansKernel(Augment(m), 0);
      AugmentAnnihilates(m, v, Zero(|m|));
    }
  }

  /** Without zero pivots some positive tolerance lets the elimination through. */
  lemma {:induction false} UsableIsAccepted(a: Matrix, col: nat) returns (tolerance: real)
    requires Augmented(a) && col <= |a| && PivotsUsable(a, col)
    ensures tolerance > 0.0
    ensures forall t :: 0.0 < t <= tolerance ==> Eliminate(a, col, t).Inverse?
    decreases |a| - col
  {
    hide Stage, PivotTo;
    if col == |a| {
      return 1.0;
    }
    var p := PivotTo(a, col, |a|);
    tolerance := UsableIsAccepted(Stage(a, col, p), col + 1);
    if Abs(a[p][col]) < tolerance {
      tolerance := Abs(a[p][col]);
    }
    forall t | 0.0 < t <= tolerance ensures Eliminate(a, col, t).Inverse? {
      EliminateStep(a, col, t);
    }
  }

  ghost predicate Acceptable(m: Matrix)
    requires Square(m)
  {
    exists t :: t > 0.0 && Invert(m, t).Inverse?
  }

  /** A square matrix has an inverse exactly when it has no kernel, and exactly when the elimination
      succeeds for some tolerance. */
  lemma InvertibleIffAccepted(m: Matrix)
    requires Square(m)
    ensures HasInverse(m) <==> NoKernel(m, |m|)
    ensures HasInverse(m) <==> Acceptable(m)
  {
    if NoKernel(m, |m|) {
      NoKernelMeansUsable(m);
      var t := UsableIsAccepted(Augment(m), 0);
      assert Invert(m, t).Inverse?;
    }
    if Acceptable(m) {
      var t :| t > 0.0 && Invert(m, t).Inverse?;
      InvertIsInverse(m, t);
    }
    if HasInverse(m) { InverseMeansNoKernel(m); }
  }

  // ---- The loops -----------------------------------------------------------------------------

  /** invertMatrix: the rows of aug are updated in place. */
  method InvertMatrix(m: Matrix) returns (inv: Matrix, ok: bool)
    requires forall i :: 0 <= i < |m| ==> |m[i]| == |m|
    ensures ok <==> Invert(m, PIVOT_TOLERANCE).Inverse?
    ensures ok ==> inv == Invert(m, PIVOT_TOLERANCE).matrix && IsInverse(m, inv)
  {
    var aug := BuildAugmented(m);
    ok := ReduceRows(aug);
    if !ok {
      return [], false;
    }
    inv := RightHalf(aug[..]);
    InvertIsInverse(m, PIVOT_TOLERANCE);
  }

  /** The outer loop over the columns. */
  method ReduceRows(aug: array<Vec>) returns (ok: bool)
    requires Augmented(aug[..])
    modifies aug
    ensures ok <==> Eliminate(old(aug[..]), 0, PIVOT_TOLERANCE).Inverse?
    ensures ok ==> aug[..] == Eliminate(old(aug[..]), 0, PIVOT_TOLERANCE).matrix
  {
    ghost var outcome := Eliminate(aug[..], 0, PIVOT_TOLERANCE);
    var col := 0;
    while col < aug.Length
      invariant 0 <= col <= aug.Length
      invariant Augmented(aug[..])
      invariant outcome == Eliminate(aug[..], col, PIVOT_TOLERANCE)
    {
      ghost var a := aug[..];
      var pivot := FindPivot(aug, col);
      assert a == aug[..] && a[pivot] == aug[pivot];
      if Abs(aug[pivot][col]) < PIVOT_TOLERANCE {
        return false;
      }
      RunStage(aug, col, pivot);
      col := col + 1;
    }
    ok := true;
  }

  method FindPivot(aug: array<Vec>, col: nat) returns (pivot: nat)
    requires col < aug.Length && Augmented(aug[..])
    ensures pivot == PivotTo(aug[..], col, aug.Length)
    ensures col <= pivot < aug.Length
    ensures forall r :: col <= r < aug.Length ==> Abs(aug[r][col]) <= Abs(aug[pivot][col])
  {
    pivot := col;
    for r := col + 1 to aug.Length
      invariant col <= pivot < aug.Length
      invariant pivot == PivotTo(aug[..], col, r)
    {
      if Abs(aug[r][col]) > Abs(aug[pivot][col]) {
        pivot := r;
      }
    }
    assert aug[..][pivot] == aug[pivot];
    assert forall r :: 0 <= r < aug.Length ==> aug[..][r] == aug[r];
  }

  method RunStage(aug: array<Vec>, col: nat, pivot: nat)
    requires Augmented(aug[..]) && col <= pivot < aug.Length && aug[pivot][col] != 0.0
    modifies aug
    ensures aug[..] == Stage(old(aug[..]), col, pivot)
  {
    aug[col], aug[pivot] := aug[pivot], aug[col];
    assert aug[..] == SwapRows(old(aug[..]), col, pivot);
    NormalisePivotRow(aug, col);
    ClearOtherRows(aug, col);
  }

  method BuildAugmented(m: Matrix) returns (aug: array<Vec>)
    requires forall i :: 0 <= i < |m| ==> |m[i]| == |m|
    ensures fresh(aug) && aug[..] == Augment(m)
  {
    var n := |m|;
    aug := new Vec[n];
    for i := 0 to n
      invariant forall k :: 0 <= k < i ==> aug[k] == Augment(m)[k]
    {
      aug[i] := m[i] + seq(n, _ => 0.0);
      aug[i] := aug[i][n + i := 1.0];
      assert aug[i] == Augment(m)[i];
    }
    assert aug[..] == Augment(m);
  }

  method NormalisePivotRow(aug: array<Vec>, col: nat)
    requires col < aug.Length && Augmented(aug[..]) && aug[col][col] != 0.0
    modifies aug
    ensures aug[..] == old(aug[..])[col := DivideRow(old(aug[col]), old(aug[col][col]))]
  {
    var div, width := aug[col][col], |aug[col]|;
    ghost var before := aug[..];
    for j := 0 to width
      invariant |aug[col]| == width
      invariant forall k :: 0 <= k < aug.Length && k != col ==> aug[k] == before[k]
      invariant forall k :: 0 <= k < j ==> aug[col][k] == before[col][k] / div
      invariant forall k :: j <= k < width ==> aug[col][k] == before[col][k]
    {
      aug[col] := aug[col][j := aug[col][j] / div];
    }
    assert aug[col] == DivideRow(before[col], div);
  }

  method ClearOtherRows(aug: array<Vec>, col: nat)
    requires col < aug.Length && Augmented(aug[..])
    modifies aug
    ensures aug[..] == ClearColumn(old(aug[..]), col)
  {
    ghost var before := aug[..];
    var n := aug.Length;
    for r := 0 to n
      invariant forall k :: 0 <= k < r ==> aug[k] == ClearColumn(before, col)[k]
      invariant forall k :: r <= k < n || k == col ==> aug[k] == before[k]
    {
      if r != col {
        SubtractPivotRow(aug, r, col);
      }
    }
    assert aug[..] == ClearColumn(before, col);
  }

  method SubtractPivotRow(aug: array<Vec>, r: nat, col: nat)
    requires r < aug.Length && col < aug.Length && r != col && |aug[r]| == |aug[col]| && col < |aug[r]|
    modifies aug
    ensures aug[..] == old(aug[..])[r := SubtractMultiple(old(aug[r]), old(aug[r][col]), old(aug[col]))]
  {
    var f, width := aug[r][col], |aug[r]|;
    ghost var before := aug[..];
    for j := 0 to width
      invariant |aug[r]| == width
      invariant forall k :: 0 <= k < aug.Length && k != r ==> aug[k] == before[k]
      invariant forall k :: 0 <= k < j ==> aug[r][k] == before[r][k] - f * before[col][k]
      invariant forall k :: j <= k < width ==> aug[r][k] == before[r][k]
    {
      aug[r] := aug[r][j := aug[r][j] - f * aug[col][j]];
    }
    ghost var want := SubtractMultiple(before[r], f, before[col]);
    assert forall k :: 0 <= k < width ==> aug[r][k] == want[k];
    assert aug[r] == want;
    assert aug[..] == before[r := want];
  }
}
