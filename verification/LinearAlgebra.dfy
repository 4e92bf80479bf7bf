/** Sums and means of reals, and small facts about products and quotients. */
module Reals {

  function Abs(x: real): real { if x < 0.0 then -x else x }

  /** The first k values added up, as the loops do. */
  function SumTo(xs: seq<real>, k: nat): real
    requires k <= |xs|
  {
    if k == 0 then 0.0 else SumTo(xs, k - 1) + xs[k - 1]
  }

  function Sum(xs: seq<real>): real { SumTo(xs, |xs|) }

  function Mean(xs: seq<real>): real
    requires xs != []
  {
    Sum(xs) / |xs| as real
  }

  lemma {:induction false} SumAtLeast(xs: seq<real>, least: real, k: nat)
    requires k <= |xs| && least >= 0.0 && forall i :: 0 <= i < k ==> xs[i] >= least
    ensures SumTo(xs, k) >= 0.0 && (k > 0 ==> SumTo(xs, k) >= least)
  {
    if k > 0 { SumAtLeast(xs, least, k - 1); }
  }

  lemma ProductSign(x: real, y: real)
    requires y > 0.0
    ensures x > 0.0 <==> x * y > 0.0
    ensures x < 0.0 <==> x * y < 0.0
  {
    var z := -x;
    assert z * y == -(x * y);
    if x > 0.0 {
      assert x * y > 0.0;
    } else if x < 0.0 {
      assert z * y > 0.0;
    }
  }

  /** x and y are two names of one real: the solver handles x * y better than x * x. */
  lemma SquareSign(x: real, y: real)
    requires x == y
    ensures x * y >= 0.0
    ensures x != 0.0 ==> x * y > 0.0
  {
    if x > 0.0 {
      ProductSign(x, y);
    } else if x < 0.0 {
      ProductSign(-x, -y);
      assert (-x) * (-y) == x * y;
    }
  }

  lemma SquareAndRestZero(x: real, y: real, rest: real)
    requires x == y && rest >= 0.0 && rest + x * y == 0.0
    ensures x == 0.0 && rest == 0.0
  {
    SquareSign(x, y);
  }

  lemma SelfQuotient(t: real)
    requires t != 0.0
    ensures t / t == 1.0
  {
    var q := t / t;
    assert q * t == t;
    assert (q - 1.0) * t == 0.0;
    if t > 0.0 { ProductSign(q - 1.0, t); } else { ProductSign(1.0 - q, -t); }
  }

  lemma QuotientOfSum(a: real, b: real, t: real)
    requires t > 0.0
    ensures (a + b) / t == a / t + b / t
  {
    var x, y, z := a / t, b / t, (a + b) / t;
    assert x * t == a && y * t == b && z * t == a + b;
    assert (x + y - z) * t == x * t + y * t - z * t;
    ProductSign(x + y - z, t);
  }

  lemma QuotientSign(a: real, t: real)
    requires t > 0.0
    ensures a >= 0.0 <==> a / t >= 0.0
    ensures a > 0.0 <==> a / t > 0.0
  {
    ProductSign(a / t, t);
    assert a / t * t == a;
  }
}

/** Vectors and matrices of exact reals, with the sums written the way the loops accumulate them:
    from index 0 upwards. */
module LinearAlgebra {

  type Vec = seq<real>
  type Matrix = seq<seq<real>>

  ghost predicate IsMatrix(m: Matrix, rows: nat, cols: nat) {
    |m| == rows && forall i :: 0 <= i < rows ==> |m[i]| == cols
  }

  /** The first k terms of the inner product. */
  ghost function DotTo(a: Vec, b: Vec, k: nat): real
    requires k <= |a| && k <= |b|
  {
    if k == 0 then 0.0 else DotTo(a, b, k - 1) + a[k - 1] * b[k - 1]
  }

  ghost function Dot(a: Vec, b: Vec): real
    requires |a| == |b|
  {
    DotTo(a, b, |a|)
  }

  ghost function MatVec(m: Matrix, v: Vec): Vec
    requires forall i :: 0 <= i < |m| ==> |m[i]| == |v|
  {
    seq(|m|, i requires 0 <= i < |m| => Dot(m[i], v))
  }

  ghost function Unit(n: nat, j: nat): Vec {
    seq(n, i => if i == j then 1.0 else 0.0)
  }

  ghost function Scale(a: Vec, k: real): Vec {
    seq(|a|, i requires 0 <= i < |a| => k * a[i])
  }

  lemma {:induction false} DotSymmetric(a: Vec, b: Vec, k: nat)
    requires k <= |a| && k <= |b|
    ensures DotTo(a, b, k) == DotTo(b, a, k)
  {
    if k > 0 { DotSymmetric(a, b, k - 1); }
  }

  /** Inner products read only the entries below k. */
  lemma {:induction false} DotAgrees(a: Vec, b: Vec, c: Vec, d: Vec, k: nat)
    requires k <= |a| && k <= |b| && k <= |c| && k <= |d|
    requires forall i :: 0 <= i < k ==> a[i] == c[i] && b[i] == d[i]
    ensures DotTo(a, b, k) == DotTo(c, d, k)
  {
    if k > 0 { DotAgrees(a, b, c, d, k - 1); }
  }

  /** Linearity in the first argument: r = x*a + b entry by entry. */
  lemma {:induction false} DotLinear(r: Vec, x: real, a: Vec, b: Vec, v: Vec, k: nat)
    requires k <= |r| && k <= |a| && k <= |b| && k <= |v|
    requires forall i :: 0 <= i < k ==> r[i] == x * a[i] + b[i]
    ensures DotTo(r, v, k) == x * DotTo(a, v, k) + DotTo(b, v, k)
  {
    if k > 0 {
      DotLinear(r, x, a, b, v, k - 1);
      var p, q, s, t := a[k - 1], v[k - 1], DotTo(a, v, k - 1), b[k - 1];
      assert (x * p + t) * q == x * (p * q) + t * q;
      assert x * (s + p * q) == x * s + x * (p * q);
    }
  }

  lemma {:induction false} DotZero(a: Vec, b: Vec, k: nat)
    requires k <= |a| && k <= |b|
    requires forall i :: 0 <= i < k ==> b[i] == 0.0
    ensures DotTo(a, b, k) == 0.0
  {
    if k > 0 { DotZero(a, b, k - 1); }
  }

  /** Against the j-th unit vector an inner product picks out the j-th entry. */
  lemma {:induction false} DotUnit(a: Vec, u: Vec, j: nat, k: nat)
    requires k <= |a| && k <= |u|
    requires forall i :: 0 <= i < k ==> u[i] == if i == j then 1.0 else 0.0
    ensures DotTo(a, u, k) == if j < k then a[j] else 0.0
  {
    if k > 0 { DotUnit(a, u, j, k - 1); }
  }

  /** An inner product splits at index n into the parts below and above it. */
  lemma {:induction false} DotSplit(a: Vec, b: Vec, n: nat, k: nat)
    requires n + k <= |a| && n + k <= |b|
    ensures DotTo(a, b, n + k) == DotTo(a, b, n) + DotTo(a[n..], b[n..], k)
  {
    if k > 0 { DotSplit(a, b, n, k - 1); }
  }
}
