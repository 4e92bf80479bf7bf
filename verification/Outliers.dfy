/** The z-score filter on sold comparables (internal/service/comps/outliers.go), over exact reals.

    The standard deviation is compared by its square: |p - mean| / std <= t becomes
    (p - mean)^2 <= t^2 * variance, and std < 1e-9 becomes variance < 1e-18. */
module Outliers {
  import opened Reals

  datatype Comp = Comp(adjustedPrice: real, closePrice: real)

  const TINY_VARIANCE := 0.000000000000000001

  function CompPrice(c: Comp): real { if c.adjustedPrice > 0.0 then c.adjustedPrice else c.closePrice }

  predicate Priced(c: Comp) { CompPrice(c) > 0.0 }

  function Prices(sold: seq<Comp>): seq<real> {
    if sold == [] then [] else
      var n := |sold| - 1;
      Prices(sold[..n]) + if Priced(sold[n]) then [CompPrice(sold[n])] else []
  }

  function Times(a: real, b: real): real { a * b }

  function Square(t: real): real { Times(t, t) }

  lemma TimesNotNegative(a: real, b: real)
    requires a == b
    ensures Times(a, b) >= 0.0
  {
    SquareSign(a, b);
  }

  lemma TimesPositive(a: real, b: real)
    requires a > 0.0 && b > 0.0
    ensures Times(a, b) > 0.0
  {
    ProductSign(a, b);
  }

  lemma TimesAtLeast(a: real, b: real)
    requires a >= 0.0 && b >= 1.0
    ensures Times(a, b) >= a
  {
    if a > 0.0 && b > 1.0 { ProductSign(a, b - 1.0); }
    assert a * (b - 1.0) == a * b - a;
  }

  function SquaredDistance(x: real, mean: real): (d: real)
    ensures d >= 0.0
  {
    TimesNotNegative(x - mean, x - mean);
    Square(x - mean)
  }

  /** The squared deviations of the first k values. */
  function DeviationTo(xs: seq<real>, mean: real, k: nat): (d: real)
    requires k <= |xs|
    ensures d >= 0.0
  {
    if k == 0 then 0.0 else DeviationTo(xs, mean, k - 1) + SquaredDistance(xs[k - 1], mean)
  }

  function Variance(xs: seq<real>): real
    requires xs != []
  {
    DeviationTo(xs, Mean(xs), |xs|) / |xs| as real
  }

  /** How far, squared, a price may lie from the mean. */
  function Limit(threshold: real, variance: real): real { Square(threshold) * variance }

  function Near(sold: seq<Comp>, mean: real, limit: real): seq<Comp> {
    if sold == [] then [] else
      var n := |sold| - 1;
      Near(sold[..n], mean, limit) +
      if Priced(sold[n]) && SquaredDistance(CompPrice(sold[n]), mean) <= limit then [sold[n]] else []
  }

  /** The filter has something to go by: a threshold, three comparables, three prices, and some spread. */
  predicate Applies(sold: seq<Comp>, threshold: real) {
    threshold > 0.0 && |sold| >= 3 && |Prices(sold)| >= 3 && Variance(Prices(sold)) >= TINY_VARIANCE
  }

  function Filtered(sold: seq<Comp>, threshold: real): seq<Comp> {
    if !Applies(sold, threshold) then sold
    else
      var prices := Prices(sold);
      var near := Near(sold, Mean(prices), Limit(threshold, Variance(prices)));
      if near == [] then sold else near
  }

  // ---- The code ----------------------------------------------------------------------------------

  method MeanAndVariance(vals: seq<real>) returns (mean: real, variance: real)
    requires vals != []
    ensures mean == Mean(vals) && variance == Variance(vals)
  {
    var sum := 0.0;
    for i := 0 to |vals|
      invariant sum == SumTo(vals, i)
    {
      sum := sum + vals[i];
    }
    mean := sum / |vals| as real;
    var varSum := 0.0;
    for i := 0 to |vals|
      invariant varSum == DeviationTo(vals, mean, i)
    {
      varSum := varSum + SquaredDistance(vals[i], mean);
    }
    variance := varSum / |vals| as real;
  }

  method CollectPrices(sold: seq<Comp>) returns (prices: seq<real>)
    ensures prices == Prices(sold)
  {
    prices := [];
    for i := 0 to |sold|
      invariant prices == Prices(sold[..i])
    {
      assert sold[..i + 1][..i] == sold[..i];
      if CompPrice(sold[i]) > 0.0 {
        prices := prices + [CompPrice(sold[i])];
      }
    }
    assert sold[..|sold|] == sold;
  }

  method FilterOutlierZScore(sold: seq<Comp>, threshold: real) returns (out: seq<Comp>)
    ensures out == Filtered(sold, threshold)
  {
    if threshold <= 0.0 || |sold| < 3 {
      return sold;
    }
    var prices := CollectPrices(sold);
    if |prices| < 3 {
      return sold;
    }
    var mean, variance := MeanAndVariance(prices);
    if variance < TINY_VARIANCE {
      return sold;
    }
    var limit := Limit(threshold, variance);
    out := [];
    for i := 0 to |sold|
      invariant out == Near(sold[..i], mean, limit)
    {
      assert sold[..i + 1][..i] == sold[..i];
      var p := CompPrice(sold[i]);
      if p > 0.0 && SquaredDistance(p, mean) <= limit {
        out := out + [sold[i]];
      }
    }
    assert sold[..|sold|] == sold;
    if |out| == 0 {
      return sold;
    }
  }

  // ---- Chebyshev ---------------------------------------------------------------------------------

  /** How many of the first k values lie beyond the limit. */
  function FarTo(xs: seq<real>, mean: real, limit: real, k: nat): (n: nat)
    requires k <= |xs|
    ensures n <= k
  {
    if k == 0 then 0 else FarTo(xs, mean, limit, k - 1) + if SquaredDistance(xs[k - 1], mean) > limit then 1 else 0
  }

  /** d values beyond the limit, each of which costs more than the limit. */
  predicate Costs(d: int, limit: real, total: real) {
    d as real * limit <= total && (d > 0 ==> d as real * limit < total)
  }

  lemma {:induction false} FarCost(xs: seq<real>, mean: real, limit: real, k: nat)
    requires k <= |xs| && limit >= 0.0
    ensures Costs(FarTo(xs, mean, limit, k), limit, DeviationTo(xs, mean, k))
  {
    if k > 0 {
      FarCost(xs, mean, limit, k - 1);
      var n := FarTo(xs, mean, limit, k - 1);
      assert (n + 1) as real * limit == n as real * limit + limit;
    }
  }

  /** Priced comparables are kept or far. */
  lemma {:induction false} KeptAndFar(sold: seq<Comp>, mean: real, limit: real)
    ensures |Near(sold, mean, limit)| + FarTo(Prices(sold), mean, limit, |Prices(sold)|) == |Prices(sold)|
  {
    if sold != [] {
      var n := |sold| - 1;
      var before, all := Prices(sold[..n]), Prices(sold);
      KeptAndFar(sold[..n], mean, limit);
      FarPrefix(before, all, mean, limit, |before|);
    }
  }

  lemma {:induction false} FarPrefix(xs: seq<real>, ys: seq<real>, mean: real, limit: real, k: nat)
    requires k <= |xs| <= |ys| && ys[..|xs|] == xs
    ensures FarTo(xs, mean, limit, k) == FarTo(ys, mean, limit, k)
  {
    if k > 0 {
      FarPrefix(xs, ys, mean, limit, k - 1);
      assert ys[..|xs|][k - 1] == ys[k - 1];
    }
  }

  /** What the filter drops of the priced comparables. */
  function Dropped(sold: seq<Comp>, threshold: real): int {
    if !Applies(sold, threshold) then 0
    else |Prices(sold)| - |Near(sold, Mean(Prices(sold)), Limit(threshold, Variance(Prices(sold))))|
  }

  /** At most one in t^2 of n, and strictly fewer unless it is none. */
  predicate OneIn(d: int, t: real, n: int) {
    d as real * Square(t) <= n as real && (d > 0 ==> d as real * Square(t) < n as real)
  }

  lemma NoneIsOneIn(t: real, n: nat)
    ensures OneIn(0, t, n)
  {
  }

  /** d limits that cost no more than n variances: d * t^2 is at most n. */
  lemma Shrink(d: nat, n: nat, t: real, variance: real, total: real)
    requires variance > 0.0 && total == n as real * variance && Costs(d, Limit(t, variance), total)
    ensures OneIn(d, t, n)
  {
    var x, y := d as real * Square(t), n as real;
    assert d as real * Limit(t, variance) == x * variance;
    assert x * variance - y * variance == (x - y) * variance;
    ProductSign(x - y, variance);
  }

  lemma VarianceTotal(xs: seq<real>)
    requires xs != []
    ensures DeviationTo(xs, Mean(xs), |xs|) == |xs| as real * Variance(xs)
  {
  }

  lemma LimitSign(t: real, variance: real)
    requires t > 0.0 && variance > 0.0
    ensures Limit(t, variance) > 0.0
  {
    TimesPositive(t, t);
    ProductSign(Square(t), variance);
  }

  lemma FewAreFar(xs: seq<real>, t: real)
    requires xs != [] && Variance(xs) > 0.0 && t > 0.0
    ensures OneIn(FarTo(xs, Mean(xs), Limit(t, Variance(xs)), |xs|), t, |xs|)
  {
    var mean, variance, limit := Mean(xs), Variance(xs), Limit(t, Variance(xs));
    LimitSign(t, variance);
    FarCost(xs, mean, limit, |xs|);
    VarianceTotal(xs);
    Shrink(FarTo(xs, mean, limit, |xs|), |xs|, t, variance, DeviationTo(xs, mean, |xs|));
  }

  /** Chebyshev: the filter drops at most one in threshold^2 of the priced comparables, whatever their
      prices, and if it drops any, strictly fewer. */
  lemma Chebyshev(sold: seq<Comp>, threshold: real)
    requires threshold > 0.0
    ensures Dropped(sold, threshold) >= 0 && OneIn(Dropped(sold, threshold), threshold, |Prices(sold)|)
  {
    if Applies(sold, threshold) {
      var prices := Prices(sold);
      KeptAndFar(sold, Mean(prices), Limit(threshold, Variance(prices)));
      FewAreFar(prices, threshold);
    } else {
      NoneIsOneIn(threshold, |Prices(sold)|);
    }
  }

  /** With a threshold of at least 1 some comparable is always near, so the result is never the fallback. */
  lemma KeepsSome(sold: seq<Comp>, threshold: real)
    requires threshold >= 1.0 && Applies(sold, threshold)
    ensures var near := Near(sold, Mean(Prices(sold)), Limit(threshold, Variance(Prices(sold))));
      near != [] && Filtered(sold, threshold) == near
  {
    Chebyshev(sold, threshold);
    TimesAtLeast(threshold, threshold);
    if Dropped(sold, threshold) > 0 { TimesAtLeast(Dropped(sold, threshold) as real, Square(threshold)); }
  }

  lemma BelowOne(t: real)
    requires 0.0 < t < 1.0
    ensures Square(t) < 1.0
  {
    var rest := 1.0 - t;
    ProductSign(rest, t);
    assert rest * t == t - Times(t, t);
  }

  /** Below 1 the fallback can happen: prices 1, 1, 3, 3 are all one standard deviation from their mean. */
  lemma FallbackBelowOne(threshold: real)
    requires 0.0 < threshold < 1.0
    ensures var sold := [Comp(1.0, 0.0), Comp(1.0, 0.0), Comp(3.0, 0.0), Comp(3.0, 0.0)];
      Applies(sold, threshold) && Dropped(sold, threshold) == 4 && Filtered(sold, threshold) == sold
  {
    var low, high := Comp(1.0, 0.0), Comp(3.0, 0.0);
    var sold := [low, low, high, high];
    var xs := [1.0, 1.0, 3.0, 3.0];
    assert sold[..3][..2] == sold[..2] && sold[..2][..1] == sold[..1] && sold[..1][..0] == [];
    assert Prices(sold[..1]) == [1.0] && Prices(sold[..2]) == [1.0, 1.0] && Prices(sold[..3]) == [1.0, 1.0, 3.0];
    assert Prices(sold) == xs;
    assert SumTo(xs, 4) == 8.0 by { assert SumTo(xs, 2) == 2.0; }
    assert Mean(xs) == 2.0;
    assert DeviationTo(xs, 2.0, 4) == 4.0 by { assert DeviationTo(xs, 2.0, 2) == 2.0; }
    assert Variance(xs) == 1.0;
    var limit := Limit(threshold, 1.0);
    assert limit < 1.0 by { BelowOne(threshold); }
    assert SquaredDistance(1.0, 2.0) == 1.0 && SquaredDistance(3.0, 2.0) == 1.0;
    assert Near(sold[..1], 2.0, limit) == [];
    assert Near(sold[..2], 2.0, limit) == [];
    assert Near(sold[..3], 2.0, limit) == [];
    assert Near(sold, 2.0, limit) == [];
  }
}
