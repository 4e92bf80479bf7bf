/** From adjusted comparables to a value range (internal/service/comps/bpo_grid.go,
    internal/service/comps/bpo_reconcile.go, internal/service/comps/bpo.go), over exact reals.

    Line adjustments, distances, ages and string comparisons are inputs. */
module Valuation {
  import opened Reals

  /** A sold comparable: its prices, the adjustments of its grid lines, and what its weight reads. */
  datatype Comp = Comp(closePrice: real, listPrice: real, lines: seq<real>, miles: real, livingArea: real,
                       monthsSinceClose: real, sameSubdivision: bool, samePool: bool, sameWaterfront: bool)

  datatype Subject = Subject(livingArea: real, hasSubdivision: bool)

  datatype Rates = Rates(rSquared: real, ols: bool)

  datatype Grid = Grid(base: real, net: real, gross: real, grossPct: real, adjusted: real)

  datatype Range = Range(point: real, low: real, high: real, confidence: real)

  function Min(x: real, y: real): real { if x <= y then x else y }
  function Max(x: real, y: real): real { if x >= y then x else y }

  // ---- Rounding ----------------------------------------------------------------------------------

  /** math.Round: to the nearest integer, halves away from zero. */
  function Round(x: real): int {
    if x >= 0.0 then (x + 0.5).Floor else -((0.5 - x).Floor)
  }

  function Round2(v: real): real { Round(v * 100.0) as real / 100.0 }

  /** Rounding to cents moves a value by at most half a cent, keeps order, and leaves cents as they are. */
  lemma Rounding(x: real, y: real)
    ensures x - 0.005 <= Round2(x) <= x + 0.005
    ensures x <= y ==> Round2(x) <= Round2(y)
    ensures Round2(Round2(x)) == Round2(x)
    ensures x >= 0.0 ==> Round2(x) >= 0.0
  {
    RoundMonotone(x * 100.0, y * 100.0);
    RoundNear(x * 100.0);
    var n := Round(x * 100.0);
    assert Round2(x) * 100.0 == n as real;
    RoundWhole(n);
  }

  lemma RoundNear(x: real)
    ensures x - 0.5 <= Round(x) as real <= x + 0.5
    ensures x >= 0.0 ==> Round(x) >= 0
  {
  }

  lemma RoundWhole(n: int)
    ensures Round(n as real) == n
  {
  }

  lemma RoundMonotone(x: real, y: real)
    ensures x <= y ==> Round(x) <= Round(y)
  {
  }

  // ---- The adjustment grid -----------------------------------------------------------------------

  function Base(c: Comp): real { if c.closePrice <= 0.0 then c.listPrice else c.closePrice }

  function Absolutes(xs: seq<real>): (r: seq<real>)
    ensures |r| == |xs| && forall i :: 0 <= i < |xs| ==> r[i] == Abs(xs[i])
  {
    seq(|xs|, i requires 0 <= i < |xs| => Abs(xs[i]))
  }

  /** The net adjustment, limited to 35% of a positive base. */
  function Capped(net: real, base: real): real {
    var limit := base * 0.35;
    if limit > 0.0 && net > limit then limit else if limit > 0.0 && net < -limit then -limit else net
  }

  function GridOf(c: Comp): Grid {
    var base, gross := Base(c), Sum(Absolutes(c.lines));
    var net := Capped(Sum(c.lines), base);
    Grid(base, Round2(net), Round2(gross), if base > 0.0 then Round2(gross / base * 100.0) else 0.0, Round2(base + net))
  }

  method SumGridAdjustments(lines: seq<real>) returns (net: real, gross: real)
    ensures net == Sum(lines) && gross == Sum(Absolutes(lines))
  {
    net, gross := 0.0, 0.0;
    for i := 0 to |lines|
      invariant net == SumTo(lines, i) && gross == SumTo(Absolutes(lines), i)
    {
      net, gross := net + lines[i], gross + Abs(lines[i]);
    }
  }

  method ApplyURARGrid(sold: seq<Comp>) returns (grids: seq<Grid>)
    ensures |grids| == |sold| && forall i :: 0 <= i < |sold| ==> grids[i] == GridOf(sold[i])
  {
    grids := [];
    for i := 0 to |sold|
      invariant |grids| == i && forall j :: 0 <= j < i ==> grids[j] == GridOf(sold[j])
    {
      var base := sold[i].closePrice;
      if base <= 0.0 {
        base := sold[i].listPrice;
      }
      var net, gross := SumGridAdjustments(sold[i].lines);
      var limit := base * 0.35;
      if limit > 0.0 {
        if net > limit {
          net := limit;
        } else if net < -limit {
          net := -limit;
        }
      }
      var pct := 0.0;
      if base > 0.0 {
        pct := Round2(gross / base * 100.0);
      }
      grids := grids + [Grid(base, Round2(net), Round2(gross), pct, Round2(base + net))];
    }
  }

  /** An adjusted price stays within 35% of a positive base, up to half a cent, and is not negative. */
  lemma AdjustedPriceBounds(c: Comp)
    requires Base(c) > 0.0
    ensures 0.65 * Base(c) - 0.005 <= GridOf(c).adjusted <= 1.35 * Base(c) + 0.005
    ensures GridOf(c).adjusted >= 0.0
  {
    var net := Capped(Sum(c.lines), Base(c));
    Rounding(Base(c) + net, 0.0);
  }

  lemma GrossPctNotNegative(c: Comp)
    ensures GridOf(c).grossPct >= 0.0
  {
    if Base(c) > 0.0 {
      var gross := Sum(Absolutes(c.lines));
      SumAtLeast(Absolutes(c.lines), 0.0, |c.lines|);
      QuotientSign(gross, Base(c));
      Rounding(gross / Base(c) * 100.0, 0.0);
    }
  }

  // ---- Weights -----------------------------------------------------------------------------------

  function ProximityScore(miles: real): real {
    if miles <= 0.25 then 1.0 else if miles >= 3.0 then 0.1 else Max(0.1, 1.0 - miles / 3.0)
  }

  function GlaSimilarity(subject: real, comp: real): real {
    if subject <= 0.0 || comp <= 0.0 then 0.5 else Max(0.0, 1.0 - Abs(subject - comp) / subject)
  }

  function RecencyScore(months: real): real {
    if months <= 3.0 then 1.0 else if months >= 18.0 then 0.2 else Max(0.2, 1.0 - months / 18.0)
  }

  function FeatureMatchScore(subject: Subject, c: Comp): real {
    var sub := if subject.hasSubdivision then 1.0 else 0.0;
    var pool, water := if c.samePool then 0.5 else 0.0, if c.sameWaterfront then 0.5 else 0.0;
    var n := sub + pool + water;
    if n == 0.0 then 0.7
    else ((if subject.hasSubdivision && c.sameSubdivision then 1.0 else 0.0) + pool + water) / n
  }

  function GrossScore(pct: real): real { 1.0 - Min(pct / 25.0, 1.0) }

  function Weight(subject: Subject, c: Comp, g: Grid): real {
    0.25 * ProximityScore(c.miles) + 0.25 * GlaSimilarity(subject.livingArea, c.livingArea) +
    0.20 * RecencyScore(c.monthsSinceClose) + 0.20 * GrossScore(g.grossPct) + 0.10 * FeatureMatchScore(subject, c)
  }

  lemma FeatureScoreBounds(subject: Subject, c: Comp)
    ensures 0.0 <= FeatureMatchScore(subject, c) <= 1.0
  {
    var sub := if subject.hasSubdivision then 1.0 else 0.0;
    var pool, water := if c.samePool then 0.5 else 0.0, if c.sameWaterfront then 0.5 else 0.0;
    assert sub + pool + water == 0.0 || sub + pool + water == 0.5 || sub + pool + water == 1.0 ||
      sub + pool + water == 1.5 || sub + pool + water == 2.0;
  }

  lemma GlaBounds(subject: real, comp: real)
    ensures 0.0 <= GlaSimilarity(subject, comp) <= 1.0
  {
    if subject > 0.0 { QuotientSign(Abs(subject - comp), subject); }
  }

  /** Every comparable has a positive weight of at most 1, so the weights never sum to zero and the
      equal-weight fallback is unreachable. */
  lemma WeightBounds(subject: Subject, c: Comp)
    ensures 0.065 <= Weight(subject, c, GridOf(c)) <= 1.0
  {
    FeatureScoreBounds(subject, c);
    GlaBounds(subject.livingArea, c.livingArea);
    GrossPctNotNegative(c);
  }

  // ---- Reconciliation ----------------------------------------------------------------------------

  function WeightsOf(subject: Subject, sold: seq<Comp>): (ws: seq<real>)
    ensures |ws| == |sold| && forall i :: 0 <= i < |sold| ==> ws[i] == Weight(subject, sold[i], GridOf(sold[i]))
  {
    seq(|sold|, i requires 0 <= i < |sold| => Weight(subject, sold[i], GridOf(sold[i])))
  }

  function Adjusted(sold: seq<Comp>): (ps: seq<real>)
    ensures |ps| == |sold| && forall i :: 0 <= i < |sold| ==> ps[i] == GridOf(sold[i]).adjusted
  {
    seq(|sold|, i requires 0 <= i < |sold| => GridOf(sold[i]).adjusted)
  }

  /** The first k weights as shares of the total, added up. */
  function ShareTo(ws: seq<real>, total: real, k: nat): real
    requires k <= |ws| && total != 0.0
  {
    if k == 0 then 0.0 else ShareTo(ws, total, k - 1) + ws[k - 1] / total
  }

  function MixTo(ws: seq<real>, ps: seq<real>, total: real, k: nat): real
    requires k <= |ws| && k <= |ps| && total != 0.0
  {
    if k == 0 then 0.0 else MixTo(ws, ps, total, k - 1) + ws[k - 1] / total * ps[k - 1]
  }

  function WeightedMean(ws: seq<real>, ps: seq<real>, total: real): real
    requires |ws| == |ps| && total != 0.0
  {
    MixTo(ws, ps, total, |ws|)
  }

  /** The shares sum to the whole. */
  lemma {:induction false} SharesSum(ws: seq<real>, total: real, k: nat)
    requires k <= |ws| && total > 0.0
    ensures ShareTo(ws, total, k) == SumTo(ws, k) / total
  {
    if k > 0 {
      SharesSum(ws, total, k - 1);
      QuotientOfSum(SumTo(ws, k - 1), ws[k - 1], total);
    }
  }

  lemma {:induction false} MixAbove(ws: seq<real>, ps: seq<real>, total: real, lo: real, k: nat)
    requires k <= |ws| && k <= |ps| && total > 0.0
    requires forall i :: 0 <= i < k ==> ws[i] >= 0.0 && lo <= ps[i]
    ensures lo * ShareTo(ws, total, k) <= MixTo(ws, ps, total, k)
  {
    if k > 0 {
      MixAbove(ws, ps, total, lo, k - 1);
      QuotientSign(ws[k - 1], total);
      StepAbove(ShareTo(ws, total, k - 1), ws[k - 1] / total, ShareTo(ws, total, k),
        MixTo(ws, ps, total, k - 1), ps[k - 1], MixTo(ws, ps, total, k), lo);
    }
  }

  lemma {:induction false} MixBelow(ws: seq<real>, ps: seq<real>, total: real, hi: real, k: nat)
    requires k <= |ws| && k <= |ps| && total > 0.0
    requires forall i :: 0 <= i < k ==> ws[i] >= 0.0 && ps[i] <= hi
    ensures MixTo(ws, ps, total, k) <= hi * ShareTo(ws, total, k)
  {
    if k > 0 {
      MixBelow(ws, ps, total, hi, k - 1);
      QuotientSign(ws[k - 1], total);
      StepBelow(ShareTo(ws, total, k - 1), ws[k - 1] / total, ShareTo(ws, total, k),
        MixTo(ws, ps, total, k - 1), ps[k - 1], MixTo(ws, ps, total, k), hi);
    }
  }

  lemma StepAbove(a: real, share: real, c: real, x: real, p: real, z: real, lo: real)
    requires lo * a <= x && share >= 0.0 && lo <= p && c == a + share && z == x + share * p
    ensures lo * c <= z
  {
    var gap := p - lo;
    if gap > 0.0 { ProductSign(share, gap); }
    assert share * gap == share * p - lo * share;
    Spread(lo, a, share);
    assert lo * c == lo * (a + share);
  }

  lemma StepBelow(a: real, share: real, c: real, x: real, p: real, z: real, hi: real)
    requires x <= hi * a && share >= 0.0 && p <= hi && c == a + share && z == x + share * p
    ensures z <= hi * c
  {
    var gap := hi - p;
    if gap > 0.0 { ProductSign(share, gap); }
    assert share * gap == hi * share - share * p;
    Spread(hi, a, share);
    assert hi * c == hi * (a + share);
  }

  lemma Spread(x: real, a: real, b: real)
    ensures x * (a + b) == x * a + x * b
  {
  }

  /** The weighted mean is a convex combination: it lies between any bounds on the adjusted prices. */
  lemma MeanIsBetween(ws: seq<real>, ps: seq<real>, lo: real, hi: real)
    requires |ws| == |ps| && ws != [] && Sum(ws) > 0.0
    requires forall i :: 0 <= i < |ws| ==> ws[i] >= 0.0 && lo <= ps[i] <= hi
    ensures lo <= WeightedMean(ws, ps, Sum(ws)) <= hi
  {
    var total := Sum(ws);
    SharesSum(ws, total, |ws|);
    SelfQuotient(total);
    MixAbove(ws, ps, total, lo, |ws|);
    MixBelow(ws, ps, total, hi, |ws|);
    WholeShare(lo, hi, ShareTo(ws, total, |ws|));
  }

  lemma WholeShare(lo: real, hi: real, whole: real)
    requires whole == 1.0
    ensures lo * whole == lo && hi * whole == hi
  {
  }

  function ConfidenceOf(grids: seq<Grid>, rates: Rates): real {
    var start := if |grids| >= 6 then 70.0 else if |grids| >= 3 then 55.0 else 40.0;
    var fit := start + rates.rSquared * 20.0 + (if rates.ols then 5.0 else 0.0);
    var base := if |grids| > 0 && Mean(Percentages(grids)) > 20.0 then fit - 10.0 else fit;
    Min(95.0, Max(20.0, Round2(base)))
  }

  function Percentages(grids: seq<Grid>): (r: seq<real>)
    ensures |r| == |grids| && forall i :: 0 <= i < |grids| ==> r[i] == grids[i].grossPct
  {
    seq(|grids|, i requires 0 <= i < |grids| => grids[i].grossPct)
  }

  method ReconcileConfidence(grids: seq<Grid>, rates: Rates) returns (confidence: real)
    ensures confidence == ConfidenceOf(grids, rates)
  {
    var base := 40.0;
    if |grids| >= 6 {
      base := 70.0;
    } else if |grids| >= 3 {
      base := 55.0;
    }
    base := base + rates.rSquared * 20.0;
    if rates.ols {
      base := base + 5.0;
    }
    var avgGross := 0.0;
    for i := 0 to |grids|
      invariant avgGross == SumTo(Percentages(grids), i)
    {
      avgGross := avgGross + grids[i].grossPct;
    }
    if |grids| > 0 {
      avgGross := avgGross / |grids| as real;
    }
    if avgGross > 20.0 {
      base := base - 10.0;
    }
    confidence := Min(95.0, Max(20.0, Round2(base)));
  }

  function SpreadPct(confidence: real): (s: real)
    ensures 0.03 <= s <= 0.08
  {
    if confidence >= 80.0 then 0.03 else if confidence >= 60.0 then 0.05 else 0.08
  }

  function GridsOf(sold: seq<Comp>): (gs: seq<Grid>)
    ensures |gs| == |sold| && forall i :: 0 <= i < |sold| ==> gs[i] == GridOf(sold[i])
  {
    seq(|sold|, i requires 0 <= i < |sold| => GridOf(sold[i]))
  }

  /** The range around the weighted mean of the adjusted prices. */
  function Reconciled(subject: Subject, sold: seq<Comp>, rates: Rates): Range
    requires sold != [] ==> Sum(WeightsOf(subject, sold)) > 0.0
  {
    if sold == [] then Range(0.0, 0.0, 0.0, 0.0)
    else
      var ws := WeightsOf(subject, sold);
      RangeAround(WeightedMean(ws, Adjusted(sold), Sum(ws)), ConfidenceOf(GridsOf(sold), rates))
  }

  function SpreadRange(point: real, spread: real, confidence: real): Range {
    Range(point, Round2(point * (1.0 - spread)), Round2(point * (1.0 + spread)), confidence)
  }

  function RangeAround(mean: real, confidence: real): Range {
    SpreadRange(Round2(mean), SpreadPct(confidence), confidence)
  }

  lemma WeightsArePositive(subject: Subject, sold: seq<Comp>)
    ensures sold != [] ==> Sum(WeightsOf(subject, sold)) >= 0.065
  {
    var ws := WeightsOf(subject, sold);
    forall i | 0 <= i < |ws| ensures ws[i] >= 0.065 { WeightBounds(subject, sold[i]); }
    SumAtLeast(ws, 0.065, |ws|);
  }

  method CollectWeights(subject: Subject, sold: seq<Comp>, grids: seq<Grid>) returns (weights: seq<real>, wSum: real)
    requires grids == GridsOf(sold)
    ensures weights == WeightsOf(subject, sold) && wSum == Sum(weights)
  {
    hide Weight;
    weights, wSum := [], 0.0;
    for i := 0 to |grids|
      invariant |weights| == i && forall j :: 0 <= j < i ==> weights[j] == WeightsOf(subject, sold)[j]
      invariant wSum == SumTo(WeightsOf(subject, sold), i)
    {
      weights := weights + [Weight(subject, sold[i], grids[i])];
      wSum := wSum + weights[i];
    }
    assert weights == WeightsOf(subject, sold);
  }

  /** reconcileBPO, with its fallback to equal weights. */
  method ReconcileBPO(subject: Subject, sold: seq<Comp>, grids: seq<Grid>, rates: Rates) returns (r: Range)
    requires grids == GridsOf(sold)
    ensures sold != [] ==> Sum(WeightsOf(subject, sold)) > 0.0
    ensures r == Reconciled(subject, sold, rates)
  {
    WeightsArePositive(subject, sold);
    if |grids| == 0 {
      return Range(0.0, 0.0, 0.0, 0.0);
    }
    var weights, wSum := CollectWeights(subject, sold, grids);
    if wSum <= 0.0 {
      var (ones, n) := Equal(grids);
      weights, wSum := ones, n;
    }
    var indicated := MixPrices(weights, grids, wSum);
    assert Adjusted(sold) == Adjustments(grids);
    var confidence := ReconcileConfidence(grids, rates);
    r := SpreadOut(indicated, confidence);
  }

  method SpreadOut(mean: real, confidence: real) returns (r: Range)
    ensures r == RangeAround(mean, confidence)
  {
    var indicated := Round2(mean);
    var spread := SpreadPct(confidence);
    r := Range(indicated, Round2(indicated * (1.0 - spread)), Round2(indicated * (1.0 + spread)), confidence);
  }

  function Adjustments(grids: seq<Grid>): (ps: seq<real>)
    ensures |ps| == |grids| && forall i :: 0 <= i < |grids| ==> ps[i] == grids[i].adjusted
  {
    seq(|grids|, i requires 0 <= i < |grids| => grids[i].adjusted)
  }

  function Equal(grids: seq<Grid>): (seq<real>, real) {
    (seq(|grids|, _ => 1.0), |grids| as real)
  }

  method MixPrices(weights: seq<real>, grids: seq<Grid>, total: real) returns (sum: real)
    requires |weights| == |grids| && total != 0.0
    ensures sum == WeightedMean(weights, Adjustments(grids), total)
  {
    sum := 0.0;
    ghost var ps := Adjustments(grids);
    for i := 0 to |grids|
      invariant sum == MixTo(weights, ps, total, i)
    {
      sum := sum + weights[i] / total * grids[i].adjusted;
    }
  }

  // ---- Value bounds ------------------------------------------------------------------------------

  /** The point estimate stays within 35% of the base prices, up to a cent. */
  lemma ValueBounds(subject: Subject, sold: seq<Comp>, rates: Rates, lo: real, hi: real)
    requires sold != [] && 0.0 < lo && forall i :: 0 <= i < |sold| ==> lo <= Base(sold[i]) <= hi
    ensures Sum(WeightsOf(subject, sold)) > 0.0
    ensures 0.65 * lo - 0.01 <= Reconciled(subject, sold, rates).point <= 1.35 * hi + 0.01
  {
    var ws, ps := WeightsOf(subject, sold), Adjusted(sold);
    WeightsArePositive(subject, sold);
    forall i | 0 <= i < |ws| ensures ws[i] >= 0.0 && 0.65 * lo - 0.005 <= ps[i] <= 1.35 * hi + 0.005 {
      WeightBounds(subject, sold[i]);
      AdjustedPriceBounds(sold[i]);
    }
    MeanIsBetween(ws, ps, 0.65 * lo - 0.005, 1.35 * hi + 0.005);
    Rounding(WeightedMean(ws, ps, Sum(ws)), 0.0);
  }

  ghost predicate Ordered(r: Range) { 0.0 <= r.low <= r.point <= r.high }

  /** With positive base prices the range surrounds the point. */
  lemma RangeIsOrdered(subject: Subject, sold: seq<Comp>, rates: Rates)
    requires forall i :: 0 <= i < |sold| ==> Base(sold[i]) > 0.0
    ensures sold != [] ==> Sum(WeightsOf(subject, sold)) > 0.0
    ensures Ordered(Reconciled(subject, sold, rates))
  {
    WeightsArePositive(subject, sold);
    if sold != [] {
      var ws, ps := WeightsOf(subject, sold), Adjusted(sold);
      MeanNotNegative(subject, sold);
      RangeAroundIsOrdered(WeightedMean(ws, ps, Sum(ws)), ConfidenceOf(GridsOf(sold), rates));
    }
  }

  lemma RangeAroundIsOrdered(mean: real, confidence: real)
    requires mean >= 0.0
    ensures Ordered(RangeAround(mean, confidence))
  {
    hide SpreadPct, Round2, SpreadRange, Ordered;
    Rounding(mean, 0.0);
    SpreadKeepsOrder(Round2(mean), SpreadPct(confidence), confidence);
  }

  lemma MeanNotNegative(subject: Subject, sold: seq<Comp>)
    requires sold != [] && forall i :: 0 <= i < |sold| ==> Base(sold[i]) > 0.0
    ensures var ws := WeightsOf(subject, sold); Sum(ws) > 0.0 && WeightedMean(ws, Adjusted(sold), Sum(ws)) >= 0.0
  {
    var ws, ps := WeightsOf(subject, sold), Adjusted(sold);
    WeightsArePositive(subject, sold);
    var top := Highest(ps);
    forall i | 0 <= i < |ws| ensures ws[i] >= 0.0 && 0.0 <= ps[i] {
      WeightBounds(subject, sold[i]);
      AdjustedPriceBounds(sold[i]);
    }
    MeanIsBetween(ws, ps, 0.0, top);
  }

  lemma SpreadAround(p: real, spread: real)
    requires p >= 0.0 && 0.0 < spread < 1.0
    ensures 0.0 <= p * (1.0 - spread) <= p <= p * (1.0 + spread)
  {
    if p > 0.0 {
      ProductSign(spread, p);
      ProductSign(1.0 - spread, p);
    }
    assert p * (1.0 - spread) == p - spread * p && p * (1.0 + spread) == p + spread * p;
  }

  lemma RoundOrder(x: real, y: real)
    requires x <= y
    ensures Round2(x) <= Round2(y) && (x >= 0.0 ==> Round2(x) >= 0.0)
  {
    Rounding(x, y);
  }

  lemma CentsBetween(a: real, p: real, b: real)
    requires 0.0 <= a <= p <= b && Round2(p) == p
    ensures 0.0 <= Round2(a) <= p <= Round2(b)
  {
    RoundOrder(a, p);
    RoundOrder(p, b);
  }

  lemma SpreadKeepsOrder(p: real, spread: real, confidence: real)
    requires p >= 0.0 && Round2(p) == p && 0.0 < spread < 1.0
    ensures Ordered(SpreadRange(p, spread, confidence))
  {
    hide Round2;
    SpreadAround(p, spread);
    CentsBetween(p * (1.0 - spread), p, p * (1.0 + spread));
  }

  function Highest(ps: seq<real>): (h: real)
    ensures forall i :: 0 <= i < |ps| ==> ps[i] <= h
  {
    if ps == [] then 0.0 else Max(Highest(ps[..|ps| - 1]), ps[|ps| - 1])
  }

  /** The renovation credits of runBPOMode: 90%, 100% and 110% of a positive total are added. */
  function WithCredits(r: Range, credits: real): Range {
    if credits > 0.0
    then r.(point := Round2(r.point + credits), low := Round2(r.low + credits * 0.9),
      high := Round2(r.high + credits * 1.1))
    else r
  }

  lemma CreditsKeepOrder(r: Range, credits: real)
    requires Ordered(r)
    ensures Ordered(WithCredits(r, credits))
  {
    Rounding(r.low + credits * 0.9, r.point + credits);
    Rounding(r.point + credits, r.high + credits * 1.1);
  }

  /** The value part of runBPOMode. With positive base prices, low <= point <= high holds after credits. */
  method RunBPO(subject: Subject, sold: seq<Comp>, rates: Rates, credits: real) returns (grids: seq<Grid>, r: Range)
    ensures grids == GridsOf(sold)
    ensures sold != [] ==> Sum(WeightsOf(subject, sold)) > 0.0
    ensures r == WithCredits(Reconciled(subject, sold, rates), credits)
    ensures (forall i :: 0 <= i < |sold| ==> Base(sold[i]) > 0.0) ==> Ordered(r)
  {
    hide Reconciled, WeightsOf, GridsOf, Round2;
    grids := ApplyURARGrid(sold);
    assert grids == GridsOf(sold);
    r := ReconcileBPO(subject, sold, grids, rates);
    if forall i :: 0 <= i < |sold| ==> Base(sold[i]) > 0.0 {
      RangeIsOrdered(subject, sold, rates);
      CreditsKeepOrder(r, credits);
    }
    if credits > 0.0 {
      var point, low, high := Round2(r.point + credits), Round2(r.low + credits * 0.9), Round2(r.high + credits * 1.1);
      r := r.(point := point, low := low, high := high);
    }
  }
}
