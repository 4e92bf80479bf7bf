/** Market rates from sold comparables (internal/service/comps/bpo_market.go): the regression and its gates,
    the fallbacks, the median and the final clamps. Ages in months and paired-sales rates are inputs. */
module MarketRates {
  import opened Reals
  import opened LinearAlgebra
  import opened GaussJordan
  import opened LeastSquares
  import opened RegressionRank

  datatype Comp = Comp(closePrice: real, livingArea: real, bedrooms: real, bathrooms: real, yearBuilt: real,
                       lotAcres: real, garage: real, pool: bool, waterfront: bool, months: real)

  datatype RateMethod = Ols | Paired | Median

  datatype Rates = Rates(gla: real, bed: real, bath: real, age: real, lot: real, garage: real, pool: real,
                         waterfront: real, timePct: real, intercept: real, rSquared: real, source: RateMethod)

  const NO_RATES := Rates(0.0, 0.0, 0.0, 0.0, 0.0, 0.0, 0.0, 0.0, 0.0, 0.0, 0.0, Median)
  const FEATURES := 9

  // ---- The median --------------------------------------------------------------------------------

  function Insert(x: real, s: seq<real>): (r: seq<real>)
    ensures |r| == |s| + 1
  {
    if s == [] || x <= s[0] then [x] + s else [s[0]] + Insert(x, s[1..])
  }

  function Sort(s: seq<real>): (r: seq<real>)
    ensures |r| == |s|
  {
    if s == [] then [] else Insert(s[0], Sort(s[1..]))
  }

  ghost predicate Ascending(s: seq<real>) { forall i, j :: 0 <= i < j < |s| ==> s[i] <= s[j] }

  /** How many values are at most m. */
  function AtMost(s: seq<real>, m: real): nat {
    if s == [] then 0 else (if s[0] <= m then 1 else 0) + AtMost(s[1..], m)
  }

  function AtLeast(s: seq<real>, m: real): nat {
    if s == [] then 0 else (if s[0] >= m then 1 else 0) + AtLeast(s[1..], m)
  }

  lemma {:induction false} InsertMembers(x: real, s: seq<real>, y: real)
    ensures y in Insert(x, s) <==> y == x || y in s
  {
    if s != [] && x > s[0] {
      InsertMembers(x, s[1..], y);
      assert s == [s[0]] + s[1..];
    }
  }

  lemma {:induction false} InsertAscends(x: real, s: seq<real>)
    requires Ascending(s)
    ensures Ascending(Insert(x, s))
  {
    if s != [] && x > s[0] {
      var rest := Insert(x, s[1..]);
      InsertAscends(x, s[1..]);
      forall i | 0 <= i < |rest| ensures s[0] <= rest[i] {
        InsertMembers(x, s[1..], rest[i]);
        if rest[i] in s[1..] { assert rest[i] in s; }
      }
    }
  }

  lemma {:induction false} InsertCounts(x: real, s: seq<real>, m: real)
    ensures AtMost(Insert(x, s), m) == AtMost(s, m) + (if x <= m then 1 else 0)
    ensures AtLeast(Insert(x, s), m) == AtLeast(s, m) + (if x >= m then 1 else 0)
  {
    if s == [] || x <= s[0] {
      assert ([x] + s)[1..] == s;
    } else {
      InsertCounts(x, s[1..], m);
      assert ([s[0]] + Insert(x, s[1..]))[1..] == Insert(x, s[1..]);
    }
  }

  lemma {:induction false} SortFacts(s: seq<real>, m: real)
    ensures Ascending(Sort(s)) && AtMost(Sort(s), m) == AtMost(s, m) && AtLeast(Sort(s), m) == AtLeast(s, m)
  {
    if s != [] {
      SortFacts(s[1..], m);
      InsertAscends(s[0], Sort(s[1..]));
      InsertCounts(s[0], Sort(s[1..]), m);
    }
  }

  lemma {:induction false} CountsInOrder(s: seq<real>, m: real, lo: nat, hi: nat)
    requires Ascending(s) && lo <= |s| && hi <= |s|
    requires forall i :: 0 <= i < lo ==> s[i] <= m
    requires forall i :: hi <= i < |s| ==> s[i] >= m
    ensures AtMost(s, m) >= lo && AtLeast(s, m) >= |s| - hi
  {
    if s != [] {
      CountsInOrder(s[1..], m, if lo == 0 then 0 else lo - 1, if hi == 0 then 0 else hi - 1);
    }
  }

  /** The middle value of a sorted list, or the mean of its two middle values. */
  function Middle(s: seq<real>): real {
    var mid := |s| / 2;
    if s == [] then 0.0 else if |s| % 2 == 0 then (s[mid - 1] + s[mid]) / 2.0 else s[mid]
  }

  lemma MiddleHalves(s: seq<real>)
    requires s != [] && Ascending(s)
    ensures 2 * AtMost(s, Middle(s)) >= |s| && 2 * AtLeast(s, Middle(s)) >= |s|
  {
    var m, mid := Middle(s), |s| / 2;
    assert forall i :: 0 <= i < mid ==> s[i] <= m;
    CountsInOrder(s, m, if |s| % 2 == 0 then mid else mid + 1, mid);
  }

  /** At least half of the values lie on either side of the median. */
  lemma MedianHalves(s: seq<real>)
    requires s != []
    ensures var m := Middle(Sort(s)); 2 * AtMost(s, m) >= |s| && 2 * AtLeast(s, m) >= |s|
  {
    SortFacts(s, Middle(Sort(s)));
    MiddleHalves(Sort(s));
  }

  /** medianOf sorts its slice in place. */
  method MedianOf(vals: array<real>) returns (m: real)
    modifies vals
    ensures vals[..] == Sort(old(vals[..])) && m == Middle(vals[..])
  {
    if vals.Length == 0 {
      return 0.0;
    }
    var sorted := Sort(vals[..]);
    for i := 0 to vals.Length
      invariant vals[..i] == sorted[..i]
    {
      vals[i] := sorted[i];
    }
    assert vals[..] == sorted;
    var mid := vals.Length / 2;
    if vals.Length % 2 == 0 {
      m := (vals[mid - 1] + vals[mid]) / 2.0;
    } else {
      m := vals[mid];
    }
  }

  // ---- Clamps ------------------------------------------------------------------------------------

  function Clamp(v: real, lo: real, hi: real): (c: real)
    requires lo <= hi
    ensures lo <= c <= hi && (lo <= v <= hi ==> c == v) && (v < lo ==> c == lo) && (v > hi ==> c == hi)
  {
    if v < lo then lo else if v > hi then hi else v
  }

  ghost predicate InRange(r: Rates) {
    && 40.0 <= r.gla <= 900.0 && 0.0 <= r.bed <= 25000.0 && 0.0 <= r.bath <= 20000.0 && 0.0 <= r.age <= 6000.0
    && 0.0 <= r.lot <= 150000.0 && 0.0 <= r.garage <= 35000.0 && -50000.0 <= r.pool <= 80000.0
    && -100000.0 <= r.waterfront <= 200000.0 && 0.0 <= r.timePct <= 0.02
  }

  /** Each rate on its own: the nearest value of its range, whatever the other rates are. */
  function Sanitized(r: Rates): (s: Rates)
    ensures InRange(s) && (InRange(r) ==> s == r)
  {
    r.(gla := Clamp(r.gla, 40.0, 900.0), bed := Clamp(r.bed, 0.0, 25000.0), bath := Clamp(r.bath, 0.0, 20000.0),
       age := Clamp(r.age, 0.0, 6000.0), lot := Clamp(r.lot, 0.0, 150000.0), garage := Clamp(r.garage, 0.0, 35000.0),
       pool := Clamp(r.pool, -50000.0, 80000.0), waterfront := Clamp(r.waterfront, -100000.0, 200000.0),
       timePct := Clamp(Abs(r.timePct), 0.0, 0.02))
  }

  class BpoMarketRates {
    var rates: Rates

    constructor (initial: Rates)
      ensures rates == initial
    {
      rates := initial;
    }

    /** sanitizeMarketRates. */
    method Sanitize()
      modifies this
      ensures rates == Sanitized(old(rates))
    {
      rates := rates.(gla := Clamp(rates.gla, 40.0, 900.0), bed := Clamp(rates.bed, 0.0, 25000.0),
        bath := Clamp(rates.bath, 0.0, 20000.0), age := Clamp(rates.age, 0.0, 6000.0),
        lot := Clamp(rates.lot, 0.0, 150000.0),
        garage := Clamp(rates.garage, 0.0, 35000.0), pool := Clamp(rates.pool, -50000.0, 80000.0),
        waterfront := Clamp(rates.waterfront, -100000.0, 200000.0));
      if rates.timePct < 0.0 {
        rates := rates.(timePct := -rates.timePct);
      }
      if rates.timePct > 0.02 {
        rates := rates.(timePct := 0.02);
      }
    }
  }

  // ---- The regression ----------------------------------------------------------------------------

  function Bool01(b: bool): real { if b then 1.0 else 0.0 }

  predicate Usable(c: Comp) { c.closePrice > 0.0 && c.livingArea > 0.0 }

  function Row(c: Comp, meanMonths: real): (x: Vec)
    ensures |x| == FEATURES
  {
    [c.livingArea, c.bedrooms, c.bathrooms, c.yearBuilt, c.lotAcres, c.garage, Bool01(c.pool), Bool01(c.waterfront),
      c.months - meanMonths]
  }

  function UsableComps(sold: seq<Comp>): seq<Comp> {
    if sold == [] then [] else
      UsableComps(sold[..|sold| - 1]) + if Usable(sold[|sold| - 1]) then [sold[|sold| - 1]] else []
  }

  function RowsOf(sold: seq<Comp>, meanMonths: real): (xs: Matrix)
    ensures |xs| == |sold| && forall i :: 0 <= i < |sold| ==> xs[i] == Row(sold[i], meanMonths)
  {
    seq(|sold|, i requires 0 <= i < |sold| => Row(sold[i], meanMonths))
  }

  function PricesOf(sold: seq<Comp>): (y: Vec)
    ensures |y| == |sold| && forall i :: 0 <= i < |sold| ==> y[i] == sold[i].closePrice
  {
    seq(|sold|, i requires 0 <= i < |sold| => sold[i].closePrice)
  }

  function Months(sold: seq<Comp>): (ms: seq<real>)
    ensures |ms| == |sold| && forall i :: 0 <= i < |sold| ==> ms[i] == sold[i].months
  {
    seq(|sold|, i requires 0 <= i < |sold| => sold[i].months)
  }

  function MeanMonths(sold: seq<Comp>): real {
    if sold == [] then 0.0 else Mean(Months(sold))
  }

  method MeanCloseMonths(sold: seq<Comp>) returns (mean: real)
    ensures mean == MeanMonths(sold)
  {
    var sum, n := 0.0, 0;
    for i := 0 to |sold|
      invariant sum == SumTo(Months(sold), i) && n == i
    {
      sum, n := sum + sold[i].months, n + 1;
    }
    mean := if n == 0 then 0.0 else sum / n as real;
  }

  method CollectRows(sold: seq<Comp>) returns (rows: Matrix, y: Vec)
    ensures rows == RowsOf(UsableComps(sold), MeanMonths(sold)) && y == PricesOf(UsableComps(sold))
  {
    var mean := MeanCloseMonths(sold);
    rows, y := [], [];
    ghost var used: seq<Comp> := [];
    for i := 0 to |sold|
      invariant used == UsableComps(sold[..i])
      invariant rows == RowsOf(used, mean) && y == PricesOf(used)
    {
      assert sold[..i + 1][..i] == sold[..i];
      if Usable(sold[i]) {
        rows, y, used := rows + [Row(sold[i], mean)], y + [sold[i].closePrice], used + [sold[i]];
      }
    }
    assert sold[..|sold|] == sold;
  }

  /** The rates that a coefficient vector gives. */
  function RatesOf(coef: Vec, rSquared: real): Rates
    requires |coef| == FEATURES + 1
  {
    Rates(coef[1], coef[2], coef[3], Abs(coef[4]), coef[5], coef[6], coef[7], coef[8], coef[9] / 100.0, coef[0],
      rSquared, Ols)
  }

  ghost function FitRows(sold: seq<Comp>): Matrix { RowsOf(UsableComps(sold), MeanMonths(sold)) }

  ghost function FitDesign(sold: seq<Comp>): Matrix { Design(FitRows(sold), FEATURES + 1) }

  ghost predicate Accepted(sold: seq<Comp>) {
    var d := FitDesign(sold);
    |d| >= 6 && Invert(GramTo(d, FEATURES + 1, |d|), PIVOT_TOLERANCE).Inverse?
  }

  /** coef is the best fit of the usable comparables, and its rate per square foot is positive. */
  ghost predicate Fits(sold: seq<Comp>, coef: Vec) {
    |coef| == FEATURES + 1 && BestFit(FitDesign(sold), PricesOf(UsableComps(sold)), coef) && coef[1] > 0.0
  }

  /** The regression gives rates. */
  ghost predicate HasFit(sold: seq<Comp>) { Accepted(sold) && exists coef :: Fits(sold, coef) }

  /** The rates of the regression are those of the best fit, scored. */
  ghost predicate Supported(sold: seq<Comp>, coef: Vec, rates: Rates) {
    Accepted(sold) && Fits(sold, coef) &&
      rates == RatesOf(coef, Score(FitRows(sold), PricesOf(UsableComps(sold)), coef))
  }

  /** Rates of the regression rest on at least ten usable comparables and on no feature that is the same in all
      of them; their score lies in [0, 1]; and no other rates are supported. */
  lemma SupportedMeans(sold: seq<Comp>, coef: Vec, rates: Rates)
    requires Supported(sold, coef, rates)
    ensures |UsableComps(sold)| >= FEATURES + 1
    ensures forall j: nat :: j < FEATURES ==> !ConstantFeature(FitRows(sold), j)
    ensures rates.gla > 0.0 && 0.0 <= rates.rSquared <= 1.0 && rates.source.Ols?
    ensures forall c, r :: Supported(sold, c, r) ==> c == coef && r == rates
  {
    FitSupport(FitRows(sold));
    ScoreInRange(FitRows(sold), PricesOf(UsableComps(sold)), coef);
    forall c, r | Supported(sold, c, r) ensures c == coef && r == rates {
      BestFitIsUnique(FitDesign(sold), PricesOf(UsableComps(sold)), coef, c);
    }
  }

  lemma BestFitIsUnique(d: Matrix, y: Vec, a: Vec, b: Vec)
    requires |a| == |b| && |y| >= |d| && (forall i :: 0 <= i < |d| ==> |d[i]| == |a|) && BestFit(d, y, a)
    requires BestFit(d, y, b)
    ensures a == b
  {
  }

  lemma FitSupport(xs: Matrix)
    requires xs != [] && (forall i :: 0 <= i < |xs| ==> |xs[i]| == FEATURES)
    requires Invert(GramTo(Design(xs, FEATURES + 1), FEATURES + 1, |xs|), PIVOT_TOLERANCE).Inverse?
    ensures |xs| >= FEATURES + 1 && forall j: nat :: j < FEATURES ==> !ConstantFeature(xs, j)
  {
    var p := FEATURES + 1;
    if |xs| < p { FitNeedsRows(Design(xs, p), p); }
    forall j: nat | j < FEATURES ensures !ConstantFeature(xs, j) {
      if ConstantFeature(xs, j) { FitNeedsVariation(xs, p, j); }
    }
  }

  lemma ScoreInRange(xs: Matrix, y: Vec, coef: Vec)
    requires |xs| == |y| && |y| > 0 && |coef| > 0 && forall i :: 0 <= i < |xs| ==> |xs[i]| + 1 == |coef|
    requires NormalEquations(Design(xs, |coef|), y, coef)
    ensures 0.0 <= Score(xs, y, coef) <= 1.0
  {
    if Variation(y) >= LEAST_VARIATION { FitScoreNeedsNoClamp(xs, y, coef); }
  }

  /** Without a positive rate in the best fit there is no supported one. */
  lemma OtherFitsAreWorse(sold: seq<Comp>, coef: Vec)
    requires |coef| == FEATURES + 1 && BestFit(FitDesign(sold), PricesOf(UsableComps(sold)), coef) && coef[1] <= 0.0
    ensures !HasFit(sold)
  {
    forall c | Fits(sold, c) ensures false {
      BestFitIsUnique(FitDesign(sold), PricesOf(UsableComps(sold)), coef, c);
    }
  }

  /** fitBpoOLS: rates come out exactly when X'X is accepted and the best fit has a positive rate per square
      foot. The gate asks for six rows, but an accepted X'X has ten. */
  method FitBpoOLS(sold: seq<Comp>) returns (ok: bool, rates: Rates, ghost coef: Vec)
    ensures ok <==> HasFit(sold)
    ensures ok ==> Supported(sold, coef, rates)
  {
    hide BestFit, Score, Invert, GramTo, UsableComps;
    ok, rates, coef := false, NO_RATES, [];
    var rows, y := CollectRows(sold);
    if |rows| < 6 {
      return;
    }
    var fit := SolveOLS(rows, y);
    if fit.NoFit? {
      return;
    }
    coef := fit.coef;
    if fit.coef[1] <= 0.0 {
      OtherFitsAreWorse(sold, coef);
      return;
    }
    assert Fits(sold, coef);
    var r2 := OlsRSquared(rows, y, fit.coef);
    ok, rates := true, RatesOf(fit.coef, r2);
  }

  // ---- The choice of the method ------------------------------------------------------------------

  function OrDefault(v: real, default: real): real { if v == 0.0 then default else v }

  /** fillDefaultRates. */
  function Filled(r: Rates): Rates {
    r.(bed := OrDefault(r.bed, 8000.0), bath := OrDefault(r.bath, 5000.0), age := OrDefault(r.age, 1500.0),
       lot := OrDefault(r.lot, 25000.0), garage := OrDefault(r.garage, 10000.0), pool := OrDefault(r.pool, 20000.0),
       waterfront := OrDefault(r.waterfront, 50000.0))
  }

  function PricesPerFoot(sold: seq<Comp>): seq<real> {
    if sold == [] then [] else
      var c := sold[|sold| - 1];
      PricesPerFoot(sold[..|sold| - 1]) +
      if c.livingArea > 0.0 && c.closePrice > 0.0 then [c.closePrice / c.livingArea] else []
  }

  method MedianPPSF(sold: seq<Comp>) returns (m: real)
    ensures m == Middle(Sort(PricesPerFoot(sold)))
  {
    var vals: seq<real> := [];
    for i := 0 to |sold|
      invariant vals == PricesPerFoot(sold[..i])
    {
      assert sold[..i + 1][..i] == sold[..i];
      if sold[i].livingArea > 0.0 && sold[i].closePrice > 0.0 {
        vals := vals + [sold[i].closePrice / sold[i].livingArea];
      }
    }
    assert sold[..|sold|] == sold;
    var a := new real[|vals|](i requires 0 <= i < |vals| => vals[i]);
    assert a[..] == vals;
    m := MedianOf(a);
  }

  ghost predicate UsesRegression(sold: seq<Comp>, minOLS: int) {
    sold != [] && |sold| >= (if minOLS <= 0 then 6 else minOLS) && HasFit(sold)
  }

  /** The rates without a regression: paired sales from three comparables on, and the median price per square
      foot where they give none. */
  function Fallback(sold: seq<Comp>, paired: Rates): Rates {
    var median := Middle(Sort(PricesPerFoot(sold)));
    if |sold| < 3 then Filled(NO_RATES.(gla := median))
    else
      Filled(Rates(if paired.gla <= 0.0 then median else paired.gla, paired.bed, paired.bath, paired.age, paired.lot,
                   paired.garage, paired.pool, paired.waterfront, 0.0, 0.0, 0.0, Paired))
  }

  /** extractMarketRates, with the paired-sales rates as an input: the regression exactly when it is allowed and
      gives rates, otherwise the fallback, every rate brought into its range. */
  method ExtractMarketRates(sold: seq<Comp>, minOLS: int, paired: Rates) returns (rates: Rates)
    ensures sold == [] ==> rates == NO_RATES
    ensures rates.source.Ols? <==> UsesRegression(sold, minOLS)
    ensures UsesRegression(sold, minOLS) ==> exists coef, fit :: Supported(sold, coef, fit) && rates == Sanitized(fit)
    ensures sold != [] && !UsesRegression(sold, minOLS) ==> rates == Sanitized(Fallback(sold, paired))
  {
    var least := if minOLS <= 0 then 6 else minOLS;
    if |sold| == 0 {
      return NO_RATES;
    }
    if |sold| >= least {
      var ok, fit, coef := FitBpoOLS(sold);
      if ok {
        var r := new BpoMarketRates(fit);
        r.Sanitize();
        return r.rates;
      }
    }
    var gla := paired.gla;
    if |sold| < 3 || gla <= 0.0 {
      gla := MedianPPSF(sold);
    }
    var found := NO_RATES.(gla := gla);
    if |sold| >= 3 {
      found := Rates(gla, paired.bed, paired.bath, paired.age, paired.lot, paired.garage, paired.pool,
        paired.waterfront, 0.0, 0.0, 0.0, Paired);
    }
    var filled := Filled(found);
    var r := new BpoMarketRates(filled);
    r.Sanitize();
    rates := r.rates;
  }
}
