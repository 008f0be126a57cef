/** The advanced predictive-analytics view: a least-squares income trend,
    per-category expense forecasts adjusted by a month-of-year factor, a
    straight-line balance projection, and the confidence and
    recommendation rules attached to each forecast. */
module PredictiveAnalytics {
  import opened Wrappers
  import opened Ledger
  import opened Numeric
  import opened Ranking

  // ---------------------------------------------------------------------
  // Least-squares trend

  datatype DataPoint = DataPoint(x: real, y: real)

  function SumX(d: seq<DataPoint>): real {
    if d == [] then 0.0 else SumX(d[..|d| - 1]) + d[|d| - 1].x
  }

  function SumY(d: seq<DataPoint>): real {
    if d == [] then 0.0 else SumY(d[..|d| - 1]) + d[|d| - 1].y
  }

  function SumXY(d: seq<DataPoint>): real {
    if d == [] then 0.0 else SumXY(d[..|d| - 1]) + d[|d| - 1].x * d[|d| - 1].y
  }

  function SumXX(d: seq<DataPoint>): real {
    if d == [] then 0.0 else SumXX(d[..|d| - 1]) + d[|d| - 1].x * d[|d| - 1].x
  }

  /** `n·Σxx − (Σx)²`, the denominator of the slope. */
  function Denominator(d: seq<DataPoint>): real {
    SlopeDenominator(|d| as real, SumX(d), SumXX(d))
  }

  function SlopeDenominator(n: real, sx: real, sxx: real): real {
    n * sxx - sx * sx
  }

  /** `calculateLinearTrend`: the least-squares slope
      `(n·Σxy − Σx·Σy) / (n·Σxx − (Σx)²)`. */
  function LinearTrend(d: seq<DataPoint>): real
    requires Denominator(d) != 0.0
  {
    Slope(|d| as real, SumX(d), SumY(d), SumXY(d), SumXX(d))
  }

  /** The slope formula over the five sums. */
  function Slope(n: real, sx: real, sy: real, sxy: real, sxx: real): real
    requires SlopeDenominator(n, sx, sxx) != 0.0
  {
    (n * sxy - sx * sy) / SlopeDenominator(n, sx, sxx)
  }

  /** The points `(index, value)` that the income forecast fits. */
  function IndexPoints(ys: seq<real>): (d: seq<DataPoint>)
    ensures |d| == |ys|
    ensures forall i :: 0 <= i < |ys| ==> d[i] == DataPoint(i as real, ys[i])
  {
    seq(|ys|, i requires 0 <= i < |ys| => DataPoint(i as real, ys[i]))
  }

  predicate OnLine(d: seq<DataPoint>, a: real, b: real) {
    forall i :: 0 <= i < |d| ==> d[i].y == a + b * d[i].x
  }

  /** One step of `SumYCombined`, as plain algebra. */
  lemma CountStep(syI: real, sxI: real, nI: real, x: real, y: real, a: real, b: real,
                  sy: real, sx: real, n: real)
    requires y == a + b * x && syI == Combine(a, nI, b, sxI)
    requires sy == syI + y && sx == sxI + x && n == nI + 1.0
    ensures sy == Combine(a, n, b, sx)
  {
    Distribute(a, nI, 1.0);
    Distribute(b, sxI, x);
  }

  lemma {:induction false} SumYCombined(d: seq<DataPoint>, a: real, b: real)
    requires OnLine(d, a, b)
    ensures SumY(d) == Combine(a, |d| as real, b, SumX(d))
  {
    if d != [] {
      var init, last := d[..|d| - 1], d[|d| - 1];
      assert OnLine(init, a, b) && last.y == a + b * last.x;
      SumYCombined(init, a, b);
      CountStep(SumY(init), SumX(init), |init| as real, last.x, last.y, a, b, SumY(d), SumX(d), |d| as real);
    } else {
      ScaleZero(a, |d| as real);
      ScaleZero(b, SumX(d));
    }
  }

  lemma SumYOfLine(d: seq<DataPoint>, a: real, b: real)
    requires OnLine(d, a, b)
    ensures SumY(d) == a * (|d| as real) + b * SumX(d)
  {
    SumYCombined(d, a, b);
  }

  /** `a·u + b·v`, named so that the inductive step below matches its
      hypothesis by congruence. */
  function Combine(a: real, u: real, b: real, v: real): real {
    a * u + b * v
  }

  /** One step of `SumXYOfLine`, as plain algebra. */
  lemma LineStep(sxyI: real, sxI: real, sxxI: real, x: real, y: real, a: real, b: real,
                 sxy: real, sx: real, sxx: real)
    requires y == a + b * x && sxyI == Combine(a, sxI, b, sxxI)
    requires sxy == sxyI + x * y && sx == sxI + x && sxx == sxxI + x * x
    ensures sxy == Combine(a, sx, b, sxx)
  {
    Distribute(x, a, b * x);
    assert x * (b * x) == b * (x * x);
    Distribute(a, sxI, x);
    Distribute(b, sxxI, x * x);
  }

  lemma {:induction false} SumXYCombined(d: seq<DataPoint>, a: real, b: real)
    requires OnLine(d, a, b)
    ensures SumXY(d) == Combine(a, SumX(d), b, SumXX(d))
  {
    if d != [] {
      var init, last := d[..|d| - 1], d[|d| - 1];
      assert OnLine(init, a, b) && last.y == a + b * last.x;
      SumXYCombined(init, a, b);
      LineStep(SumXY(init), SumX(init), SumXX(init), last.x, last.y, a, b, SumXY(d), SumX(d), SumXX(d));
    } else {
      ScaleZero(a, SumX(d));
      ScaleZero(b, SumXX(d));
    }
  }

  lemma SumXYOfLine(d: seq<DataPoint>, a: real, b: real)
    requires OnLine(d, a, b)
    ensures SumXY(d) == a * SumX(d) + b * SumXX(d)
  {
    SumXYCombined(d, a, b);
  }

  /** The numerator of the slope for a line, as plain algebra. */
  lemma SlopeAlgebra(n: real, sx: real, sxx: real, a: real, b: real, sxy: real, sy: real)
    requires sxy == a * sx + b * sxx && sy == a * n + b * sx
    ensures n * sxy - sx * sy == b * (n * sxx - sx * sx)
  {
    Distribute(n, a * sx, b * sxx);
    Distribute(sx, a * n, b * sx);
    assert n * (a * sx) == sx * (a * n);
    assert n * (b * sxx) == b * (n * sxx);
    assert sx * (b * sx) == b * (sx * sx);
  }

  /** Exactly linear data `y = a + b·x` has trend `b`. */
  lemma LinearDataSlope(d: seq<DataPoint>, a: real, b: real)
    requires OnLine(d, a, b) && Denominator(d) != 0.0
    ensures LinearTrend(d) == b
  {
    SumYCombined(d, a, b);
    SumXYCombined(d, a, b);
    SlopeOfSums(|d| as real, SumX(d), SumY(d), SumXY(d), SumXX(d), a, b);
  }

  /** The slope formula over sums that satisfy the line's two equations. */
  lemma SlopeOfSums(n: real, sx: real, sy: real, sxy: real, sxx: real, a: real, b: real)
    requires sy == Combine(a, n, b, sx) && sxy == Combine(a, sx, b, sxx)
    requires SlopeDenominator(n, sx, sxx) != 0.0
    ensures Slope(n, sx, sy, sxy, sxx) == b
  {
    SlopeAlgebra(n, sx, sxx, a, b, sxy, sy);
    DivideOut(n * sxy - sx * sy, b, n * sxx - sx * sx);
  }

  /** Constant data has trend 0. */
  lemma ConstantDataSlope(d: seq<DataPoint>, c: real)
    requires (forall i :: 0 <= i < |d| ==> d[i].y == c) && Denominator(d) != 0.0
    ensures LinearTrend(d) == 0.0
  {
    LinearDataSlope(d, c, 0.0);
  }

  lemma {:induction false} IndexSums(d: seq<DataPoint>)
    requires forall i :: 0 <= i < |d| ==> d[i].x == i as real
    ensures 2.0 * SumX(d) == |d| as real * (|d| as real - 1.0)
    ensures 6.0 * SumXX(d) == (|d| as real - 1.0) * |d| as real * (2.0 * |d| as real - 1.0)
  {
    if d != [] {
      var init := d[..|d| - 1];
      assert forall i :: 0 <= i < |init| ==> init[i].x == i as real;
      IndexSums(init);
      assert d[|d| - 1].x == |init| as real;
      IndexSumsStep(|init| as real, SumX(init), SumXX(init), |d| as real, SumX(d), SumXX(d));
    }
  }

  /** One step of `IndexSums`, as plain algebra: adding the point `x = m`. */
  lemma IndexSumsStep(m: real, sxI: real, sxxI: real, n: real, sx: real, sxx: real)
    requires 2.0 * sxI == m * (m - 1.0) && 6.0 * sxxI == (m - 1.0) * m * (2.0 * m - 1.0)
    requires n == m + 1.0 && sx == sxI + m && sxx == sxxI + m * m
    ensures 2.0 * sx == n * (n - 1.0)
    ensures 6.0 * sxx == (n - 1.0) * n * (2.0 * n - 1.0)
  {
  }

  /** For the points `x = 0 .. n−1` with `n ≥ 2` the denominator is
      `n²(n²−1)/12`, which is positive, so the trend is defined. */
  lemma IndexDenominatorPositive(d: seq<DataPoint>)
    requires |d| >= 2
    requires forall i :: 0 <= i < |d| ==> d[i].x == i as real
    ensures Denominator(d) > 0.0
  {
    IndexSums(d);
    var n := |d| as real;
    var sx, sxx := SumX(d), SumXX(d);
    assert 12.0 * Denominator(d) == 2.0 * n * (6.0 * sxx) - 3.0 * (2.0 * sx) * (2.0 * sx);
    assert 12.0 * Denominator(d) == n * n * (n - 1.0) * (n + 1.0);
    MulMonotone(1.0, n * n, 1.0, (n - 1.0) * (n + 1.0));
  }

  // ---------------------------------------------------------------------
  // Mean and variance

  function Sum(vs: seq<real>): real {
    if vs == [] then 0.0 else Sum(vs[..|vs| - 1]) + vs[|vs| - 1]
  }

  function Mean(vs: seq<real>): real
    requires |vs| > 0
  {
    Sum(vs) / |vs| as real
  }

  /** `Σ (v − mean)²`. */
  function SquaredDeviations(vs: seq<real>, mean: real): (r: real)
    ensures r >= 0.0
  {
    if vs == [] then 0.0
    else
      var e := vs[|vs| - 1] - mean;
      MulMonotone(0.0, if e >= 0.0 then e else -e, 0.0, if e >= 0.0 then e else -e);
      SquaredDeviations(vs[..|vs| - 1], mean) + e * e
  }

  /** `calculateVariance`: the population variance, never negative. */
  function Variance(vs: seq<real>): (r: real)
    requires |vs| > 0
    ensures r >= 0.0
  {
    SquaredDeviations(vs, Mean(vs)) / |vs| as real
  }

  lemma {:induction false} SumOfConstant(vs: seq<real>, c: real)
    requires forall i :: 0 <= i < |vs| ==> vs[i] == c
    ensures Sum(vs) == |vs| as real * c
    ensures SquaredDeviations(vs, c) == 0.0
  {
    if vs != [] {
      SumOfConstant(vs[..|vs| - 1], c);
    }
  }

  /** Equal values have variance 0. */
  lemma VarianceOfConstant(vs: seq<real>, c: real)
    requires |vs| > 0 && forall i :: 0 <= i < |vs| ==> vs[i] == c
    ensures Mean(vs) == c && Variance(vs) == 0.0
  {
    SumOfConstant(vs, c);
  }

  // ---------------------------------------------------------------------
  // Seasonal factor

  /** A month of the year, as `Date.getMonth` numbers it. */
  type Month = m: int | 0 <= m < 12

  function MonthSum(ts: seq<Transaction>, monthOf: Transaction -> Month, m: Month): real {
    if ts == [] then 0.0
    else MonthSum(ts[..|ts| - 1], monthOf, m) + (if monthOf(ts[|ts| - 1]) == m then ts[|ts| - 1].amount else 0.0)
  }

  function MonthCount(ts: seq<Transaction>, monthOf: Transaction -> Month, m: Month): nat {
    if ts == [] then 0
    else MonthCount(ts[..|ts| - 1], monthOf, m) + (if monthOf(ts[|ts| - 1]) == m then 1 else 0)
  }

  /** The mean amount of the transactions in month `m`; 0 for a month without any. */
  function MonthlyAverage(ts: seq<Transaction>, monthOf: Transaction -> Month, m: Month): real {
    if MonthCount(ts, monthOf, m) > 0 then MonthSum(ts, monthOf, m) / MonthCount(ts, monthOf, m) as real
    else MonthSum(ts, monthOf, m)
  }

  /** The twelve monthly averages: a month with transactions averages to
      its total shared out over its count, and a month without any to 0. */
  function MonthlyAverages(ts: seq<Transaction>, monthOf: Transaction -> Month): (avgs: seq<real>)
    ensures |avgs| == 12
    ensures forall m :: 0 <= m < 12 ==> avgs[m] == MonthlyAverage(ts, monthOf, m)
    ensures forall m: Month :: MonthCount(ts, monthOf, m) > 0 ==> avgs[m] * MonthCount(ts, monthOf, m) as real == MonthSum(ts, monthOf, m)
    ensures forall m: Month :: MonthCount(ts, monthOf, m) == 0 ==> avgs[m] == 0.0
  {
    EmptyMonthsSumToZero(ts, monthOf);
    seq(12, m requires 0 <= m < 12 => MonthlyAverage(ts, monthOf, m))
  }

  /** A month without transactions has a zero total. */
  lemma {:induction false} EmptyMonthsSumToZero(ts: seq<Transaction>, monthOf: Transaction -> Month)
    ensures forall m: Month :: MonthCount(ts, monthOf, m) == 0 ==> MonthSum(ts, monthOf, m) == 0.0
  {
    if ts != [] {
      EmptyMonthsSumToZero(ts[..|ts| - 1], monthOf);
    }
  }

  /** The mean of the twelve monthly averages. */
  function OverallAverage(ts: seq<Transaction>, monthOf: Transaction -> Month): real {
    Sum(MonthlyAverages(ts, monthOf)) / 12.0
  }

  /** The current month's average relative to the overall one; 1 when the
      overall average is not positive. */
  function SeasonalFactor(ts: seq<Transaction>, monthOf: Transaction -> Month, currentMonth: Month): real {
    var overall := OverallAverage(ts, monthOf);
    if overall > 0.0 then MonthlyAverages(ts, monthOf)[currentMonth] / overall else 1.0
  }

  /** The factor scales the overall average to the current month's one;
      without a positive overall average it leaves a forecast unchanged. */
  lemma SeasonalFactorScales(ts: seq<Transaction>, monthOf: Transaction -> Month, currentMonth: Month)
    ensures var overall := OverallAverage(ts, monthOf);
      && (overall > 0.0 ==> SeasonalFactor(ts, monthOf, currentMonth) * overall == MonthlyAverage(ts, monthOf, currentMonth))
      && (overall <= 0.0 ==> SeasonalFactor(ts, monthOf, currentMonth) == 1.0)
  {
  }

  /** `calculateSeasonalFactor`: per-month totals and counts in two arrays of
      twelve, the totals then divided in place by the counts. */
  method CalculateSeasonalFactor(ts: seq<Transaction>, monthOf: Transaction -> Month, currentMonth: Month)
    returns (factor: real)
    ensures factor == SeasonalFactor(ts, monthOf, currentMonth)
  {
    var averages, counts := TallyMonths(ts, monthOf);
    var k := 0;
    while k < 12
      invariant 0 <= k <= 12
      invariant forall m :: 0 <= m < k ==> averages[m] == MonthlyAverage(ts, monthOf, m)
      invariant forall m :: k <= m < 12 ==>
        averages[m] == MonthSum(ts, monthOf, m) && counts[m] == MonthCount(ts, monthOf, m)
    {
      if counts[k] > 0 {
        averages[k] := averages[k] / counts[k] as real;
      }
      k := k + 1;
    }
    assert averages[..] == MonthlyAverages(ts, monthOf);
    var overall := Sum(averages[..]) / 12.0;
    factor := if overall > 0.0 then averages[currentMonth] / overall else 1.0;
  }

  /** The first loop of `calculateSeasonalFactor`: each transaction's amount
      added to its month's total, and its month's count raised by one. */
  method TallyMonths(ts: seq<Transaction>, monthOf: Transaction -> Month)
    returns (totals: array<real>, counts: array<nat>)
    ensures fresh(totals) && fresh(counts)
    ensures totals.Length == 12 && counts.Length == 12
    ensures forall m :: 0 <= m < 12 ==>
      totals[m] == MonthSum(ts, monthOf, m) && counts[m] == MonthCount(ts, monthOf, m)
  {
    totals := new real[12](_ => 0.0);
    counts := new nat[12](_ => 0);
    var i := 0;
    while i < |ts|
      invariant 0 <= i <= |ts|
      invariant forall m :: 0 <= m < 12 ==>
        totals[m] == MonthSum(ts[..i], monthOf, m) && counts[m] == MonthCount(ts[..i], monthOf, m)
    {
      MonthTotalsStep(ts, monthOf, i);
      var m := monthOf(ts[i]);
      totals[m] := totals[m] + ts[i].amount;
      counts[m] := counts[m] + 1;
      i := i + 1;
    }
    assert ts[..i] == ts;
  }

  /** One more transaction adds to its own month's total and count only. */
  lemma MonthTotalsStep(ts: seq<Transaction>, monthOf: Transaction -> Month, i: nat)
    requires i < |ts|
    ensures forall m: Month ::
      MonthSum(ts[..i + 1], monthOf, m) == MonthSum(ts[..i], monthOf, m) + (if monthOf(ts[i]) == m then ts[i].amount else 0.0)
    ensures forall m: Month ::
      MonthCount(ts[..i + 1], monthOf, m) == MonthCount(ts[..i], monthOf, m) + (if monthOf(ts[i]) == m then 1 else 0)
  {
    assert ts[..i + 1][..i] == ts[..i];
  }

  lemma {:induction false} SumScaled(vs: seq<real>, c: real)
    requires c != 0.0
    ensures Sum(seq(|vs|, i requires 0 <= i < |vs| => vs[i] / c)) == Sum(vs) / c
  {
    var scaled := seq(|vs|, i requires 0 <= i < |vs| => vs[i] / c);
    if vs != [] {
      var init := vs[..|vs| - 1];
      SumScaled(init, c);
      assert scaled[..|scaled| - 1] == seq(|init|, i requires 0 <= i < |init| => init[i] / c);
    }
  }

  /** When the overall average is positive the twelve month factors average
      to exactly 1: the adjustment redistributes the mean over the year. */
  lemma SeasonalFactorsAverageOne(ts: seq<Transaction>, monthOf: Transaction -> Month)
    requires OverallAverage(ts, monthOf) > 0.0
    ensures Sum(seq(12, m requires 0 <= m < 12 => SeasonalFactor(ts, monthOf, m))) == 12.0
  {
    var avgs := MonthlyAverages(ts, monthOf);
    var overall := OverallAverage(ts, monthOf);
    SumScaled(avgs, overall);
    assert seq(12, m requires 0 <= m < 12 => SeasonalFactor(ts, monthOf, m))
        == seq(|avgs|, i requires 0 <= i < |avgs| => avgs[i] / overall);
    DivideOut(Sum(avgs), 12.0, overall);
  }

  // ---------------------------------------------------------------------
  // Recommendations, horizon and projection

  /** The recommendation messages the forecasts carry. */
  datatype Message =
    | IncreaseMessage | DecreaseMessage | VolatileMessage | AlertMessage
    | RisingIncomeMessage | DiversifyIncomeMessage | PlanSavingsMessage
    | ImprovingBalanceMessage | DegradingBalanceMessage | WatchVolatileMessage

  /** The text the component shows for each message. */
  function MessageText(m: Message): string {
    match m
    case IncreaseMessage => "Augmentation des dépenses prévue - préparez votre budget"
    case DecreaseMessage => "Diminution des dépenses prévue - opportunité d'épargne"
    case VolatileMessage => "Catégorie volatile - surveillez de près ces dépenses"
    case AlertMessage => "Définissez des alertes pour cette catégorie"
    case RisingIncomeMessage => "Tendance positive des revenus détectée"
    case DiversifyIncomeMessage => "Considérez diversifier vos sources de revenus"
    case PlanSavingsMessage => "Planifiez votre épargne en fonction de cette projection"
    case ImprovingBalanceMessage => "Votre situation financière devrait s'améliorer"
    case DegradingBalanceMessage => "Attention à la dégradation prévue de votre solde"
    case WatchVolatileMessage => "Surveillez vos dépenses dans les catégories volatiles"
  }

  /** A quotient as JavaScript evaluates it: a finite number, an infinity
      of either sign when a non-zero number is divided by zero, or NaN for
      0/0. */
  datatype Quotient = Finite(value: real) | Infinite(positive: bool) | NotANumber

  /** `Math.sqrt(variance) / avgExpense`: finite unless the mean is zero;
      then an infinity with the sign of the deviation, or NaN when the
      deviation is zero as well, as for a category whose expenses are all
      zero. */
  function Volatility(sd: real, mean: real): (v: Quotient)
    ensures v.Finite? <==> mean != 0.0
    ensures v.Finite? ==> v.value * mean == sd
    ensures v.NotANumber? <==> mean == 0.0 && sd == 0.0
    ensures v.Infinite? ==> (v.positive <==> sd > 0.0)
  {
    if mean != 0.0 then Finite(sd / mean)
    else if sd == 0.0 then NotANumber
    else Infinite(sd > 0.0)
  }

  /** `volatility > 0.3`: true of +Infinity, false of -Infinity and of NaN. */
  predicate IsVolatile(volatility: Quotient) {
    match volatility
    case Finite(v) => v > 0.3
    case Infinite(positive) => positive
    case NotANumber => false
  }

  /** `generateExpenseRecommendations`: at most one of the increase or
      decrease messages, the volatility message exactly when the volatility
      exceeds 0.3, and always the alert message last. */
  function ExpenseRecommendations(predicted: real, current: real, volatility: Quotient): (r: seq<Message>)
    ensures 1 <= |r| <= 3 && r[|r| - 1] == AlertMessage
    ensures !(IncreaseMessage in r && DecreaseMessage in r)
    ensures IncreaseMessage in r <==> predicted > current * 1.1
    ensures DecreaseMessage in r <==> !(predicted > current * 1.1) && predicted < current * 0.9
    ensures VolatileMessage in r <==> IsVolatile(volatility)
  {
    (if predicted > current * 1.1 then [IncreaseMessage]
     else if predicted < current * 0.9 then [DecreaseMessage]
     else [])
    + (if IsVolatile(volatility) then [VolatileMessage] else [])
    + [AlertMessage]
  }

  /** With a zero mean expense the volatility message appears exactly when
      the deviation is positive (+Infinity); a category whose expenses are
      all zero divides 0 by 0 and gets no such message. */
  lemma ZeroMeanVolatile(predicted: real, sd: real)
    ensures VolatileMessage in ExpenseRecommendations(predicted, 0.0, Volatility(sd, 0.0)) <==> sd > 0.0
  {
  }

  /** `getTimeHorizonMonths`. */
  function TimeHorizonMonths(horizon: string): (m: nat)
    ensures m in {3, 6, 12, 24}
    ensures m == 3 <==> horizon == "3months"
    ensures m == 12 <==> horizon == "1year"
    ensures m == 24 <==> horizon == "2years"
    ensures m == 6 <==> horizon !in {"3months", "1year", "2years"}
  {
    match horizon
    case "3months" => 3
    case "6months" => 6
    case "1year" => 12
    case "2years" => 24
    case _ => 6
  }

  /** The balance `months` months from now at a constant monthly net. */
  function BalanceAfter(currentBalance: real, net: real, months: nat): real {
    currentBalance + months as real * net
  }

  /** The straight-line balance after each of the next months: the first
      point is one monthly net past today's balance, and each further point
      one monthly net past the previous. */
  function BalanceProjection(currentBalance: real, monthlyIncome: real, monthlyExpenses: real, months: nat): (r: seq<real>)
    ensures |r| == months
    ensures months > 0 ==> r[0] == currentBalance + (monthlyIncome - monthlyExpenses)
    ensures forall k :: 0 <= k < months - 1 ==> r[k + 1] == r[k] + (monthlyIncome - monthlyExpenses)
  {
    seq(months, k requires 0 <= k < months => BalanceAfter(currentBalance, monthlyIncome - monthlyExpenses, k + 1))
  }

  /** `generateBalanceProjection`: add the monthly net to the balance once per
      month and record it. */
  method GenerateBalanceProjection(currentBalance: real, monthlyIncome: real, monthlyExpenses: real, months: nat)
    returns (points: seq<real>)
    ensures points == BalanceProjection(currentBalance, monthlyIncome, monthlyExpenses, months)
  {
    var balance := currentBalance;
    points := [];
    var i := 1;
    while i <= months
      invariant 1 <= i <= months + 1
      invariant points == BalanceProjection(currentBalance, monthlyIncome, monthlyExpenses, i - 1)
      invariant balance == BalanceAfter(currentBalance, monthlyIncome - monthlyExpenses, i - 1)
    {
      ProjectionStep(currentBalance, monthlyIncome, monthlyExpenses, i - 1);
      balance := balance + (monthlyIncome - monthlyExpenses);
      points := points + [balance];
      i := i + 1;
    }
  }

  /** One more month appends the next balance to the projection. */
  lemma ProjectionStep(currentBalance: real, monthlyIncome: real, monthlyExpenses: real, n: nat)
    ensures var net := monthlyIncome - monthlyExpenses;
      BalanceAfter(currentBalance, net, n) + net == BalanceAfter(currentBalance, net, n + 1)
    ensures BalanceProjection(currentBalance, monthlyIncome, monthlyExpenses, n + 1)
         == BalanceProjection(currentBalance, monthlyIncome, monthlyExpenses, n)
            + [BalanceAfter(currentBalance, monthlyIncome - monthlyExpenses, n + 1)]
  {
    var longer := BalanceProjection(currentBalance, monthlyIncome, monthlyExpenses, n + 1);
    var shorter := BalanceProjection(currentBalance, monthlyIncome, monthlyExpenses, n);
    assert forall k :: 0 <= k < n ==> longer[k] == shorter[k];
  }

  /** The points `last + trend·k` for the next months. */
  function FutureDataPoints(lastValue: real, months: nat, trend: real): (r: seq<real>)
    ensures |r| == months
    ensures months > 0 ==> r[0] == lastValue + trend
    ensures forall k :: 0 <= k < months - 1 ==> r[k + 1] == r[k] + trend
  {
    seq(months, k requires 0 <= k < months => lastValue + trend * (k + 1) as real)
  }

  /** `generateFutureDataPoints`: extend the last observed value along the trend. */
  method GenerateFutureDataPoints(lastValue: real, months: nat, trend: real) returns (points: seq<real>)
    ensures points == FutureDataPoints(lastValue, months, trend)
  {
    points := [];
    var i := 1;
    while i <= months
      invariant 1 <= i <= months + 1
      invariant points == FutureDataPoints(lastValue, i - 1, trend)
    {
      ghost var next := FutureDataPoints(lastValue, i, trend);
      assert next[i - 1] == lastValue + trend * i as real;
      assert forall k :: 0 <= k < i - 1 ==> next[k] == points[k];
      assert next == points + [lastValue + trend * i as real];
      points := points + [lastValue + trend * i as real];
      i := i + 1;
    }
  }

  // ---------------------------------------------------------------------
  // Predictions

  datatype PredictionKind = IncomeForecast | ExpenseForecast | BalanceForecast

  datatype Impact = Positive | Negative

  datatype Prediction = Prediction(
    id: string,
    kind: PredictionKind,
    prediction: real,
    confidence: real,
    category: string,
    impact: Impact,
    recommendations: seq<Message>,
    dataPoints: seq<real>)

  datatype CategoryRef = CategoryRef(id: string, name: string)

  /** What the component reads from outside the transaction list: the chosen
      horizon, the span of the history in months, the calendar month of a
      transaction and of today, and the square root. */
  datatype Environment = Environment(
    horizon: string,
    monthsSpan: nat,
    monthOf: Transaction -> Month,
    currentMonth: Month,
    sqrt: real -> real)

  function Confidence(p: Prediction): real { p.confidence }

  function Amounts(ts: seq<Transaction>): (vs: seq<real>)
    ensures |vs| == |ts|
    ensures forall i :: 0 <= i < |ts| ==> vs[i] == ts[i].amount
  {
    seq(|ts|, i requires 0 <= i < |ts| => ts[i].amount)
  }

  predicate InCategory(c: CategoryRef, t: Transaction) {
    t.categoryId == c.id && IsExpense(t)
  }

  /** The least-squares slope of the incomes against their positions. */
  function IncomeTrend(incomes: seq<Transaction>): real
    requires |incomes| >= 3
  {
    var d := IndexPoints(Amounts(incomes));
    IndexDenominatorPositive(d);
    LinearTrend(d)
  }

  /** The mean income. */
  function IncomeMean(incomes: seq<Transaction>): real
    requires |incomes| >= 3
  {
    SumY(IndexPoints(Amounts(incomes))) / |incomes| as real
  }

  /** The income forecast record, given the mean, the trend, the count and
      the future points. */
  function IncomeRecord(incomes: seq<Transaction>, avg: real, trend: real, points: seq<real>): Prediction
    requires |incomes| >= 3
  {
    var future := avg + trend * 6.0;
    Prediction("income-prediction", IncomeForecast, future, Min(0.85, 0.5 + |incomes| as real / 20.0), "income",
      if future > avg then Positive else Negative,
      [if future > avg then RisingIncomeMessage else DiversifyIncomeMessage, PlanSavingsMessage],
      points)
  }

  /** The income forecast: the mean income moved six steps along the trend. */
  function IncomePrediction(incomes: seq<Transaction>): Prediction
    requires |incomes| >= 3
  {
    var trend := IncomeTrend(incomes);
    IncomeRecord(incomes, IncomeMean(incomes), trend, FutureDataPoints(incomes[|incomes| - 1].amount, 6, trend))
  }

  /** The income forecast has confidence between 0.65 and 0.85, growing with
      the number of incomes; its impact is positive exactly when the trend
      rises; its six points continue the last income along the trend. */
  lemma IncomePredictionShape(incomes: seq<Transaction>)
    requires |incomes| >= 3
    ensures var p := IncomePrediction(incomes);
      && p.kind == IncomeForecast
      && 0.65 <= p.confidence <= 0.85
      && (|incomes| >= 7 ==> p.confidence == 0.85)
      && (p.impact == Positive <==> IncomeTrend(incomes) > 0.0)
      && p.prediction == IncomeMean(incomes) + 6.0 * IncomeTrend(incomes)
      && |p.dataPoints| == 6
      && p.dataPoints[0] == incomes[|incomes| - 1].amount + IncomeTrend(incomes)
  {
    var p := IncomePrediction(incomes);
    var n := |incomes| as real;
    assert 0.5 + n / 20.0 >= 0.65;
    if |incomes| >= 7 {
      assert 0.5 + n / 20.0 >= 0.85;
    }
  }

  function IncomePart(ts: seq<Transaction>): seq<Prediction> {
    var incomes := Keep(ts, IsIncome);
    if |incomes| >= 3 then [IncomePrediction(incomes)] else []
  }

  /** `max(0.3, 0.9 − volatility)`: 0.9 less a finite volatility, never
      below the floor of 0.3, which a +Infinity volatility also gives. */
  function ExpenseConfidence(volatility: Quotient): (c: real)
    ensures c >= 0.3
    ensures volatility.Finite? && volatility.value <= 0.6 ==> c == 0.9 - volatility.value
    ensures volatility.Finite? && volatility.value >= 0.6 ==> c == 0.3
    ensures volatility == Infinite(true) ==> c == 0.3
  {
    if volatility.Finite? then Max(0.3, 0.9 - volatility.value) else 0.3
  }

  /** The forecast record of one budget category, given its mean, its
      volatility and the seasonal factor. */
  function ExpenseRecord(c: CategoryRef, avg: real, volatility: Quotient, factor: real): Prediction {
    var predicted := avg * factor;
    Prediction("expense-" + c.id, ExpenseForecast, predicted, ExpenseConfidence(volatility), c.name,
      if predicted > avg then Negative else Positive,
      ExpenseRecommendations(predicted, avg, volatility), [])
  }

  /** The forecast of one budget category from its expenses: the mean scaled
      by the seasonal factor of the current month. */
  function ExpensePrediction(cts: seq<Transaction>, c: CategoryRef, env: Environment): Prediction
    requires |cts| >= 2
  {
    var expenses := Amounts(cts);
    var avg := Mean(expenses);
    ExpenseRecord(c, avg, Volatility(env.sqrt(Variance(expenses)), avg),
      SeasonalFactor(cts, env.monthOf, env.currentMonth))
  }

  /** The forecasts one category contributes: one when it has at least two
      expenses, none otherwise. */
  function CategoryPart(ts: seq<Transaction>, c: CategoryRef, env: Environment): seq<Prediction> {
    var cts := Keep(ts, t => InCategory(c, t));
    if |cts| >= 2 then [ExpensePrediction(cts, c, env)] else []
  }

  function CategoryPredictions(ts: seq<Transaction>, cats: seq<CategoryRef>, env: Environment): seq<Prediction> {
    if cats == [] then []
    else
      CategoryPredictions(ts, cats[..|cats| - 1], env) + CategoryPart(ts, cats[|cats| - 1], env)
  }

  /** The balance forecast: today's balance plus the monthly net over the horizon. */
  function BalancePrediction(ts: seq<Transaction>, env: Environment): Prediction {
    var totalIncome := TotalIncome(ts);
    var totalExpenses := TotalExpenses(ts);
    var current := totalIncome - totalExpenses;
    var span := MaxInt(1, env.monthsSpan) as real;
    var monthlyIncome := totalIncome / span;
    var monthlyExpenses := totalExpenses / span;
    BalanceRecord(current, monthlyIncome, monthlyExpenses, TimeHorizonMonths(env.horizon),
      BalanceProjection(current, monthlyIncome, monthlyExpenses, 6))
  }

  /** The balance forecast record: the monthly net carried over the horizon. */
  function BalanceRecord(current: real, monthlyIncome: real, monthlyExpenses: real, months: nat, points: seq<real>): Prediction {
    var future := current + (monthlyIncome - monthlyExpenses) * months as real;
    Prediction("balance-prediction", BalanceForecast, future, 0.75, "balance",
      if future > current then Positive else Negative,
      [if future > current then ImprovingBalanceMessage else DegradingBalanceMessage, WatchVolatileMessage],
      points)
  }

  /** Every forecast in the order the component pushes them. */
  function Generated(ts: seq<Transaction>, cats: seq<CategoryRef>, env: Environment): seq<Prediction> {
    IncomePart(ts) + CategoryPredictions(ts, cats, env) + [BalancePrediction(ts, env)]
  }

  /** The income block of `generatePredictions`. */
  method PredictIncome(ts: seq<Transaction>) returns (part: seq<Prediction>)
    ensures part == IncomePart(ts)
  {
    part := [];
    var incomes := Keep(ts, IsIncome);
    if |incomes| >= 3 {
      var p := PredictFromIncomes(incomes);
      part := [p];
    }
  }

  /** The income forecast from at least three incomes: fit the trend, then
      extend the last income along it. */
  method PredictFromIncomes(incomes: seq<Transaction>) returns (p: Prediction)
    requires |incomes| >= 3
    ensures p == IncomePrediction(incomes)
  {
    var d := IndexPoints(Amounts(incomes));
    IndexDenominatorPositive(d);
    var avg := SumY(d) / |incomes| as real;
    var trend := LinearTrend(d);
    var points := GenerateFutureDataPoints(incomes[|incomes| - 1].amount, 6, trend);
    p := IncomeRecord(incomes, avg, trend, points);
  }

  /** The forecast of one category with enough expenses, computing the
      seasonal factor with its counting loops. */
  method PredictExpense(cts: seq<Transaction>, c: CategoryRef, env: Environment) returns (p: Prediction)
    requires |cts| >= 2
    ensures p == ExpensePrediction(cts, c, env)
  {
    var expenses := Amounts(cts);
    var avg := Mean(expenses);
    var volatility := Volatility(env.sqrt(Variance(expenses)), avg);
    var factor := CalculateSeasonalFactor(cts, env.monthOf, env.currentMonth);
    p := ExpenseRecord(c, avg, volatility, factor);
  }

  /** The body of the `budgetCategories.forEach` for one category. */
  method PredictCategory(ts: seq<Transaction>, c: CategoryRef, env: Environment) returns (part: seq<Prediction>)
    ensures part == CategoryPart(ts, c, env)
  {
    part := [];
    var cts := Keep(ts, t => InCategory(c, t));
    if |cts| >= 2 {
      var p := PredictExpense(cts, c, env);
      part := [p];
    }
  }

  lemma CategoryPredictionsStep(ts: seq<Transaction>, cats: seq<CategoryRef>, i: nat, env: Environment)
    requires i < |cats|
    ensures CategoryPredictions(ts, cats[..i + 1], env) == CategoryPredictions(ts, cats[..i], env) + CategoryPart(ts, cats[i], env)
  {
    assert cats[..i + 1][..i] == cats[..i];
  }

  lemma AppendAssociative<T>(a: seq<T>, b: seq<T>, c: seq<T>)
    ensures a + b + c == a + (b + c)
  {
  }

  /** The balance block of `generatePredictions`. */
  method PredictBalance(ts: seq<Transaction>, env: Environment) returns (p: Prediction)
    ensures p == BalancePrediction(ts, env)
  {
    var totalIncome := TotalIncome(ts);
    var totalExpenses := TotalExpenses(ts);
    var current := totalIncome - totalExpenses;
    var span := MaxInt(1, env.monthsSpan) as real;
    var monthlyIncome := totalIncome / span;
    var monthlyExpenses := totalExpenses / span;
    var points := GenerateBalanceProjection(current, monthlyIncome, monthlyExpenses, 6);
    p := BalanceRecord(current, monthlyIncome, monthlyExpenses, TimeHorizonMonths(env.horizon), points);
  }

  /** `generatePredictions`: push the income forecast, one forecast per
      category with enough expenses, and the balance forecast, then rank by
      confidence (a stable sort). */
  method GeneratePredictions(ts: seq<Transaction>, cats: seq<CategoryRef>, env: Environment)
    returns (predictions: seq<Prediction>)
    ensures predictions == SortDesc(Generated(ts, cats, env), Confidence)
  {
    var generated := PushPredictions(ts, cats, env);
    predictions := SortDesc(generated, Confidence);
  }

  /** The pushes of `generatePredictions`, in order. */
  method PushPredictions(ts: seq<Transaction>, cats: seq<CategoryRef>, env: Environment)
    returns (generated: seq<Prediction>)
    ensures generated == Generated(ts, cats, env)
  {
    var income := PredictIncome(ts);
    generated := income;
    var i := 0;
    while i < |cats|
      invariant 0 <= i <= |cats|
      invariant generated == income + CategoryPredictions(ts, cats[..i], env)
    {
      CategoryPredictionsStep(ts, cats, i, env);
      var part := PredictCategory(ts, cats[i], env);
      AppendAssociative(income, CategoryPredictions(ts, cats[..i], env), part);
      generated := generated + part;
      i := i + 1;
    }
    assert cats[..i] == cats;
    var balance := PredictBalance(ts, env);
    generated := generated + [balance];
  }

  // ---------------------------------------------------------------------
  // Properties of the forecast list

  /** A category forecast is an expense forecast, and its confidence is never
      below 0.3; its impact is negative exactly when the seasonal prediction
      exceeds the mean. */
  lemma ExpensePredictionShape(cts: seq<Transaction>, c: CategoryRef, env: Environment)
    requires |cts| >= 2
    ensures var p := ExpensePrediction(cts, c, env);
      && p.kind == ExpenseForecast
      && p.confidence >= 0.3
      && p.id == "expense-" + c.id
      && (p.impact == Negative <==> p.prediction > Mean(Amounts(cts)))
  {
    var expenses := Amounts(cts);
    var avg := Mean(expenses);
    ExpenseRecordShape(c, avg, Volatility(env.sqrt(Variance(expenses)), avg),
      SeasonalFactor(cts, env.monthOf, env.currentMonth));
  }

  lemma ExpenseRecordShape(c: CategoryRef, avg: real, volatility: Quotient, factor: real)
    ensures var p := ExpenseRecord(c, avg, volatility, factor);
      && p.kind == ExpenseForecast
      && p.confidence >= 0.3
      && p.id == "expense-" + c.id
      && (p.impact == Negative <==> p.prediction > avg)
  {
  }

  /** Each category contributes at most one forecast, and every one of them
      is an expense forecast with confidence at least 0.3. */
  lemma {:induction false} CategoryPredictionsShape(ts: seq<Transaction>, cats: seq<CategoryRef>, env: Environment)
    ensures var ps := CategoryPredictions(ts, cats, env);
      && |ps| <= |cats|
      && forall i :: 0 <= i < |ps| ==> ps[i].kind == ExpenseForecast && ps[i].confidence >= 0.3
  {
    if cats != [] {
      var init := cats[..|cats| - 1];
      CategoryPredictionsShape(ts, init, env);
      CategoryPartShape(ts, cats[|cats| - 1], env);
      assert CategoryPredictions(ts, cats, env)
          == CategoryPredictions(ts, init, env) + CategoryPart(ts, cats[|cats| - 1], env);
    }
  }

  lemma CategoryPartShape(ts: seq<Transaction>, c: CategoryRef, env: Environment)
    ensures var part := CategoryPart(ts, c, env);
      && |part| <= 1
      && forall i :: 0 <= i < |part| ==> part[i].kind == ExpenseForecast && part[i].confidence >= 0.3
  {
    var cts := Keep(ts, t => InCategory(c, t));
    if |cts| >= 2 {
      ExpensePredictionShape(cts, c, env);
    }
  }

  /** The list assembled from an optional income forecast, expense forecasts
      and a balance forecast keeps each kind in its place. */
  lemma AssembledShape(head: seq<Prediction>, ps: seq<Prediction>, b: Prediction)
    requires |head| <= 1 && forall i :: 0 <= i < |head| ==> head[i].kind == IncomeForecast && head[i].confidence >= 0.3
    requires forall i :: 0 <= i < |ps| ==> ps[i].kind == ExpenseForecast && ps[i].confidence >= 0.3
    requires b.kind == BalanceForecast && b.confidence >= 0.3
    ensures var g := head + ps + [b];
      && (forall i :: 0 <= i < |g| - 1 ==> g[i].kind != BalanceForecast)
      && (g[0].kind == IncomeForecast <==> |head| == 1)
      && (forall i :: 1 <= i < |g| ==> g[i].kind != IncomeForecast)
      && (forall i :: 0 <= i < |g| ==> g[i].confidence >= 0.3)
  {
    var g := head + ps + [b];
    forall i | 0 <= i < |g| ensures g[i].confidence >= 0.3 && (i < |g| - 1 ==> g[i].kind != BalanceForecast) {
      if i >= |head| && i < |head| + |ps| {
        assert g[i] == ps[i - |head|];
      }
    }
    forall i | 1 <= i < |g| ensures g[i].kind != IncomeForecast {
      if i < |head| + |ps| {
        assert g[i] == ps[i - |head|];
      }
    }
    if |head| == 0 && |ps| > 0 {
      assert g[0] == ps[0];
    }
  }

  /** Before ranking: the income forecast comes first when there are at least
      three incomes and is absent otherwise, the balance forecast is last and
      is the only one of its kind, and no confidence is below 0.3. */
  lemma GeneratedShape(ts: seq<Transaction>, cats: seq<CategoryRef>, env: Environment)
    ensures var g := Generated(ts, cats, env);
      && |g| >= 1
      && g[|g| - 1] == BalancePrediction(ts, env)
      && g[|g| - 1].kind == BalanceForecast && g[|g| - 1].confidence == 0.75
      && (forall i :: 0 <= i < |g| - 1 ==> g[i].kind != BalanceForecast)
      && (g[0].kind == IncomeForecast <==> CountIf(ts, IsIncome) >= 3)
      && (forall i :: 1 <= i < |g| ==> g[i].kind != IncomeForecast)
      && (forall i :: 0 <= i < |g| ==> g[i].confidence >= 0.3)
  {
    var incomes := Keep(ts, IsIncome);
    CategoryPredictionsShape(ts, cats, env);
    if |incomes| >= 3 {
      IncomePredictionShape(incomes);
    }
    AssembledShape(IncomePart(ts), CategoryPredictions(ts, cats, env), BalancePrediction(ts, env));
  }

  /** The returned list is the generated one ranked by confidence: ordered,
      a permutation, stable among equal confidences, and it still holds the
      balance forecast. */
  lemma PredictionsRanked(ts: seq<Transaction>, cats: seq<CategoryRef>, env: Environment, v: real)
    ensures var g := Generated(ts, cats, env);
      var r := SortDesc(g, Confidence);
      && NonIncreasing(r, Confidence)
      && multiset(r) == multiset(g)
      && WithKey(r, Confidence, v) == WithKey(g, Confidence, v)
      && BalancePrediction(ts, env) in r
  {
    var g := Generated(ts, cats, env);
    SortDescOrdered(g, Confidence);
    SortDescStable(g, Confidence, v);
    GeneratedShape(ts, cats, env);
    assert g[|g| - 1] in multiset(g);
    assert BalancePrediction(ts, env) in multiset(SortDesc(g, Confidence));
  }
}
