/** Single-product daily forecasting and the restock suggestion built on it
    (machine-learning/services/predict_product_arima.py). */
module ProductForecast {
  import opened Numbers
  import opened Calendar
  import opened Sales
  import opened TimeSeries

  // ---------------------------------------------------------------------
  // The product's daily sales
  // ---------------------------------------------------------------------

  /** Units sold on one day. */
  datatype Sale = Sale(day: int, qty: real)

  /** The rows of one product that have a parseable date, as day-numbered sales. */
  function ProductSales(rows: seq<SalesRecord>, productId: int): (r: seq<Sale>)
    ensures |r| <= |rows|
    decreases |rows|
  {
    if |rows| == 0 then []
    else
      var rest := ProductSales(rows[..|rows| - 1], productId);
      var row := rows[|rows| - 1];
      if row.productId == productId && row.flexDate.Some?
      then rest + [Sale(DayNumber(row.flexDate.value), row.qty)]
      else rest
  }

  /** A sale lies in ProductSales exactly when it comes from a matching dated row. */
  lemma {:induction false} ProductSalesMembers(rows: seq<SalesRecord>, productId: int, s: Sale)
    ensures s in ProductSales(rows, productId) <==>
      exists i :: 0 <= i < |rows| && rows[i].productId == productId && rows[i].flexDate.Some?
        && s == Sale(DayNumber(rows[i].flexDate.value), rows[i].qty)
    decreases |rows|
  {
    if |rows| > 0 {
      var n := |rows| - 1;
      ProductSalesMembers(rows[..n], productId, s);
      assert forall i :: 0 <= i < n ==> rows[..n][i] == rows[i];
    }
  }

  /** Total units sold on day d (groupby('transaction_date').sum()). */
  function DaySum(sales: seq<Sale>, d: int): real
    decreases |sales|
  {
    if |sales| == 0 then 0.0
    else DaySum(sales[..|sales| - 1], d) + (if sales[|sales| - 1].day == d then sales[|sales| - 1].qty else 0.0)
  }

  /** Total units sold (daily_sales.sum()). */
  function TotalSales(sales: seq<Sale>): real
    decreases |sales|
  {
    if |sales| == 0 then 0.0 else TotalSales(sales[..|sales| - 1]) + sales[|sales| - 1].qty
  }

  function FirstDay(sales: seq<Sale>): (r: int)
    requires |sales| > 0
    ensures forall i :: 0 <= i < |sales| ==> r <= sales[i].day
    ensures exists i :: 0 <= i < |sales| && sales[i].day == r
    decreases |sales|
  {
    if |sales| == 1 then sales[0].day
    else
      var rest := FirstDay(sales[..|sales| - 1]);
      assert forall i :: 0 <= i < |sales| - 1 ==> sales[..|sales| - 1][i] == sales[i];
      MinI(rest, sales[|sales| - 1].day)
  }

  function LastDay(sales: seq<Sale>): (r: int)
    requires |sales| > 0
    ensures forall i :: 0 <= i < |sales| ==> sales[i].day <= r
    ensures exists i :: 0 <= i < |sales| && sales[i].day == r
    decreases |sales|
  {
    if |sales| == 1 then sales[0].day
    else
      var rest := LastDay(sales[..|sales| - 1]);
      assert forall i :: 0 <= i < |sales| - 1 ==> sales[..|sales| - 1][i] == sales[i];
      MaxI(rest, sales[|sales| - 1].day)
  }

  /** daily_sales.reindex(date_range(min, max, freq='D'), fill_value=0): one
      entry per calendar day from the first sale to the last. */
  function GapFilled(sales: seq<Sale>): (r: seq<real>)
    requires |sales| > 0
    ensures |r| == LastDay(sales) - FirstDay(sales) + 1
  {
    seq(LastDay(sales) - FirstDay(sales) + 1, i => DaySum(sales, FirstDay(sales) + i))
  }

  /** The largest daily total among the days with sales (daily_sales.max()
      before gap filling). */
  function MaxDaily(sales: seq<Sale>): (r: real)
    requires |sales| > 0
    ensures forall i :: 0 <= i < |sales| ==> DaySum(sales, sales[i].day) <= r
    ensures exists i :: 0 <= i < |sales| && r == DaySum(sales, sales[i].day)
  {
    MaxDailyUpTo(sales, |sales|)
  }

  function MaxDailyUpTo(sales: seq<Sale>, k: nat): (r: real)
    requires 0 < k <= |sales|
    ensures forall i :: 0 <= i < k ==> DaySum(sales, sales[i].day) <= r
    ensures exists i :: 0 <= i < k && r == DaySum(sales, sales[i].day)
  {
    if k == 1 then DaySum(sales, sales[0].day)
    else MaxR(MaxDailyUpTo(sales, k - 1), DaySum(sales, sales[k - 1].day))
  }

  /** Number of days with positive sales ((daily_sales > 0).sum()). */
  function CountPositive(s: seq<real>): (r: nat)
    ensures r <= |s|
    decreases |s|
  {
    if |s| == 0 then 0 else CountPositive(s[..|s| - 1]) + (if s[|s| - 1] > 0.0 then 1 else 0)
  }

  /** A day outside the sales' days has no units sold. */
  lemma {:induction false} DaySumOfAbsentDay(sales: seq<Sale>, d: int)
    requires forall i :: 0 <= i < |sales| ==> sales[i].day != d
    ensures DaySum(sales, d) == 0.0
    decreases |sales|
  {
    if |sales| > 0 {
      DaySumOfAbsentDay(sales[..|sales| - 1], d);
    }
  }

  /** Gap filling puts each day's total at its offset from the first day,
      and zero on the days without sales. */
  lemma GapFilledEntries(sales: seq<Sale>, i: nat)
    requires |sales| > 0 && i < |GapFilled(sales)|
    ensures GapFilled(sales)[i] == DaySum(sales, FirstDay(sales) + i)
    ensures (forall j :: 0 <= j < |sales| ==> sales[j].day != FirstDay(sales) + i) ==> GapFilled(sales)[i] == 0.0
  {
    if forall j :: 0 <= j < |sales| ==> sales[j].day != FirstDay(sales) + i {
      DaySumOfAbsentDay(sales, FirstDay(sales) + i);
    }
  }

  /** A sequence that is zero except for q at one position sums to q. */
  lemma {:induction false} SumOfSingleSpike(lo: int, n: nat, x: int, q: real)
    requires lo <= x < lo + n
    ensures Sum(seq(n, i => if lo + i == x then q else 0.0)) == q
    decreases n
  {
    var s := seq(n, i => if lo + i == x then q else 0.0);
    var s' := seq(n - 1, i => if lo + i == x then q else 0.0);
    assert s[..n - 1] == s';
    if x < lo + n - 1 {
      SumOfSingleSpike(lo, n - 1, x, q);
    } else {
      SumLowerBound(s', 0.0);
      SumUpperBound(s', 0.0);
    }
  }

  /** Summing the daily totals over any day range that covers every sale
      gives the total units sold. */
  lemma {:induction false} RangeSumIsTotal(sales: seq<Sale>, lo: int, n: nat)
    requires forall j :: 0 <= j < |sales| ==> lo <= sales[j].day < lo + n
    ensures Sum(seq(n, i => DaySum(sales, lo + i))) == TotalSales(sales)
    decreases |sales|
  {
    var all := seq(n, i => DaySum(sales, lo + i));
    if |sales| == 0 {
      forall i | 0 <= i < n
        ensures all[i] == 0.0
      {
        assert all[i] == DaySum(sales, lo + i);
      }
      SumLowerBound(all, 0.0);
      SumUpperBound(all, 0.0);
    } else {
      var m := |sales| - 1;
      var rest := sales[..m];
      var last := sales[m];
      var restSums := seq(n, i => DaySum(rest, lo + i));
      var spike := seq(n, i => if lo + i == last.day then last.qty else 0.0);
      RangeSumIsTotal(rest, lo, n);
      SumOfSingleSpike(lo, n, last.day, last.qty);
      assert sales[..|sales| - 1] == rest;
      forall i | 0 <= i < n
        ensures all[i] == restSums[i] + spike[i]
      {
        assert all[i] == DaySum(sales, lo + i);
        assert restSums[i] == DaySum(rest, lo + i);
      }
      SumPointwise(restSums, spike, all);
    }
  }

  /** The gap-filled series carries every unit sold. */
  lemma GapFilledSum(sales: seq<Sale>)
    requires |sales| > 0
    ensures Sum(GapFilled(sales)) == TotalSales(sales)
  {
    RangeSumIsTotal(sales, FirstDay(sales), LastDay(sales) - FirstDay(sales) + 1);
  }

  // ---------------------------------------------------------------------
  // Order search (fit_arima_model)
  // ---------------------------------------------------------------------

  /** Whether the search differences the series: the series is judged
      non-stationary and differencing leaves at least 3 points. */
  predicate Differenced(engine: Engine, ts: seq<real>) {
    !engine.isStationary(ts) && |MakeStationary(ts)| >= 3
  }

  /** The series the candidate models are fitted to. */
  function SearchSeries(engine: Engine, ts: seq<real>): seq<real> {
    if Differenced(engine, ts) then MakeStationary(ts) else ts
  }

  /** The candidate orders for a fitted series of n points with differencing d. */
  function CandidateOrders(n: nat, d: nat): seq<Order> {
    if n < 12 then [Order(0, d, 0), Order(1, d, 0), Order(0, d, 1), Order(1, d, 1), Order(2, d, 0), Order(0, d, 2)]
    else seq(9, i requires 0 <= i => Order(i / 3, d, i % 3))
  }

  /** The model fit_arima_model returns for ts. */
  function ProductFit(engine: Engine, ts: seq<real>): Option<FittedModel> {
    if |ts| < 6 then None
    else
      var s := SearchSeries(engine, ts);
      BestFit(engine, s, CandidateOrders(|s|, if Differenced(engine, ts) then 1 else 0))
  }

  /** Short series get exactly the six listed orders; longer ones the nine
      orders with p and q in 0..2; every candidate carries the search's d. */
  lemma CandidateOrdersShape(n: nat, d: nat)
    ensures var c := CandidateOrders(n, d);
      && (n < 12 ==> |c| == 6)
      && (n >= 12 ==> |c| == 9 && forall p, q :: 0 <= p <= 2 && 0 <= q <= 2 ==> c[3 * p + q] == Order(p, d, q))
      && (forall i :: 0 <= i < |c| ==> c[i].d == d && c[i].p <= 2 && c[i].q <= 2)
      && (forall i, j :: 0 <= i < j < |c| ==> c[i] != c[j])
  {
    var c := CandidateOrders(n, d);
    if n >= 12 {
      forall p, q | 0 <= p <= 2 && 0 <= q <= 2
        ensures c[3 * p + q] == Order(p, d, q)
      {
        assert (3 * p + q) / 3 == p && (3 * p + q) % 3 == q;
      }
      forall i, j | 0 <= i < j < 9
        ensures c[i] != c[j]
      {
        assert i == 3 * (i / 3) + i % 3 && j == 3 * (j / 3) + j % 3;
      }
    }
  }

  /** With at least 6 points, d = 1 exactly when the series is judged
      non-stationary, and then the differenced series is searched. */
  lemma DifferencingRule(engine: Engine, ts: seq<real>)
    requires |ts| >= 6
    ensures Differenced(engine, ts) <==> !engine.isStationary(ts)
    ensures SearchSeries(engine, ts) == if engine.isStationary(ts) then ts else Diff(ts)
  {
  }

  /** The candidate (p, d, q) orders, shortest series first: the six-order
      list, or the nested loops over p and q in 0..2. */
  method CandidateGrid(n: nat, d: nat) returns (combos: seq<Order>)
    ensures combos == CandidateOrders(n, d)
  {
    if n < 12 {
      combos := [Order(0, d, 0), Order(1, d, 0), Order(0, d, 1), Order(1, d, 1), Order(2, d, 0), Order(0, d, 2)];
    } else {
      combos := [];
      for p := 0 to 3
        invariant combos == seq(3 * p, i requires 0 <= i => Order(i / 3, d, i % 3))
      {
        for q := 0 to 3
          invariant combos == seq(3 * p + q, i requires 0 <= i => Order(i / 3, d, i % 3))
        {
          combos := combos + [Order(p, d, q)];
        }
      }
    }
  }

  /** The loop over the candidate orders, keeping the first fit of lowest AIC. */
  method SearchOrders(engine: Engine, series: seq<real>, combos: seq<Order>)
    returns (bestModel: Option<FittedModel>, bestParams: Option<Order>)
    ensures bestModel == BestFit(engine, series, combos)
    ensures bestParams == if bestModel.Some? then Some(bestModel.value.order) else None
  {
    var bestAic := 0.0;
    bestModel, bestParams := None, None;
    for k := 0 to |combos|
      invariant bestModel == BestFit(engine, series, combos[..k])
      invariant bestModel.Some? ==> bestAic == bestModel.value.aic
      invariant bestParams == if bestModel.Some? then Some(bestModel.value.order) else None
    {
      BestFitStep(engine, series, combos, k);
      var fit := engine.aic(series, combos[k]);
      if fit.Some? && (bestModel.None? || fit.value < bestAic) {
        bestAic := fit.value;
        bestModel := Some(FittedModel(series, combos[k], fit.value));
        bestParams := Some(combos[k]);
      }
    }
    assert combos[..|combos|] == combos;
  }

  /** fit_arima_model: returns the kept model, its order, and the original
      series (all None below 6 points). */
  method FitArimaModel(engine: Engine, ts: seq<real>)
    returns (bestModel: Option<FittedModel>, bestParams: Option<Order>, originalTs: Option<seq<real>>)
    ensures bestModel == ProductFit(engine, ts)
    ensures bestParams == if bestModel.Some? then Some(bestModel.value.order) else None
    ensures originalTs == if |ts| < 6 then None else Some(ts)
  {
    if |ts| < 6 {
      return None, None, None;
    }
    var original := ts;
    var series := ts;
    var d: nat := 0;
    if !engine.isStationary(series) {
      var tsDiff := MakeStationary(series);
      if |tsDiff| >= 3 {
        series := tsDiff;
        d := 1;
      }
    }
    assert series == SearchSeries(engine, ts) && d == if Differenced(engine, ts) then 1 else 0;

    var combos := CandidateGrid(|series|, d);
    bestModel, bestParams := SearchOrders(engine, series, combos);
    originalTs := Some(original);
  }

  // ---------------------------------------------------------------------
  // forecast_product_sales
  // ---------------------------------------------------------------------

  datatype ForecastResult = ForecastResult(
    demand: seq<real>,          // 'forecast_demand'
    kind: ForecastMethod,       // 'method'
    params: Option<Order>,
    avgDailyDemand: real,
    maxDailyDemand: real,
    forecastStd: Option<real>,  // present for ARIMA forecasts only
    confidence: int)            // 'confidence_score'

  /** The transaction-frequency estimate: transactions per day times the
      average sale per transaction, which is the total spread over the span. */
  function FrequencyEstimate(transactions: nat, days: nat, total: real): (r: real)
    requires transactions > 0 && days > 0
    ensures r == total / days as real
  {
    var rate := transactions as real / days as real;
    var perTransaction := total / transactions as real;
    rate * perTransaction
  }

  /** The 'intelligent_average' estimate for short series: the average per
      active day, raised to the transaction-frequency estimate. */
  function IntelligentEstimate(series: seq<real>, total: real, transactions: nat): real
    requires |series| > 0
  {
    var active := CountPositive(series);
    var avg := if active > 0 then total / active as real else Mean(series);
    if transactions > 0 then MaxR(avg, FrequencyEstimate(transactions, |series|, total))
    else avg
  }

  /** The intelligent average is max(total / active days, total / span), or
      total / span when no day had positive sales. */
  lemma IntelligentEstimateClosedForm(sales: seq<Sale>)
    requires |sales| > 0
    ensures var series := GapFilled(sales);
      var total := TotalSales(sales);
      var active := CountPositive(series);
      IntelligentEstimate(series, total, |sales|) ==
        if active > 0 then MaxR(total / active as real, total / |series| as real) else total / |series| as real
  {
    GapFilledSum(sales);
  }

  /** The last min(30, n) days of the series (daily_sales.tail(min(30, n))). */
  function Recent(series: seq<real>): (r: seq<real>)
    ensures |r| == MinI(30, |series|)
    ensures forall i :: 0 <= i < |r| ==> r[i] == series[|series| - |r| + i]
    ensures |series| <= 30 ==> r == series
  {
    series[|series| - MinI(30, |series|)..]
  }

  /** What forecast_product_sales returns for a product with at least three
      dated transactions. */
  ghost predicate IsProductForecast(engine: Engine, sales: seq<Sale>, daysAhead: nat, f: ForecastResult)
    requires |sales| > 0 && daysAhead > 0
  {
    var series := GapFilled(sales);
    var n := |series|;
    var fit := ProductFit(engine, series);
    var arima := n >= 6 && fit.Some? && !engine.forecastFails(fit.value);
    && |f.demand| == daysAhead
    && (forall i :: 0 <= i < daysAhead ==> 0.0 <= f.demand[i])
    && f.maxDailyDemand == MaxDaily(sales)
    && (f.kind == Arima <==> arima)
    && (arima ==>
          && (forall i :: 0 <= i < daysAhead ==> f.demand[i] == MaxR(0.0, engine.forecastStep(fit.value, i)))
          && f.avgDailyDemand == Mean(f.demand)
          && f.params == Some(fit.value.order)
          && f.forecastStd == Some(if daysAhead > 1 then engine.std(f.demand) else 0.0)
          && f.confidence == 85)
    && (!arima ==>
          && (forall i :: 0 <= i < daysAhead ==> f.demand[i] == MaxR(0.0, f.avgDailyDemand))
          && f.params.None?
          && f.forecastStd.None?)
    && (!arima && n >= 7 ==>
          f.kind == WeightedAverage && f.avgDailyDemand == Mean(Recent(series)) && f.confidence == 70)
    && (!arima && n == 6 ==>
          f.kind == MovingAverage && f.avgDailyDemand == Mean(series) && f.confidence == 68)
    && (n < 6 ==>
          f.kind == IntelligentAverage && f.confidence == 65
          && f.avgDailyDemand == IntelligentEstimate(series, TotalSales(sales), |sales|))
  }

  /** The averaging fallback for a series of at least six days: the mean of
      the last min(30, n) days from seven days on, the mean of all six days
      otherwise, repeated (floored at zero) over the horizon. */
  method DailyFallback(dailySales: seq<real>, daysAhead: nat, maxDaily: real) returns (f: ForecastResult)
    requires |dailySales| >= 6
    ensures |f.demand| == daysAhead && f.maxDailyDemand == maxDaily
    ensures forall i :: 0 <= i < daysAhead ==> f.demand[i] == MaxR(0.0, f.avgDailyDemand)
    ensures f.params.None? && f.forecastStd.None?
    ensures |dailySales| >= 7 ==>
      f.kind == WeightedAverage && f.avgDailyDemand == Mean(Recent(dailySales)) && f.confidence == 70
    ensures |dailySales| == 6 ==>
      f.kind == MovingAverage && f.avgDailyDemand == Mean(dailySales) && f.confidence == 68
  {
    var n := |dailySales|;
    var avgDaily: real;
    var kind: ForecastMethod;
    var confidence: int;
    if n >= 7 {
      var recentData := dailySales[n - MinI(30, n)..];
      avgDaily := Mean(recentData);
      kind := WeightedAverage;
      confidence := 70;
    } else {
      avgDaily := Mean(dailySales);
      kind := MovingAverage;
      confidence := 68;
    }
    var forecast := Constant(MaxR(0.0, avgDaily), daysAhead);
    f := ForecastResult(forecast, kind, None, avgDaily, maxDaily, None, confidence);
  }

  /** forecast_product_sales: None for fewer than 3 dated transactions,
      otherwise an ARIMA forecast or one of the averaging fallbacks. */
  method ForecastProductSales(engine: Engine, rows: seq<SalesRecord>, productId: int, daysAhead: nat)
    returns (r: Option<ForecastResult>)
    requires daysAhead > 0
    ensures r.None? <==> |ProductSales(rows, productId)| < 3
    ensures r.Some? ==> IsProductForecast(engine, ProductSales(rows, productId), daysAhead, r.value)
  {
    var productData := ProductSales(rows, productId);
    if |productData| < 3 {
      return None;
    }
    var f;
    if |GapFilled(productData)| >= 6 {
      f := LongSeriesForecast(engine, productData, daysAhead);
    } else {
      f := ShortSeriesForecast(productData, daysAhead);
    }
    return Some(f);
  }

  /** A daily series of at least six days: the ARIMA forecast when a model
      fits and forecasts, otherwise the averaging fallback. */
  method LongSeriesForecast(engine: Engine, productData: seq<Sale>, daysAhead: nat) returns (f: ForecastResult)
    requires |productData| > 0 && daysAhead > 0 && |GapFilled(productData)| >= 6
    ensures IsProductForecast(engine, productData, daysAhead, f)
  {
    var maxDaily := MaxDaily(productData);
    var dailySales := GapFilled(productData);
    var model, params, originalTs := FitArimaModel(engine, dailySales);
    if model.Some? && !engine.forecastFails(model.value) {
      var raw := Forecast(engine, model.value, daysAhead);
      var forecast := seq(daysAhead, i requires 0 <= i < daysAhead => MaxR(0.0, raw[i]));
      var avgDailyDemand := Mean(forecast);
      var forecastStd := if |forecast| > 1 then engine.std(forecast) else 0.0;
      f := ForecastResult(forecast, Arima, params, avgDailyDemand, maxDaily, Some(forecastStd), 85);
    } else {
      f := DailyFallback(dailySales, daysAhead, maxDaily);
    }
  }

  /** A daily series of fewer than six days: the intelligent average. */
  method ShortSeriesForecast(productData: seq<Sale>, daysAhead: nat) returns (f: ForecastResult)
    requires |productData| > 0 && daysAhead > 0 && |GapFilled(productData)| < 6
    ensures forall engine: Engine :: IsProductForecast(engine, productData, daysAhead, f)
  {
    var maxDaily := MaxDaily(productData);
    var dailySales := GapFilled(productData);
    var avgDaily := IntelligentEstimate(dailySales, TotalSales(productData), |productData|);
    var forecast := Constant(MaxR(0.0, avgDaily), daysAhead);
    f := ForecastResult(forecast, IntelligentAverage, None, avgDaily, maxDaily, None, 65);
  }

  // ---------------------------------------------------------------------
  // calculate_restock_suggestion
  // ---------------------------------------------------------------------

  datatype Risk = Low | Medium | High

  datatype RestockSuggestion = RestockSuggestion(
    suggestedQuantity: int,
    daysUntilStockout: Option<int>,
    dailyDemand: real,
    maxDailyDemand: real,
    reorderPoint: int,
    safetyStock: int,
    optimalStock: int,
    maxReasonableStock: int,
    currentStock: int,
    overstockingRisk: Risk,
    understockingRisk: Risk)

  /** Days until the stock runs out at the average daily demand: None when
      there is no demand, 0 when there is no stock. */
  function DaysUntilDepletion(stock: int, avg: real): (r: Option<int>)
    ensures r.None? <==> avg <= 0.0
    ensures avg > 0.0 && stock <= 0 ==> r == Some(0)
    ensures avg > 0.0 && stock > 0 ==> r.Some? && r.value >= 1
  {
    if avg > 0.0 then Some(if stock > 0 then Ceil(stock as real / avg) else 0) else None
  }

  /** At a positive demand, a positive stock lasts more than d - 1 days and
      at most d days, where d is the number of days until depletion. */
  lemma DaysUntilDepletionBounds(stock: int, avg: real)
    requires avg > 0.0 && stock > 0
    ensures var d := DaysUntilDepletion(stock, avg).value;
      (d - 1) as real * avg < stock as real <= d as real * avg
  {
    var x := stock as real / avg;
    var d := Ceil(x);
    assert x * avg == stock as real;
    assert x <= d as real < x + 1.0;
    assert d as real * avg >= x * avg;
    assert (d - 1) as real * avg < x * avg;
  }

  /** The demand-variability buffer: 1.5 standard deviations capped at 30% of
      the average, or 20% of the average without a deviation. */
  function VariabilityBuffer(avg: real, std: real): (r: real)
    ensures std > 0.0 ==> r <= std * 1.5 && r <= avg * 0.3
    ensures std > 0.0 ==> (r == std * 1.5 || r == avg * 0.3)
    ensures std <= 0.0 ==> r == avg * 0.2
  {
    if std > 0.0 then MinR(std * 1.5, avg * 0.3) else avg * 0.2
  }

  /** Stock needed to cover the lead and safety days, buffer included. */
  function RequiredStock(avg: real, std: real, totalDays: int): real {
    avg * totalDays as real + VariabilityBuffer(avg, std) * totalDays as real
  }

  /** The overstocking cap: the maximum daily demand over the lead and safety
      days plus 60, but never below five times the reorder level. */
  function MaxReasonableStock(maxDaily: real, reorderLevel: int, totalDays: int): (r: real)
    ensures r >= (reorderLevel * 5) as real
    ensures r >= maxDaily * (totalDays + 60) as real
    ensures r == (reorderLevel * 5) as real || r == maxDaily * (totalDays + 60) as real
  {
    MaxR(maxDaily * (totalDays + 60) as real, (reorderLevel * 5) as real)
  }

  /** The understocking label. */
  function UnderstockingRisk(days: Option<int>, leadTimeDays: int, safetyDays: int): (r: Risk)
    ensures r == Low <==> days.Some? && days.value != 0 && days.value > leadTimeDays + safetyDays
    ensures r == High <==> days.Some? && days.value != 0 && days.value <= leadTimeDays
                           && !(days.value > leadTimeDays + safetyDays)
  {
    if days.Some? && days.value != 0 && days.value > leadTimeDays + safetyDays then Low
    else if days.Some? && days.value != 0 && days.value <= leadTimeDays then High
    else Medium
  }

  /** Whole units covering `days` days at the average daily demand, rounded up. */
  function CoverFor(avg: real, days: int): int {
    Ceil(avg * days as real)
  }

  /** What calculate_restock_suggestion promises of its result. */
  ghost predicate Suggests(f: ForecastResult, stock: int, reorderLevel: int, leadTimeDays: int, safetyDays: int,
                           s: RestockSuggestion)
  {
    var avg := f.avgDailyDemand;
    var totalDays := leadTimeDays + safetyDays;
    var required := RequiredStock(avg, f.forecastStd.GetOr(0.0), totalDays);
    var maxReasonable := MaxReasonableStock(f.maxDailyDemand, reorderLevel, totalDays);
    var days := DaysUntilDepletion(stock, avg);
    var nearDepletion := days.Some? && days.value != 0 && days.value <= leadTimeDays + 3;
    && 0 <= s.suggestedQuantity
    // below the requirement: the shortfall, capped at the room left under the
    // overstocking cap, but never less than the reorder level
    && (stock as real < required ==>
          && reorderLevel <= s.suggestedQuantity
          && s.suggestedQuantity == MaxI(reorderLevel, MinI(MaxI(0, Ceil(required - stock as real)),
                                                            MaxI(0, Trunc(maxReasonable - stock as real)))))
    // already covered: restock only when depletion is near
    && (required <= stock as real ==>
          s.suggestedQuantity == if nearDepletion then MaxI(reorderLevel, CoverFor(avg, leadTimeDays + 3)) else 0)
    && s.daysUntilStockout == days
    && s.optimalStock == stock + s.suggestedQuantity
    && (s.overstockingRisk == Low <==> s.optimalStock as real <= maxReasonable)
    && (s.overstockingRisk != Low ==> s.overstockingRisk == Medium)
    && s.understockingRisk == UnderstockingRisk(days, leadTimeDays, safetyDays)
    && s.maxReasonableStock == Trunc(maxReasonable)
    && s.dailyDemand == avg
    && s.maxDailyDemand == f.maxDailyDemand
    && s.reorderPoint == CoverFor(avg, totalDays)
    && s.safetyStock == CoverFor(avg, safetyDays)
    && s.currentStock == stock
  }

  /** The reassignments of suggested_quantity in calculate_restock_suggestion. */
  method SuggestedQuantity(requiredStock: real, currentStock: int, reorderLevel: int, maxReasonableStock: real,
                           daysUntilDepletion: Option<int>, avgDailyDemand: real, leadTimeDays: int)
    returns (suggestedQuantity: int)
    requires daysUntilDepletion == DaysUntilDepletion(currentStock, avgDailyDemand)
    ensures 0 <= suggestedQuantity
    ensures currentStock as real < requiredStock ==>
      suggestedQuantity == MaxI(reorderLevel, MinI(MaxI(0, Ceil(requiredStock - currentStock as real)),
                                                   MaxI(0, Trunc(maxReasonableStock - currentStock as real))))
    ensures requiredStock <= currentStock as real ==>
      suggestedQuantity ==
        if daysUntilDepletion.Some? && daysUntilDepletion.value != 0 && daysUntilDepletion.value <= leadTimeDays + 3
        then MaxI(reorderLevel, CoverFor(avgDailyDemand, leadTimeDays + 3))
        else 0
  {
    suggestedQuantity := MaxI(0, Ceil(requiredStock - currentStock as real));
    var maxRestock := maxReasonableStock - currentStock as real;
    if suggestedQuantity as real > maxRestock {
      suggestedQuantity := MaxI(0, Trunc(maxRestock));
    }
    CapIsMin(MaxI(0, Ceil(requiredStock - currentStock as real)), maxRestock);

    if suggestedQuantity < reorderLevel {
      suggestedQuantity := reorderLevel;
    }

    if currentStock as real >= requiredStock {
      if daysUntilDepletion.Some? && daysUntilDepletion.value != 0 && daysUntilDepletion.value <= leadTimeDays + 3 {
        NearDepletionDemandPositive(avgDailyDemand, leadTimeDays + 3);
        suggestedQuantity := MaxI(reorderLevel, CoverFor(avgDailyDemand, leadTimeDays + 3));
      } else {
        suggestedQuantity := 0;
      }
    }
  }

  /** calculate_restock_suggestion: None without a forecast. */
  method CalculateRestockSuggestion(forecastResult: Option<ForecastResult>, currentStock: int, reorderLevel: int,
                                    leadTimeDays: int, safetyDays: int)
    returns (r: Option<RestockSuggestion>)
    ensures r.None? <==> forecastResult.None?
    ensures r.Some? ==> Suggests(forecastResult.value, currentStock, reorderLevel, leadTimeDays, safetyDays, r.value)
  {
    if forecastResult.None? {
      return None;
    }
    var f := forecastResult.value;
    var avgDailyDemand := f.avgDailyDemand;
    var maxDailyDemand := f.maxDailyDemand;
    var forecastStd := f.forecastStd.GetOr(0.0);

    var daysUntilDepletion := DaysUntilDepletion(currentStock, avgDailyDemand);
    var totalDays := leadTimeDays + safetyDays;
    var requiredStock := RequiredStock(avgDailyDemand, forecastStd, totalDays);
    var maxReasonableStock := MaxReasonableStock(maxDailyDemand, reorderLevel, totalDays);
    var suggestedQuantity := SuggestedQuantity(requiredStock, currentStock, reorderLevel, maxReasonableStock,
                                               daysUntilDepletion, avgDailyDemand, leadTimeDays);
    var optimalStock := currentStock + suggestedQuantity;
    var overstocking := if optimalStock as real <= maxReasonableStock then Low else Medium;
    var understocking :=
      if daysUntilDepletion.Some? && daysUntilDepletion.value != 0 && daysUntilDepletion.value > totalDays then Low
      else if daysUntilDepletion.Some? && daysUntilDepletion.value != 0 && daysUntilDepletion.value <= leadTimeDays then High
      else Medium;
    r := Some(RestockSuggestion(
      suggestedQuantity, daysUntilDepletion, avgDailyDemand, maxDailyDemand,
      CoverFor(avgDailyDemand, totalDays), CoverFor(avgDailyDemand, safetyDays),
      optimalStock, Trunc(maxReasonableStock), currentStock, overstocking, understocking));
  }

  /** Capping a non-negative quantity q at max(0, int(room)) when it exceeds
      the room is taking the smaller of the two. */
  lemma CapIsMin(q: int, room: real)
    requires 0 <= q
    ensures (if q as real > room then MaxI(0, Trunc(room)) else q) == MinI(q, MaxI(0, Trunc(room)))
  {
  }

  lemma NearDepletionDemandPositive(avg: real, days: int)
    requires avg > 0.0 && days >= 1
    ensures Ceil(avg * days as real) >= 1
  {
    assert avg * days as real >= avg;
  }

  /** The restock suggestion's headline guarantees: never negative, at least
      the reorder level while stock is below the requirement, nothing extra
      when stock covers the requirement and depletion is not near, and a
      'low' overstocking risk exactly when the target stays under the cap. */
  lemma SuggestionGuarantees(f: ForecastResult, stock: int, reorderLevel: int, leadTimeDays: int, safetyDays: int,
                             s: RestockSuggestion)
    requires Suggests(f, stock, reorderLevel, leadTimeDays, safetyDays, s)
    ensures 0 <= s.suggestedQuantity
    ensures stock as real < RequiredStock(f.avgDailyDemand, f.forecastStd.GetOr(0.0), leadTimeDays + safetyDays)
            ==> reorderLevel <= s.suggestedQuantity
    ensures s.suggestedQuantity > 0 && RequiredStock(f.avgDailyDemand, f.forecastStd.GetOr(0.0), leadTimeDays + safetyDays) <= stock as real
            ==> f.avgDailyDemand > 0.0 && 0 < stock && s.daysUntilStockout.value <= leadTimeDays + 3
    ensures s.overstockingRisk == Low <==>
            (stock + s.suggestedQuantity) as real <= MaxReasonableStock(f.maxDailyDemand, reorderLevel, leadTimeDays + safetyDays)
  {
  }
}
