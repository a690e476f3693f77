/** Per-product monthly forecasting for the restock plan
    (machine-learning/services/arima_restock_prediction.py): the restock
    quantity formula, the 16-order ARIMA search, the forecast with its
    fallbacks, and the zero-filled monthly history it is fed. */
module RestockPlan {
  import opened Numbers
  import opened Calendar
  import opened Sales
  import opened TimeSeries

  // ---------------------------------------------------------------------
  // calculate_restock_quantity
  // ---------------------------------------------------------------------

  /** Units needed to cover the lead and safety days when the forecast's
      average monthly demand is spread over 30 days. */
  function CoverNeeded(forecast: seq<real>, leadTimeDays: int, safetyDays: int): real
    requires |forecast| > 0
  {
    Mean(forecast) / 30.0 * (leadTimeDays + safetyDays) as real
  }

  /** calculate_restock_quantity: the shortfall against the cover needed,
      rounded up; the reorder level is accepted and not used. An empty
      forecast has a NaN mean, and max(0, NaN) keeps the 0. */
  function RestockQuantity(forecast: seq<real>, currentStock: int, reorderLevel: int,
                           leadTimeDays: int, safetyDays: int): (r: int)
    ensures 0 <= r
    ensures |forecast| == 0 ==> r == 0
    ensures |forecast| > 0 ==> (r == 0 <==> CoverNeeded(forecast, leadTimeDays, safetyDays) <= currentStock as real)
    ensures |forecast| > 0 && r > 0 ==>
      (r - 1) as real < CoverNeeded(forecast, leadTimeDays, safetyDays) - currentStock as real <= r as real
  {
    if |forecast| == 0 then 0
    else Ceil(MaxR(0.0, CoverNeeded(forecast, leadTimeDays, safetyDays) - currentStock as real))
  }

  /** More stock on hand never asks for more restocking. */
  lemma RestockQuantityAntitone(forecast: seq<real>, lowStock: int, highStock: int, reorderLevel: int,
                                leadTimeDays: int, safetyDays: int)
    requires lowStock <= highStock
    ensures RestockQuantity(forecast, highStock, reorderLevel, leadTimeDays, safetyDays)
            <= RestockQuantity(forecast, lowStock, reorderLevel, leadTimeDays, safetyDays)
  {
    var hi := RestockQuantity(forecast, highStock, reorderLevel, leadTimeDays, safetyDays);
    var lo := RestockQuantity(forecast, lowStock, reorderLevel, leadTimeDays, safetyDays);
    if |forecast| > 0 && hi > 0 {
      var need := CoverNeeded(forecast, leadTimeDays, safetyDays);
      assert (hi - 1) as real < need - highStock as real <= need - lowStock as real;
      assert lo > 0 && need - lowStock as real <= lo as real;
    }
  }

  /** The per-month restock of the plan: a one-month forecast q, stock at the
      reorder level 10, lead time 7 and safety 14 days. */
  function MonthlyRestock(q: real): (r: int)
    ensures 0 <= r
  {
    RestockQuantity([q], 10, 10, 7, 14)
  }

  /** A month needs restocking exactly when 21/30 of its forecast exceeds the
      stock of 10 units, that is when the forecast exceeds 100/7 units. */
  lemma MonthlyRestockZeroIff(q: real)
    ensures MonthlyRestock(q) == 0 <==> q * 7.0 <= 100.0
    ensures MonthlyRestock(q) > 0 ==> (MonthlyRestock(q) - 1) as real < q * 0.7 - 10.0 <= MonthlyRestock(q) as real
  {
    assert Sum([q]) == Sum([q][..0]) + q;
    assert Mean([q]) == q;
    assert CoverNeeded([q], 7, 14) == q / 30.0 * 21.0;
  }

  // ---------------------------------------------------------------------
  // fit_arima_model: the 16-order grid
  // ---------------------------------------------------------------------

  /** The orders the nested p, q loops try, in order: p and q in 0..3. */
  function MonthlyGrid(d: nat): (r: seq<Order>)
    ensures |r| == 16
  {
    seq(16, i requires 0 <= i => Order(i / 4, d, i % 4))
  }

  /** The differencing the search applies: 1 exactly when the series is judged
      non-stationary. */
  function MonthlyD(engine: Engine, ts: seq<real>): nat {
    if engine.isStationary(ts) then 0 else 1
  }

  /** The series the monthly candidates are fitted to. */
  function MonthlySeries(engine: Engine, ts: seq<real>): seq<real> {
    if engine.isStationary(ts) then ts else MakeStationary(ts)
  }

  /** The model fit_arima_model returns: none below 12 points. */
  function MonthlyFit(engine: Engine, ts: seq<real>): Option<FittedModel> {
    if |ts| < 12 then None
    else BestFit(engine, MonthlySeries(engine, ts), MonthlyGrid(MonthlyD(engine, ts)))
  }

  /** The grid holds each (p, q) with p, q in 0..3 exactly once, at 4p + q. */
  lemma MonthlyGridShape(d: nat)
    ensures var g := MonthlyGrid(d);
      && (forall p, q :: 0 <= p <= 3 && 0 <= q <= 3 ==> g[4 * p + q] == Order(p, d, q))
      && (forall i :: 0 <= i < 16 ==> g[i].d == d && g[i].p <= 3 && g[i].q <= 3)
      && (forall i, j :: 0 <= i < j < 16 ==> g[i] != g[j])
  {
    var g := MonthlyGrid(d);
    forall p, q | 0 <= p <= 3 && 0 <= q <= 3
      ensures g[4 * p + q] == Order(p, d, q)
    {
      assert (4 * p + q) / 4 == p && (4 * p + q) % 4 == q;
    }
    forall i, j | 0 <= i < j < 16
      ensures g[i] != g[j]
    {
      assert i == 4 * (i / 4) + i % 4 && j == 4 * (j / 4) + j % 4;
    }
  }

  /** What the monthly search keeps: nothing below 12 points; otherwise a fit
      of the (possibly differenced) series with d = 1 exactly when the series
      is judged non-stationary, p and q in 0..3, and an AIC no candidate beats. */
  lemma MonthlyFitChoice(engine: Engine, ts: seq<real>)
    ensures |ts| < 12 ==> MonthlyFit(engine, ts).None?
    ensures MonthlyFit(engine, ts).Some? ==>
      var m := MonthlyFit(engine, ts).value;
      && m.series == MonthlySeries(engine, ts)
      && m.order.d == (if engine.isStationary(ts) then 0 else 1)
      && m.order.p <= 3 && m.order.q <= 3
      && engine.aic(m.series, m.order) == Some(m.aic)
      && forall p, q :: 0 <= p <= 3 && 0 <= q <= 3 && engine.aic(m.series, Order(p, m.order.d, q)).Some? ==>
           m.aic <= engine.aic(m.series, Order(p, m.order.d, q)).value
  {
    if MonthlyFit(engine, ts).Some? {
      var d := MonthlyD(engine, ts);
      var g := MonthlyGrid(d);
      var s := MonthlySeries(engine, ts);
      BestFitIsFirstMinimum(engine, s, g);
      MonthlyGridShape(d);
      var m := MonthlyFit(engine, ts).value;
      var k :| 0 <= k < 16 && g[k] == m.order && engine.aic(s, g[k]) == Some(m.aic);
      forall p, q | 0 <= p <= 3 && 0 <= q <= 3 && engine.aic(s, Order(p, d, q)).Some?
        ensures m.aic <= engine.aic(s, Order(p, d, q)).value
      {
        assert g[4 * p + q] == Order(p, d, q);
      }
    }
  }

  /** fit_arima_model: below 12 points no model; otherwise difference a
      non-stationary series once and try the 16 orders, keeping the first
      strictly smallest AIC. */
  method FitMonthlyModel(engine: Engine, ts: seq<real>)
    returns (bestModel: Option<FittedModel>, bestParams: Option<Order>)
    ensures bestModel == MonthlyFit(engine, ts)
    ensures bestParams == if bestModel.Some? then Some(bestModel.value.order) else None
  {
    if |ts| < 12 {
      return None, None;
    }
    var series := ts;
    var d: nat;
    if !engine.isStationary(series) {
      series := MakeStationary(series);
      d := 1;
    } else {
      d := 0;
    }
    assert series == MonthlySeries(engine, ts) && d == MonthlyD(engine, ts);

    var grid := MonthlyGrid(d);
    var bestAic := 0.0; // read only once a model is kept, so it stands in for +inf
    bestModel, bestParams := None, None;
    for p := 0 to 4
      invariant bestModel == BestFit(engine, series, grid[..4 * p])
      invariant bestModel.Some? ==> bestAic == bestModel.value.aic
      invariant bestParams == if bestModel.Some? then Some(bestModel.value.order) else None
    {
      GridRow(d, p);
      bestModel, bestAic, bestParams := SearchMoving(engine, series, grid, d, p, bestModel, bestAic, bestParams);
    }
    assert grid[..16] == grid;
  }

  /** Entry 4 * p + q of the monthly grid is the order (p, d, q). */
  lemma GridEntry(d: nat, p: nat, q: nat)
    requires p < 4 && q < 4
    ensures MonthlyGrid(d)[4 * p + q] == Order(p, d, q)
  {
    assert (4 * p + q) / 4 == p && (4 * p + q) % 4 == q;
  }

  /** Row p of the monthly grid: the orders (p, d, 0) .. (p, d, 3). */
  lemma GridRow(d: nat, p: nat)
    requires p < 4
    ensures MonthlyGrid(d)[4 * p..4 * p + 4] == [Order(p, d, 0), Order(p, d, 1), Order(p, d, 2), Order(p, d, 3)]
  {
    GridEntry(d, p, 0);
    GridEntry(d, p, 1);
    GridEntry(d, p, 2);
    GridEntry(d, p, 3);
  }

  /** The inner loop of the monthly search: the orders (p, d, 0) .. (p, d, 3),
      tried after the 4 * p orders before them. */
  method SearchMoving(engine: Engine, series: seq<real>, grid: seq<Order>, d: nat, p: nat,
                      bestModel: Option<FittedModel>, bestAic: real, bestParams: Option<Order>)
    returns (bestModel': Option<FittedModel>, bestAic': real, bestParams': Option<Order>)
    requires p < 4 && |grid| == 16
    requires grid[4 * p..4 * p + 4] == [Order(p, d, 0), Order(p, d, 1), Order(p, d, 2), Order(p, d, 3)]
    requires bestModel == BestFit(engine, series, grid[..4 * p])
    requires bestModel.Some? ==> bestAic == bestModel.value.aic
    requires bestParams == if bestModel.Some? then Some(bestModel.value.order) else None
    ensures bestModel' == BestFit(engine, series, grid[..4 * p + 4])
    ensures bestModel'.Some? ==> bestAic' == bestModel'.value.aic
    ensures bestParams' == if bestModel'.Some? then Some(bestModel'.value.order) else None
  {
    bestModel', bestAic', bestParams' := bestModel, bestAic, bestParams;
    for q := 0 to 4
      invariant bestModel' == BestFit(engine, series, grid[..4 * p + q])
      invariant bestModel'.Some? ==> bestAic' == bestModel'.value.aic
      invariant bestParams' == if bestModel'.Some? then Some(bestModel'.value.order) else None
    {
      assert grid[4 * p + q] == grid[4 * p..4 * p + 4][q];
      BestFitStep(engine, series, grid, 4 * p + q);
      var fit := engine.aic(series, Order(p, d, q));
      if fit.Some? && (bestModel'.None? || fit.value < bestAic') {
        bestAic' := fit.value;
        bestModel' := Some(FittedModel(series, Order(p, d, q), fit.value));
        bestParams' := Some(Order(p, d, q));
      }
    }
  }

  // ---------------------------------------------------------------------
  // forecast_product
  // ---------------------------------------------------------------------

  /** A product's forecast: the values, the 'method' label, the order and the
      model's AIC (the last two for ARIMA only). */
  datatype MonthlyForecast = MonthlyForecast(
    forecast: seq<real>,
    kind: ForecastMethod,
    params: Option<Order>,
    modelAic: Option<real>)

  /** forecast_product: None below 6 months; the mean repeated when no model
      fits ('moving_average') or when the model's forecast raises ('average');
      otherwise the model's forecast clamped at zero ('ARIMA'). */
  function ForecastProduct(engine: Engine, monthlySales: seq<real>, monthsAhead: nat): (r: Option<MonthlyForecast>)
    ensures r.None? <==> |monthlySales| < 6
    ensures r.Some? ==> |r.value.forecast| == monthsAhead
    ensures r.Some? ==> r.value.kind in {Arima, MovingAverage, Average}
    ensures r.Some? && r.value.kind == Arima ==>
      var m := MonthlyFit(engine, monthlySales);
      && m.Some? && !engine.forecastFails(m.value)
      && r.value.params == Some(m.value.order) && r.value.modelAic == Some(m.value.aic)
      && forall i :: 0 <= i < monthsAhead ==>
           0.0 <= r.value.forecast[i] && r.value.forecast[i] == MaxR(0.0, engine.forecastStep(m.value, i))
    ensures r.Some? && r.value.kind != Arima ==>
      && r.value.params.None? && r.value.modelAic.None?
      && forall i :: 0 <= i < monthsAhead ==> r.value.forecast[i] == Mean(monthlySales)
    ensures r.Some? ==> (r.value.kind == MovingAverage <==> MonthlyFit(engine, monthlySales).None?)
    ensures r.Some? ==>
      (r.value.kind == Arima <==>
         MonthlyFit(engine, monthlySales).Some? && !engine.forecastFails(MonthlyFit(engine, monthlySales).value))
    ensures r.Some? ==>
      (r.value.kind == Average <==>
         MonthlyFit(engine, monthlySales).Some? && engine.forecastFails(MonthlyFit(engine, monthlySales).value))
  {
    if |monthlySales| < 6 then None
    else
      var model := MonthlyFit(engine, monthlySales);
      if model.None? then
        Some(MonthlyForecast(Constant(Mean(monthlySales), monthsAhead), MovingAverage, None, None))
      else if engine.forecastFails(model.value) then
        Some(MonthlyForecast(Constant(Mean(monthlySales), monthsAhead), Average, None, None))
      else
        var raw := Forecast(engine, model.value, monthsAhead);
        Some(MonthlyForecast(seq(monthsAhead, i requires 0 <= i < monthsAhead => MaxR(0.0, raw[i])),
                             Arima, Some(model.value.order), Some(model.value.aic)))
  }

  /** Six to eleven months of history always give the moving average. */
  lemma ShortHistoryMovingAverage(engine: Engine, monthlySales: seq<real>, monthsAhead: nat)
    requires 6 <= |monthlySales| < 12
    ensures var r := ForecastProduct(engine, monthlySales, monthsAhead);
      r.Some? && r.value.kind == MovingAverage && r.value.forecast == Constant(Mean(monthlySales), monthsAhead)
  {
  }

  // ---------------------------------------------------------------------
  // The monthly history
  // ---------------------------------------------------------------------

  /** Units of one product sold in one month, counting the rows whose
      '%m/%d/%Y' date parsed (groupby('year_month')['transaction_qty'].sum()). */
  function MonthQty(rows: seq<SalesRecord>, productId: int, ym: YearMonth): real
    decreases |rows|
  {
    if |rows| == 0 then 0.0
    else
      var row := rows[|rows| - 1];
      MonthQty(rows[..|rows| - 1], productId, ym)
        + (if row.productId == productId && row.usDate.Some? && MonthOf(row.usDate.value) == ym then row.qty else 0.0)
  }

  /** Units of one product sold over all its dated rows. */
  function ProductQty(rows: seq<SalesRecord>, productId: int): real
    decreases |rows|
  {
    if |rows| == 0 then 0.0
    else
      var row := rows[|rows| - 1];
      ProductQty(rows[..|rows| - 1], productId) + (if row.productId == productId && row.usDate.Some? then row.qty else 0.0)
  }

  /** monthly_sales.reindex(all_months, fill_value=0). */
  function MonthlyHistory(rows: seq<SalesRecord>, productId: int, months: seq<YearMonth>): (r: seq<real>)
    ensures |r| == |months|
    ensures forall i :: 0 <= i < |months| ==> r[i] == MonthQty(rows, productId, months[i])
  {
    seq(|months|, i requires 0 <= i < |months| => MonthQty(rows, productId, months[i]))
  }

  /** Every dated row's month has a valid month number, and its position on
      the monthly axis lies in lo .. lo + n - 1. */
  ghost predicate MonthsWithin(rows: seq<SalesRecord>, lo: int, n: nat) {
    forall j :: 0 <= j < |rows| && rows[j].usDate.Some? ==>
      ValidMonth(MonthOf(rows[j].usDate.value)) && lo <= MonthIndex(MonthOf(rows[j].usDate.value)) < lo + n
  }

  /** A month no dated row of the product falls in has no units sold. */
  lemma {:induction false} MonthQtyOfOtherMonth(rows: seq<SalesRecord>, productId: int, ym: YearMonth)
    requires forall j :: 0 <= j < |rows| && rows[j].usDate.Some? ==> MonthOf(rows[j].usDate.value) != ym
    ensures MonthQty(rows, productId, ym) == 0.0
    decreases |rows|
  {
    if |rows| > 0 {
      MonthQtyOfOtherMonth(rows[..|rows| - 1], productId, ym);
    }
  }

  /** A zero sequence with q at position x sums to q. */
  lemma {:induction false} SumOfOneMonth(n: nat, x: int, q: real)
    requires 0 <= x < n
    ensures Sum(seq(n, i => if i == x then q else 0.0)) == q
    decreases n
  {
    var s := seq(n, i => if i == x then q else 0.0);
    var s' := seq(n - 1, i => if i == x then q else 0.0);
    assert s[..n - 1] == s';
    if x < n - 1 {
      SumOfOneMonth(n - 1, x, q);
    } else {
      SumLowerBound(s', 0.0);
      SumUpperBound(s', 0.0);
    }
  }

  /** Zero-filling over a month range that covers every dated row keeps every
      unit of the product: the history sums to the product's total. */
  lemma {:induction false} HistoryKeepsEveryUnit(rows: seq<SalesRecord>, productId: int, lo: int, n: nat)
    requires MonthsWithin(rows, lo, n)
    ensures Sum(seq(n, i => MonthQty(rows, productId, MonthAt(lo + i)))) == ProductQty(rows, productId)
    decreases |rows|
  {
    var all := seq(n, i => MonthQty(rows, productId, MonthAt(lo + i)));
    if |rows| == 0 {
      forall i | 0 <= i < n
        ensures all[i] == 0.0
      {
        assert all[i] == MonthQty(rows, productId, MonthAt(lo + i));
      }
      SumLowerBound(all, 0.0);
      SumUpperBound(all, 0.0);
    } else {
      var m := |rows| - 1;
      var rest := rows[..m];
      assert MonthsWithin(rest, lo, n) by {
        assert forall j :: 0 <= j < m ==> rest[j] == rows[j];
      }
      HistoryKeepsEveryUnit(rest, productId, lo, n);
      HistoryStep(rows, productId, lo, n);
    }
  }

  /** The last row adds its units to exactly one month of the range. */
  lemma HistoryStep(rows: seq<SalesRecord>, productId: int, lo: int, n: nat)
    requires |rows| > 0 && MonthsWithin(rows, lo, n)
    ensures var row := rows[|rows| - 1];
      Sum(seq(n, i => MonthQty(rows, productId, MonthAt(lo + i))))
        == Sum(seq(n, i => MonthQty(rows[..|rows| - 1], productId, MonthAt(lo + i))))
           + (if row.productId == productId && row.usDate.Some? then row.qty else 0.0)
  {
    var m := |rows| - 1;
    var rest := rows[..m];
    var row := rows[m];
    var all := seq(n, i => MonthQty(rows, productId, MonthAt(lo + i)));
    var restSums := seq(n, i => MonthQty(rest, productId, MonthAt(lo + i)));
    var counts := row.productId == productId && row.usDate.Some?;
    var x := if row.usDate.Some? then MonthIndex(MonthOf(row.usDate.value)) - lo else 0;
    var spike := seq(n, i => if counts && i == x then row.qty else 0.0);
    forall i | 0 <= i < n
      ensures all[i] == restSums[i] + spike[i]
    {
      LastRowMonth(rows, productId, lo, n, i);
    }
    SumPointwise(restSums, spike, all);
    GatedSpikeSum(n, x, counts, row.qty);
  }

  /** A sequence that is q at x when `counts` holds and zero elsewhere sums
      to q or to zero. */
  lemma GatedSpikeSum(n: nat, x: int, counts: bool, q: real)
    requires counts ==> 0 <= x < n
    ensures Sum(seq(n, i => if counts && i == x then q else 0.0)) == if counts then q else 0.0
  {
    var spike := seq(n, i => if counts && i == x then q else 0.0);
    if counts {
      assert spike == seq(n, i => if i == x then q else 0.0);
      SumOfOneMonth(n, x, q);
    } else {
      SumLowerBound(spike, 0.0);
      SumUpperBound(spike, 0.0);
    }
  }

  /** Month lo + i gains the last row's units exactly when the row is a dated
      row of the product in that month. */
  lemma LastRowMonth(rows: seq<SalesRecord>, productId: int, lo: int, n: nat, i: int)
    requires |rows| > 0 && MonthsWithin(rows, lo, n) && 0 <= i < n
    ensures var row := rows[|rows| - 1];
      var x := if row.usDate.Some? then MonthIndex(MonthOf(row.usDate.value)) - lo else 0;
      MonthQty(rows, productId, MonthAt(lo + i))
        == MonthQty(rows[..|rows| - 1], productId, MonthAt(lo + i))
           + (if row.productId == productId && row.usDate.Some? && i == x then row.qty else 0.0)
  {
    var row := rows[|rows| - 1];
    if row.usDate.Some? {
      var ym := MonthOf(row.usDate.value);
      var x := MonthIndex(ym) - lo;
      assert ValidMonth(ym) && lo <= MonthIndex(ym) < lo + n;
      if ym == MonthAt(lo + i) {
        assert i == x;
      } else if i == x {
        MonthIndexInjective(ym, MonthAt(lo + i));
      }
    }
  }

  /** The history over pd.period_range(lo, hi) keeps every unit of the
      product when both ends bound all dated rows. */
  lemma MonthlyHistoryTotal(rows: seq<SalesRecord>, productId: int, lo: YearMonth, hi: YearMonth)
    requires ValidMonth(lo) && MonthIndex(lo) <= MonthIndex(hi)
    requires MonthsWithin(rows, MonthIndex(lo), MonthIndex(hi) - MonthIndex(lo) + 1)
    ensures Sum(MonthlyHistory(rows, productId, PeriodRange(lo, hi))) == ProductQty(rows, productId)
  {
    var n := MonthIndex(hi) - MonthIndex(lo) + 1;
    var months := PeriodRange(lo, hi);
    HistoryKeepsEveryUnit(rows, productId, MonthIndex(lo), n);
    forall i | 0 <= i < n
      ensures months[i] == MonthAt(MonthIndex(lo) + i)
    {
      MonthIndexInjective(months[i], MonthAt(MonthIndex(lo) + i));
    }
    SumExtensional(MonthlyHistory(rows, productId, months), seq(n, i => MonthQty(rows, productId, MonthAt(MonthIndex(lo) + i))));
  }
}
