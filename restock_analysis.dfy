/** The body of analyze_restock_predictions
    (machine-learning/services/arima_restock_prediction.py): the historical
    and forecast month ranges, the per-product restock plan, the per-month
    aggregation, the spike and dip classification, the priority ranking and
    the summary totals. */
module RestockAnalysis {
  import opened Numbers
  import opened Calendar
  import opened Sales
  import opened TimeSeries
  import opened RestockPlan

  // ---------------------------------------------------------------------
  // Month ranges
  // ---------------------------------------------------------------------

  /** The month position of a row's parsed '%m/%d/%Y' date. */
  function RowMonth(row: SalesRecord): int
    requires row.usDate.Some?
  {
    MonthIndex(MonthOf(row.usDate.value))
  }

  /** df['year_month'].min(), as a month position: None when no date parsed. */
  function EarliestMonth(rows: seq<SalesRecord>): (r: Option<int>)
    ensures r.None? <==> forall j :: 0 <= j < |rows| ==> rows[j].usDate.None?
    ensures r.Some? ==> forall j :: 0 <= j < |rows| && rows[j].usDate.Some? ==> r.value <= RowMonth(rows[j])
    ensures r.Some? ==> exists j :: 0 <= j < |rows| && rows[j].usDate.Some? && RowMonth(rows[j]) == r.value
    decreases |rows|
  {
    if |rows| == 0 then None
    else
      var n := |rows| - 1;
      var rest := EarliestMonth(rows[..n]);
      assert forall j :: 0 <= j < n ==> rows[..n][j] == rows[j];
      if rows[n].usDate.None? then rest
      else if rest.None? then Some(RowMonth(rows[n]))
      else Some(MinI(rest.value, RowMonth(rows[n])))
  }

  /** df['year_month'].max(), as a month position: None when no date parsed. */
  function LatestMonth(rows: seq<SalesRecord>): (r: Option<int>)
    ensures r.None? <==> forall j :: 0 <= j < |rows| ==> rows[j].usDate.None?
    ensures r.Some? ==> forall j :: 0 <= j < |rows| && rows[j].usDate.Some? ==> RowMonth(rows[j]) <= r.value
    ensures r.Some? ==> exists j :: 0 <= j < |rows| && rows[j].usDate.Some? && RowMonth(rows[j]) == r.value
    decreases |rows|
  {
    if |rows| == 0 then None
    else
      var n := |rows| - 1;
      var rest := LatestMonth(rows[..n]);
      assert forall j :: 0 <= j < n ==> rows[..n][j] == rows[j];
      if rows[n].usDate.None? then rest
      else if rest.None? then Some(RowMonth(rows[n]))
      else Some(MaxI(rest.value, RowMonth(rows[n])))
  }

  /** The forecast months: the 12 months after the last historical month. */
  function ForecastMonths(last: int): (r: seq<YearMonth>)
    ensures |r| == 12
  {
    PeriodsFrom(Next(MonthAt(last)), 12)
  }

  /** The forecast months start the month after the last historical month,
      step one month at a time, and are pairwise distinct. */
  lemma ForecastMonthsConsecutive(last: int)
    ensures var r := ForecastMonths(last);
      && MonthIndex(r[0]) == last + 1
      && r[0] == Next(MonthAt(last))
      && (forall i :: 0 <= i < 11 ==> r[i + 1] == Next(r[i]))
      && (forall i, j :: 0 <= i < j < 12 ==> r[i] != r[j])
  {
    PeriodsFromConsecutive(Next(MonthAt(last)), 12);
    PeriodsFromDistinct(Next(MonthAt(last)), 12);
  }

  /** Every dated row falls inside the historical range, so zero-filling each
      product over it keeps every unit (for dates with valid month numbers). */
  lemma HistoricalRangeCoversRows(rows: seq<SalesRecord>, productId: int)
    requires EarliestMonth(rows).Some?
    requires forall j :: 0 <= j < |rows| && rows[j].usDate.Some? ==> ValidDate(rows[j].usDate.value)
    ensures var lo := MonthAt(EarliestMonth(rows).value);
      var hi := MonthAt(LatestMonth(rows).value);
      Sum(MonthlyHistory(rows, productId, PeriodRange(lo, hi))) == ProductQty(rows, productId)
  {
    var a := EarliestMonth(rows).value;
    var b := LatestMonth(rows).value;
    var j :| 0 <= j < |rows| && rows[j].usDate.Some? && RowMonth(rows[j]) == a;
    assert a <= b;
    MonthlyHistoryTotal(rows, productId, MonthAt(a), MonthAt(b));
  }

  // ---------------------------------------------------------------------
  // The per-product plan
  // ---------------------------------------------------------------------

  /** A product from the revenue ranking: (product_id, product_name) and its
      total revenue. */
  datatype RankedProduct = RankedProduct(productId: int, productName: string, totalRevenue: real)

  /** An entry of all_predictions. */
  datatype Prediction = Prediction(
    productName: string,
    forecast: seq<real>,
    kind: ForecastMethod,
    params: Option<Order>,
    historicalAvg: real,
    totalRevenue: real)

  /** One month of a product's plan. */
  datatype MonthPlan = MonthPlan(month: YearMonth, forecastedSales: real, restockQty: int)

  /** An entry of restock_plan. */
  datatype ProductPlan = ProductPlan(productName: string, monthlyPlan: seq<MonthPlan>, totalRevenue: real)

  /** The forecast of one ranked product over the historical months. */
  function ProductForecastOf(engine: Engine, rows: seq<SalesRecord>, allMonths: seq<YearMonth>, p: RankedProduct)
    : Option<MonthlyForecast>
  {
    ForecastProduct(engine, MonthlyHistory(rows, p.productId, allMonths), 12)
  }

  /** The monthly plan for a forecast: month i pairs the i-th forecast month,
      the i-th forecast value and its restock quantity. */
  function MonthPlans(forecast: seq<real>, months: seq<YearMonth>): (r: seq<MonthPlan>)
    requires |forecast| <= |months|
    ensures |r| == |forecast|
  {
    seq(|forecast|, i requires 0 <= i < |forecast| => MonthPlan(months[i], forecast[i], MonthlyRestock(forecast[i])))
  }

  /** The inner loop over enumerate(forecast_result['forecast']). */
  method PlanMonths(forecast: seq<real>, forecastMonths: seq<YearMonth>) returns (monthlyRestock: seq<MonthPlan>)
    requires |forecast| <= |forecastMonths|
    ensures monthlyRestock == MonthPlans(forecast, forecastMonths)
  {
    monthlyRestock := [];
    for monthIdx := 0 to |forecast|
      invariant monthlyRestock == MonthPlans(forecast[..monthIdx], forecastMonths)
    {
      var forecastQty := forecast[monthIdx];
      var restockQty := RestockQuantity([forecastQty], 10, 10, 7, 14);
      monthlyRestock := monthlyRestock + [MonthPlan(forecastMonths[monthIdx], forecastQty, restockQty)];
    }
    assert forecast[..|forecast|] == forecast;
  }

  /** Whether the forecast of products[j] succeeds and no later product up to
      k with the same id succeeds: the entry that products[j] wrote into the
      id-keyed dictionaries is still there after k products. */
  ghost predicate LastWriter(engine: Engine, rows: seq<SalesRecord>, allMonths: seq<YearMonth>,
                             products: seq<RankedProduct>, j: int, k: int)
    requires 0 <= j < k <= |products|
  {
    && ProductForecastOf(engine, rows, allMonths, products[j]).Some?
    && forall i :: j < i < k && products[i].productId == products[j].productId ==>
         ProductForecastOf(engine, rows, allMonths, products[i]).None?
  }

  /** Whether one of the first k products has this id and a successful forecast. */
  ghost predicate Planned(engine: Engine, rows: seq<SalesRecord>, allMonths: seq<YearMonth>,
                          products: seq<RankedProduct>, k: int, id: int)
    requires 0 <= k <= |products|
  {
    exists j :: 0 <= j < k && products[j].productId == id && ProductForecastOf(engine, rows, allMonths, products[j]).Some?
  }

  /** The key order of the id-keyed dictionaries after k products: an id
      joins at the end when its first successful forecast is written, and a
      later write to the same id keeps its place. */
  function PlannedOrder(engine: Engine, rows: seq<SalesRecord>, allMonths: seq<YearMonth>,
                        products: seq<RankedProduct>, k: int): seq<int>
    requires 0 <= k <= |products|
    decreases k
  {
    if k == 0 then []
    else
      var prev := PlannedOrder(engine, rows, allMonths, products, k - 1);
      var p := products[k - 1];
      if ProductForecastOf(engine, rows, allMonths, p).Some? && p.productId !in prev then prev + [p.productId]
      else prev
  }

  /** Whether product j has this id and a successful forecast. */
  ghost predicate WritesAt(engine: Engine, rows: seq<SalesRecord>, allMonths: seq<YearMonth>,
                           products: seq<RankedProduct>, j: int, id: int)
  {
    0 <= j < |products| && products[j].productId == id && ProductForecastOf(engine, rows, allMonths, products[j]).Some?
  }

  /** The first product from j on that writes this id, or |products| when none does. */
  ghost function FirstWriteFrom(engine: Engine, rows: seq<SalesRecord>, allMonths: seq<YearMonth>,
                                products: seq<RankedProduct>, id: int, j: nat): (r: nat)
    requires j <= |products|
    ensures j <= r <= |products|
    ensures r < |products| ==> WritesAt(engine, rows, allMonths, products, r, id)
    ensures forall i :: j <= i < r ==> !WritesAt(engine, rows, allMonths, products, i, id)
    decreases |products| - j
  {
    if j == |products| then j
    else if WritesAt(engine, rows, allMonths, products, j, id) then j
    else FirstWriteFrom(engine, rows, allMonths, products, id, j + 1)
  }

  /** The first product that writes this id, or |products| when none does. */
  ghost function FirstWrite(engine: Engine, rows: seq<SalesRecord>, allMonths: seq<YearMonth>,
                            products: seq<RankedProduct>, id: int): nat
  {
    FirstWriteFrom(engine, rows, allMonths, products, id, 0)
  }

  /** An id is planned among the first k products exactly when its first write comes before k. */
  lemma PlannedIffFirstWrite(engine: Engine, rows: seq<SalesRecord>, allMonths: seq<YearMonth>,
                             products: seq<RankedProduct>, k: int, id: int)
    requires 0 <= k <= |products|
    ensures Planned(engine, rows, allMonths, products, k, id) <==> FirstWrite(engine, rows, allMonths, products, id) < k
  {
    var f := FirstWrite(engine, rows, allMonths, products, id);
    if Planned(engine, rows, allMonths, products, k, id) {
      var j :| 0 <= j < k && products[j].productId == id && ProductForecastOf(engine, rows, allMonths, products[j]).Some?;
      assert WritesAt(engine, rows, allMonths, products, j, id);
    }
    if f < k {
      assert WritesAt(engine, rows, allMonths, products, f, id);
    }
  }

  /** The key order lists each id planned among the first k products once,
      and one id comes before another exactly when its first successful
      forecast comes first. */
  lemma {:induction false} PlannedOrderByFirstWrite(engine: Engine, rows: seq<SalesRecord>, allMonths: seq<YearMonth>,
                                                    products: seq<RankedProduct>, k: int)
    requires 0 <= k <= |products|
    ensures var o := PlannedOrder(engine, rows, allMonths, products, k);
      && (forall id :: id in o <==> Planned(engine, rows, allMonths, products, k, id))
      && (forall a :: 0 <= a < |o| ==> FirstWrite(engine, rows, allMonths, products, o[a]) < k)
      && (forall a, b :: 0 <= a < |o| && 0 <= b < |o| ==>
            (a < b <==> FirstWrite(engine, rows, allMonths, products, o[a]) < FirstWrite(engine, rows, allMonths, products, o[b])))
    decreases k
  {
    var o := PlannedOrder(engine, rows, allMonths, products, k);
    if k == 0 {
      forall id ensures !Planned(engine, rows, allMonths, products, 0, id) {
      }
    } else {
      var prev := PlannedOrder(engine, rows, allMonths, products, k - 1);
      PlannedOrderByFirstWrite(engine, rows, allMonths, products, k - 1);
      PlannedStep(engine, rows, allMonths, products, k - 1);
      var p := products[k - 1];
      forall a | 0 <= a < |prev|
        ensures FirstWrite(engine, rows, allMonths, products, prev[a]) < k
      {
        assert prev[a] in prev;
        PlannedIffFirstWrite(engine, rows, allMonths, products, k - 1, prev[a]);
      }
      if ProductForecastOf(engine, rows, allMonths, p).Some? && p.productId !in prev {
        assert o == prev + [p.productId];
        PlannedIffFirstWrite(engine, rows, allMonths, products, k - 1, p.productId);
        assert WritesAt(engine, rows, allMonths, products, k - 1, p.productId);
        var f := FirstWrite(engine, rows, allMonths, products, p.productId);
        assert f == k - 1;
        forall id ensures id in o <==> Planned(engine, rows, allMonths, products, k, id) {
          assert id in o <==> id in prev || id == p.productId;
        }
        forall a | 0 <= a < |o|
          ensures FirstWrite(engine, rows, allMonths, products, o[a]) < k
        {
          if a < |prev| {
            assert o[a] == prev[a];
          }
        }
        forall a, b | 0 <= a < |o| && 0 <= b < |o|
          ensures a < b <==> FirstWrite(engine, rows, allMonths, products, o[a]) < FirstWrite(engine, rows, allMonths, products, o[b])
        {
          if a < |prev| {
            assert o[a] == prev[a];
          }
          if b < |prev| {
            assert o[b] == prev[b];
          }
        }
      }
    }
  }

  /** The prediction stored for a product with a successful forecast f. */
  function PredictionFor(p: RankedProduct, f: MonthlyForecast, history: seq<real>): Prediction
    requires |history| > 0
  {
    Prediction(p.productName, f.forecast, f.kind, f.params, Mean(history), p.totalRevenue)
  }

  /** The plan stored for a product with a successful forecast f. */
  function PlanFor(p: RankedProduct, f: MonthlyForecast, forecastMonths: seq<YearMonth>): ProductPlan
    requires |f.forecast| <= |forecastMonths|
  {
    ProductPlan(p.productName, MonthPlans(f.forecast, forecastMonths), p.totalRevenue)
  }

  /** After k products, every last writer's prediction and plan are stored
      under its id. */
  ghost predicate Stored(engine: Engine, rows: seq<SalesRecord>, allMonths: seq<YearMonth>,
                         forecastMonths: seq<YearMonth>, products: seq<RankedProduct>, k: int,
                         allPredictions: map<int, Prediction>, restockPlan: map<int, ProductPlan>)
    requires 0 <= k <= |products| && |forecastMonths| == 12
  {
    forall j :: 0 <= j < k && LastWriter(engine, rows, allMonths, products, j, k) ==>
      var p := products[j];
      var f := ProductForecastOf(engine, rows, allMonths, p).value;
      && p.productId in restockPlan && p.productId in allPredictions
      && restockPlan[p.productId] == PlanFor(p, f, forecastMonths)
      && allPredictions[p.productId] == PredictionFor(p, f, MonthlyHistory(rows, p.productId, allMonths))
  }

  /** Every plan in `order` has one month per forecast month, in that order. */
  ghost predicate PlanShape(plan: map<int, ProductPlan>, order: seq<int>, months: seq<YearMonth>) {
    forall k :: 0 <= k < |order| ==>
      && order[k] in plan
      && |plan[order[k]].monthlyPlan| == |months|
      && forall i :: 0 <= i < |months| ==> plan[order[k]].monthlyPlan[i].month == months[i]
  }

  /** Every stored prediction carries a twelve-month forecast. */
  ghost predicate YearLong(allPredictions: map<int, Prediction>) {
    forall id :: id in allPredictions ==> |allPredictions[id].forecast| == 12
  }

  /** Both dictionaries have the same keys, and `order` lists them once each. */
  ghost predicate KeyOrder(allPredictions: map<int, Prediction>, restockPlan: map<int, ProductPlan>, order: seq<int>) {
    && restockPlan.Keys == allPredictions.Keys
    && (forall id :: id in restockPlan <==> id in order)
    && (forall a, b :: 0 <= a < b < |order| ==> order[a] != order[b])
  }

  /** The plan holds exactly the ids planned among the first k products. */
  ghost predicate PlannedIds(engine: Engine, rows: seq<SalesRecord>, allMonths: seq<YearMonth>,
                             products: seq<RankedProduct>, k: int, restockPlan: map<int, ProductPlan>)
    requires 0 <= k <= |products|
  {
    forall id :: id in restockPlan <==> Planned(engine, rows, allMonths, products, k, id)
  }

  /** What the loop over all_products keeps after k products: the
      dictionaries hold exactly the planned ids, each with the entry of its
      last writer; `order` is their key order without repeats. */
  ghost predicate Recorded(engine: Engine, rows: seq<SalesRecord>, allMonths: seq<YearMonth>,
                           forecastMonths: seq<YearMonth>, products: seq<RankedProduct>, k: int,
                           allPredictions: map<int, Prediction>, restockPlan: map<int, ProductPlan>, order: seq<int>)
    requires 0 <= k <= |products| && |forecastMonths| == 12
  {
    && KeyOrder(allPredictions, restockPlan, order)
    && PlannedIds(engine, rows, allMonths, products, k, restockPlan)
    && Stored(engine, rows, allMonths, forecastMonths, products, k, allPredictions, restockPlan)
    && PlanShape(restockPlan, order, forecastMonths)
    && YearLong(allPredictions)
    && order == PlannedOrder(engine, rows, allMonths, products, k)
  }

  /** The loop over all_products: each product whose forecast succeeds writes
      its prediction and plan under its id, so the dictionaries hold exactly
      the planned ids, each with the entry of the last product that wrote it;
      `order` is their key order (first insertion; a later write to the same
      id keeps the place). */
  method PlanProducts(engine: Engine, rows: seq<SalesRecord>, products: seq<RankedProduct>,
                      allMonths: seq<YearMonth>, forecastMonths: seq<YearMonth>)
    returns (allPredictions: map<int, Prediction>, restockPlan: map<int, ProductPlan>, order: seq<int>)
    requires |forecastMonths| == 12
    ensures restockPlan.Keys == allPredictions.Keys
    ensures forall id :: id in restockPlan <==> id in order
    ensures forall a, b :: 0 <= a < b < |order| ==> order[a] != order[b]
    ensures forall id :: id in restockPlan <==> Planned(engine, rows, allMonths, products, |products|, id)
    ensures Stored(engine, rows, allMonths, forecastMonths, products, |products|, allPredictions, restockPlan)
    ensures PlanShape(restockPlan, order, forecastMonths)
    ensures YearLong(allPredictions)
    ensures order == PlannedOrder(engine, rows, allMonths, products, |products|)
    ensures forall a, b :: 0 <= a < |order| && 0 <= b < |order| ==>
      (a < b <==> FirstWrite(engine, rows, allMonths, products, order[a]) < FirstWrite(engine, rows, allMonths, products, order[b]))
  {
    allPredictions, restockPlan, order := map[], map[], [];
    for k := 0 to |products|
      invariant Recorded(engine, rows, allMonths, forecastMonths, products, k, allPredictions, restockPlan, order)
    {
      var p := products[k];
      var monthlySales := MonthlyHistory(rows, p.productId, allMonths);
      var forecastResult := ForecastProduct(engine, monthlySales, 12);
      if forecastResult.Some? {
        var f := forecastResult.value;
        ghost var oldPredictions, oldPlan, oldOrder := allPredictions, restockPlan, order;
        allPredictions := allPredictions[p.productId :=
          Prediction(p.productName, f.forecast, f.kind, f.params, Mean(monthlySales), p.totalRevenue)];
        var monthlyRestock := PlanMonths(f.forecast, forecastMonths);
        restockPlan := restockPlan[p.productId := ProductPlan(p.productName, monthlyRestock, p.totalRevenue)];
        if p.productId !in order {
          order := order + [p.productId];
        }
        RecordedAfterWrite(engine, rows, allMonths, forecastMonths, products, k, oldPredictions, oldPlan, oldOrder);
      } else {
        RecordedAfterFailure(engine, rows, allMonths, forecastMonths, products, k, allPredictions, restockPlan, order);
      }
    }
    PlannedOrderByFirstWrite(engine, rows, allMonths, products, |products|);
  }

  /** A successful forecast of product k, written under its id, keeps the
      loop's invariant. */
  lemma RecordedAfterWrite(engine: Engine, rows: seq<SalesRecord>, allMonths: seq<YearMonth>,
                           forecastMonths: seq<YearMonth>, products: seq<RankedProduct>, k: int,
                           allPredictions: map<int, Prediction>, restockPlan: map<int, ProductPlan>, order: seq<int>)
    requires 0 <= k < |products| && |forecastMonths| == 12
    requires ProductForecastOf(engine, rows, allMonths, products[k]).Some?
    requires Recorded(engine, rows, allMonths, forecastMonths, products, k, allPredictions, restockPlan, order)
    ensures var p := products[k];
      var f := ProductForecastOf(engine, rows, allMonths, p).value;
      Recorded(engine, rows, allMonths, forecastMonths, products, k + 1,
               allPredictions[p.productId := PredictionFor(p, f, MonthlyHistory(rows, p.productId, allMonths))],
               restockPlan[p.productId := PlanFor(p, f, forecastMonths)],
               if p.productId in order then order else order + [p.productId])
  {
    var p := products[k];
    var f := ProductForecastOf(engine, rows, allMonths, p).value;
    var newPlan := restockPlan[p.productId := PlanFor(p, f, forecastMonths)];
    var newOrder := if p.productId in order then order else order + [p.productId];
    var plan := PlanFor(p, f, forecastMonths);
    assert forall i :: 0 <= i < |forecastMonths| ==> plan.monthlyPlan[i].month == forecastMonths[i];
    KeysAfterWrite(allPredictions, restockPlan, order, forecastMonths, p.productId,
                   PredictionFor(p, f, MonthlyHistory(rows, p.productId, allMonths)), plan);
    PlannedAfterWrite(engine, rows, allMonths, products, k, restockPlan, plan);
    StoredAfterWrite(engine, rows, allMonths, forecastMonths, products, k, allPredictions, restockPlan);
  }

  /** A planned id stays planned, and product k's id joins them. */
  lemma PlannedAfterWrite(engine: Engine, rows: seq<SalesRecord>, allMonths: seq<YearMonth>,
                          products: seq<RankedProduct>, k: int, restockPlan: map<int, ProductPlan>, plan: ProductPlan)
    requires 0 <= k < |products|
    requires ProductForecastOf(engine, rows, allMonths, products[k]).Some?
    requires PlannedIds(engine, rows, allMonths, products, k, restockPlan)
    ensures PlannedIds(engine, rows, allMonths, products, k + 1, restockPlan[products[k].productId := plan])
  {
    PlannedStep(engine, rows, allMonths, products, k);
  }

  /** Writing a twelve-month prediction and a plan in shape under one id
      keeps the keys, their order and the shapes. */
  lemma KeysAfterWrite(allPredictions: map<int, Prediction>, restockPlan: map<int, ProductPlan>, order: seq<int>,
                       forecastMonths: seq<YearMonth>, id: int, pred: Prediction, plan: ProductPlan)
    requires KeyOrder(allPredictions, restockPlan, order)
    requires PlanShape(restockPlan, order, forecastMonths) && YearLong(allPredictions)
    requires |pred.forecast| == 12
    requires |plan.monthlyPlan| == |forecastMonths|
    requires forall i :: 0 <= i < |forecastMonths| ==> plan.monthlyPlan[i].month == forecastMonths[i]
    ensures var newOrder := if id in order then order else order + [id];
      && KeyOrder(allPredictions[id := pred], restockPlan[id := plan], newOrder)
      && PlanShape(restockPlan[id := plan], newOrder, forecastMonths)
      && YearLong(allPredictions[id := pred])
  {
    ShapeAfterWrite(restockPlan, order, forecastMonths, id, plan);
    SameKeysAfterWrite(allPredictions, restockPlan, id, pred, plan);
    YearLongAfterWrite(allPredictions, id, pred);
  }

  /** Writing under one id in both dictionaries keeps their keys equal. */
  lemma SameKeysAfterWrite(allPredictions: map<int, Prediction>, restockPlan: map<int, ProductPlan>,
                           id: int, pred: Prediction, plan: ProductPlan)
    requires restockPlan.Keys == allPredictions.Keys
    ensures restockPlan[id := plan].Keys == allPredictions[id := pred].Keys
  {
  }

  /** Writing a twelve-month prediction keeps every forecast twelve months long. */
  lemma YearLongAfterWrite(allPredictions: map<int, Prediction>, id: int, pred: Prediction)
    requires YearLong(allPredictions) && |pred.forecast| == 12
    ensures YearLong(allPredictions[id := pred])
  {
  }

  /** Writing a plan with one entry per forecast month keeps the key order
      free of repeats and every listed plan in shape. */
  lemma ShapeAfterWrite(restockPlan: map<int, ProductPlan>, order: seq<int>, forecastMonths: seq<YearMonth>,
                        id: int, plan: ProductPlan)
    requires forall a, b :: 0 <= a < b < |order| ==> order[a] != order[b]
    requires forall x :: x in restockPlan <==> x in order
    requires PlanShape(restockPlan, order, forecastMonths)
    requires |plan.monthlyPlan| == |forecastMonths|
    requires forall i :: 0 <= i < |forecastMonths| ==> plan.monthlyPlan[i].month == forecastMonths[i]
    ensures var newOrder := if id in order then order else order + [id];
      && (forall a, b :: 0 <= a < b < |newOrder| ==> newOrder[a] != newOrder[b])
      && (forall x :: x in restockPlan[id := plan] <==> x in newOrder)
      && PlanShape(restockPlan[id := plan], newOrder, forecastMonths)
  {
  }

  /** A failed forecast keeps the loop's invariant. */
  lemma RecordedAfterFailure(engine: Engine, rows: seq<SalesRecord>, allMonths: seq<YearMonth>,
                             forecastMonths: seq<YearMonth>, products: seq<RankedProduct>, k: int,
                             allPredictions: map<int, Prediction>, restockPlan: map<int, ProductPlan>, order: seq<int>)
    requires 0 <= k < |products| && |forecastMonths| == 12
    requires ProductForecastOf(engine, rows, allMonths, products[k]).None?
    requires Recorded(engine, rows, allMonths, forecastMonths, products, k, allPredictions, restockPlan, order)
    ensures Recorded(engine, rows, allMonths, forecastMonths, products, k + 1, allPredictions, restockPlan, order)
  {
    PlannedStep(engine, rows, allMonths, products, k);
    StoredAfterFailure(engine, rows, allMonths, forecastMonths, products, k, allPredictions, restockPlan);
  }

  /** One more product adds its id to the planned ids exactly when its forecast succeeds. */
  lemma PlannedStep(engine: Engine, rows: seq<SalesRecord>, allMonths: seq<YearMonth>,
                    products: seq<RankedProduct>, k: int)
    requires 0 <= k < |products|
    ensures forall id :: Planned(engine, rows, allMonths, products, k + 1, id) <==>
      Planned(engine, rows, allMonths, products, k, id)
      || (id == products[k].productId && ProductForecastOf(engine, rows, allMonths, products[k]).Some?)
  {
    forall id | Planned(engine, rows, allMonths, products, k + 1, id)
      ensures Planned(engine, rows, allMonths, products, k, id)
              || (id == products[k].productId && ProductForecastOf(engine, rows, allMonths, products[k]).Some?)
    {
      var j :| 0 <= j < k + 1 && products[j].productId == id && ProductForecastOf(engine, rows, allMonths, products[j]).Some?;
      if j < k {
        assert Planned(engine, rows, allMonths, products, k, id);
      }
    }
    forall id | Planned(engine, rows, allMonths, products, k, id)
      ensures Planned(engine, rows, allMonths, products, k + 1, id)
    {
      var j :| 0 <= j < k && products[j].productId == id && ProductForecastOf(engine, rows, allMonths, products[j]).Some?;
      assert 0 <= j < k + 1;
    }
    if ProductForecastOf(engine, rows, allMonths, products[k]).Some? {
      assert Planned(engine, rows, allMonths, products, k + 1, products[k].productId);
    }
  }

  /** Storing product k's entries under its id keeps every other id's entries
      and makes k the last writer of its own. */
  lemma StoredAfterWrite(engine: Engine, rows: seq<SalesRecord>, allMonths: seq<YearMonth>,
                         forecastMonths: seq<YearMonth>, products: seq<RankedProduct>, k: int,
                         allPredictions: map<int, Prediction>, restockPlan: map<int, ProductPlan>)
    requires 0 <= k < |products| && |forecastMonths| == 12
    requires ProductForecastOf(engine, rows, allMonths, products[k]).Some?
    requires Stored(engine, rows, allMonths, forecastMonths, products, k, allPredictions, restockPlan)
    ensures var p := products[k];
      var f := ProductForecastOf(engine, rows, allMonths, p).value;
      Stored(engine, rows, allMonths, forecastMonths, products, k + 1,
             allPredictions[p.productId := PredictionFor(p, f, MonthlyHistory(rows, p.productId, allMonths))],
             restockPlan[p.productId := PlanFor(p, f, forecastMonths)])
  {
    forall j | 0 <= j < k && LastWriter(engine, rows, allMonths, products, j, k + 1)
      ensures LastWriter(engine, rows, allMonths, products, j, k) && products[j].productId != products[k].productId
    {
    }
  }

  /** A failed forecast changes nothing, and the last writers stay the same. */
  lemma StoredAfterFailure(engine: Engine, rows: seq<SalesRecord>, allMonths: seq<YearMonth>,
                           forecastMonths: seq<YearMonth>, products: seq<RankedProduct>, k: int,
                           allPredictions: map<int, Prediction>, restockPlan: map<int, ProductPlan>)
    requires 0 <= k < |products| && |forecastMonths| == 12
    requires ProductForecastOf(engine, rows, allMonths, products[k]).None?
    requires Stored(engine, rows, allMonths, forecastMonths, products, k, allPredictions, restockPlan)
    ensures Stored(engine, rows, allMonths, forecastMonths, products, k + 1, allPredictions, restockPlan)
  {
    forall j | 0 <= j < k && LastWriter(engine, rows, allMonths, products, j, k + 1)
      ensures LastWriter(engine, rows, allMonths, products, j, k)
    {
    }
  }

  // ---------------------------------------------------------------------
  // Aggregation by month
  // ---------------------------------------------------------------------

  /** An entry of a month's 'products' list. */
  datatype ProductEntry = ProductEntry(productId: int, productName: string, forecast: real, restock: int)

  /** An entry of monthly_summary. */
  datatype MonthSummary = MonthSummary(totalForecastedSales: real, totalRestockQty: int, products: seq<ProductEntry>)

  /** The entry plan k listed in `order` contributes to month i; a plan
      without month i contributes nothing. */
  function EntryAt(plan: map<int, ProductPlan>, order: seq<int>, k: int, i: int): ProductEntry
    requires 0 <= k < |order|
  {
    var id := order[k];
    if id in plan && 0 <= i < |plan[id].monthlyPlan| then
      var m := plan[id].monthlyPlan[i];
      ProductEntry(id, plan[id].productName, m.forecastedSales, m.restockQty)
    else ProductEntry(id, "", 0.0, 0)
  }

  function ForecastTotal(entries: seq<ProductEntry>): real
    decreases |entries|
  {
    if |entries| == 0 then 0.0 else ForecastTotal(entries[..|entries| - 1]) + entries[|entries| - 1].forecast
  }

  function RestockTotal(entries: seq<ProductEntry>): int
    decreases |entries|
  {
    if |entries| == 0 then 0 else RestockTotal(entries[..|entries| - 1]) + entries[|entries| - 1].restock
  }

  /** The summary of month i after the aggregation loop has visited the
      first n plans listed in `order`. */
  function ColumnSummary(plan: map<int, ProductPlan>, order: seq<int>, n: int, i: int): MonthSummary
    requires 0 <= n <= |order|
    decreases n
  {
    if n == 0 then MonthSummary(0.0, 0, [])
    else
      var prev := ColumnSummary(plan, order, n - 1, i);
      var e := EntryAt(plan, order, n - 1, i);
      MonthSummary(prev.totalForecastedSales + e.forecast, prev.totalRestockQty + e.restock, prev.products + [e])
  }

  /** The summary lists month i's entry of every visited plan, in plan
      order, and its totals are the sums over that list. */
  lemma ColumnSummaryMeaning(plan: map<int, ProductPlan>, order: seq<int>, n: nat, i: int)
    requires n <= |order|
    ensures var c := ColumnSummary(plan, order, n, i);
      && |c.products| == n
      && (forall k :: 0 <= k < n ==> c.products[k] == EntryAt(plan, order, k, i))
      && c.totalForecastedSales == ForecastTotal(c.products)
      && c.totalRestockQty == RestockTotal(c.products)
  {
    ColumnProducts(plan, order, n, i);
    SummaryTotals(plan, order, n, i);
  }

  lemma {:induction false} ColumnProducts(plan: map<int, ProductPlan>, order: seq<int>, n: nat, i: int)
    requires n <= |order|
    ensures var c := ColumnSummary(plan, order, n, i);
      |c.products| == n && forall k :: 0 <= k < n ==> c.products[k] == EntryAt(plan, order, k, i)
    decreases n
  {
    if n > 0 {
      ColumnProducts(plan, order, n - 1, i);
      var prev := ColumnSummary(plan, order, n - 1, i).products;
      var c := ColumnSummary(plan, order, n, i).products;
      assert c == prev + [EntryAt(plan, order, n - 1, i)];
      assert forall k :: 0 <= k < n - 1 ==> c[k] == prev[k];
    }
  }

  lemma {:induction false} SummaryTotals(plan: map<int, ProductPlan>, order: seq<int>, n: nat, i: int)
    requires n <= |order|
    ensures var c := ColumnSummary(plan, order, n, i);
      c.totalForecastedSales == ForecastTotal(c.products) && c.totalRestockQty == RestockTotal(c.products)
    decreases n
  {
    if n > 0 {
      SummaryTotals(plan, order, n - 1, i);
      var prev := ColumnSummary(plan, order, n - 1, i);
      var e := EntryAt(plan, order, n - 1, i);
      ForecastTotalSnoc(prev.products, e);
    }
  }

  lemma ForecastTotalSnoc(entries: seq<ProductEntry>, e: ProductEntry)
    ensures ForecastTotal(entries + [e]) == ForecastTotal(entries) + e.forecast
    ensures RestockTotal(entries + [e]) == RestockTotal(entries) + e.restock
  {
    assert (entries + [e])[..|entries|] == entries;
  }

  /** The first aggregation loop: an empty summary for every forecast month. */
  method EmptySummaries(forecastMonths: seq<YearMonth>) returns (monthlySummary: map<YearMonth, MonthSummary>)
    ensures forall m :: m in monthlySummary <==> m in forecastMonths
    ensures forall m :: m in monthlySummary ==> monthlySummary[m] == MonthSummary(0.0, 0, [])
  {
    monthlySummary := map[];
    for i := 0 to |forecastMonths|
      invariant forall m :: m in monthlySummary <==> m in forecastMonths[..i]
      invariant forall m :: m in monthlySummary ==> monthlySummary[m] == MonthSummary(0.0, 0, [])
    {
      assert forecastMonths[..i + 1] == forecastMonths[..i] + [forecastMonths[i]];
      monthlySummary := monthlySummary[forecastMonths[i] := MonthSummary(0.0, 0, [])];
    }
    assert forecastMonths[..|forecastMonths|] == forecastMonths;
  }

  /** One pass of the inner aggregation loop: the k-th planned product adds
      its month-j forecast and restock to month j's summary. */
  method AddProductMonths(monthlySummary: map<YearMonth, MonthSummary>, forecastMonths: seq<YearMonth>,
                          restockPlan: map<int, ProductPlan>, order: seq<int>, k: nat)
    returns (updated: map<YearMonth, MonthSummary>)
    requires k < |order|
    requires forall i, j :: 0 <= i < j < |forecastMonths| ==> forecastMonths[i] != forecastMonths[j]
    requires order[k] in restockPlan && |restockPlan[order[k]].monthlyPlan| == |forecastMonths|
    requires forall j :: 0 <= j < |forecastMonths| ==> restockPlan[order[k]].monthlyPlan[j].month == forecastMonths[j]
    requires forall m :: m in monthlySummary <==> m in forecastMonths
    requires forall i :: 0 <= i < |forecastMonths| ==>
      monthlySummary[forecastMonths[i]] == ColumnSummary(restockPlan, order, k, i)
    ensures forall m :: m in updated <==> m in forecastMonths
    ensures forall i :: 0 <= i < |forecastMonths| ==>
      updated[forecastMonths[i]] == ColumnSummary(restockPlan, order, k + 1, i)
  {
    updated := monthlySummary;
    var productId := order[k];
    var plan := restockPlan[productId];
    for j := 0 to |plan.monthlyPlan|
      invariant forall m :: m in updated <==> m in forecastMonths
      invariant forall i :: 0 <= i < j ==>
        updated[forecastMonths[i]] == ColumnSummary(restockPlan, order, k + 1, i)
      invariant forall i :: j <= i < |forecastMonths| ==>
        updated[forecastMonths[i]] == ColumnSummary(restockPlan, order, k, i)
    {
      var monthPlan := plan.monthlyPlan[j];
      var month := monthPlan.month;
      var s := updated[month];
      var entry := ProductEntry(productId, plan.productName, monthPlan.forecastedSales, monthPlan.restockQty);
      SummaryStep(updated, forecastMonths, restockPlan, order, k, j);
      updated := updated[month := MonthSummary(s.totalForecastedSales + monthPlan.forecastedSales,
                                               s.totalRestockQty + monthPlan.restockQty,
                                               s.products + [entry])];
    }
  }

  /** Adding plan k's month j to month j's summary moves month j from k plans
      to k + 1 plans and leaves the other months as they are. */
  lemma SummaryStep(summary: map<YearMonth, MonthSummary>, forecastMonths: seq<YearMonth>,
                    restockPlan: map<int, ProductPlan>, order: seq<int>, k: nat, j: nat)
    requires k < |order| && j < |forecastMonths|
    requires forall a, b :: 0 <= a < b < |forecastMonths| ==> forecastMonths[a] != forecastMonths[b]
    requires order[k] in restockPlan && |restockPlan[order[k]].monthlyPlan| == |forecastMonths|
    requires restockPlan[order[k]].monthlyPlan[j].month == forecastMonths[j]
    requires forall m :: m in summary <==> m in forecastMonths
    requires forall i :: 0 <= i < j ==> summary[forecastMonths[i]] == ColumnSummary(restockPlan, order, k + 1, i)
    requires forall i :: j <= i < |forecastMonths| ==> summary[forecastMonths[i]] == ColumnSummary(restockPlan, order, k, i)
    ensures var plan := restockPlan[order[k]];
      var m := plan.monthlyPlan[j];
      var s := summary[m.month];
      var updated := summary[m.month := MonthSummary(s.totalForecastedSales + m.forecastedSales,
                                                     s.totalRestockQty + m.restockQty,
                                                     s.products + [ProductEntry(order[k], plan.productName, m.forecastedSales, m.restockQty)])];
      && (forall mo :: mo in updated <==> mo in forecastMonths)
      && (forall i :: 0 <= i < j + 1 ==> updated[forecastMonths[i]] == ColumnSummary(restockPlan, order, k + 1, i))
      && (forall i :: j + 1 <= i < |forecastMonths| ==> updated[forecastMonths[i]] == ColumnSummary(restockPlan, order, k, i))
  {
  }

  /** The aggregation loops: monthly_summary has one summary per forecast
      month whose totals are the column sums over the planned products and
      whose product list has one entry per planned product, in plan order. */
  method AggregateByMonth(forecastMonths: seq<YearMonth>, restockPlan: map<int, ProductPlan>, order: seq<int>)
    returns (monthlySummary: map<YearMonth, MonthSummary>)
    requires forall i, j :: 0 <= i < j < |forecastMonths| ==> forecastMonths[i] != forecastMonths[j]
    requires PlanShape(restockPlan, order, forecastMonths)
    ensures forall m :: m in monthlySummary <==> m in forecastMonths
    ensures forall i :: 0 <= i < |forecastMonths| ==>
      monthlySummary[forecastMonths[i]] == ColumnSummary(restockPlan, order, |order|, i)
  {
    monthlySummary := EmptySummaries(forecastMonths);
    for k := 0 to |order|
      invariant forall m :: m in monthlySummary <==> m in forecastMonths
      invariant forall i :: 0 <= i < |forecastMonths| ==>
        monthlySummary[forecastMonths[i]] == ColumnSummary(restockPlan, order, k, i)
    {
      monthlySummary := AddProductMonths(monthlySummary, forecastMonths, restockPlan, order, k);
    }
  }

  // ---------------------------------------------------------------------
  // Spikes and dips
  // ---------------------------------------------------------------------

  datatype Status = Spike | Dip | Normal

  /** A month's status against the mean of the monthly totals: a spike at or
      above 120% of it, otherwise a dip at or below 80% of it. */
  function StatusOf(total: real, mean: real): (r: Status)
    ensures r == Spike <==> total >= mean * 1.2
    ensures r == Dip <==> total < mean * 1.2 && total <= mean * 0.8
  {
    if total >= mean * 1.2 then Spike else if total <= mean * 0.8 then Dip else Normal
  }

  /** The months whose status is s, in month order. */
  function WithStatus(months: seq<YearMonth>, statuses: seq<Status>, s: Status): seq<YearMonth>
    requires |statuses| == |months|
    decreases |months|
  {
    if |months| == 0 then []
    else
      var n := |months| - 1;
      WithStatus(months[..n], statuses[..n], s) + (if statuses[n] == s then [months[n]] else [])
  }

  /** A month is listed under s exactly when some position with that month has status s. */
  lemma {:induction false} WithStatusMembers(months: seq<YearMonth>, statuses: seq<Status>, s: Status, m: YearMonth)
    requires |statuses| == |months|
    ensures m in WithStatus(months, statuses, s) <==> exists i :: 0 <= i < |months| && months[i] == m && statuses[i] == s
    decreases |months|
  {
    if |months| > 0 {
      var n := |months| - 1;
      WithStatusMembers(months[..n], statuses[..n], s, m);
      assert forall i :: 0 <= i < n ==> months[..n][i] == months[i] && statuses[..n][i] == statuses[i];
    }
  }

  /** The status loop: every month gets the status of its total, and spikes
      and dips are collected in month order. */
  method ClassifyMonths(forecastMonths: seq<YearMonth>, totals: seq<real>)
    returns (statuses: seq<Status>, spikeMonths: seq<YearMonth>, dipMonths: seq<YearMonth>)
    requires |totals| == |forecastMonths| > 0
    ensures |statuses| == |forecastMonths|
    ensures forall i :: 0 <= i < |statuses| ==> statuses[i] == StatusOf(totals[i], Mean(totals))
    ensures spikeMonths == WithStatus(forecastMonths, statuses, Spike)
    ensures dipMonths == WithStatus(forecastMonths, statuses, Dip)
  {
    var avgMonthlySales := Mean(totals);
    var spikeThreshold := avgMonthlySales * 1.2;
    var dipThreshold := avgMonthlySales * 0.8;
    statuses, spikeMonths, dipMonths := [], [], [];
    for i := 0 to |forecastMonths|
      invariant |statuses| == i
      invariant forall j :: 0 <= j < i ==> statuses[j] == StatusOf(totals[j], avgMonthlySales)
      invariant spikeMonths == WithStatus(forecastMonths[..i], statuses, Spike)
      invariant dipMonths == WithStatus(forecastMonths[..i], statuses, Dip)
    {
      var forecasted := totals[i];
      var status: Status;
      if forecasted >= spikeThreshold {
        status := Spike;
        spikeMonths := spikeMonths + [forecastMonths[i]];
      } else if forecasted <= dipThreshold {
        status := Dip;
        dipMonths := dipMonths + [forecastMonths[i]];
      } else {
        status := Normal;
      }
      assert forecastMonths[..i + 1][..i] == forecastMonths[..i];
      assert (statuses + [status])[..i] == statuses;
      statuses := statuses + [status];
    }
    assert forecastMonths[..|forecastMonths|] == forecastMonths;
  }

  /** With a positive mean, not every month is a spike and not every month is
      a dip. */
  lemma NotAllSpikesOrDips(totals: seq<real>)
    requires |totals| > 0 && Mean(totals) > 0.0
    ensures exists i :: 0 <= i < |totals| && StatusOf(totals[i], Mean(totals)) != Spike
    ensures exists i :: 0 <= i < |totals| && StatusOf(totals[i], Mean(totals)) != Dip
  {
    MeanBetweenExtremes(totals);
    var m := Mean(totals);
    assert StatusOf(totals[ArgMin(totals, |totals|)], m) != Spike by {
      assert m < m * 1.2;
    }
    assert StatusOf(totals[ArgMax(totals, |totals|)], m) != Dip by {
      assert m * 0.8 < m;
    }
  }

  /** When every monthly total is zero the thresholds are zero too, and every
      month counts as a spike. */
  lemma AllZeroMonthsAreSpikes(totals: seq<real>)
    requires |totals| > 0 && forall i :: 0 <= i < |totals| ==> totals[i] == 0.0
    ensures forall i :: 0 <= i < |totals| ==> StatusOf(totals[i], Mean(totals)) == Spike
  {
    SumLowerBound(totals, 0.0);
    SumUpperBound(totals, 0.0);
  }

  // ---------------------------------------------------------------------
  // Priorities
  // ---------------------------------------------------------------------

  /** An entry of product_priorities. */
  datatype Priority = Priority(productId: int, productName: string, avgForecast: real, revenue: real)

  /** The loop over all_predictions: one priority per prediction, in the
      dictionary's key order. */
  method CollectPriorities(allPredictions: map<int, Prediction>, order: seq<int>) returns (priorities: seq<Priority>)
    requires forall k :: 0 <= k < |order| ==> order[k] in allPredictions && |allPredictions[order[k]].forecast| > 0
    ensures |priorities| == |order|
    ensures forall k :: 0 <= k < |order| ==>
      var pred := allPredictions[order[k]];
      priorities[k] == Priority(order[k], pred.productName, Mean(pred.forecast), pred.totalRevenue)
  {
    priorities := [];
    for k := 0 to |order|
      invariant |priorities| == k
      invariant forall j :: 0 <= j < k ==>
        var pred := allPredictions[order[j]];
        priorities[j] == Priority(order[j], pred.productName, Mean(pred.forecast), pred.totalRevenue)
    {
      var pred := allPredictions[order[k]];
      priorities := priorities + [Priority(order[k], pred.productName, Mean(pred.forecast), pred.totalRevenue)];
    }
  }

  ghost predicate NonIncreasing(s: seq<Priority>) {
    forall i, j :: 0 <= i < j < |s| ==> s[j].avgForecast <= s[i].avgForecast
  }

  /** Inserts p after every leading entry whose average forecast is at least p's. */
  function Insert(p: Priority, s: seq<Priority>): (r: seq<Priority>)
    ensures |r| == |s| + 1
    ensures multiset(r) == multiset(s) + multiset{p}
    decreases |s|
  {
    if |s| == 0 then [p]
    else if s[0].avgForecast >= p.avgForecast then
      assert s == [s[0]] + s[1..];
      [s[0]] + Insert(p, s[1..])
    else [p] + s
  }

  /** Inserting into a non-increasing list keeps it non-increasing. */
  lemma {:induction false} InsertKeepsOrder(p: Priority, s: seq<Priority>)
    requires NonIncreasing(s)
    ensures NonIncreasing(Insert(p, s))
    decreases |s|
  {
    if |s| > 0 && s[0].avgForecast >= p.avgForecast {
      var tail := s[1..];
      var rest := Insert(p, tail);
      assert NonIncreasing(tail) by {
        assert forall i :: 0 <= i < |tail| ==> tail[i] == s[i + 1];
      }
      InsertKeepsOrder(p, tail);
      HeadBoundsInsert(p, s);
      ConsNonIncreasing(s[0], rest);
      assert Insert(p, s) == [s[0]] + rest;
    }
  }

  /** When p stays behind the head of a non-increasing list, the head's
      average bounds every entry after it once p is inserted. */
  lemma HeadBoundsInsert(p: Priority, s: seq<Priority>)
    requires NonIncreasing(s) && |s| > 0 && s[0].avgForecast >= p.avgForecast
    ensures forall j :: 0 <= j < |Insert(p, s[1..])| ==> Insert(p, s[1..])[j].avgForecast <= s[0].avgForecast
  {
    var tail := s[1..];
    var rest := Insert(p, tail);
    forall j | 0 <= j < |rest|
      ensures rest[j].avgForecast <= s[0].avgForecast
    {
      assert rest[j] in multiset(rest);
      if rest[j] != p {
        assert rest[j] in multiset(tail);
        var t :| 0 <= t < |tail| && tail[t] == rest[j];
        assert s[t + 1] == rest[j];
      }
    }
  }

  /** A head at least every entry of a non-increasing list keeps it non-increasing. */
  lemma ConsNonIncreasing(a: Priority, s: seq<Priority>)
    requires NonIncreasing(s)
    requires forall j :: 0 <= j < |s| ==> s[j].avgForecast <= a.avgForecast
    ensures NonIncreasing([a] + s)
  {
    forall i, j | 0 <= i < j < |[a] + s|
      ensures ([a] + s)[j].avgForecast <= ([a] + s)[i].avgForecast
    {
      assert ([a] + s)[j] == s[j - 1];
      if i > 0 {
        assert ([a] + s)[i] == s[i - 1];
      }
    }
  }

  /** product_priorities.sort(key=avg_forecast, reverse=True), as an
      insertion sort. */
  function SortByForecast(s: seq<Priority>): (r: seq<Priority>)
    ensures |r| == |s|
    ensures multiset(r) == multiset(s)
    decreases |s|
  {
    if |s| == 0 then []
    else
      var n := |s| - 1;
      assert s == s[..n] + [s[n]];
      Insert(s[n], SortByForecast(s[..n]))
  }

  /** The sorted priorities are non-increasing in average forecast. */
  lemma {:induction false} SortByForecastOrdered(s: seq<Priority>)
    ensures NonIncreasing(SortByForecast(s))
    decreases |s|
  {
    if |s| > 0 {
      var n := |s| - 1;
      var sorted := SortByForecast(s[..n]);
      SortByForecastOrdered(s[..n]);
      InsertKeepsOrder(s[n], sorted);
      assert SortByForecast(s) == Insert(s[n], sorted);
    }
  }

  datatype Tier = High | Medium | Low

  /** The priority label: HIGH from 30, MEDIUM from 15, LOW below. */
  function TierOf(avgForecast: real): Tier {
    if avgForecast >= 30.0 then High else if avgForecast >= 15.0 then Medium else Low
  }

  function TierRank(t: Tier): (r: nat)
    ensures r <= 2
  {
    match t
    case High => 2
    case Medium => 1
    case Low => 0
  }

  /** Tiers never rise along the sorted priorities. */
  lemma SortedTiers(s: seq<Priority>)
    requires NonIncreasing(s)
    ensures forall i, j :: 0 <= i < j < |s| ==> TierRank(TierOf(s[j].avgForecast)) <= TierRank(TierOf(s[i].avgForecast))
  {
  }

  // ---------------------------------------------------------------------
  // Totals
  // ---------------------------------------------------------------------

  /** The monthly totals in month order (monthly_summary.values()). */
  function MonthlyTotals(summary: map<YearMonth, MonthSummary>, months: seq<YearMonth>): (r: seq<real>)
    requires forall i :: 0 <= i < |months| ==> months[i] in summary
    ensures |r| == |months|
  {
    seq(|months|, i requires 0 <= i < |months| => summary[months[i]].totalForecastedSales)
  }

  function MonthlyRestockTotals(summary: map<YearMonth, MonthSummary>, months: seq<YearMonth>): (r: seq<int>)
    requires forall i :: 0 <= i < |months| ==> months[i] in summary
    ensures |r| == |months|
  {
    seq(|months|, i requires 0 <= i < |months| => summary[months[i]].totalRestockQty)
  }

  /** A product plan's forecast values. */
  function PlanForecasts(p: ProductPlan): (r: seq<real>)
    ensures |r| == |p.monthlyPlan|
  {
    seq(|p.monthlyPlan|, i requires 0 <= i < |p.monthlyPlan| => p.monthlyPlan[i].forecastedSales)
  }

  /** The month totals of the first k plans, month by month. */
  function ColumnTotals(plan: map<int, ProductPlan>, order: seq<int>, k: int, n: nat): (r: seq<real>)
    requires 0 <= k <= |order|
    ensures |r| == n
  {
    seq(n, i requires 0 <= i < n => ColumnSummary(plan, order, k, i).totalForecastedSales)
  }

  /** The forecast sums of the first k plans, plan by plan. */
  function PlanTotals(plan: map<int, ProductPlan>, order: seq<int>, k: int): (r: seq<real>)
    requires 0 <= k <= |order| && forall j :: 0 <= j < |order| ==> order[j] in plan
    ensures |r| == k
  {
    seq(k, j requires 0 <= j < k => Sum(PlanForecasts(plan[order[j]])))
  }

  /** With no plan counted every month total is zero. */
  lemma NoPlansNoTotal(plan: map<int, ProductPlan>, order: seq<int>, n: nat)
    ensures Sum(ColumnTotals(plan, order, 0, n)) == 0.0
  {
    var cols := ColumnTotals(plan, order, 0, n);
    SumLowerBound(cols, 0.0);
    SumUpperBound(cols, 0.0);
  }

  /** Month by month, plan k adds its own forecast. */
  lemma ColumnTotalsStep(plan: map<int, ProductPlan>, order: seq<int>, k: nat, n: nat)
    requires k < |order|
    requires forall j :: 0 <= j < |order| ==> order[j] in plan && |plan[order[j]].monthlyPlan| == n
    ensures Sum(ColumnTotals(plan, order, k + 1, n)) ==
            Sum(ColumnTotals(plan, order, k, n)) + Sum(PlanForecasts(plan[order[k]]))
  {
    var cols := ColumnTotals(plan, order, k + 1, n);
    var prevCols := ColumnTotals(plan, order, k, n);
    var last := PlanForecasts(plan[order[k]]);
    assert forall i :: 0 <= i < n ==> cols[i] == prevCols[i] + last[i];
    SumPointwise(prevCols, last, cols);
  }

  /** Summing the month columns is summing the product rows: the total
      forecast over the months is the sum of every product's forecast. */
  lemma {:induction false} TotalsByProduct(plan: map<int, ProductPlan>, order: seq<int>, k: nat, n: nat)
    requires k <= |order|
    requires forall j :: 0 <= j < |order| ==> order[j] in plan && |plan[order[j]].monthlyPlan| == n
    ensures Sum(ColumnTotals(plan, order, k, n)) == Sum(PlanTotals(plan, order, k))
    decreases k
  {
    if k == 0 {
      NoPlansNoTotal(plan, order, n);
    } else {
      TotalsByProduct(plan, order, k - 1, n);
      ColumnTotalsStep(plan, order, k - 1, n);
      assert PlanTotals(plan, order, k)[..k - 1] == PlanTotals(plan, order, k - 1);
    }
  }

  /** The report's total forecast, a sum over the month summaries, is the
      sum of every planned product's twelve-month forecast. */
  lemma GrandTotalByProduct(summary: map<YearMonth, MonthSummary>, months: seq<YearMonth>,
                            plan: map<int, ProductPlan>, order: seq<int>)
    requires forall i :: 0 <= i < |months| ==> months[i] in summary
    requires forall i :: 0 <= i < |months| ==> summary[months[i]] == ColumnSummary(plan, order, |order|, i)
    requires forall j :: 0 <= j < |order| ==> order[j] in plan && |plan[order[j]].monthlyPlan| == |months|
    ensures Sum(MonthlyTotals(summary, months)) == Sum(PlanTotals(plan, order, |order|))
  {
    SumExtensional(MonthlyTotals(summary, months), ColumnTotals(plan, order, |order|, |months|));
    TotalsByProduct(plan, order, |order|, |months|);
  }

  // ---------------------------------------------------------------------
  // The analysis
  // ---------------------------------------------------------------------

  /** What the analysis computes, report formatting aside. */
  datatype Report = Report(
    allMonths: seq<YearMonth>,
    forecastMonths: seq<YearMonth>,
    allPredictions: map<int, Prediction>,
    restockPlan: map<int, ProductPlan>,
    planOrder: seq<int>,
    monthlySummary: map<YearMonth, MonthSummary>,
    statuses: seq<Status>,
    spikeMonths: seq<YearMonth>,
    dipMonths: seq<YearMonth>,
    priorities: seq<Priority>,
    totalForecasted: real,
    totalRestock: int)

  /** The aggregation loops and the grand totals. */
  method SummarizeMonths(forecastMonths: seq<YearMonth>, restockPlan: map<int, ProductPlan>, order: seq<int>)
    returns (monthlySummary: map<YearMonth, MonthSummary>, totalForecasted: real, totalRestock: int)
    requires forall i, j :: 0 <= i < j < |forecastMonths| ==> forecastMonths[i] != forecastMonths[j]
    requires PlanShape(restockPlan, order, forecastMonths)
    ensures forall m :: m in monthlySummary <==> m in forecastMonths
    ensures forall i :: 0 <= i < |forecastMonths| ==>
      monthlySummary[forecastMonths[i]] == ColumnSummary(restockPlan, order, |order|, i)
    ensures totalForecasted == Sum(MonthlyTotals(monthlySummary, forecastMonths))
    ensures totalForecasted == Sum(PlanTotals(restockPlan, order, |order|))
    ensures totalRestock == SumInt(MonthlyRestockTotals(monthlySummary, forecastMonths))
  {
    monthlySummary := AggregateByMonth(forecastMonths, restockPlan, order);
    totalForecasted := Sum(MonthlyTotals(monthlySummary, forecastMonths));
    GrandTotalByProduct(monthlySummary, forecastMonths, restockPlan, order);
    totalRestock := SumInt(MonthlyRestockTotals(monthlySummary, forecastMonths));
  }

  /** The priority of one stored prediction. */
  function PriorityOf(id: int, pred: Prediction): Priority
    requires |pred.forecast| > 0
  {
    Priority(id, pred.productName, Mean(pred.forecast), pred.totalRevenue)
  }

  /** The priorities in the dictionary's key order. */
  function PriorityList(allPredictions: map<int, Prediction>, order: seq<int>): (r: seq<Priority>)
    requires forall k :: 0 <= k < |order| ==> order[k] in allPredictions && |allPredictions[order[k]].forecast| > 0
    ensures |r| == |order|
  {
    seq(|order|, k requires 0 <= k < |order| => PriorityOf(order[k], allPredictions[order[k]]))
  }

  /** The priority list sorted by average forecast, highest first. */
  method RankPriorities(allPredictions: map<int, Prediction>, order: seq<int>) returns (priorities: seq<Priority>)
    requires forall k :: 0 <= k < |order| ==> order[k] in allPredictions && |allPredictions[order[k]].forecast| > 0
    ensures |priorities| == |order|
    ensures multiset(priorities) == multiset(PriorityList(allPredictions, order))
    ensures NonIncreasing(priorities)
  {
    var unsorted := CollectPriorities(allPredictions, order);
    assert unsorted == PriorityList(allPredictions, order);
    priorities := SortByForecast(unsorted);
    SortByForecastOrdered(unsorted);
  }

  /** The report's month ranges: every month from the earliest to the
      latest sale, and the twelve months after the latest. */
  ghost predicate ReportedMonths(rows: seq<SalesRecord>, rep: Report) {
    && EarliestMonth(rows).Some? && LatestMonth(rows).Some?
    && rep.allMonths == PeriodRange(MonthAt(EarliestMonth(rows).value), MonthAt(LatestMonth(rows).value))
    && rep.forecastMonths == ForecastMonths(LatestMonth(rows).value)
  }

  /** The report's dictionaries: exactly the ids of ranked products whose
      forecast succeeds, each with its last writer's entries; every plan in
      shape and every listed prediction twelve months long. */
  ghost predicate ReportedPlans(engine: Engine, rows: seq<SalesRecord>, products: seq<RankedProduct>, rep: Report) {
    && |rep.forecastMonths| == 12
    && (forall id :: id in rep.restockPlan <==>
          exists j :: 0 <= j < |products| && products[j].productId == id
                      && ProductForecastOf(engine, rows, rep.allMonths, products[j]).Some?)
    && Stored(engine, rows, rep.allMonths, rep.forecastMonths, products, |products|, rep.allPredictions, rep.restockPlan)
    && PlanShape(rep.restockPlan, rep.planOrder, rep.forecastMonths)
    && rep.planOrder == PlannedOrder(engine, rows, rep.allMonths, products, |products|)
    && (forall k :: 0 <= k < |rep.planOrder| ==>
          rep.planOrder[k] in rep.allPredictions && |rep.allPredictions[rep.planOrder[k]].forecast| == 12)
  }

  /** The report's month summaries and grand totals: month i lists every
      plan's month i, and the total forecast is both the sum of the month
      totals and the sum of the plans' totals. */
  ghost predicate ReportedSummary(rep: Report) {
    && (forall m :: m in rep.monthlySummary <==> m in rep.forecastMonths)
    && (forall i :: 0 <= i < |rep.forecastMonths| ==>
          rep.monthlySummary[rep.forecastMonths[i]] == ColumnSummary(rep.restockPlan, rep.planOrder, |rep.planOrder|, i))
    && rep.totalForecasted == Sum(MonthlyTotals(rep.monthlySummary, rep.forecastMonths))
    && (forall j :: 0 <= j < |rep.planOrder| ==> rep.planOrder[j] in rep.restockPlan)
    && rep.totalForecasted == Sum(PlanTotals(rep.restockPlan, rep.planOrder, |rep.planOrder|))
    && rep.totalRestock == SumInt(MonthlyRestockTotals(rep.monthlySummary, rep.forecastMonths))
  }

  /** The report's month statuses, against the mean of the month totals,
      and the spike and dip months in month order. */
  ghost predicate ReportedStatuses(rep: Report) {
    && (forall m :: m in rep.monthlySummary <==> m in rep.forecastMonths)
    && |rep.forecastMonths| > 0
    && |rep.statuses| == |rep.forecastMonths|
    && (forall i :: 0 <= i < |rep.statuses| ==>
          rep.statuses[i] == StatusOf(MonthlyTotals(rep.monthlySummary, rep.forecastMonths)[i],
                                      Mean(MonthlyTotals(rep.monthlySummary, rep.forecastMonths))))
    && rep.spikeMonths == WithStatus(rep.forecastMonths, rep.statuses, Spike)
    && rep.dipMonths == WithStatus(rep.forecastMonths, rep.statuses, Dip)
  }

  /** The report's priorities: one per planned product, highest average
      forecast first. */
  ghost predicate ReportedPriorities(rep: Report) {
    && (forall k :: 0 <= k < |rep.planOrder| ==>
          rep.planOrder[k] in rep.allPredictions && |rep.allPredictions[rep.planOrder[k]].forecast| > 0)
    && multiset(rep.priorities) == multiset(PriorityList(rep.allPredictions, rep.planOrder))
    && NonIncreasing(rep.priorities)
  }

  lemma YearLongAt(allPredictions: map<int, Prediction>, id: int)
    requires YearLong(allPredictions) && id in allPredictions
    ensures |allPredictions[id].forecast| == 12
  {
  }

  /** The report built from the planned products: the month summaries and
      totals, the month statuses, and the sorted priorities. */
  method SummarizePlans(allMonths: seq<YearMonth>, forecastMonths: seq<YearMonth>,
                        allPredictions: map<int, Prediction>, restockPlan: map<int, ProductPlan>, order: seq<int>)
    returns (rep: Report)
    requires |forecastMonths| == 12
    requires forall i, j :: 0 <= i < j < |forecastMonths| ==> forecastMonths[i] != forecastMonths[j]
    requires restockPlan.Keys == allPredictions.Keys
    requires forall id :: id in restockPlan <==> id in order
    requires PlanShape(restockPlan, order, forecastMonths)
    requires YearLong(allPredictions)
    ensures rep.allMonths == allMonths && rep.forecastMonths == forecastMonths
    ensures rep.allPredictions == allPredictions && rep.restockPlan == restockPlan && rep.planOrder == order
    ensures ReportedSummary(rep) && ReportedStatuses(rep) && ReportedPriorities(rep)
  {
    forall k | 0 <= k < |order|
      ensures order[k] in allPredictions && |allPredictions[order[k]].forecast| == 12
    {
      assert order[k] in restockPlan.Keys;
      YearLongAt(allPredictions, order[k]);
    }
    var monthlySummary, totalForecasted, totalRestock := SummarizeMonths(forecastMonths, restockPlan, order);

    var totals := MonthlyTotals(monthlySummary, forecastMonths);
    var statuses, spikeMonths, dipMonths := ClassifyMonths(forecastMonths, totals);

    var priorities := RankPriorities(allPredictions, order);
    rep := Report(allMonths, forecastMonths, allPredictions, restockPlan, order, monthlySummary,
                  statuses, spikeMonths, dipMonths, priorities, totalForecasted, totalRestock);
    assert ReportedSummary(rep);
    assert ReportedStatuses(rep);
    assert ReportedPriorities(rep);
  }

  /** analyze_restock_predictions over the rows and the revenue ranking of
      (product_id, product_name) pairs: None when no date parses (the
      period range then cannot be built). */
  method AnalyzeRestockPredictions(engine: Engine, rows: seq<SalesRecord>, products: seq<RankedProduct>)
    returns (r: Option<Report>)
    ensures r.None? <==> forall j :: 0 <= j < |rows| ==> rows[j].usDate.None?
    ensures r.Some? ==>
      && ReportedMonths(rows, r.value)
      && ReportedPlans(engine, rows, products, r.value)
      && ReportedSummary(r.value)
      && ReportedStatuses(r.value)
      && ReportedPriorities(r.value)
  {
    var first := EarliestMonth(rows);
    var last := LatestMonth(rows);
    if first.None? {
      return None;
    }
    var allMonths := PeriodRange(MonthAt(first.value), MonthAt(last.value));
    var forecastMonths := ForecastMonths(last.value);
    ForecastMonthsConsecutive(last.value);

    var allPredictions, restockPlan, order := PlanProducts(engine, rows, products, allMonths, forecastMonths);
    var rep := SummarizePlans(allMonths, forecastMonths, allPredictions, restockPlan, order);
    assert ReportedMonths(rows, rep);
    assert ReportedPlans(engine, rows, products, rep);
    return Some(rep);
  }
}
