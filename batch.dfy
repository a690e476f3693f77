/** The batch run over every product (predict_all_products): a daily
    forecast and a restock suggestion for each product with a dated sale. */
module BatchPrediction {
  import opened Numbers
  import opened Sales
  import opened TimeSeries
  import opened ProductForecast

  /** The batch run's settings: no stock on hand, a reorder level of 10, a
      30-day horizon, and calculate_restock_suggestion's default lead time
      and safety days. */
  const DefaultCurrentStock: int := 0
  const DefaultReorderLevel: int := 10
  const DaysAhead: nat := 30
  const LeadTimeDays: int := 7
  const SafetyDays: int := 14

  // ---------------------------------------------------------------------
  // The product list
  // ---------------------------------------------------------------------

  /** The product ids of the rows whose '%m/%d/%Y' date parsed, in row order
      (the product_id column after dropna). */
  function DatedIds(rows: seq<SalesRecord>): (r: seq<int>)
    ensures forall id :: id in r <==> exists j :: 0 <= j < |rows| && rows[j].usDate.Some? && rows[j].productId == id
    decreases |rows|
  {
    if |rows| == 0 then []
    else
      var rest := DatedIds(rows[..|rows| - 1]);
      var row := rows[|rows| - 1];
      assert forall j :: 0 <= j < |rows| - 1 ==> rows[..|rows| - 1][j] == rows[j];
      if row.usDate.Some? then rest + [row.productId] else rest
  }

  predicate Increasing(s: seq<int>) {
    forall i, j :: 0 <= i < j < |s| ==> s[i] < s[j]
  }

  /** Inserts x into an ascending list unless it is already there. */
  function InsertUnique(x: int, s: seq<int>): (r: seq<int>)
    requires Increasing(s)
    ensures Increasing(r)
    ensures forall y :: y in r <==> y == x || y in s
    decreases |s|
  {
    if |s| == 0 then [x]
    else if x < s[0] then [x] + s
    else if x == s[0] then s
    else
      var rest := s[1..];
      TailIncreasing(s);
      var tail := InsertUnique(x, rest);
      ConsIncreasing(s[0], tail);
      [s[0]] + tail
  }

  /** The tail of an ascending list is ascending and above its head. */
  lemma TailIncreasing(s: seq<int>)
    requires Increasing(s) && |s| > 0
    ensures Increasing(s[1..])
    ensures forall y :: y in s[1..] ==> s[0] < y
  {
    assert forall i :: 0 <= i < |s| - 1 ==> s[1..][i] == s[i + 1];
  }

  /** A head below every element of an ascending list keeps it ascending. */
  lemma ConsIncreasing(a: int, t: seq<int>)
    requires Increasing(t)
    requires forall y :: y in t ==> a < y
    ensures Increasing([a] + t)
  {
    forall i, j | 0 <= i < j < |[a] + t|
      ensures ([a] + t)[i] < ([a] + t)[j]
    {
      assert ([a] + t)[j] == t[j - 1];
      assert t[j - 1] in t;
      if i > 0 {
        assert ([a] + t)[i] == t[i - 1];
      }
    }
  }

  /** sorted(ids.unique()): the distinct ids in ascending order. */
  function SortedUnique(ids: seq<int>): (r: seq<int>)
    ensures Increasing(r)
    ensures forall y :: y in r <==> y in ids
    decreases |ids|
  {
    if |ids| == 0 then []
    else
      var init := ids[..|ids| - 1];
      assert ids == init + [ids[|ids| - 1]];
      InsertUnique(ids[|ids| - 1], SortedUnique(init))
  }

  /** An ascending list lists each id once. */
  lemma IncreasingIsDistinct(s: seq<int>)
    requires Increasing(s)
    ensures forall i, j :: 0 <= i < |s| && 0 <= j < |s| && s[i] == s[j] ==> i == j
  {
  }

  /** The first dated row of the product at or after row k
      (product_data['product_name'].iloc[0] reads its name). */
  function FirstRow(rows: seq<SalesRecord>, id: int, k: nat): (r: Option<nat>)
    requires k <= |rows|
    ensures r.None? ==> forall i :: k <= i < |rows| ==> !(rows[i].usDate.Some? && rows[i].productId == id)
    ensures r.Some? ==>
      && k <= r.value < |rows| && rows[r.value].usDate.Some? && rows[r.value].productId == id
      && forall i :: k <= i < r.value ==> !(rows[i].usDate.Some? && rows[i].productId == id)
    decreases |rows| - k
  {
    if k == |rows| then None
    else if rows[k].usDate.Some? && rows[k].productId == id then Some(k)
    else FirstRow(rows, id, k + 1)
  }

  /** Every id of the product list has a first dated row. */
  lemma DatedHasFirstRow(rows: seq<SalesRecord>, id: int)
    requires id in DatedIds(rows)
    ensures FirstRow(rows, id, 0).Some?
  {
    var j :| 0 <= j < |rows| && rows[j].usDate.Some? && rows[j].productId == id;
  }

  // ---------------------------------------------------------------------
  // One product's result
  // ---------------------------------------------------------------------

  /** 'prediction_method': 'ARIMA' or 'AI-Enhanced'. */
  datatype Label = ArimaLabel | AiEnhanced

  function LabelOf(kind: ForecastMethod): (r: Label)
    ensures r == ArimaLabel <==> kind == Arima
  {
    if kind == Arima then ArimaLabel else AiEnhanced
  }

  /** An entry of the results list ('success' is always true there). */
  datatype ProductResult = ProductResult(
    productId: int,
    productName: string,
    forecast: ForecastResult,
    restock: RestockSuggestion,
    predictionMethod: Label)

  /** The ids, in list order, whose forecast succeeds: those with at least
      three transactions that forecast_product_sales can date. */
  function Forecastable(rows: seq<SalesRecord>, ids: seq<int>): (r: seq<int>)
    ensures |r| <= |ids|
    ensures forall id :: id in r <==> id in ids && |ProductSales(rows, id)| >= 3
    ensures Increasing(ids) ==> Increasing(r)
    decreases |ids|
  {
    if |ids| == 0 then []
    else
      var init := ids[..|ids| - 1];
      var id := ids[|ids| - 1];
      var rest := Forecastable(rows, init);
      assert ids == init + [id];
      InitIncreasing(ids);
      SnocIncreasing(rest, id);
      if |ProductSales(rows, id)| >= 3 then rest + [id] else rest
  }

  predicate AllBelow(t: seq<int>, a: int) {
    forall y :: y in t ==> y < a
  }

  /** The front of an ascending list is ascending and below its last element. */
  lemma InitIncreasing(s: seq<int>)
    requires |s| > 0
    ensures Increasing(s) ==> Increasing(s[..|s| - 1]) && AllBelow(s[..|s| - 1], s[|s| - 1])
  {
    assert forall i :: 0 <= i < |s| - 1 ==> s[..|s| - 1][i] == s[i];
  }

  /** A last element above every element of an ascending list keeps it ascending. */
  lemma SnocIncreasing(t: seq<int>, a: int)
    ensures Increasing(t) && AllBelow(t, a) ==> Increasing(t + [a])
  {
    if Increasing(t) && AllBelow(t, a) {
      forall i, j | 0 <= i < j < |t + [a]|
        ensures (t + [a])[i] < (t + [a])[j]
      {
        assert (t + [a])[i] == t[i];
        assert t[i] in t;
        if j < |t| {
          assert (t + [a])[j] == t[j];
        }
      }
    }
  }

  /** One more id joins the forecastable ids exactly when its forecast succeeds. */
  lemma ForecastableStep(rows: seq<SalesRecord>, ids: seq<int>, k: int)
    requires 0 <= k < |ids|
    ensures Forecastable(rows, ids[..k + 1]) ==
      if |ProductSales(rows, ids[k])| >= 3 then Forecastable(rows, ids[..k]) + [ids[k]] else Forecastable(rows, ids[..k])
  {
    assert ids[..k + 1][..k] == ids[..k];
  }

  /** What the batch run records for one product: its first dated row's
      name, the forecast forecast_product_sales makes over 30 days, the
      suggestion for that forecast at the batch settings, and the label of
      the forecast's method. */
  ghost predicate Describes(engine: Engine, rows: seq<SalesRecord>, res: ProductResult) {
    var first := FirstRow(rows, res.productId, 0);
    && first.Some?
    && res.productName == rows[first.value].productName
    && Predicted(engine, rows, res)
  }

  /** The forecast, suggestion and label recorded for one product. */
  ghost predicate Predicted(engine: Engine, rows: seq<SalesRecord>, res: ProductResult) {
    && |ProductSales(rows, res.productId)| >= 3
    && IsProductForecast(engine, ProductSales(rows, res.productId), DaysAhead, res.forecast)
    && Suggests(res.forecast, DefaultCurrentStock, DefaultReorderLevel, LeadTimeDays, SafetyDays, res.restock)
    && res.predictionMethod == LabelOf(res.forecast.kind)
  }

  function Ids(results: seq<ProductResult>): (r: seq<int>)
    ensures |r| == |results| && forall k :: 0 <= k < |results| ==> r[k] == results[k].productId
  {
    seq(|results|, k requires 0 <= k < |results| => results[k].productId)
  }

  /** Every result of the list describes its product. */
  ghost predicate AllDescribed(engine: Engine, rows: seq<SalesRecord>, results: seq<ProductResult>) {
    forall k :: 0 <= k < |results| ==> Describes(engine, rows, results[k])
  }

  lemma DescribedAppend(engine: Engine, rows: seq<SalesRecord>, results: seq<ProductResult>, res: ProductResult)
    requires AllDescribed(engine, rows, results)
    requires Describes(engine, rows, res)
    ensures AllDescribed(engine, rows, results + [res])
  {
    forall k | 0 <= k < |results| + 1
      ensures Describes(engine, rows, (results + [res])[k])
    {
      if k < |results| {
        assert (results + [res])[k] == results[k];
      }
    }
  }

  lemma IdsAppend(results: seq<ProductResult>, res: ProductResult)
    ensures Ids(results + [res]) == Ids(results) + [res.productId]
  {
    assert forall k :: 0 <= k < |results| ==> (results + [res])[k] == results[k];
  }

  // ---------------------------------------------------------------------
  // The batch loop
  // ---------------------------------------------------------------------

  /** predict_all_products: one result per product, in ascending id order,
      for exactly the products whose forecast succeeds; successful counts
      them and failed counts the rest. */
  method PredictAllProducts(engine: Engine, rows: seq<SalesRecord>)
    returns (results: seq<ProductResult>, successful: nat, failed: nat)
    ensures var uniqueProducts := SortedUnique(DatedIds(rows));
      && successful + failed == |uniqueProducts|
      && successful == |results|
      && Ids(results) == Forecastable(rows, uniqueProducts)
    ensures Increasing(Ids(results))
    ensures AllDescribed(engine, rows, results)
  {
    var uniqueProducts := SortedUnique(DatedIds(rows));
    results, successful, failed := [], 0, 0;
    for idx := 0 to |uniqueProducts|
      invariant Batched(engine, rows, uniqueProducts, idx, results, successful, failed)
    {
      results, successful, failed := PredictNext(engine, rows, uniqueProducts, idx, results, successful, failed);
    }
    assert uniqueProducts[..|uniqueProducts|] == uniqueProducts;
  }

  /** What the batch loop keeps after the first idx products of the list. */
  ghost predicate Batched(engine: Engine, rows: seq<SalesRecord>, ids: seq<int>, idx: int,
                          results: seq<ProductResult>, successful: nat, failed: nat)
  {
    && 0 <= idx <= |ids|
    && successful + failed == idx
    && successful == |results|
    && Ids(results) == Forecastable(rows, ids[..idx])
    && AllDescribed(engine, rows, results)
  }

  /** One pass of the batch loop: the product at idx, named by its first
      dated row, joins the results when its forecast succeeds and counts as
      failed otherwise. */
  method PredictNext(engine: Engine, rows: seq<SalesRecord>, ids: seq<int>, idx: int,
                     results: seq<ProductResult>, successful: nat, failed: nat)
    returns (results': seq<ProductResult>, successful': nat, failed': nat)
    requires idx < |ids| && forall y :: y in ids ==> y in DatedIds(rows)
    requires Batched(engine, rows, ids, idx, results, successful, failed)
    ensures Batched(engine, rows, ids, idx + 1, results', successful', failed')
  {
    var productId := ids[idx];
    DatedHasFirstRow(rows, productId);
    var first := FirstRow(rows, productId, 0);
    var productName := rows[first.value].productName;
    var result := PredictProduct(engine, rows, productId, productName);
    ForecastableStep(rows, ids, idx);
    if result.Some? {
      DescribedAppend(engine, rows, results, result.value);
      IdsAppend(results, result.value);
      results', successful', failed' := results + [result.value], successful + 1, failed;
    } else {
      results', successful', failed' := results, successful, failed + 1;
    }
  }

  /** The body of the batch loop for one product: its forecast, then the
      suggestion for that forecast; None when the forecast fails. */
  method PredictProduct(engine: Engine, rows: seq<SalesRecord>, productId: int, productName: string)
    returns (r: Option<ProductResult>)
    ensures r.None? <==> |ProductSales(rows, productId)| < 3
    ensures r.Some? ==>
      && r.value.productId == productId && r.value.productName == productName
      && Predicted(engine, rows, r.value)
  {
    var forecastResult := ForecastProductSales(engine, rows, productId, DaysAhead);
    if forecastResult.None? {
      return None;
    }
    var restockData := CalculateRestockSuggestion(forecastResult, DefaultCurrentStock, DefaultReorderLevel,
                                                  LeadTimeDays, SafetyDays);
    var f := forecastResult.value;
    var res := ProductResult(productId, productName, f, restockData.value, LabelOf(f.kind));
    assert Predicted(engine, rows, res);
    return Some(res);
  }

  // ---------------------------------------------------------------------
  // The method breakdown
  // ---------------------------------------------------------------------

  /** How many results used forecasting method m. */
  function CountKind(results: seq<ProductResult>, m: ForecastMethod): (r: nat)
    ensures r <= |results|
    decreases |results|
  {
    if |results| == 0 then 0
    else CountKind(results[..|results| - 1], m) + (if results[|results| - 1].forecast.kind == m then 1 else 0)
  }

  /** The method_counts loop: how many results used each method, for the
      methods that occur. */
  method CountMethods(results: seq<ProductResult>) returns (methodCounts: map<ForecastMethod, nat>)
    ensures forall m :: m in methodCounts <==> CountKind(results, m) > 0
    ensures forall m :: m in methodCounts ==> methodCounts[m] == CountKind(results, m)
  {
    methodCounts := map[];
    for i := 0 to |results|
      invariant forall m :: m in methodCounts <==> CountKind(results[..i], m) > 0
      invariant forall m :: m in methodCounts ==> methodCounts[m] == CountKind(results[..i], m)
    {
      assert results[..i + 1][..i] == results[..i];
      var m := results[i].forecast.kind;
      var count := if m in methodCounts then methodCounts[m] else 0;
      methodCounts := methodCounts[m := count + 1];
    }
    assert results[..|results|] == results;
  }

  /** Every result is counted under exactly one method. */
  lemma {:induction false} MethodCountsCoverResults(results: seq<ProductResult>)
    ensures CountKind(results, Arima) + CountKind(results, WeightedAverage) + CountKind(results, MovingAverage)
            + CountKind(results, IntelligentAverage) + CountKind(results, Average) == |results|
    decreases |results|
  {
    if |results| > 0 {
      MethodCountsCoverResults(results[..|results| - 1]);
    }
  }
}
