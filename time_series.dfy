/** What the two ARIMA scripts share: the (p, d, q) orders, the statistical
    engine they call (statsmodels' ARIMA and the augmented Dickey-Fuller test,
    both foreign and taken here as an oracle), first differencing, and the
    rule both order searches use to keep a fitted model. */
module TimeSeries {
  import opened Numbers

  /** An ARIMA order (p, d, q). */
  datatype Order = Order(p: nat, d: nat, q: nat)

  /** The 'method' label a forecast carries. */
  datatype ForecastMethod =
    | Arima              // 'ARIMA'
    | WeightedAverage    // 'weighted_average'
    | MovingAverage      // 'moving_average'
    | IntelligentAverage // 'intelligent_average'
    | Average            // 'average'

  /** A fitted model: the series it was fitted to, its order and its AIC. */
  datatype FittedModel = FittedModel(series: seq<real>, order: Order, aic: real)

  /** The statistical engine, as an oracle.
      - isStationary: test_stationarity (ADF p-value <= 0.05; a test that
        raises reads as false, as both scripts do);
      - aic: the AIC of ARIMA(series, order).fit(), or None if fitting raises;
      - forecastFails: whether model.forecast(...) raises for this model;
      - forecastStep: the model's i-th forecast value (0-based);
      - std: np.std of a list of floats. */
  datatype Engine = Engine(
    isStationary: seq<real> -> bool,
    aic: (seq<real>, Order) -> Option<real>,
    forecastFails: FittedModel -> bool,
    forecastStep: (FittedModel, nat) -> real,
    std: seq<real> -> real)

  /** model.forecast(steps=n), as far as the oracle answers it. */
  function Forecast(engine: Engine, model: FittedModel, n: nat): (r: seq<real>)
    ensures |r| == n
    ensures forall i :: 0 <= i < n ==> r[i] == engine.forecastStep(model, i)
  {
    seq(n, (i: nat) => engine.forecastStep(model, i))
  }

  /** ts.diff().dropna(): the n - 1 successive differences. */
  function Diff(ts: seq<real>): seq<real>
  {
    if |ts| == 0 then [] else seq(|ts| - 1, i requires 0 <= i < |ts| - 1 => ts[i + 1] - ts[i])
  }

  /** make_stationary: the differenced series when it is non-empty, else the
      series itself (with exact reals the differences are never all NaN). */
  function MakeStationary(ts: seq<real>): (r: seq<real>)
    ensures |ts| >= 2 ==> |r| == |ts| - 1
    ensures |ts| < 2 ==> r == ts
  {
    var diff := Diff(ts);
    if |diff| > 0 then diff else ts
  }

  /** Differencing loses nothing but the first value: summing the first k
      differences onto ts[0] gives back ts[k]. */
  lemma {:induction false} DiffPrefixSum(ts: seq<real>, k: nat)
    requires k < |ts|
    ensures ts[k] == ts[0] + Sum(Diff(ts)[..k])
  {
    if k > 0 {
      DiffPrefixSum(ts, k - 1);
      assert Diff(ts)[..k][..k - 1] == Diff(ts)[..k - 1];
    }
  }

  /** make_stationary followed by cumulative summation restores the series. */
  lemma MakeStationaryInverse(ts: seq<real>, k: nat)
    requires 2 <= |ts| && k < |ts|
    ensures ts[k] == ts[0] + Sum(MakeStationary(ts)[..k])
  {
    DiffPrefixSum(ts, k);
  }

  /** One step of the search loop: fit `o`; keep it when the fit succeeds and
      its AIC is strictly below the best so far (the first best is below +inf). */
  function Consider(engine: Engine, ts: seq<real>, best: Option<FittedModel>, o: Order): Option<FittedModel>
  {
    match engine.aic(ts, o)
    case None => best
    case Some(a) => if best.None? || a < best.value.aic then Some(FittedModel(ts, o, a)) else best
  }

  /** The model the search keeps after trying `orders` in sequence. */
  function BestFit(engine: Engine, ts: seq<real>, orders: seq<Order>): Option<FittedModel>
    decreases |orders|
  {
    if |orders| == 0 then None
    else Consider(engine, ts, BestFit(engine, ts, orders[..|orders| - 1]), orders[|orders| - 1])
  }

  /** Trying one more order after a prefix of the candidates. */
  lemma BestFitStep(engine: Engine, ts: seq<real>, orders: seq<Order>, k: nat)
    requires k < |orders|
    ensures BestFit(engine, ts, orders[..k + 1]) == Consider(engine, ts, BestFit(engine, ts, orders[..k]), orders[k])
  {
    assert orders[..k + 1][..k] == orders[..k];
  }

  /** No model is kept exactly when every candidate order fails to fit. */
  lemma {:induction false} BestFitNone(engine: Engine, ts: seq<real>, orders: seq<Order>)
    ensures BestFit(engine, ts, orders).None? <==>
            forall j :: 0 <= j < |orders| ==> engine.aic(ts, orders[j]).None?
    decreases |orders|
  {
    if |orders| > 0 {
      var n := |orders| - 1;
      BestFitNone(engine, ts, orders[..n]);
      assert forall j :: 0 <= j < n ==> orders[..n][j] == orders[j];
    }
  }

  /** The kept model is fitted to `ts` with a candidate order whose AIC it
      carries; no candidate has a smaller AIC, and every earlier candidate
      either failed or had a strictly larger AIC (the first minimum wins). */
  lemma {:induction false} BestFitIsFirstMinimum(engine: Engine, ts: seq<real>, orders: seq<Order>)
    requires BestFit(engine, ts, orders).Some?
    ensures var m := BestFit(engine, ts, orders).value;
      && m.series == ts
      && (forall j :: 0 <= j < |orders| && engine.aic(ts, orders[j]).Some? ==> m.aic <= engine.aic(ts, orders[j]).value)
      && exists k :: 0 <= k < |orders| && orders[k] == m.order && engine.aic(ts, orders[k]) == Some(m.aic)
           && forall j :: 0 <= j < k ==> engine.aic(ts, orders[j]).None? || m.aic < engine.aic(ts, orders[j]).value
    decreases |orders|
  {
    var n := |orders| - 1;
    var prefix := orders[..n];
    var prev := BestFit(engine, ts, prefix);
    var m := BestFit(engine, ts, orders).value;
    assert forall j :: 0 <= j < n ==> prefix[j] == orders[j];
    if prev.Some? && prev == BestFit(engine, ts, orders) {
      BestFitIsFirstMinimum(engine, ts, prefix);
      var k :| 0 <= k < n && prefix[k] == m.order && engine.aic(ts, prefix[k]) == Some(m.aic)
               && forall j :: 0 <= j < k ==> engine.aic(ts, prefix[j]).None? || m.aic < engine.aic(ts, prefix[j]).value;
      assert orders[k] == m.order;
    } else {
      // the last order is the one kept
      assert m.order == orders[n] && engine.aic(ts, orders[n]) == Some(m.aic);
      if prev.Some? {
        BestFitIsFirstMinimum(engine, ts, prefix);
      } else {
        BestFitNone(engine, ts, prefix);
      }
    }
  }
}
