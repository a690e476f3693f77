# Motorparts forecasting services, modelled in Dafny

This project models the deterministic logic of four Python services in
`machine-learning/services/`:

- **`predict_product_arima.py`**: a daily forecast for one product and a restock suggestion built on it.
  - The forecast is a statsmodels ARIMA model when one fits and forecasts.
  - Otherwise it falls back to a weighted average, a moving average or an "intelligent" average.
  - The restock suggestion combines days to depletion, a variability buffer, an overstocking cap, a reorder-level floor, the "stock already sufficient" override and the risk labels.
- **`arima_restock_prediction.py`**: the 12-month restock plan.
  - It builds a zero-filled monthly history per product and searches a 16-order ARIMA grid.
  - It plans one restock quantity per forecast month.
  - It aggregates the plans month by month, classifies each month as a spike, a dip or normal, and ranks products by average forecast.
  - It computes the grand totals.
- **`prepare_motorparts_dataset.py`**: builds `motorparts_clean.csv`.
  - Column aliases are resolved case-insensitively, and values are coerced and rows filtered.
  - Files are concatenated in sorted path order.
  - Synthetic product ids are dense and assigned in first-appearance order; transaction ids are sequential.
- **`predict_all_products.py`**: the batch run over every product. It tallies successes and failures, labels each result and builds a method histogram.

The statistical engine is an oracle, `TimeSeries.Engine`, passed as a parameter. It answers:

- whether a series is stationary (the ADF test);
- the AIC of fitting an order to a series, or a failed fit;
- whether forecasting with a fitted model raises;
- each forecast step;
- `np.std`.

Everything around the engine is stated exactly, over `real` and `int`:

- `Ceil` models `int(np.ceil(x))`.
- `Trunc` models Python's `int()` applied to a float, which rounds toward zero.

Dates enter already parsed. A sales row carries two optional dates:

- `flexDate`: `pd.to_datetime` without a format, as `forecast_product_sales` reads it;
- `usDate`: the `'%m/%d/%Y'` format, as the other two scripts read it.

Modules, one per file:

- `Numbers`: Option, `Ceil`/`Trunc`, sums and means.
- `TimeSeries`:
  - the orders and the engine;
  - `make_stationary`;
  - the search for the first fit with the strictly smallest AIC, which both `fit_arima_model` copies share.
- `Calendar`: dates, month periods and period ranges.
- `Sales`: a row of the clean CSV.
- `ProductForecast`: `predict_product_arima.py`.
- `RestockPlan`: the helpers of `arima_restock_prediction.py`.
- `RestockAnalysis`: the body of `analyze_restock_predictions`.
- `MotorpartsDataset`: `prepare_motorparts_dataset.py`.
- `BatchPrediction`: `predict_all_products.py`.

Where the Python mutates state, the model does too:

- The order searches, `pick`, the aggregation into `monthly_summary`, the spike/dip loop, the priority list, the id-assignment loop and the batch tally are methods with loops.
- Each such method is proved against a specification function, and the functions' properties are proved as lemmas.

## Model

| member | source | states |
|---|---|---|
| TimeSeries.MakeStationary | machine-learning/services/predict_product_arima.py:26-31 | With at least two points the result is the n - 1 successive differences. With fewer points the series is returned unchanged. |
| TimeSeries.MakeStationaryInverse | machine-learning/services/arima_restock_prediction.py:25-30 | Differencing loses only the first value: each value equals the first value plus the sum of the differences before it. |
| TimeSeries.BestFitNone | machine-learning/services/predict_product_arima.py:74-86 | The search keeps no model exactly when every candidate order fails to fit. |
| TimeSeries.BestFitIsFirstMinimum | machine-learning/services/predict_product_arima.py:74-86 | The kept model is fitted to the searched series with a candidate order and carries that order's AIC. No candidate has a smaller AIC, and every earlier candidate failed or had a strictly larger one (the first minimum wins). |
| ProductForecast.ProductSalesMembers | machine-learning/services/predict_product_arima.py:94-98 | A sale belongs to a product's data exactly when it comes from a row of that product whose date parsed. |
| ProductForecast.MaxDaily | machine-learning/services/predict_product_arima.py:104-111 | The maximum daily demand is the largest per-day total among the days with sales. |
| ProductForecast.GapFilledEntries | machine-learning/services/predict_product_arima.py:113-116 | Entry i of the gap-filled series is the total sold on day first + i. A day without sales is 0. |
| ProductForecast.GapFilledSum | machine-learning/services/predict_product_arima.py:104-118 | The gap-filled daily series sums to the product's total sales, so no unit is lost or invented. |
| ProductForecast.CandidateOrdersShape | machine-learning/services/predict_product_arima.py:56-72 | Below 12 points there are exactly the six listed orders. From 12 points there are the nine orders (p, d, q) with p, q in 0..2, where (p, d, q) sits at 3p + q. All candidates are distinct and carry the search's d. |
| ProductForecast.DifferencingRule | machine-learning/services/predict_product_arima.py:41-50 | With at least 6 points, d = 1 exactly when the series is judged non-stationary, and the differenced series is then searched. |
| ProductForecast.CandidateGrid | machine-learning/services/predict_product_arima.py:56-72 | The list built by the listing or by the nested append loops is the candidate-order list. |
| ProductForecast.SearchOrders | machine-learning/services/predict_product_arima.py:74-84 | The loop that updates best_aic, best_model and best_params keeps the first fit with the strictly smallest AIC, and best_params is its order. |
| ProductForecast.FitArimaModel | machine-learning/services/predict_product_arima.py:33-86 | Below 6 points there is no model, no order and no original series. Otherwise the result is the search over the (possibly differenced) series, with the original series returned unchanged. |
| ProductForecast.FrequencyEstimate | machine-learning/services/predict_product_arima.py:183-187 | Transactions per day times units per transaction equals the total units over the span in days. |
| ProductForecast.IntelligentEstimateClosedForm | machine-learning/services/predict_product_arima.py:174-189 | The intelligent average is max(total / active days, total / span days). It is total / span days when no day had positive sales. |
| ProductForecast.Recent | machine-learning/services/predict_product_arima.py:155 | The tail holds the last min(30, n) values of the series, in order; a series of at most 30 days is its own tail. |
| ProductForecast.DailyFallback | machine-learning/services/predict_product_arima.py:152-172 | From 7 days: the mean of the last min(30, n) days, 'weighted_average', confidence 70. At exactly 6 days: the mean of all days, 'moving_average', confidence 68. In both cases the forecast is that mean floored at 0 and repeated days_ahead times, with no params and no std. |
| ProductForecast.LongSeriesForecast | machine-learning/services/predict_product_arima.py:120-172 | A series of at least 6 days gets the ARIMA forecast when a model fits and forecasts. That forecast is the steps clamped at 0, their mean as the average, the std of the steps (0 for a one-step horizon) and confidence 85. Otherwise the series gets the averaging fallback. |
| ProductForecast.ShortSeriesForecast | machine-learning/services/predict_product_arima.py:173-198 | A series of fewer than 6 days gets the intelligent average floored at 0, 'intelligent_average' and confidence 65, whatever the engine. |
| ProductForecast.ForecastProductSales | machine-learning/services/predict_product_arima.py:88-201 | The result is None exactly when the product has fewer than 3 dated transactions. Otherwise it is a forecast as the two previous rows describe, days_ahead values long and never negative, with the maximum daily demand. |
| ProductForecast.DaysUntilDepletion | machine-learning/services/predict_product_arima.py:212-215 | The result is None exactly when the average demand is not positive, 0 for stock of 0 or less, and otherwise at least 1. |
| ProductForecast.DaysUntilDepletionBounds | machine-learning/services/predict_product_arima.py:215 | For positive stock and demand, the stock lasts more than d - 1 days and at most d days. |
| ProductForecast.VariabilityBuffer | machine-learning/services/predict_product_arima.py:222-227 | With a positive std the buffer is at most 1.5 std and at most 30% of the average, and equals one of them, so it is their minimum. Otherwise it is 20% of the average. |
| ProductForecast.MaxReasonableStock | machine-learning/services/predict_product_arima.py:231-234 | The cap is at least 5 times the reorder level and at least the maximum daily demand times (lead + safety + 60), and it equals one of the two. |
| ProductForecast.UnderstockingRisk | machine-learning/services/predict_product_arima.py:270 | 'low' exactly when the days to depletion are non-zero and above lead + safety. 'high' exactly when they are non-zero and at most the lead time. 'medium' otherwise, including 0 and None. |
| ProductForecast.SuggestedQuantity | machine-learning/services/predict_product_arima.py:236-254 | Never negative. Below the required stock: max(reorder level, min(the rounded-up shortfall, the room under the cap truncated at 0)). At or above it: max(reorder level, ceil(avg * (lead + 3))) when depletion is non-zero and within lead + 3 days, else 0. |
| ProductForecast.CalculateRestockSuggestion | machine-learning/services/predict_product_arima.py:203-271 | The result is None exactly when there is no forecast. Otherwise every field follows the rule. Required stock is (avg + buffer) * (lead + safety). Optimal stock is the current stock plus the suggestion. Overstocking risk is 'low' exactly when optimal stock is within the cap, else 'medium'. The reorder point, safety stock and truncated cap are also fixed. |
| ProductForecast.CapIsMin | machine-learning/services/predict_product_arima.py:239-242 | Capping at max(0, int(room)) when the quantity exceeds the room is the minimum of the two. |
| ProductForecast.SuggestionGuarantees | machine-learning/services/predict_product_arima.py:236-269 | A suggestion is never negative. It is at least the reorder level while stock is below the requirement. A positive suggestion for covered stock means depletion is near. Overstocking risk is 'low' exactly when stock plus suggestion is within the cap. |
| RestockPlan.RestockQuantity | machine-learning/services/arima_restock_prediction.py:101-115 | Never negative, and 0 for an empty forecast. Otherwise it is 0 exactly when the stock covers mean / 30 * (lead + safety), and else the shortfall rounded up. |
| RestockPlan.RestockQuantityAntitone | machine-learning/services/arima_restock_prediction.py:108-115 | More stock on hand never asks for more restocking. |
| RestockPlan.MonthlyRestockZeroIff | machine-learning/services/arima_restock_prediction.py:199-207 | With stock at the reorder level 10, lead 7 and safety 14, a month needs no restock exactly when 7q <= 100. Otherwise the quantity is 0.7q - 10 rounded up. |
| RestockPlan.MonthlyGridShape | machine-learning/services/arima_restock_prediction.py:48-50 | The grid holds the 16 orders (p, d, q), p, q in 0..3, once each, with (p, d, q) at 4p + q. |
| RestockPlan.MonthlyFitChoice | machine-learning/services/arima_restock_prediction.py:32-61 | Below 12 points there is no model. Otherwise the kept fit is of the (once differenced when non-stationary) series, with d = 1 exactly when non-stationary, p and q in 0..3, and an AIC no other grid order beats. |
| RestockPlan.FitMonthlyModel | machine-learning/services/arima_restock_prediction.py:32-61 | The nested p, q loops compute the first strictly smallest AIC over the 16-order grid, and best_params is its order. |
| RestockPlan.SearchMoving | machine-learning/services/arima_restock_prediction.py:50-59 | The inner q loop extends the kept fit from grid row p - 1 through row p. |
| RestockPlan.ForecastProduct | machine-learning/services/arima_restock_prediction.py:63-99 | None exactly below 6 months. Each branch gives months_ahead values. 'ARIMA' means the model's steps clamped at 0, with its order and AIC. 'ARIMA' holds exactly when a model fits and its forecast does not raise, 'moving_average' exactly when no model fits, and 'average' exactly when a model fits and its forecast raises. Both fallbacks repeat the history mean with no params. |
| RestockPlan.ShortHistoryMovingAverage | machine-learning/services/arima_restock_prediction.py:63-79 | Six to eleven months of history always give the repeated mean, labelled 'moving_average'. |
| RestockPlan.MonthlyHistory | machine-learning/services/arima_restock_prediction.py:177-181 | One value per month of the range: the units of the product's rows whose date falls in that month. |
| RestockPlan.MonthlyHistoryTotal | machine-learning/services/arima_restock_prediction.py:178-181 | Zero-filling over a period range that covers every dated row keeps every unit of the product. |
| RestockAnalysis.EarliestMonth | machine-learning/services/arima_restock_prediction.py:151-153 | The minimum month over the dated rows, attained by one of them. None exactly when no date parsed. |
| RestockAnalysis.LatestMonth | machine-learning/services/arima_restock_prediction.py:151-158 | The maximum month over the dated rows, attained by one of them. None exactly when no date parsed. |
| RestockAnalysis.ForecastMonthsConsecutive | machine-learning/services/arima_restock_prediction.py:157-163 | The 12 forecast months start the month after the last historical month, step one month at a time, and are distinct. |
| RestockAnalysis.HistoricalRangeCoversRows | machine-learning/services/arima_restock_prediction.py:151-181 | Every product's history over the min..max range sums to all its units. |
| RestockAnalysis.PlanMonths | machine-learning/services/arima_restock_prediction.py:197-212 | Month i of a plan pairs forecast month i with the i-th forecast value and its restock quantity. |
| RestockAnalysis.PlanProducts | machine-learning/services/arima_restock_prediction.py:175-218 | Both dictionaries have exactly the ids of ranked products whose forecast succeeds. Each id holds the entries written by the last such product. The key order lists every id once, in the order of each id's first successful forecast (a later write keeps the place), which is `PlannedOrder`. Every plan has one entry per forecast month, in order, and every stored forecast has twelve values. |
| RestockAnalysis.PlannedOrderByFirstWrite | machine-learning/services/arima_restock_prediction.py:185-218 | The dictionaries' key order lists each planned id once, and one id precedes another exactly when its first successful forecast comes earlier in the ranking. |
| RestockAnalysis.PlannedIffFirstWrite | machine-learning/services/arima_restock_prediction.py:185-218 | An id is planned among the first k ranked products exactly when its first successful forecast is among them. |
| RestockAnalysis.PlannedStep | machine-learning/services/arima_restock_prediction.py:186-218 | One more product adds its id to the planned ids exactly when its forecast succeeds. |
| RestockAnalysis.ColumnSummaryMeaning | machine-learning/services/arima_restock_prediction.py:236-246 | A month's product list has one entry per planned product, in plan order, with that product's month values. The month's totals are the sums over that list. |
| RestockAnalysis.EmptySummaries | machine-learning/services/arima_restock_prediction.py:228-234 | An empty summary for exactly the forecast months. |
| RestockAnalysis.AggregateByMonth | machine-learning/services/arima_restock_prediction.py:228-246 | monthly_summary has exactly the forecast months. Each holds the column summary over all planned products. |
| RestockAnalysis.AddProductMonths | machine-learning/services/arima_restock_prediction.py:237-246 | One planned product adds its month-j values to month j's totals and list, and to no other month. |
| RestockAnalysis.StatusOf | machine-learning/services/arima_restock_prediction.py:249-273 | SPIKE exactly when the total is at least 1.2 * mean. DIP exactly when it is below that and at most 0.8 * mean. NORMAL otherwise; the spike test comes first. |
| RestockAnalysis.WithStatusMembers | machine-learning/services/arima_restock_prediction.py:258-271 | A month is listed under a status exactly when it has that status. |
| RestockAnalysis.ClassifyMonths | machine-learning/services/arima_restock_prediction.py:249-273 | Every forecast month gets the status of its total against the mean of the totals. Spike and dip months are collected in month order. |
| RestockAnalysis.NotAllSpikesOrDips | machine-learning/services/arima_restock_prediction.py:249-273 | With a positive mean, some month is not a spike and some month is not a dip. |
| RestockAnalysis.AllZeroMonthsAreSpikes | machine-learning/services/arima_restock_prediction.py:249-268 | When every total is 0 the thresholds are 0, so every month counts as a spike. |
| RestockAnalysis.CollectPriorities | machine-learning/services/arima_restock_prediction.py:331-339 | One priority per stored prediction, in key order, with its name, average forecast and revenue. |
| RestockAnalysis.InsertKeepsOrder | machine-learning/services/arima_restock_prediction.py:341 | Inserting into a list sorted by non-increasing average forecast keeps it sorted that way. |
| RestockAnalysis.SortByForecastOrdered | machine-learning/services/arima_restock_prediction.py:341 | The sorted priorities are in non-increasing average-forecast order. The function itself ensures they are a permutation of the input. |
| RestockAnalysis.RankPriorities | machine-learning/services/arima_restock_prediction.py:331-341 | The priorities are a permutation of the collected list, sorted by non-increasing average forecast. |
| RestockAnalysis.SortedTiers | machine-learning/services/arima_restock_prediction.py:341-350 | Along the sorted priorities the tier never rises: HIGH from 30, MEDIUM from 15, LOW below. |
| RestockAnalysis.TotalsByProduct | machine-learning/services/arima_restock_prediction.py:236-246 | Summing the month columns equals summing each product's forecast total. |
| RestockAnalysis.GrandTotalByProduct | machine-learning/services/arima_restock_prediction.py:382-383 | The total forecast, a sum over the month totals, is the sum of every planned product's forecasts. |
| RestockAnalysis.SummarizeMonths | machine-learning/services/arima_restock_prediction.py:228-383 | The month summaries, and both totals as sums over the months. The forecast total also equals the sum over the products. |
| RestockAnalysis.SummarizePlans | machine-learning/services/arima_restock_prediction.py:228-383 | The report pairs the month summaries and totals, the statuses and spike/dip lists, and the ranked priorities. |
| RestockAnalysis.AnalyzeRestockPredictions | machine-learning/services/arima_restock_prediction.py:136-383 | None exactly when no date parses. Otherwise the report covers every month from the earliest to the latest sale and the next twelve months. It holds the planned dictionaries, the month summaries and totals, the statuses, and the ranked priorities. |
| MotorpartsDataset.Strip | machine-learning/services/prepare_motorparts_dataset.py:67 | str.strip(): the stripped text is the part of the input between the leading and the trailing white space, and it neither starts nor ends with white space. |
| MotorpartsDataset.StripIdempotent | machine-learning/services/prepare_motorparts_dataset.py:67 | Stripping twice is stripping once. |
| MotorpartsDataset.Lower | machine-learning/services/prepare_motorparts_dataset.py:39 | Characters are lower-cased one by one: ASCII capitals map to their lower-case letter and everything else is kept. |
| MotorpartsDataset.ColumnMapLastWins | machine-learning/services/prepare_motorparts_dataset.py:39 | A key is in col_map exactly when some column strips and lower-cases to it. It maps to the last such column. |
| MotorpartsDataset.FirstAlias | machine-learning/services/prepare_motorparts_dataset.py:41-45 | pick gives the mapped column of the first alias, in argument order, that col_map knows, and None exactly when it knows none. |
| MotorpartsDataset.Pick | machine-learning/services/prepare_motorparts_dataset.py:41-45 | The first-match loop returns the first known alias's column. |
| MotorpartsDataset.MissingCore | machine-learning/services/prepare_motorparts_dataset.py:52-56 | A core column is listed as missing exactly when no alias resolved it. The list is empty exactly when all four resolved. |
| MotorpartsDataset.NormalizeRowCoerces | machine-learning/services/prepare_motorparts_dataset.py:60-82 | A row is dropped exactly when its date does not parse or its stripped name is empty. A kept row has the date and the stripped name, with 0 for a non-numeric quantity or price. Day, month and year come from the date, and month_year is its "YYYY-MM". |
| MotorpartsDataset.NormalizeColumns | machine-learning/services/prepare_motorparts_dataset.py:35-84 | An empty frame, or one missing a core column, gives no rows. Otherwise the surviving rows are normalised in their order, each with a non-empty name. |
| MotorpartsDataset.MonthYearReadsBack | machine-learning/services/prepare_motorparts_dataset.py:82 | month_year is 7 characters "YYYY-MM" that read back as the year and the month. |
| MotorpartsDataset.MonthYearIdentifiesMonth | machine-learning/services/prepare_motorparts_dataset.py:82 | Two dates share a month_year exactly when they fall in the same month. |
| MotorpartsDataset.SortFiles | machine-learning/services/prepare_motorparts_dataset.py:97 | sorted(glob(...)): the files are a permutation of the matches, in path order. |
| MotorpartsDataset.NormalizeFiles | machine-learning/services/prepare_motorparts_dataset.py:109-119 | The read loop keeps, in file order, the normalised rows of each readable file that has any. |
| MotorpartsDataset.ConcatNonEmpty | machine-learning/services/prepare_motorparts_dataset.py:121-129 | Concatenating kept frames gives a non-empty dataset. |
| MotorpartsDataset.AssignProductIds | machine-learning/services/prepare_motorparts_dataset.py:131-140 | The product_ids dict maps each distinct name to 1 + its first-appearance index. next_id ends at the number of distinct names + 1. The ids list gives each row its name's id. |
| MotorpartsDataset.IdsMatchNames | machine-learning/services/prepare_motorparts_dataset.py:131-140 | Two names get the same id exactly when they are equal. |
| MotorpartsDataset.IdsAreDense | machine-learning/services/prepare_motorparts_dataset.py:131-140 | The ids used are exactly 1..k, where k is the number of distinct names. |
| MotorpartsDataset.IdsInFirstAppearanceOrder | machine-learning/services/prepare_motorparts_dataset.py:131-140 | A row's id is one more than the number of distinct names before it. A name that appears earlier has a smaller id. |
| MotorpartsDataset.WithIds | machine-learning/services/prepare_motorparts_dataset.py:140-158 | Each output row carries its normalised values, its product id, and transaction id = position + 1, in the ten-column order. |
| MotorpartsDataset.BuildCombinedDataset | machine-learning/services/prepare_motorparts_dataset.py:87-158 | None exactly when no file yields a row. Otherwise one clean row per concatenated row (files in path order), with the first-appearance product id and the sequential transaction id. |
| BatchPrediction.DatedIds | machine-learning/services/predict_all_products.py:16-20 | The product_id column after dropna holds exactly the ids of rows whose date parsed. |
| BatchPrediction.SortedUnique | machine-learning/services/predict_all_products.py:20 | sorted(unique()): strictly ascending, with exactly the ids of the input. |
| BatchPrediction.FirstRow | machine-learning/services/predict_all_products.py:40-41 | The first dated row of the product, whose name product_name.iloc[0] reads. None exactly when there is none. |
| BatchPrediction.Forecastable | machine-learning/services/predict_all_products.py:44-46 | The ids, in list order, whose forecast succeeds: those with at least three dated transactions. Ascending ids stay ascending. |
| BatchPrediction.LabelOf | machine-learning/services/predict_all_products.py:61 | 'ARIMA' exactly for an ARIMA forecast, else 'AI-Enhanced'. |
| BatchPrediction.PredictProduct | machine-learning/services/predict_all_products.py:43-63 | None exactly when the forecast fails. Otherwise the result holds the 30-day forecast, the suggestion at stock 0, reorder level 10, lead 7 and safety 14, and the label. |
| BatchPrediction.PredictNext | machine-learning/services/predict_all_products.py:37-84 | One pass keeps the tally invariant: successful + failed counts the products seen, and the results are those with a successful forecast. |
| BatchPrediction.PredictAllProducts | machine-learning/services/predict_all_products.py:29-84 | successful + failed equals the number of unique products, and successful equals the number of results. The results list exactly the forecastable products, in ascending id order, each named by its first dated row and carrying its forecast, suggestion and label. |
| BatchPrediction.CountMethods | machine-learning/services/predict_all_products.py:101-104 | method_counts maps exactly the methods that occur to the number of results with that method. |
| BatchPrediction.MethodCountsCoverResults | machine-learning/services/predict_all_products.py:101-104 | The counts over the five methods sum to the number of results. |

## Left out

- Reading and writing CSV and JSON files, `glob`, `os.path`, and pandas' own parsing. Rows arrive already parsed, with an optional date per format, the text of each cell and its numeric value or None. A file that `pd.read_csv` cannot read is a file without contents.
- The statsmodels ARIMA fit and forecast, and the `adfuller` test. These are foreign code and are answered by the `Engine` oracle, including fit failures and forecasts that raise. The `test_stationarity` wrapper is part of that oracle.
- `np.std`: an oracle, `Engine.std`.
- IEEE floating point: NaN and infinity are not modelled, and arithmetic is exact. `np.inf` as the starting AIC is modelled as "no model kept yet".
- All `print` output: banners, progress lines, percentages, truncated names, the top-20/top-30/top-5 display slices, and the display sort of the method counts.
- The `__main__` blocks and `sys.argv` handling.
- The revenue ranking: `groupby(...).apply(...).sort_values(ascending=False)` is taken as an input list of ranked products, in ranking order.
- try/except fallbacks other than the oracle's failures. The outer `except` of `forecast_product_sales` covers parsing errors, which the model has none of.
- ProductForecast.ForecastProductSales: requires a positive horizon. With `days_ahead = 0` the ARIMA branch averages an empty forecast, whose NaN mean exact reals cannot represent. The batch run uses 30.
- The restock arguments of `calculate_restock_suggestion`: the defaults (lead 7, safety 14) are passed explicitly.
- `predict_all_products.py` runs `forecast_product_sales` with `pd.to_datetime` without a format (`flexDate`), but builds its product list from the `'%m/%d/%Y'` dates (`usDate`). The model keeps both.
- The `"Product {id}"` name fallback in `predict_all_products.py` cannot be reached, because every listed id has a dated row (`BatchPrediction.FirstRow`). The `if restock_data` test is always true, because a forecast always gives a suggestion.
- RestockAnalysis.SortByForecast: stability of `list.sort` is not stated. The contract is a permutation in non-increasing average-forecast order.
- MotorpartsDataset.Strip and MotorpartsDataset.Lower: only ASCII white space and ASCII letters, not the full Unicode tables of `str.strip` and `str.lower`.
- The "combined dataset is empty" abort in `build_combined_dataset` cannot be reached once some frame is kept (`ConcatNonEmpty`). The model has no separate branch for it.
- The column reorder `combined[ordered_cols]`: the model's output row has the ten fields in that order (`CleanRow`, `OrderedColumns`). Column names other than the aliases are dropped.
- RestockAnalysis.EntryAt: a month a plan lacks contributes an empty entry. This never happens, because every plan in `restock_plan` has all twelve months (`PlanShape`).
- The 'historical_avg' and 'params' fields of `all_predictions` are stored but not used in any result the model states properties of.
- BatchPrediction.PredictAllProducts: the tally assumes the progress print after a success cannot raise. A product named "nan" in the clean CSV is read back by `pd.read_csv` as NaN, so `product_name[:40]` in that print raises after `results.append` and `successful += 1` have run, and the `except` then also counts the product as failed; successful + failed can then exceed the number of products. The model treats names as text and does not capture this.
- The web dashboard's 24-month projection, invoice summaries and metrics are not among these four files.
