/** A row of motorparts_clean.csv as the forecasting scripts read it. */
module Sales {
  import opened Numbers
  import opened Calendar

  /** One transaction. The CSV's transaction_date text is parsed by pandas in
      two ways, both taken as given: flexDate is pd.to_datetime with format
      inference (predict_product_arima.py), usDate is pd.to_datetime with
      format '%m/%d/%Y' (arima_restock_prediction.py and
      predict_all_products.py); None stands for NaT, a row dropna removes. */
  datatype SalesRecord = SalesRecord(
    productId: int,
    productName: string,
    qty: real,
    unitPrice: real,
    flexDate: Option<Date>,
    usDate: Option<Date>)
}
