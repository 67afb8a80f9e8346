/**
 * One day of price and volume data for a ticker (models/stock_data.py).
 * Prices are exact reals; `utcDate` is the integer timestamp the bars are
 * sorted by, and `date` is the textual calendar date that is carried into
 * breakout records.
 */
module StockData {

  datatype Bar = Bar(
    date: string,
    utcDate: int,
    open: real,
    high: real,
    low: real,
    close: real,
    volume: int
  )
}
