/**
 * The analysis pipeline (services/stock_analysis_service.py): sort the
 * fetched bars chronologically, then detect breakouts with the configured
 * thresholds. Fetching the bars and the currency is not modelled: they are
 * the parameters.
 */
module StockAnalysis {
  import opened StockData
  import opened BreakoutRecord
  import opened Constants
  import opened DataProcessing
  import opened BreakoutService

  /** `get_breakout_points`, from the already fetched bars and currency. */
  method GetBreakoutPoints(stockData: seq<Bar>, currency: string) returns (breakouts: seq<Breakout>)
    ensures breakouts == Detect(SortByDate(stockData), currency, VolumeThreshold, PriceThreshold)
  {
    var sortedStockData := SortByDate(stockData);
    var breakoutService := new BreakoutService(VolumeThreshold, PriceThreshold);
    breakouts := breakoutService.IdentifyBreakouts(sortedStockData, currency);
  }

  /** Fewer than 21 fetched bars give no breakouts, in whatever order they came. */
  lemma ShortHistoryHasNoBreakouts(stockData: seq<Bar>, currency: string)
    requires |stockData| <= WindowSize
    ensures Detect(SortByDate(stockData), currency, VolumeThreshold, PriceThreshold) == []
  {
    ShortSeriesHasNoBreakouts(SortByDate(stockData), currency, VolumeThreshold, PriceThreshold);
  }

  /**
   * Each breakout comes from one of the fetched bars: some input bar has its
   * date, open, close and volume, and more than 3 times the average volume
   * of the 20 bars before it in date order.
   */
  lemma BreakoutsComeFromInputBars(stockData: seq<Bar>, currency: string, b: Breakout)
    requires b in Detect(SortByDate(stockData), currency, VolumeThreshold, PriceThreshold)
    ensures exists bar :: (bar in stockData
      && bar.date == b.breakoutDate && bar.open == b.breakoutDayOpen
      && bar.close == b.breakoutDayClose && bar.volume == b.volumeOnBreakoutDay)
    ensures b.volumeOnBreakoutDay as real > 3.0 * b.avgVolumeLast20Days
  {
    var sorted := SortByDate(stockData);
    EveryBreakoutMeetsBothConditions(sorted, currency, VolumeThreshold, PriceThreshold, b);
    var i :| WindowSize <= i < |sorted|
      && BreakoutOfBar(sorted, i, currency, VolumeThreshold, PriceThreshold, b);
    assert sorted[i] in multiset(sorted);
  }
}
