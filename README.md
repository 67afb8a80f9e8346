# Breakout detection over daily stock bars

This project models the analysis core of a small stock-screening tool. The
tool takes the daily bars of a ticker (date, timestamp, open, high, low, close
and volume). It sorts them chronologically by their UTC timestamp. It then
walks through them with a trailing queue of the last 20 volumes and flags a
"breakout" day. A breakout day trades more than `volume_threshold` (3) times
the average volume of the 20 bars before it, and closes at least
`price_threshold` (2%) above the previous close. Each breakout becomes a
record. The record carries the date and close 20 bars later and the
percentage return to that close, rounded to two decimals. A record whose data is
missing holds the text "Data Not Available" instead.

Modules, one per source file:

- `StockData` (stock_data.dfy): the daily bar, as a plain datatype.
- `Constants` (constants.dfy): the two thresholds.
- `DataProcessing` (data_processing.dfy): the stable sort by timestamp, as a
  pure function with its characterising lemmas.
- `BreakoutRecord` (breakout.dfy): the record, its constructor's
  normalisation of the optional fields, the rounding, and the nine-column
  flat mapping.
- `BreakoutService` (breakout_service.dfy): the detection loop as imperative
  code, with the 20-volume queue as a class. The loop is proved equal to the
  functional specification `Detect`, and `Detect` is characterised by lemmas.
- `StockAnalysis` (stock_analysis.dfy): the pipeline, sort and then detect.
- `Wrappers` (wrappers.dfy): `Option`.

Prices, averages and returns are exact `real`s. Volumes and timestamps are
unbounded integers. A Python `None` is `Option.None`. A record field that
may hold the sentinel text is `Field<T>` (`Value(v)` or `NotAvailable`).

## Model

| member | source | states |
|---|---|---|
| `DataProcessing.SortByDate` | utils/data_processing.py:19 | the sorted result is a new sequence with the input's length and the same multiset of bars (a permutation) |
| `DataProcessing.SortByDateSorted` | utils/data_processing.py:19 | the result is non-decreasing by `utcDate` |
| `DataProcessing.SortByDateStable` | utils/data_processing.py:19 | bars with equal `utcDate` keep their input relative order (`sorted` is stable) |
| `DataProcessing.StableSortIsUnique` | utils/data_processing.py:19 | two sequences that are both ordered by key and agree on the order of each key's bars are equal, so a stable sort has exactly one result |
| `DataProcessing.SortByDateCharacterised` | utils/data_processing.py:19 | any ordered, per-key order-preserving arrangement of the input (such as Timsort's output) is exactly `SortByDate` of it |
| `DataProcessing.SortByDateIdempotent` | utils/data_processing.py:19 | already sorted input is returned unchanged |
| `DataProcessing.Insert` | utils/data_processing.py:19 | one insertion step adds exactly the new bar to the multiset |
| `BreakoutRecord.Round2` | models/breakout.py:27-29 | `round(x, 2)` gives a value with at most two decimals within 0.005 of `x` |
| `BreakoutRecord.Round2OfTwoDecimals` | models/breakout.py:28 | a value that already has at most two decimals is left alone by rounding |
| `BreakoutRecord.Round2Idempotent` | models/breakout.py:28 | rounding twice equals rounding once |
| `BreakoutRecord.NewBreakout` | models/breakout.py:19-29 | date, open, close, volume, average and currency are stored unchanged; the forward date is the sentinel iff it is `None` or `""`, and the forward price iff it is `None` or `0.0` (truthiness of `or`); the return is the sentinel iff it is `None` (`is not None`, so 0.0 is kept), otherwise it is rounded to two decimals, within 0.005 of the given value |
| `BreakoutRecord.LookupAt` | models/breakout.py:35-45 | in a mapping with distinct keys, each key finds its own value |
| `BreakoutRecord.ToDict` | models/breakout.py:35-45 | exactly the nine keys in the fixed order; the open, close, volume and average are stored under their keys unchanged; reading the mapping back gives the record again, except when a forward date is literally the sentinel text |
| `BreakoutService.VolumeWindow.constructor` | services/breakout_service.py:24 | the queue starts empty with capacity 20 |
| `BreakoutService.VolumeWindow.Length` | services/breakout_service.py:29 | `len(deque)` is the number of queued volumes |
| `BreakoutService.VolumeWindow.Append` | services/breakout_service.py:56 | appending adds the volume at the back and, at capacity, evicts the oldest, keeping at most `maxlen` volumes |
| `BreakoutService.VolumeWindow.Sum` | services/breakout_service.py:35 | `sum(deque)` is the sum of the queued volumes |
| `BreakoutService.RecentVolumesStep` | services/breakout_service.py:24-57 | the queue holds the last min(i, 20) volumes before bar i, and pushing bar i's volume gives the queue for bar i+1 |
| `BreakoutService.TrailingAverage` | services/breakout_service.py:35 | `sum(last_20_volumes) / 20` is the mean of exactly the volumes the queue holds when bar i is reached |
| `BreakoutService.TrailingAverageBetween` | services/breakout_service.py:35 | the trailing average lies between any lower and upper bound of the 20 volumes before bar i |
| `BreakoutService.IsBreakout` | services/breakout_service.py:73-79 | a missing or zero previous close is never a breakout, so the price test never divides by zero |
| `BreakoutService.BreakoutCloseNonZero` | services/breakout_service.py:76-94 | with a price threshold above -100%, a flagged close is non-zero, so the return division is safe |
| `BreakoutService.BreakoutCloseBound` | services/breakout_service.py:76-94 | after a positive close, a flagged close is at least `(1 + price_threshold)` times it, hence positive |
| `BreakoutService.CalculateReturn` | services/breakout_service.py:92-96 | the forward point and the return are present iff `index + 20 < len`; the point is the date and close of bar `index + 20` |
| `BreakoutService.ReturnIsPercentageMove` | services/breakout_service.py:94 | the return times the breakout close is 100 times the move to the close 20 bars later |
| `BreakoutService.Assemble` | services/breakout_service.py:42-52 | the record copies the bar's date, open, close and volume, the average and the currency; its return is present iff a return was computed; with no point ahead both forward date and forward price are the sentinel, otherwise they are that point's date and price under the constructor's `or` |
| `BreakoutService.Record` | services/breakout_service.py:39-52 | the record built for bar i copies the bar's date, open, close and volume and the currency, has a return iff bar i + 20 exists, and otherwise has the sentinel for the forward date and price |
| `BreakoutService.Records` | services/breakout_service.py:39-53 | one record per listed bar |
| `BreakoutService.RecordsAppend` | services/breakout_service.py:53 | listing one more bar appends its record at the end |
| `BreakoutService.PositionsSound` | services/breakout_service.py:28-38 | every listed position is a flagged position below the bound |
| `BreakoutService.PositionsIncreasing` | services/breakout_service.py:28-53 | listed positions strictly increase, so none is listed twice |
| `BreakoutService.PositionsComplete` | services/breakout_service.py:28-38 | every flagged position below the bound is listed |
| `BreakoutService.FlaggedIndicesSound` | services/breakout_service.py:28-38 | every listed bar index is flagged |
| `BreakoutService.FlaggedIsRecordable` | services/breakout_service.py:38-94 | a flagged bar is past the warm-up and its return can be computed |
| `BreakoutService.RecordDescribesBar` | services/breakout_service.py:35-52 | a flagged bar's record copies its date, open, close and volume, carries the average of the 20 volumes before it and the currency, and meets both breakout conditions against the close of the bar before it |
| `BreakoutService.RecordForwardFields` | services/breakout_service.py:92-96 | the record's return is present iff bar `i + 20` exists; then the forward date and price are that bar's (subject to the constructor's `or`) and the return is the exact percentage move rounded to two decimals, within 0.005; otherwise date and price are the sentinel |
| `BreakoutService.WarmUpStep` | services/breakout_service.py:29-32 | a warm-up bar adds no breakout |
| `BreakoutService.EvaluateStep` | services/breakout_service.py:35-57 | an evaluated bar, given the queue's average and the previous close, adds its record iff it is flagged |
| `BreakoutService.NoBreakoutsDuringWarmUp` | services/breakout_service.py:29-32 | none of the first 20 bars is ever a breakout |
| `BreakoutService.ShortSeriesHasNoBreakouts` | services/breakout_service.py:29-32 | a series of 20 bars or fewer yields no breakouts |
| `BreakoutService.DetectFindsExactlyTheFlaggedBars` | services/breakout_service.py:28-57 | the breakouts are the records of exactly the flagged bars, all past the warm-up, one each, in ascending bar order |
| `BreakoutService.EveryBreakoutMeetsBothConditions` | services/breakout_service.py:76-79 | every returned breakout comes from a bar whose volume exceeds the threshold times the trailing average and whose close rose by at least the price threshold over the previous non-zero close |
| `BreakoutService.FlatCloseHasNoBreakouts` | services/breakout_service.py:78 | with a positive price threshold, a series whose close never changes has no breakouts, whatever the volumes |
| `BreakoutService.DetectionIgnoresLaterBars` | services/breakout_service.py:35-38 | appending later bars never changes which earlier bars are flagged (no look-ahead in the test) |
| `BreakoutService.FlagIgnoresLaterBars` | services/breakout_service.py:35-38 | whether bar i is flagged depends only on bars up to i |
| `BreakoutService.FlagDependsOnlyOnWindow` | services/breakout_service.py:35-38 | two series that agree on bars i-20 to i agree on whether bar i is flagged |
| `BreakoutService.BreakoutService.constructor` | services/breakout_service.py:10-12 | the service keeps the two thresholds it is given |
| `BreakoutService.BreakoutService.IdentifyBreakouts` | services/breakout_service.py:14-59 | the loop over the bars, with its bounded volume queue and previous close, returns exactly `Detect`, the specification the lemmas above characterise |
| `StockAnalysis.GetBreakoutPoints` | services/stock_analysis_service.py:26-35 | the pipeline returns the detection, with thresholds 3 and 0.02, over the bars stably sorted by timestamp |
| `StockAnalysis.ShortHistoryHasNoBreakouts` | services/stock_analysis_service.py:26-33 | 20 fetched bars or fewer give no breakouts, in whatever order they came |
| `StockAnalysis.BreakoutsComeFromInputBars` | services/stock_analysis_service.py:26-33 | each breakout has the date, open, close and volume of one of the fetched bars, and more than 3 times the trailing average volume |

## Left out

- Fetching the bars and the currency over HTTP (services/yahoo_finance_service.py, models/stock_summary.py) is not part of this model: it is network I/O, and the pipeline takes the fetched bars and currency as parameters.
- The exception rewrapping in `get_breakout_points` (services/stock_analysis_service.py:37-40) is error plumbing around the fetch and is not modelled.
- The Google Sheets export, the ticker-file reading, the web UI and the pandas DataFrame helpers in utils/data_processing.py are not part of this model: they are external APIs, file I/O and library glue.
- Settings loading (config/settings.py) is not part of this model. The thresholds of config/constants.py:5-6 are constants.
- `StockData.from_dict` and `StockData.__repr__` are not modelled: they are library conversions. A bar is a plain datatype.
- `Breakout.__repr__` is not modelled: it is the text form of `to_dict`.
- IEEE floating point is not modelled. Prices, averages and returns are exact reals, and `round(x, 2)` is exact round-half-to-even on the real value. Float representation error and float overflow are not captured.
- BreakoutService.BreakoutService.IdentifyBreakouts: requires `priceThreshold > -1.0`. Only then is a flagged close guaranteed non-zero. With a threshold of -100% or less, Python could raise `ZeroDivisionError` in the return computation, and that exception is not modelled. The application only passes 0.02.
- BreakoutRecord.ToDict: the round trip through the mapping is stated only for records whose forward date is not literally "Data Not Available", because the mapping cannot tell such a date from a missing one.
- BreakoutRecord.ToDict: the Python `dict` is an insertion-ordered sequence of key/value pairs, and its values are a small tagged union of text, number and integer.
- DataProcessing.SortByDate: is an insertion sort rather than Timsort. `SortByDateCharacterised` proves that every stable sort by timestamp gives the same sequence. The input is a value, so it is never modified.
- BreakoutService.VolumeWindow.Append: the `deque` is a class over a sequence field that each append reassigns. The deque's linked-block layout is not modelled.
