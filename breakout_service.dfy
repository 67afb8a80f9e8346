/**
 * Breakout detection and forward return (services/breakout_service.py).
 *
 * `BreakoutService.IdentifyBreakouts` is the source's loop: a bounded queue
 * of the last 20 volumes (`VolumeWindow`, the model of `deque(maxlen=20)`)
 * and the previous close, updated bar by bar. It is proved equal to the
 * functional specification `Detect`, and the lemmas below `Detect` state
 * what the source promises about its result.
 */
module BreakoutService {
  import opened Wrappers
  import opened StockData
  import opened BreakoutRecord

  /** The capacity of the volume queue and the divisor of its average. */
  const WindowSize: nat := 20

  /** How many bars `_calculate_return` looks ahead. */
  const ForwardHorizon: nat := 20

  /** Python's `sum` over a sequence of volumes. */
  function SeqSum(s: seq<int>): int {
    if s == [] then 0 else SeqSum(s[..|s| - 1]) + s[|s| - 1]
  }

  /**
   * The queue `c` after appending `x` under a length bound of `m`: a full
   * queue drops its oldest volume.
   */
  function Pushed(c: seq<int>, x: int, m: nat): seq<int>
    requires |c| <= m
  {
    if |c| < m then c + [x] else (c + [x])[1..]
  }

  /**
   * A queue of at most `maxLen` volumes: appending to a full queue evicts
   * the oldest volume, as `deque(maxlen=...)` does.
   */
  class VolumeWindow {
    const maxLen: nat
    /** The queued volumes, oldest first. */
    var items: seq<int>

    predicate Valid()
      reads this
    {
      |items| <= maxLen
    }

    constructor (maxLen: nat)
      ensures Valid()
      ensures this.maxLen == maxLen && items == []
    {
      this.maxLen := maxLen;
      items := [];
    }

    /** `len(deque)`. */
    method Length() returns (n: nat)
      ensures n == |items|
    {
      n := |items|;
    }

    /** `deque.append`. */
    method Append(x: int)
      requires Valid()
      modifies this
      ensures Valid()
      ensures items == Pushed(old(items), x, maxLen)
    {
      if |items| < maxLen {
        items := items + [x];
      } else {
        items := (items + [x])[1..];
      }
    }

    /** `sum(deque)`, adding the volumes oldest first. */
    method Sum() returns (total: int)
      ensures total == SeqSum(items)
    {
      total := 0;
      for k := 0 to |items|
        invariant total == SeqSum(items[..k])
      {
        assert items[..k + 1][..k] == items[..k];
        total := total + items[k];
      }
      assert items[..|items|] == items;
    }
  }

  /** The volumes of `bars`, in order. */
  function VolumeSeries(bars: seq<Bar>): (v: seq<int>)
    ensures |v| == |bars|
  {
    seq(|bars|, i requires 0 <= i < |bars| => bars[i].volume)
  }

  /**
   * The average of the 20 volumes strictly before bar `i`: the mean of the
   * volumes the queue holds when bar `i` is reached.
   */
  function TrailingAverage(bars: seq<Bar>, i: nat): (r: real)
    requires WindowSize <= i <= |bars|
    ensures r == SeqSum(RecentVolumes(bars, i)) as real / WindowSize as real
  {
    SeqSum(VolumeSeries(bars)[i - WindowSize..i]) as real / WindowSize as real
  }

  /** A sum of volumes that all lie between `lo` and `hi` lies between `|s|` times each. */
  lemma {:induction false} SeqSumBetween(s: seq<int>, lo: int, hi: int)
    requires forall k :: 0 <= k < |s| ==> lo <= s[k] <= hi
    ensures |s| * lo <= SeqSum(s) <= |s| * hi
  {
    if s != [] {
      SeqSumBetween(s[..|s| - 1], lo, hi);
    }
  }

  /**
   * The trailing average lies between the smallest and the largest of the
   * 20 volumes it is taken over.
   */
  lemma TrailingAverageBetween(bars: seq<Bar>, i: nat, lo: int, hi: int)
    requires WindowSize <= i <= |bars|
    requires forall k :: i - WindowSize <= k < i ==> lo <= bars[k].volume <= hi
    ensures lo as real <= TrailingAverage(bars, i) <= hi as real
  {
    var window := VolumeSeries(bars)[i - WindowSize..i];
    SeqSumBetween(window, lo, hi);
  }

  /**
   * `_is_breakout`: never with no or a zero previous close (so it never
   * divides by zero); otherwise a volume spike above `volumeThreshold`
   * times the average together with a relative close jump of at least
   * `priceThreshold`.
   */
  function IsBreakout(
    volumeThreshold: real, priceThreshold: real,
    stock: Bar, avgVolume: real, previousClose: Option<real>
  ): (r: bool)
    ensures r ==> previousClose.Some? && previousClose.value != 0.0
  {
    match previousClose
    case None => false
    case Some(p) =>
      p != 0.0
      && stock.volume as real > volumeThreshold * avgVolume
      && (stock.close - p) / p >= priceThreshold
  }

  /**
   * A flagged close has the sign of the previous close whenever the price
   * threshold is above -100%, so it is never zero: the division in
   * `_calculate_return` is safe.
   */
  lemma BreakoutCloseNonZero(
    volumeThreshold: real, priceThreshold: real,
    stock: Bar, avgVolume: real, previousClose: Option<real>
  )
    requires priceThreshold > -1.0
    requires IsBreakout(volumeThreshold, priceThreshold, stock, avgVolume, previousClose)
    ensures stock.close != 0.0
  {
  }

  /** After a positive close, a flagged close is at least `(1 + priceThreshold)` times it. */
  lemma BreakoutCloseBound(
    volumeThreshold: real, priceThreshold: real,
    stock: Bar, avgVolume: real, previousClose: Option<real>
  )
    requires IsBreakout(volumeThreshold, priceThreshold, stock, avgVolume, previousClose)
    requires previousClose.value > 0.0
    ensures stock.close >= (1.0 + priceThreshold) * previousClose.value
    ensures priceThreshold > -1.0 ==> stock.close > 0.0
  {
    var p := previousClose.value;
    var q := (stock.close - p) / p;
    assert q * p == stock.close - p;
    assert (q - priceThreshold) * p >= 0.0;
  }

  /** The bar `_calculate_return` looks ahead to. */
  datatype ForwardPoint = ForwardPoint(date: string, price: real)

  /**
   * `_calculate_return`: when the bar 20 days ahead exists, its date and
   * close and the percentage return from bar `index`'s close to it; else
   * neither. The caller must not pass a zero close when the bar ahead
   * exists (Python would raise `ZeroDivisionError`).
   */
  function CalculateReturn(stockData: seq<Bar>, index: nat): (r: (Option<ForwardPoint>, Option<real>))
    requires index + ForwardHorizon < |stockData| ==> stockData[index].close != 0.0
    ensures r.0.Some? <==> index + ForwardHorizon < |stockData|
    ensures r.1.Some? <==> index + ForwardHorizon < |stockData|
    ensures r.0.Some? ==>
              r.0.value == ForwardPoint(stockData[index + ForwardHorizon].date,
                                        stockData[index + ForwardHorizon].close)
  {
    if index + ForwardHorizon < |stockData| then
      var futureStock := stockData[index + ForwardHorizon];
      var returnPct := ((futureStock.close - stockData[index].close) / stockData[index].close) * 100.0;
      (Some(ForwardPoint(futureStock.date, futureStock.close)), Some(returnPct))
    else
      (None, None)
  }

  /**
   * The return is the percentage change from the breakout close to the
   * close 20 bars later: applied to the breakout close it gives the move.
   */
  lemma ReturnIsPercentageMove(stockData: seq<Bar>, index: nat)
    requires index + ForwardHorizon < |stockData| && stockData[index].close != 0.0
    ensures var r := CalculateReturn(stockData, index).1.value;
      r * stockData[index].close
      == (stockData[index + ForwardHorizon].close - stockData[index].close) * 100.0
  {
    var close := stockData[index].close;
    var move := stockData[index + ForwardHorizon].close - close;
    assert (move / close) * close == move;
  }

  /**
   * The `Breakout(...)` call in `identify_breakouts`: the bar's own fields,
   * the average and the currency as they are; with no point ahead, neither
   * a forward date nor a forward price.
   */
  function Assemble(
    stock: Bar, avgVolume: real, currency: string,
    priceAfter20Days: Option<ForwardPoint>, returnPct: Option<real>
  ): (r: Breakout)
    ensures r.breakoutDate == stock.date && r.breakoutDayOpen == stock.open
    ensures r.breakoutDayClose == stock.close && r.volumeOnBreakoutDay == stock.volume
    ensures r.avgVolumeLast20Days == avgVolume && r.currency == currency
    ensures r.returnPercentage.Value? <==> returnPct.Some?
    ensures priceAfter20Days.None? ==>
              r.dateAfter20Days == NotAvailable && r.priceAfter20Days == NotAvailable
    ensures priceAfter20Days.Some? ==>
              && (r.dateAfter20Days == if priceAfter20Days.value.date == "" then NotAvailable
                                       else Value(priceAfter20Days.value.date))
              && (r.priceAfter20Days == if priceAfter20Days.value.price == 0.0 then NotAvailable
                                        else Value(priceAfter20Days.value.price))
  {
    NewBreakout(
      stock.date, stock.open, stock.close, stock.volume, avgVolume, currency,
      if priceAfter20Days.Some? then Some(priceAfter20Days.value.date) else None,
      if priceAfter20Days.Some? then Some(priceAfter20Days.value.price) else None,
      returnPct)
  }

  /** Bar `i` is evaluated (it is past the warm-up) and is a breakout. */
  predicate Flagged(bars: seq<Bar>, i: nat, volumeThreshold: real, priceThreshold: real)
    requires i < |bars|
  {
    WindowSize <= i
    && IsBreakout(volumeThreshold, priceThreshold, bars[i],
                  TrailingAverage(bars, i), Some(bars[i - 1].close))
  }

  /** Which bars are flagged, bar by bar. */
  function Flags(bars: seq<Bar>, volumeThreshold: real, priceThreshold: real): (flags: seq<bool>)
    ensures |flags| == |bars|
  {
    seq(|bars|, i requires 0 <= i < |bars| => Flagged(bars, i, volumeThreshold, priceThreshold))
  }

  /** The positions of the set entries among flags `lo` to `hi - 1`, ascending. */
  function PositionsBetween(flags: seq<bool>, lo: nat, hi: nat): seq<nat>
    requires lo <= hi <= |flags|
    decreases hi - lo
  {
    if lo == hi then []
    else (if flags[lo] then [lo] else []) + PositionsBetween(flags, lo + 1, hi)
  }

  /** The positions of the set entries among the first `n` flags, ascending. */
  function Positions(flags: seq<bool>, n: nat): seq<nat>
    requires n <= |flags|
  {
    PositionsBetween(flags, 0, n)
  }

  /** Widening the range by one flag lists its position last, if it is set. */
  lemma {:induction false} PositionsBetweenSnoc(flags: seq<bool>, lo: nat, hi: nat)
    requires lo <= hi < |flags|
    ensures PositionsBetween(flags, lo, hi + 1)
         == PositionsBetween(flags, lo, hi) + if flags[hi] then [hi] else []
    decreases hi - lo
  {
    if lo < hi {
      PositionsBetweenSnoc(flags, lo + 1, hi);
      var first := if flags[lo] then [lo] else [];
      var middle := PositionsBetween(flags, lo + 1, hi);
      var last := if flags[hi] then [hi] else [];
      assert first + (middle + last) == (first + middle) + last;
    }
  }

  /** One more flag lists its position last, if it is set. */
  lemma PositionsSnoc(flags: seq<bool>, n: nat)
    requires n < |flags|
    ensures Positions(flags, n + 1) == Positions(flags, n) + if flags[n] then [n] else []
  {
    PositionsBetweenSnoc(flags, 0, n);
  }

  /** Every listed position is below `n` and set. */
  lemma {:induction false} PositionsSound(flags: seq<bool>, n: nat)
    requires n <= |flags|
    ensures forall k :: 0 <= k < |Positions(flags, n)| ==>
      Positions(flags, n)[k] < n && flags[Positions(flags, n)[k]]
  {
    if n > 0 {
      PositionsSound(flags, n - 1);
      PositionsSnoc(flags, n - 1);
      var prev := Positions(flags, n - 1);
      var pos := Positions(flags, n);
      forall k | 0 <= k < |pos|
        ensures pos[k] < n && flags[pos[k]]
      {
        if k < |prev| {
          assert pos[k] == prev[k];
        }
      }
    }
  }

  /** The listed positions strictly increase, so none is listed twice. */
  lemma {:induction false} PositionsIncreasing(flags: seq<bool>, n: nat)
    requires n <= |flags|
    ensures forall k, l :: 0 <= k < l < |Positions(flags, n)| ==>
      Positions(flags, n)[k] < Positions(flags, n)[l]
  {
    if n > 0 {
      PositionsIncreasing(flags, n - 1);
      PositionsSound(flags, n - 1);
      PositionsSnoc(flags, n - 1);
      var prev := Positions(flags, n - 1);
      var pos := Positions(flags, n);
      forall k, l | 0 <= k < l < |pos|
        ensures pos[k] < pos[l]
      {
        assert pos[k] == prev[k];
        if l < |prev| {
          assert pos[l] == prev[l];
        }
      }
    }
  }

  /** Every set position below `n` is listed. */
  lemma {:induction false} PositionsComplete(flags: seq<bool>, n: nat)
    requires n <= |flags|
    ensures forall i :: 0 <= i < n && flags[i] ==> i in Positions(flags, n)
  {
    if n > 0 {
      PositionsComplete(flags, n - 1);
      PositionsSnoc(flags, n - 1);
    }
  }

  /** With no set entry below `n`, nothing is listed. */
  lemma {:induction false} PositionsOfUnset(flags: seq<bool>, n: nat)
    requires n <= |flags|
    requires forall i :: 0 <= i < n ==> !flags[i]
    ensures Positions(flags, n) == []
  {
    if n > 0 {
      PositionsOfUnset(flags, n - 1);
      PositionsSnoc(flags, n - 1);
    }
  }

  /** The positions below `n` depend only on the first `n` flags. */
  lemma {:induction false} PositionsOfPrefix(flags: seq<bool>, other: seq<bool>, n: nat)
    requires n <= |flags| && n <= |other|
    requires forall i :: 0 <= i < n ==> flags[i] == other[i]
    ensures Positions(flags, n) == Positions(other, n)
  {
    if n > 0 {
      PositionsOfPrefix(flags, other, n - 1);
      PositionsSnoc(flags, n - 1);
      PositionsSnoc(other, n - 1);
    }
  }

  /** The indices of the flagged bars among the first `n`, ascending. */
  function FlaggedIndices(
    bars: seq<Bar>, n: nat, volumeThreshold: real, priceThreshold: real
  ): seq<nat>
    requires n <= |bars|
  {
    Positions(Flags(bars, volumeThreshold, priceThreshold), n)
  }

  /**
   * A bar whose record can be built: it is past the warm-up, and its close
   * is non-zero whenever the return 20 bars ahead is computed.
   */
  predicate Recordable(bars: seq<Bar>, i: nat) {
    WindowSize <= i < |bars|
    && (i + ForwardHorizon < |bars| ==> bars[i].close != 0.0)
  }

  /**
   * The breakout record `identify_breakouts` builds for bar `i`: the bar's
   * own fields and the currency, with a return exactly when the bar 20
   * days ahead exists.
   */
  function Record(bars: seq<Bar>, i: nat, currency: string): (r: Breakout)
    requires Recordable(bars, i)
    ensures r.breakoutDate == bars[i].date && r.breakoutDayOpen == bars[i].open
    ensures r.breakoutDayClose == bars[i].close && r.volumeOnBreakoutDay == bars[i].volume
    ensures r.currency == currency
    ensures r.returnPercentage.Value? <==> i + ForwardHorizon < |bars|
    ensures i + ForwardHorizon >= |bars| ==>
              r.dateAfter20Days == NotAvailable && r.priceAfter20Days == NotAvailable
  {
    var avgVolume := TrailingAverage(bars, i);
    var ret := CalculateReturn(bars, i);
    Assemble(bars[i], avgVolume, currency, ret.0, ret.1)
  }

  /** The records of the bars at `idx`, in that order. */
  function Records(bars: seq<Bar>, idx: seq<nat>, currency: string): (r: seq<Breakout>)
    requires forall k :: 0 <= k < |idx| ==> Recordable(bars, idx[k])
    ensures |r| == |idx|
  {
    seq(|idx|, k requires 0 <= k < |idx| => Record(bars, idx[k], currency))
  }

  /** Listing one more bar adds its record at the end. */
  lemma RecordsAppend(bars: seq<Bar>, idx: seq<nat>, i: nat, currency: string)
    requires forall k :: 0 <= k < |idx| ==> Recordable(bars, idx[k])
    requires Recordable(bars, i)
    ensures Records(bars, idx + [i], currency) == Records(bars, idx, currency) + [Record(bars, i, currency)]
  {
    var longer := idx + [i];
    assert forall k :: 0 <= k < |idx| ==> longer[k] == idx[k];
  }

  /** Every flagged bar can be recorded (its close is non-zero). */
  lemma FlaggedIsRecordable(bars: seq<Bar>, i: nat, volumeThreshold: real, priceThreshold: real)
    requires i < |bars| && priceThreshold > -1.0
    requires Flagged(bars, i, volumeThreshold, priceThreshold)
    ensures Recordable(bars, i)
  {
    BreakoutCloseNonZero(volumeThreshold, priceThreshold, bars[i],
                         TrailingAverage(bars, i), Some(bars[i - 1].close));
  }

  /** Flagged bars are exactly the set flags. */
  lemma FlaggedIndicesSound(bars: seq<Bar>, n: nat, volumeThreshold: real, priceThreshold: real)
    requires n <= |bars|
    ensures forall k :: 0 <= k < |FlaggedIndices(bars, n, volumeThreshold, priceThreshold)| ==>
      var i := FlaggedIndices(bars, n, volumeThreshold, priceThreshold)[k];
      i < n && Flagged(bars, i, volumeThreshold, priceThreshold)
  {
    PositionsSound(Flags(bars, volumeThreshold, priceThreshold), n);
  }

  /** Every listed bar can be recorded. */
  lemma FlaggedIndicesRecordable(bars: seq<Bar>, n: nat, volumeThreshold: real, priceThreshold: real)
    requires n <= |bars| && priceThreshold > -1.0
    ensures forall k :: 0 <= k < |FlaggedIndices(bars, n, volumeThreshold, priceThreshold)| ==>
      Recordable(bars, FlaggedIndices(bars, n, volumeThreshold, priceThreshold)[k])
  {
    var idx := FlaggedIndices(bars, n, volumeThreshold, priceThreshold);
    FlaggedIndicesSound(bars, n, volumeThreshold, priceThreshold);
    forall k | 0 <= k < |idx|
      ensures Recordable(bars, idx[k])
    {
      FlaggedIsRecordable(bars, idx[k], volumeThreshold, priceThreshold);
    }
  }

  /** The breakouts among the first `n` bars: the records of the flagged ones, in bar order. */
  function DetectUpTo(
    bars: seq<Bar>, n: nat, currency: string, volumeThreshold: real, priceThreshold: real
  ): seq<Breakout>
    requires n <= |bars| && priceThreshold > -1.0
  {
    FlaggedIndicesRecordable(bars, n, volumeThreshold, priceThreshold);
    Records(bars, FlaggedIndices(bars, n, volumeThreshold, priceThreshold), currency)
  }

  /** What `identify_breakouts` returns, as a function of its inputs. */
  function Detect(
    bars: seq<Bar>, currency: string, volumeThreshold: real, priceThreshold: real
  ): seq<Breakout>
    requires priceThreshold > -1.0
  {
    DetectUpTo(bars, |bars|, currency, volumeThreshold, priceThreshold)
  }

  /** `b` describes bar `i` and meets both breakout conditions there. */
  ghost predicate BreakoutOfBar(
    bars: seq<Bar>, i: nat, currency: string, volumeThreshold: real, priceThreshold: real, b: Breakout
  )
    requires WindowSize <= i < |bars|
  {
    && b.breakoutDate == bars[i].date && b.breakoutDayOpen == bars[i].open
    && b.breakoutDayClose == bars[i].close && b.volumeOnBreakoutDay == bars[i].volume
    && b.currency == currency
    && b.avgVolumeLast20Days == SeqSum(VolumeSeries(bars)[i - WindowSize..i]) as real / 20.0
    && b.volumeOnBreakoutDay as real > volumeThreshold * b.avgVolumeLast20Days
    && bars[i - 1].close != 0.0
    && (b.breakoutDayClose - bars[i - 1].close) / bars[i - 1].close >= priceThreshold
  }

  /**
   * A flagged bar's record carries the bar's own date, open, close and
   * volume, the average of the 20 volumes before it and the currency,
   * unchanged, and meets both breakout conditions against the bar before it.
   */
  lemma RecordDescribesBar(
    bars: seq<Bar>, i: nat, currency: string, volumeThreshold: real, priceThreshold: real
  )
    requires i < |bars| && priceThreshold > -1.0
    requires Flagged(bars, i, volumeThreshold, priceThreshold)
    ensures Recordable(bars, i)
    ensures BreakoutOfBar(bars, i, currency, volumeThreshold, priceThreshold, Record(bars, i, currency))
  {
    FlaggedIsRecordable(bars, i, volumeThreshold, priceThreshold);
  }

  /**
   * The forward fields of a flagged bar's record are present iff the bar 20
   * days ahead exists (a blank date or a zero price ahead still reads as
   * missing, by the constructor's `or`); the return is then the percentage
   * move from the breakout close to that bar's close, rounded to two decimals.
   */
  lemma RecordForwardFields(
    bars: seq<Bar>, i: nat, currency: string, volumeThreshold: real, priceThreshold: real
  )
    requires i < |bars| && priceThreshold > -1.0
    requires Flagged(bars, i, volumeThreshold, priceThreshold)
    ensures Recordable(bars, i) && bars[i].close != 0.0
    ensures var b := Record(bars, i, currency);
      && (b.returnPercentage.Value? <==> i + ForwardHorizon < |bars|)
      && (i + ForwardHorizon < |bars| ==>
            var future := bars[i + ForwardHorizon];
            && b.dateAfter20Days == (if future.date == "" then NotAvailable else Value(future.date))
            && b.priceAfter20Days == (if future.close == 0.0 then NotAvailable else Value(future.close))
            && HasTwoDecimals(b.returnPercentage.v)
            && var exact := (future.close - bars[i].close) / bars[i].close * 100.0;
               exact - 0.005 <= b.returnPercentage.v <= exact + 0.005)
      && (i + ForwardHorizon >= |bars| ==>
            b.dateAfter20Days == NotAvailable && b.priceAfter20Days == NotAvailable)
  {
    BreakoutCloseNonZero(volumeThreshold, priceThreshold, bars[i],
                         TrailingAverage(bars, i), Some(bars[i - 1].close));
  }

  /** The volumes `deque(maxlen=20)` holds when bar `i` is reached. */
  ghost function RecentVolumes(bars: seq<Bar>, i: nat): seq<int>
    requires i <= |bars|
  {
    VolumeSeries(bars)[if i < WindowSize then 0 else i - WindowSize..i]
  }

  /** Bar `i` joins the queue of the volumes before it. */
  lemma RecentVolumesStep(bars: seq<Bar>, i: nat)
    requires i < |bars|
    ensures |RecentVolumes(bars, i)| == if i < WindowSize then i else WindowSize
    ensures RecentVolumes(bars, i + 1) == Pushed(RecentVolumes(bars, i), bars[i].volume, WindowSize)
  {
    var v := VolumeSeries(bars);
    if i < WindowSize {
      assert v[0..i] + [bars[i].volume] == v[0..i + 1];
    } else {
      assert (v[i - WindowSize..i] + [bars[i].volume])[1..] == v[i + 1 - WindowSize..i + 1];
    }
  }

  /** A warm-up bar is never flagged, so it adds no breakout. */
  lemma WarmUpStep(
    bars: seq<Bar>, i: nat, currency: string, volumeThreshold: real, priceThreshold: real
  )
    requires i < WindowSize && i < |bars| && priceThreshold > -1.0
    ensures DetectUpTo(bars, i + 1, currency, volumeThreshold, priceThreshold)
         == DetectUpTo(bars, i, currency, volumeThreshold, priceThreshold)
  {
    var flags := Flags(bars, volumeThreshold, priceThreshold);
    assert !flags[i];
    PositionsSnoc(flags, i);
  }

  /**
   * An evaluated bar, given the average of the queue and the previous
   * close, adds its record iff it is flagged (the record being the one the
   * loop body assembles).
   */
  lemma EvaluateStep(
    bars: seq<Bar>, i: nat, currency: string, volumeThreshold: real, priceThreshold: real,
    avgVolume: real, previousClose: Option<real>
  )
    requires WindowSize <= i < |bars| && priceThreshold > -1.0
    requires avgVolume == SeqSum(RecentVolumes(bars, i)) as real / WindowSize as real
    requires previousClose == Some(bars[i - 1].close)
    ensures IsBreakout(volumeThreshold, priceThreshold, bars[i], avgVolume, previousClose) ==>
      bars[i].close != 0.0
      && var ret := CalculateReturn(bars, i);
         DetectUpTo(bars, i + 1, currency, volumeThreshold, priceThreshold)
         == DetectUpTo(bars, i, currency, volumeThreshold, priceThreshold)
            + [Assemble(bars[i], avgVolume, currency, ret.0, ret.1)]
    ensures !IsBreakout(volumeThreshold, priceThreshold, bars[i], avgVolume, previousClose) ==>
      DetectUpTo(bars, i + 1, currency, volumeThreshold, priceThreshold)
      == DetectUpTo(bars, i, currency, volumeThreshold, priceThreshold)
  {
    var flags := Flags(bars, volumeThreshold, priceThreshold);
    var idx := FlaggedIndices(bars, i, volumeThreshold, priceThreshold);
    FlaggedIndicesRecordable(bars, i, volumeThreshold, priceThreshold);
    assert flags[i] == IsBreakout(volumeThreshold, priceThreshold, bars[i], avgVolume, previousClose);
    PositionsSnoc(flags, i);
    if flags[i] {
      BreakoutCloseNonZero(volumeThreshold, priceThreshold, bars[i], avgVolume, previousClose);
      assert FlaggedIndices(bars, i + 1, volumeThreshold, priceThreshold) == idx + [i];
      RecordsAppend(bars, idx, i, currency);
    } else {
      assert FlaggedIndices(bars, i + 1, volumeThreshold, priceThreshold) == idx;
    }
  }

  /** During the warm-up no bar can be flagged. */
  lemma NoBreakoutsDuringWarmUp(
    bars: seq<Bar>, n: nat, currency: string, volumeThreshold: real, priceThreshold: real
  )
    requires n <= |bars| && n <= WindowSize && priceThreshold > -1.0
    ensures DetectUpTo(bars, n, currency, volumeThreshold, priceThreshold) == []
  {
    PositionsOfUnset(Flags(bars, volumeThreshold, priceThreshold), n);
  }

  /** A series of 20 bars or fewer has no breakouts: every bar only warms the queue. */
  lemma ShortSeriesHasNoBreakouts(
    bars: seq<Bar>, currency: string, volumeThreshold: real, priceThreshold: real
  )
    requires |bars| <= WindowSize && priceThreshold > -1.0
    ensures Detect(bars, currency, volumeThreshold, priceThreshold) == []
  {
    NoBreakoutsDuringWarmUp(bars, |bars|, currency, volumeThreshold, priceThreshold);
  }

  /**
   * Soundness, completeness and order: the breakouts are the records of
   * exactly the flagged bars, one each, in ascending bar order. Only bars
   * past the 20-bar warm-up are ever flagged.
   */
  lemma DetectFindsExactlyTheFlaggedBars(
    bars: seq<Bar>, currency: string, volumeThreshold: real, priceThreshold: real
  )
    requires priceThreshold > -1.0
    ensures forall k :: 0 <= k < |FlaggedIndices(bars, |bars|, volumeThreshold, priceThreshold)| ==>
      var i := FlaggedIndices(bars, |bars|, volumeThreshold, priceThreshold)[k];
      WindowSize <= i < |bars| && Flagged(bars, i, volumeThreshold, priceThreshold)
    ensures forall k, l :: 0 <= k < l < |FlaggedIndices(bars, |bars|, volumeThreshold, priceThreshold)| ==>
      FlaggedIndices(bars, |bars|, volumeThreshold, priceThreshold)[k]
      < FlaggedIndices(bars, |bars|, volumeThreshold, priceThreshold)[l]
    ensures forall i :: 0 <= i < |bars| && Flagged(bars, i, volumeThreshold, priceThreshold) ==>
      i in FlaggedIndices(bars, |bars|, volumeThreshold, priceThreshold)
    ensures |Detect(bars, currency, volumeThreshold, priceThreshold)|
         == |FlaggedIndices(bars, |bars|, volumeThreshold, priceThreshold)|
    ensures forall k :: 0 <= k < |FlaggedIndices(bars, |bars|, volumeThreshold, priceThreshold)| ==>
      var i := FlaggedIndices(bars, |bars|, volumeThreshold, priceThreshold)[k];
      Recordable(bars, i)
      && Detect(bars, currency, volumeThreshold, priceThreshold)[k] == Record(bars, i, currency)
  {
    var flags := Flags(bars, volumeThreshold, priceThreshold);
    FlaggedIndicesSound(bars, |bars|, volumeThreshold, priceThreshold);
    FlaggedIndicesRecordable(bars, |bars|, volumeThreshold, priceThreshold);
    PositionsIncreasing(flags, |bars|);
    PositionsComplete(flags, |bars|);
    assert forall i :: 0 <= i < |bars| ==> flags[i] == Flagged(bars, i, volumeThreshold, priceThreshold);
  }

  /**
   * Every returned breakout is some bar `i` past the warm-up, copied with
   * the currency, whose volume exceeds `volumeThreshold` times the average
   * of the 20 volumes before it and whose close rose by at least
   * `priceThreshold` relative to the (non-zero) close of bar `i - 1`.
   */
  lemma EveryBreakoutMeetsBothConditions(
    bars: seq<Bar>, currency: string, volumeThreshold: real, priceThreshold: real, b: Breakout
  )
    requires priceThreshold > -1.0
    requires b in Detect(bars, currency, volumeThreshold, priceThreshold)
    ensures exists i :: WindowSize <= i < |bars| && BreakoutOfBar(bars, i, currency, volumeThreshold, priceThreshold, b)
  {
    var found := Detect(bars, currency, volumeThreshold, priceThreshold);
    var idx := FlaggedIndices(bars, |bars|, volumeThreshold, priceThreshold);
    var k :| 0 <= k < |found| && found[k] == b;
    FlaggedIndicesSound(bars, |bars|, volumeThreshold, priceThreshold);
    var i := idx[k];
    RecordDescribesBar(bars, i, currency, volumeThreshold, priceThreshold);
  }

  /**
   * A flat close never breaks out against a positive price threshold,
   * whatever the volumes do.
   */
  lemma FlatCloseHasNoBreakouts(
    bars: seq<Bar>, n: nat, currency: string, volumeThreshold: real, priceThreshold: real
  )
    requires n <= |bars| && priceThreshold > 0.0
    requires forall i :: 0 < i < |bars| ==> bars[i].close == bars[i - 1].close
    ensures DetectUpTo(bars, n, currency, volumeThreshold, priceThreshold) == []
  {
    var flags := Flags(bars, volumeThreshold, priceThreshold);
    forall i | 0 <= i < n
      ensures !flags[i]
    {
      if i >= WindowSize {
        var c := bars[i - 1].close;
        assert bars[i].close == c;
        assert c != 0.0 ==> (c - c) / c == 0.0;
      }
    }
    PositionsOfUnset(flags, n);
  }

  /**
   * No look-ahead: appending later bars never changes which of the earlier
   * bars are flagged (only their forward fields can change).
   */
  lemma DetectionIgnoresLaterBars(
    bars: seq<Bar>, later: seq<Bar>, n: nat, volumeThreshold: real, priceThreshold: real
  )
    requires n <= |bars|
    ensures FlaggedIndices(bars + later, n, volumeThreshold, priceThreshold)
         == FlaggedIndices(bars, n, volumeThreshold, priceThreshold)
  {
    var flags := Flags(bars, volumeThreshold, priceThreshold);
    var extended := Flags(bars + later, volumeThreshold, priceThreshold);
    forall i | 0 <= i < n
      ensures extended[i] == flags[i]
    {
      FlagIgnoresLaterBars(bars, later, i, volumeThreshold, priceThreshold);
    }
    PositionsOfPrefix(extended, flags, n);
  }

  /** Whether bar `i` is flagged does not depend on the bars after it. */
  lemma FlagIgnoresLaterBars(
    bars: seq<Bar>, later: seq<Bar>, i: nat, volumeThreshold: real, priceThreshold: real
  )
    requires i < |bars|
    ensures Flagged(bars + later, i, volumeThreshold, priceThreshold)
        == Flagged(bars, i, volumeThreshold, priceThreshold)
  {
    assert (bars + later)[i] == bars[i];
    if i >= WindowSize {
      assert (bars + later)[i - 1] == bars[i - 1];
      assert VolumeSeries(bars + later)[i - WindowSize..i] == VolumeSeries(bars)[i - WindowSize..i];
    }
  }

  /**
   * Whether bar `i` is flagged depends only on bars `i - 20` to `i`: two
   * series that agree there agree on the flag, whatever else they hold.
   */
  lemma FlagDependsOnlyOnWindow(
    bars: seq<Bar>, other: seq<Bar>, i: nat, volumeThreshold: real, priceThreshold: real
  )
    requires i < |bars| && i < |other|
    requires forall k :: i - WindowSize <= k <= i && 0 <= k ==> bars[k] == other[k]
    ensures Flagged(other, i, volumeThreshold, priceThreshold)
        == Flagged(bars, i, volumeThreshold, priceThreshold)
  {
    if i >= WindowSize {
      assert VolumeSeries(other)[i - WindowSize..i] == VolumeSeries(bars)[i - WindowSize..i];
    }
  }

  class BreakoutService {
    const volumeThreshold: real
    const priceThreshold: real

    constructor (volumeThreshold: real, priceThreshold: real)
      ensures this.volumeThreshold == volumeThreshold
      ensures this.priceThreshold == priceThreshold
    {
      this.volumeThreshold := volumeThreshold;
      this.priceThreshold := priceThreshold;
    }

    /**
     * `identify_breakouts`: the first 20 bars only fill the queue; every
     * later bar is judged against the average of the 20 volumes before it
     * and the close before it, and only then enters the queue itself.
     */
    method IdentifyBreakouts(stockData: seq<Bar>, currency: string) returns (breakouts: seq<Breakout>)
      requires priceThreshold > -1.0
      ensures breakouts == Detect(stockData, currency, volumeThreshold, priceThreshold)
    {
      var lastVolumes := new VolumeWindow(WindowSize);
      breakouts := [];
      var previousClose: Option<real> := None;
      for i := 0 to |stockData|
        invariant lastVolumes.Valid() && lastVolumes.maxLen == WindowSize
        invariant lastVolumes.items == RecentVolumes(stockData, i)
        invariant previousClose == if i == 0 then None else Some(stockData[i - 1].close)
        invariant breakouts == DetectUpTo(stockData, i, currency, volumeThreshold, priceThreshold)
      {
        var stock := stockData[i];
        RecentVolumesStep(stockData, i);
        var queued := lastVolumes.Length();
        if queued < WindowSize {
          WarmUpStep(stockData, i, currency, volumeThreshold, priceThreshold);
          lastVolumes.Append(stock.volume);
          previousClose := Some(stock.close);
          continue;
        }
        var total := lastVolumes.Sum();
        var avgVolume := total as real / WindowSize as real;
        EvaluateStep(stockData, i, currency, volumeThreshold, priceThreshold, avgVolume, previousClose);
        if IsBreakout(volumeThreshold, priceThreshold, stock, avgVolume, previousClose) {
          var ret := CalculateReturn(stockData, i);
          var breakout := Assemble(stock, avgVolume, currency, ret.0, ret.1);
          breakouts := breakouts + [breakout];
        }
        lastVolumes.Append(stock.volume);
        previousClose := Some(stock.close);
      }
    }
  }
}
