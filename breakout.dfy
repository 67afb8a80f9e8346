/**
 * The breakout record (models/breakout.py): the constructor's normalisation
 * of the three forward-looking fields, the two-decimal rounding of the
 * return, and the fixed nine-column `to_dict` flattening.
 */
module BreakoutRecord {
  import opened Wrappers

  /** The string the source stores in place of a missing forward value. */
  const NotAvailableText: string := "Data Not Available"

  /** A forward-looking field: a value, or the "Data Not Available" sentinel. */
  datatype Field<T> = Value(v: T) | NotAvailable

  datatype Breakout = Breakout(
    breakoutDate: string,
    breakoutDayOpen: real,
    breakoutDayClose: real,
    volumeOnBreakoutDay: int,
    avgVolumeLast20Days: real,
    currency: string,
    dateAfter20Days: Field<string>,
    priceAfter20Days: Field<real>,
    returnPercentage: Field<real>
  )

  /** `x` has at most two decimals (it is a whole number of hundredths). */
  predicate HasTwoDecimals(x: real) {
    (x * 100.0).Floor as real == x * 100.0
  }

  /**
   * Python's `round(x, 2)` on an exact value: to the nearest hundredth,
   * halves to the even hundredth.
   */
  function Round2(x: real): (r: real)
    ensures HasTwoDecimals(r)
    ensures x - 0.005 <= r <= x + 0.005
  {
    var scaled := x * 100.0;
    var n := scaled.Floor;
    var frac := scaled - n as real;
    var m := if frac < 0.5 then n
             else if frac > 0.5 then n + 1
             else if n % 2 == 0 then n else n + 1;
    assert (m as real / 100.0) * 100.0 == m as real;
    m as real / 100.0
  }

  /** A value that already has two decimals is left alone by rounding. */
  lemma Round2OfTwoDecimals(x: real)
    requires HasTwoDecimals(x)
    ensures Round2(x) == x
  {
    var n := (x * 100.0).Floor;
    assert x * 100.0 - n as real == 0.0;
    assert n as real / 100.0 == x;
  }

  /** Rounding twice is rounding once. */
  lemma Round2Idempotent(x: real)
    ensures Round2(Round2(x)) == Round2(x)
  {
    Round2OfTwoDecimals(Round2(x));
  }

  /**
   * `Breakout.__init__`. Date and price use Python's `or`, so an empty date
   * and a price of 0.0 fall back to the sentinel as `None` does; the return
   * is tested with `is not None`, so 0.0 is kept, and it is rounded.
   */
  function NewBreakout(
    breakoutDate: string,
    breakoutDayOpen: real,
    breakoutDayClose: real,
    volumeOnBreakoutDay: int,
    avgVolumeLast20Days: real,
    currency: string,
    dateAfter20Days: Option<string>,
    priceAfter20Days: Option<real>,
    returnPercentage: Option<real>
  ): (b: Breakout)
    ensures b.breakoutDate == breakoutDate && b.breakoutDayOpen == breakoutDayOpen
    ensures b.breakoutDayClose == breakoutDayClose && b.volumeOnBreakoutDay == volumeOnBreakoutDay
    ensures b.avgVolumeLast20Days == avgVolumeLast20Days && b.currency == currency
    ensures b.dateAfter20Days == NotAvailable <==> dateAfter20Days in {None, Some("")}
    ensures b.dateAfter20Days.Value? ==> dateAfter20Days == Some(b.dateAfter20Days.v)
    ensures b.priceAfter20Days == NotAvailable <==> priceAfter20Days in {None, Some(0.0)}
    ensures b.priceAfter20Days.Value? ==> priceAfter20Days == Some(b.priceAfter20Days.v)
    ensures b.returnPercentage.Value? <==> returnPercentage.Some?
    ensures b.returnPercentage.Value? ==>
              HasTwoDecimals(b.returnPercentage.v)
              && returnPercentage.value - 0.005 <= b.returnPercentage.v <= returnPercentage.value + 0.005
  {
    Breakout(
      breakoutDate,
      breakoutDayOpen,
      breakoutDayClose,
      volumeOnBreakoutDay,
      avgVolumeLast20Days,
      currency,
      match dateAfter20Days
        case Some(d) => if d == "" then NotAvailable else Value(d)
        case None => NotAvailable,
      match priceAfter20Days
        case Some(p) => if p == 0.0 then NotAvailable else Value(p)
        case None => NotAvailable,
      match returnPercentage
        case Some(x) => Value(Round2(x))
        case None => NotAvailable
    )
  }

  /** A value of the flat mapping `to_dict` returns. */
  datatype Cell = Text(s: string) | Number(x: real) | Integer(n: int)

  /** An insertion-ordered dictionary, as Python's `dict` is. */
  type Row = seq<(string, Cell)>

  /** The nine column names, in the order `to_dict` inserts them. */
  const Columns: seq<string> := [
    "Breakout Date",
    "Breakout Day Open",
    "Breakout Day Close",
    "Volume on Breakout Day",
    "Average Volume (Last 20 Days)",
    "Currency",
    "Date After 20 Days",
    "Price After 20 Days",
    "Return (%)"
  ]

  function TextCell(f: Field<string>): Cell {
    match f
    case Value(s) => Text(s)
    case NotAvailable => Text(NotAvailableText)
  }

  function NumberCell(f: Field<real>): Cell {
    match f
    case Value(x) => Number(x)
    case NotAvailable => Text(NotAvailableText)
  }

  /** No column name occurs twice. */
  ghost predicate DistinctKeys(row: Row) {
    forall i, j :: 0 <= i < j < |row| ==> row[i].0 != row[j].0
  }

  lemma ColumnsDistinct()
    ensures forall i, j :: 0 <= i < j < |Columns| ==> Columns[i] != Columns[j]
  {
  }

  /** The value stored under `key`, if any. */
  function Lookup(row: Row, key: string): Option<Cell> {
    if row == [] then None
    else if row[0].0 == key then Some(row[0].1)
    else Lookup(row[1..], key)
  }

  /** With distinct keys, every pair can be found under its own key. */
  lemma {:induction false} LookupAt(row: Row, k: nat)
    requires DistinctKeys(row) && k < |row|
    ensures Lookup(row, row[k].0) == Some(row[k].1)
  {
    if k > 0 {
      assert row[0].0 != row[k].0;
      LookupAt(row[1..], k - 1);
    }
  }

  /** In a row laid out as `Columns`, each column name finds its own cell. */
  lemma LookupColumns(row: Row)
    requires |row| == |Columns|
    requires forall i :: 0 <= i < |row| ==> row[i].0 == Columns[i]
    ensures forall i :: 0 <= i < |row| ==> Lookup(row, Columns[i]) == Some(row[i].1)
  {
    ColumnsDistinct();
    assert DistinctKeys(row);
    forall i | 0 <= i < |row| ensures Lookup(row, Columns[i]) == Some(row[i].1) {
      LookupAt(row, i);
    }
  }

  function TextAt(row: Row, key: string): Option<string> {
    match Lookup(row, key)
    case Some(Text(s)) => Some(s)
    case _ => None
  }

  function NumberAt(row: Row, key: string): Option<real> {
    match Lookup(row, key)
    case Some(Number(x)) => Some(x)
    case _ => None
  }

  function IntegerAt(row: Row, key: string): Option<int> {
    match Lookup(row, key)
    case Some(Integer(n)) => Some(n)
    case _ => None
  }

  function TextFieldAt(row: Row, key: string): Option<Field<string>> {
    match Lookup(row, key)
    case Some(Text(s)) => Some(if s == NotAvailableText then NotAvailable else Value(s))
    case _ => None
  }

  function NumberFieldAt(row: Row, key: string): Option<Field<real>> {
    match Lookup(row, key)
    case Some(Number(x)) => Some(Value(x))
    case Some(Text(s)) => if s == NotAvailableText then Some(NotAvailable) else None
    case _ => None
  }

  /**
   * Reads a breakout back from its flat mapping; the reference inverse of
   * `ToDict`, used to state what the mapping preserves.
   */
  function FromDict(row: Row): Option<Breakout> {
    var date := TextAt(row, Columns[0]);
    var open := NumberAt(row, Columns[1]);
    var close := NumberAt(row, Columns[2]);
    var volume := IntegerAt(row, Columns[3]);
    var avg := NumberAt(row, Columns[4]);
    var currency := TextAt(row, Columns[5]);
    var dateAfter := TextFieldAt(row, Columns[6]);
    var priceAfter := NumberFieldAt(row, Columns[7]);
    var returnPct := NumberFieldAt(row, Columns[8]);
    if date.Some? && open.Some? && close.Some? && volume.Some? && avg.Some?
       && currency.Some? && dateAfter.Some? && priceAfter.Some? && returnPct.Some?
    then Some(Breakout(date.value, open.value, close.value, volume.value, avg.value,
                       currency.value, dateAfter.value, priceAfter.value, returnPct.value))
    else None
  }

  /**
   * `Breakout.to_dict`: exactly the nine columns, in order, each holding the
   * stored field (a missing forward value as the sentinel text). Reading the
   * mapping back gives the record again, unless a forward date is itself the
   * sentinel text, which the mapping cannot tell apart from a missing one.
   */
  function ToDict(b: Breakout): (row: Row)
    ensures |row| == |Columns|
    ensures forall i :: 0 <= i < |row| ==> row[i].0 == Columns[i]
    ensures NumberAt(row, "Breakout Day Open") == Some(b.breakoutDayOpen)
    ensures NumberAt(row, "Breakout Day Close") == Some(b.breakoutDayClose)
    ensures IntegerAt(row, "Volume on Breakout Day") == Some(b.volumeOnBreakoutDay)
    ensures NumberAt(row, "Average Volume (Last 20 Days)") == Some(b.avgVolumeLast20Days)
    ensures b.dateAfter20Days != Value(NotAvailableText) ==> FromDict(row) == Some(b)
  {
    var row := [
      (Columns[0], Text(b.breakoutDate)),
      (Columns[1], Number(b.breakoutDayOpen)),
      (Columns[2], Number(b.breakoutDayClose)),
      (Columns[3], Integer(b.volumeOnBreakoutDay)),
      (Columns[4], Number(b.avgVolumeLast20Days)),
      (Columns[5], Text(b.currency)),
      (Columns[6], TextCell(b.dateAfter20Days)),
      (Columns[7], NumberCell(b.priceAfter20Days)),
      (Columns[8], NumberCell(b.returnPercentage))
    ];
    LookupColumns(row);
    row
  }
}
