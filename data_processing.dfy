/**
 * Chronological normaliser (utils/data_processing.py): Python's
 * `sorted(stock_data, key=lambda x: x.utc_date)`.
 *
 * `sorted` is stable, so its result is fully determined by two facts: it is
 * ordered by key, and for every key it lists the bars with that key in input
 * order. `SortByDate` is a stable insertion sort; `StableSortIsUnique` shows
 * that any other stable sort by `utcDate` (Timsort included) returns the very
 * same sequence.
 */
module DataProcessing {
  import opened StockData

  /** Ascending (non-decreasing) by `utcDate`. */
  ghost predicate SortedByDate(s: seq<Bar>) {
    forall i, j :: 0 <= i < j < |s| ==> s[i].utcDate <= s[j].utcDate
  }

  /** The bars of `s` whose key is `key`, in their order in `s`. */
  function WithDate(s: seq<Bar>, key: int): seq<Bar> {
    if s == [] then []
    else (if s[0].utcDate == key then [s[0]] else []) + WithDate(s[1..], key)
  }

  /** Every key keeps the relative order of its bars. */
  ghost predicate SameOrderPerDate(s: seq<Bar>, t: seq<Bar>) {
    forall key :: WithDate(s, key) == WithDate(t, key)
  }

  /**
   * Places `b` in front of the first bar whose key is not smaller, so that
   * `b` stays ahead of every bar of `s` with an equal key.
   */
  function Insert(b: Bar, s: seq<Bar>): (r: seq<Bar>)
    ensures |r| == |s| + 1
    ensures multiset(r) == multiset{b} + multiset(s)
  {
    if s == [] || b.utcDate <= s[0].utcDate then [b] + s
    else
      assert s == [s[0]] + s[1..];
      [s[0]] + Insert(b, s[1..])
  }

  /** `DataProcessor.sort_stock_data_by_date`: a new, stably sorted sequence. */
  function SortByDate(stockData: seq<Bar>): (r: seq<Bar>)
    ensures |r| == |stockData|
    ensures multiset(r) == multiset(stockData)
  {
    if stockData == [] then []
    else
      assert stockData == [stockData[0]] + stockData[1..];
      Insert(stockData[0], SortByDate(stockData[1..]))
  }

  /** Inserting a bar no earlier than `lo` into bars no earlier than `lo` keeps that bound. */
  lemma {:induction false} InsertLowerBound(b: Bar, s: seq<Bar>, lo: int)
    requires lo <= b.utcDate
    requires forall j :: 0 <= j < |s| ==> lo <= s[j].utcDate
    ensures forall j :: 0 <= j < |Insert(b, s)| ==> lo <= Insert(b, s)[j].utcDate
  {
    if s != [] && s[0].utcDate < b.utcDate {
      InsertLowerBound(b, s[1..], lo);
    }
  }

  lemma {:induction false} InsertSorted(b: Bar, s: seq<Bar>)
    requires SortedByDate(s)
    ensures SortedByDate(Insert(b, s))
  {
    if s != [] && s[0].utcDate < b.utcDate {
      var rest := Insert(b, s[1..]);
      InsertSorted(b, s[1..]);
      InsertLowerBound(b, s[1..], s[0].utcDate);
      var r := [s[0]] + rest;
      assert Insert(b, s) == r;
      forall i, j | 0 <= i < j < |r| ensures r[i].utcDate <= r[j].utcDate {
        if i > 0 {
          assert r[i] == rest[i - 1] && r[j] == rest[j - 1];
        } else {
          assert r[j] == rest[j - 1];
        }
      }
    }
  }

  lemma WithDateCons(x: Bar, s: seq<Bar>, key: int)
    ensures WithDate([x] + s, key) == (if x.utcDate == key then [x] else []) + WithDate(s, key)
  {
    assert ([x] + s)[1..] == s;
  }

  lemma {:induction false} InsertWithDate(b: Bar, s: seq<Bar>, key: int)
    ensures WithDate(Insert(b, s), key)
         == (if b.utcDate == key then [b] else []) + WithDate(s, key)
  {
    if s == [] || b.utcDate <= s[0].utcDate {
      WithDateCons(b, s, key);
    } else {
      var rest := Insert(b, s[1..]);
      var tail := WithDate(s[1..], key);
      var here := if s[0].utcDate == key then [s[0]] else [];
      var mine := if b.utcDate == key then [b] else [];
      InsertWithDate(b, s[1..], key);
      WithDateCons(s[0], rest, key);
      WithDateCons(s[0], s[1..], key);
      assert s == [s[0]] + s[1..];
      assert WithDate(Insert(b, s), key) == here + (mine + tail);
      assert WithDate(s, key) == here + tail;
      // The two bars have different dates, so at most one of them is kept.
      if s[0].utcDate == key {
        assert mine == [];
        assert mine + tail == tail;
        assert [] + (here + tail) == here + tail;
      } else {
        assert here == [];
        assert here + (mine + tail) == mine + tail;
        assert here + tail == tail;
      }
    }
  }


  /** The sorted output is in chronological order. */
  lemma {:induction false} SortByDateSorted(stockData: seq<Bar>)
    ensures SortedByDate(SortByDate(stockData))
  {
    if stockData != [] {
      SortByDateSorted(stockData[1..]);
      InsertSorted(stockData[0], SortByDate(stockData[1..]));
    }
  }

  /** Stability: bars with equal `utcDate` keep their input order. */
  lemma {:induction false} SortByDateStable(stockData: seq<Bar>)
    ensures SameOrderPerDate(SortByDate(stockData), stockData)
  {
    if stockData != [] {
      SortByDateStable(stockData[1..]);
      forall key ensures WithDate(SortByDate(stockData), key) == WithDate(stockData, key) {
        InsertWithDate(stockData[0], SortByDate(stockData[1..]), key);
      }
    }
  }

  lemma {:induction false} WithDateHead(s: seq<Bar>)
    requires s != []
    ensures WithDate(s, s[0].utcDate) != [] && WithDate(s, s[0].utcDate)[0] == s[0]
  {
  }

  lemma {:induction false} WithDateMember(s: seq<Bar>, key: int)
    requires WithDate(s, key) != []
    ensures exists i :: 0 <= i < |s| && s[i].utcDate == key
  {
    if s[0].utcDate != key {
      WithDateMember(s[1..], key);
      var i :| 0 <= i < |s[1..]| && s[1..][i].utcDate == key;
      assert s[i + 1].utcDate == key;
    }
  }

  /**
   * Two sequences that are both ordered by `utcDate` and agree on the order
   * of every key's bars are equal: a stable sort has exactly one result.
   */
  lemma {:induction false} StableSortIsUnique(s: seq<Bar>, t: seq<Bar>)
    requires SortedByDate(s) && SortedByDate(t)
    requires SameOrderPerDate(s, t)
    ensures s == t
  {
    if s == [] && t == [] {
    } else if s == [] {
      WithDateHead(t);
    } else if t == [] {
      WithDateHead(s);
    } else {
      SameHead(s, t);
      SameOrderPerDateTail(s, t);
      StableSortIsUnique(s[1..], t[1..]);
      assert s == [s[0]] + s[1..] && t == [t[0]] + t[1..];
    }
  }

  /** Both sequences start with the earliest bar of the earliest date. */
  lemma SameHead(s: seq<Bar>, t: seq<Bar>)
    requires s != [] && t != []
    requires SortedByDate(s) && SortedByDate(t)
    requires SameOrderPerDate(s, t)
    ensures s[0] == t[0]
  {
    var ks, kt := s[0].utcDate, t[0].utcDate;
    WithDateHead(s);
    WithDateHead(t);
    assert WithDate(t, ks) == WithDate(s, ks);
    WithDateMember(t, ks);
    assert WithDate(s, kt) == WithDate(t, kt);
    WithDateMember(s, kt);
    assert ks == kt;
    assert s[0] == WithDate(s, ks)[0] == WithDate(t, ks)[0] == t[0];
  }

  /** Dropping an equal first bar keeps the per-date order equal. */
  lemma SameOrderPerDateTail(s: seq<Bar>, t: seq<Bar>)
    requires s != [] && t != [] && s[0] == t[0]
    requires SameOrderPerDate(s, t)
    ensures SameOrderPerDate(s[1..], t[1..])
  {
    forall key ensures WithDate(s[1..], key) == WithDate(t[1..], key) {
      assert s == [s[0]] + s[1..] && t == [t[0]] + t[1..];
      WithDateCons(s[0], s[1..], key);
      WithDateCons(t[0], t[1..], key);
      var head := if s[0].utcDate == key then [s[0]] else [];
      assert WithDate(s, key) == WithDate(t, key);
      assert WithDate(s[1..], key) == WithDate(s, key)[|head|..];
      assert WithDate(t[1..], key) == WithDate(t, key)[|head|..];
    }
  }

  /**
   * `SortByDate` is the only sequence that is a chronological, stable
   * rearrangement of the input: it is what Python's `sorted` returns.
   */
  lemma SortByDateCharacterised(stockData: seq<Bar>, other: seq<Bar>)
    requires SortedByDate(other) && SameOrderPerDate(other, stockData)
    ensures other == SortByDate(stockData)
  {
    SortByDateSorted(stockData);
    SortByDateStable(stockData);
    StableSortIsUnique(other, SortByDate(stockData));
  }

  /** Sorting already chronological data changes nothing. */
  lemma SortByDateIdempotent(stockData: seq<Bar>)
    requires SortedByDate(stockData)
    ensures SortByDate(stockData) == stockData
  {
    SortByDateCharacterised(stockData, stockData);
  }
}
