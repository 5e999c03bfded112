/**
 Model of the candle table of the trading bot (class Database in data/models.py).

 The SQLite table historical_data, whose primary key is (symbol, timestamp), is a map
 from that key to the stored row; INSERT OR REPLACE is a map update. The datetime
 column is produced by a local-time formatter that the store is given at
 construction and that is not modelled further.
 */
module CandleStore {
  import opened Wrappers

  /** One candle as delivered by the exchange: timestamp in milliseconds and OHLCV. */
  datatype Candle = Candle(timestamp: int, open: real, high: real, low: real, close: real, volume: real)

  /** One row of historical_data. */
  datatype Row = Row(
    symbol: string, timestamp: int, datetime: string,
    open: real, high: real, low: real, close: real, volume: real)

  type Key = (string, int)
  type Table = map<Key, Row>

  function KeyOf(r: Row): Key { (r.symbol, r.timestamp) }

  /** Every row is stored under its own primary key. */
  ghost predicate Keyed(t: Table)
  {
    forall k | k in t :: KeyOf(t[k]) == k
  }

  /** The row written for `c` of `symbol`; `localTime` renders the datetime column. */
  function MakeRow(localTime: int -> string, symbol: string, c: Candle): Row
  {
    Row(symbol, c.timestamp, localTime(c.timestamp), c.open, c.high, c.low, c.close, c.volume)
  }

  /** INSERT OR REPLACE of one row. */
  function Upsert(t: Table, r: Row): (t': Table)
    ensures KeyOf(r) in t' && t'[KeyOf(r)] == r
    ensures t'.Keys == t.Keys + {KeyOf(r)}
    ensures forall k | k in t && k != KeyOf(r) :: t'[k] == t[k]
    ensures Keyed(t) ==> Keyed(t')
  {
    t[KeyOf(r) := r]
  }

  /** Writing the same row twice leaves the table as writing it once. */
  lemma UpsertIdempotent(t: Table, r: Row)
    ensures Upsert(Upsert(t, r), r) == Upsert(t, r)
  {
  }

  /** A later write to the same key fully replaces an earlier one. */
  lemma UpsertReplaces(t: Table, r1: Row, r2: Row)
    requires KeyOf(r1) == KeyOf(r2)
    ensures Upsert(Upsert(t, r1), r2) == Upsert(t, r2)
  {
  }

  /** executemany of INSERT OR REPLACE: the rows are applied in sequence order. */
  function ApplyRows(t: Table, rows: seq<Row>): Table
  {
    if rows == [] then t else Upsert(ApplyRows(t, rows[..|rows| - 1]), rows[|rows| - 1])
  }

  /** The last row of `rows` stored under key `k`, if any. */
  function LastRowAt(rows: seq<Row>, k: Key): Option<Row>
  {
    if rows == [] then None
    else if KeyOf(rows[|rows| - 1]) == k then Some(rows[|rows| - 1])
    else LastRowAt(rows[..|rows| - 1], k)
  }

  /** After a sequence of upserts each key holds the last row written to it. */
  lemma {:induction false} ApplyRowsAt(t: Table, rows: seq<Row>, k: Key)
    ensures LastRowAt(rows, k).Some? ==>
              k in ApplyRows(t, rows) && ApplyRows(t, rows)[k] == LastRowAt(rows, k).value
    ensures LastRowAt(rows, k).None? ==>
              (k in ApplyRows(t, rows) <==> k in t) && (k in t ==> ApplyRows(t, rows)[k] == t[k])
    decreases |rows|
  {
    if rows != [] {
      ApplyRowsAt(t, rows[..|rows| - 1], k);
    }
  }

  // ---------------------------------------------------------------------------
  // Sorting the batch by timestamp (a stable sort, as Python's sorted is)

  predicate SortedByTimestamp(s: seq<Candle>)
  {
    forall i, j | 0 <= i < j < |s| :: s[i].timestamp <= s[j].timestamp
  }

  /** Inserts `c` after every element whose timestamp is not larger than its own. */
  function InsertByTimestamp(r: seq<Candle>, c: Candle): (r': seq<Candle>)
    ensures |r'| == |r| + 1
    decreases |r|
  {
    if r == [] || r[|r| - 1].timestamp <= c.timestamp then r + [c]
    else InsertByTimestamp(r[..|r| - 1], c) + [r[|r| - 1]]
  }

  /** sorted(candles, key=timestamp), as a stable insertion sort. */
  function SortByTimestamp(s: seq<Candle>): (r: seq<Candle>)
    ensures |r| == |s|
    decreases |s|
  {
    if s == [] then [] else InsertByTimestamp(SortByTimestamp(s[..|s| - 1]), s[|s| - 1])
  }

  lemma {:induction false} InsertBounded(r: seq<Candle>, c: Candle, bound: int)
    requires forall i | 0 <= i < |r| :: r[i].timestamp <= bound
    requires c.timestamp <= bound
    ensures forall i | 0 <= i < |r| + 1 :: InsertByTimestamp(r, c)[i].timestamp <= bound
    decreases |r|
  {
    if r == [] || r[|r| - 1].timestamp <= c.timestamp {
    } else {
      InsertBounded(r[..|r| - 1], c, bound);
    }
  }

  lemma {:induction false} InsertKeepsSorted(r: seq<Candle>, c: Candle)
    requires SortedByTimestamp(r)
    ensures SortedByTimestamp(InsertByTimestamp(r, c))
    decreases |r|
  {
    if r == [] || r[|r| - 1].timestamp <= c.timestamp {
    } else {
      var init, last := r[..|r| - 1], r[|r| - 1];
      assert SortedByTimestamp(init);
      InsertKeepsSorted(init, c);
      InsertBounded(init, c, last.timestamp);
      var rest := InsertByTimestamp(init, c);
      var r' := rest + [last];
      assert InsertByTimestamp(r, c) == r';
      forall i, j | 0 <= i < j < |r'| ensures r'[i].timestamp <= r'[j].timestamp {
        assert r'[i] == rest[i];
        if j < |rest| {
          assert r'[j] == rest[j];
        }
      }
    }
  }

  lemma {:induction false} InsertPermutes(r: seq<Candle>, c: Candle)
    ensures multiset(InsertByTimestamp(r, c)) == multiset(r) + multiset{c}
    decreases |r|
  {
    if r == [] || r[|r| - 1].timestamp <= c.timestamp {
    } else {
      var init, last := r[..|r| - 1], r[|r| - 1];
      assert r == init + [last];
      InsertPermutes(init, c);
    }
  }

  /** The sorted batch is in ascending timestamp order and a permutation of the input. */
  lemma {:induction false} SortByTimestampSorted(s: seq<Candle>)
    ensures SortedByTimestamp(SortByTimestamp(s))
    ensures multiset(SortByTimestamp(s)) == multiset(s)
    decreases |s|
  {
    if s != [] {
      var init, last := s[..|s| - 1], s[|s| - 1];
      assert s == init + [last];
      SortByTimestampSorted(init);
      InsertKeepsSorted(SortByTimestamp(init), last);
      InsertPermutes(SortByTimestamp(init), last);
    }
  }

  /** The candles of `s` with timestamp `ts`, in order. */
  function WithTimestamp(s: seq<Candle>, ts: int): seq<Candle>
  {
    if s == [] then []
    else WithTimestamp(s[..|s| - 1], ts) + (if s[|s| - 1].timestamp == ts then [s[|s| - 1]] else [])
  }

  /** The last candle of `s` with timestamp `ts`, if any. */
  function LastWithTimestamp(s: seq<Candle>, ts: int): Option<Candle>
  {
    var w := WithTimestamp(s, ts);
    if w == [] then None else Some(w[|w| - 1])
  }

  lemma WithTimestampSnoc(s: seq<Candle>, x: Candle, ts: int)
    ensures WithTimestamp(s + [x], ts) == WithTimestamp(s, ts) + (if x.timestamp == ts then [x] else [])
  {
    assert (s + [x])[..|s|] == s;
  }

  lemma {:induction false} InsertKeepsOrderOfEquals(r: seq<Candle>, c: Candle, ts: int)
    ensures WithTimestamp(InsertByTimestamp(r, c), ts) == WithTimestamp(r + [c], ts)
    decreases |r|
  {
    if r == [] || r[|r| - 1].timestamp <= c.timestamp {
    } else {
      var init, last := r[..|r| - 1], r[|r| - 1];
      assert r == init + [last];
      var rest := InsertByTimestamp(init, c);
      assert InsertByTimestamp(r, c) == rest + [last];
      InsertKeepsOrderOfEquals(init, c, ts);
      WithTimestampSnoc(rest, last, ts);
      WithTimestampSnoc(init, c, ts);
      WithTimestampSnoc(r, c, ts);
      WithTimestampSnoc(init, last, ts);
    }
  }

  /** Sorting is stable: the candles sharing a timestamp keep their input order. */
  lemma {:induction false} SortIsStable(s: seq<Candle>, ts: int)
    ensures WithTimestamp(SortByTimestamp(s), ts) == WithTimestamp(s, ts)
    decreases |s|
  {
    if s != [] {
      var init, last := s[..|s| - 1], s[|s| - 1];
      SortIsStable(init, ts);
      var sorted := SortByTimestamp(init);
      assert s == init + [last];
      InsertKeepsOrderOfEquals(sorted, last, ts);
      WithTimestampSnoc(sorted, last, ts);
      WithTimestampSnoc(init, last, ts);
    }
  }

  /** data_to_insert: one row per candle, in the order of the candles. */
  function RowsFor(localTime: int -> string, symbol: string, s: seq<Candle>): (rows: seq<Row>)
    ensures |rows| == |s|
    ensures forall i | 0 <= i < |s| :: rows[i] == MakeRow(localTime, symbol, s[i])
    decreases |s|
  {
    if s == [] then [] else RowsFor(localTime, symbol, s[..|s| - 1]) + [MakeRow(localTime, symbol, s[|s| - 1])]
  }

  lemma {:induction false} LastRowAtRowsFor(localTime: int -> string, symbol: string, s: seq<Candle>, k: Key)
    ensures LastRowAt(RowsFor(localTime, symbol, s), k) ==
              if k.0 == symbol && LastWithTimestamp(s, k.1).Some?
              then Some(MakeRow(localTime, symbol, LastWithTimestamp(s, k.1).value))
              else None
    decreases |s|
  {
    if s != [] {
      var init := s[..|s| - 1];
      var last := s[|s| - 1];
      assert s == init + [last];
      LastRowAtRowsFor(localTime, symbol, init, k);
      var rows := RowsFor(localTime, symbol, s);
      assert rows == RowsFor(localTime, symbol, init) + [MakeRow(localTime, symbol, last)];
      assert rows[..|rows| - 1] == RowsFor(localTime, symbol, init);
      WithTimestampSnoc(init, last, k.1);
    }
  }

  /**
   Effect of one bulk insert of `candles` for `symbol` on a key of `symbol` whose
   timestamp occurs in the batch: it holds the row of the last such candle in
   input order.
   */
  lemma BulkInsertLastWins(t: Table, localTime: int -> string, symbol: string, candles: seq<Candle>, ts: int)
    requires LastWithTimestamp(candles, ts).Some?
    ensures var t' := ApplyRows(t, RowsFor(localTime, symbol, SortByTimestamp(candles)));
      (symbol, ts) in t' && t'[(symbol, ts)] == MakeRow(localTime, symbol, LastWithTimestamp(candles, ts).value)
  {
    var sorted := SortByTimestamp(candles);
    SortIsStable(candles, ts);
    LastRowAtRowsFor(localTime, symbol, sorted, (symbol, ts));
    ApplyRowsAt(t, RowsFor(localTime, symbol, sorted), (symbol, ts));
  }

  /** Every key of another symbol, or of a timestamp absent from the batch, is untouched by a bulk insert. */
  lemma BulkInsertKeepsOthers(t: Table, localTime: int -> string, symbol: string, candles: seq<Candle>, k: Key)
    requires k.0 != symbol || LastWithTimestamp(candles, k.1).None?
    ensures var t' := ApplyRows(t, RowsFor(localTime, symbol, SortByTimestamp(candles)));
      (k in t' <==> k in t) && (k in t ==> t'[k] == t[k])
  {
    var sorted := SortByTimestamp(candles);
    SortIsStable(candles, k.1);
    LastRowAtRowsFor(localTime, symbol, sorted, k);
    ApplyRowsAt(t, RowsFor(localTime, symbol, sorted), k);
  }

  // ---------------------------------------------------------------------------
  // Reading one symbol in timestamp order

  /** `m` is the least element of `s`. */
  predicate IsMin(m: int, s: set<int>)
  {
    m in s && forall x | x in s :: m <= x
  }

  lemma NonEmptyHasElement(s: set<int>)
    requires s != {}
    ensures exists y :: y in s
  {
    if forall y :: y !in s {
      assert false;
    }
  }

  lemma {:induction false} HasMinimum(s: set<int>)
    requires s != {}
    ensures exists m :: IsMin(m, s)
    decreases |s|
  {
    NonEmptyHasElement(s);
    var y :| y in s;
    var s' := s - {y};
    if s' == {} {
      forall x | x in s ensures y <= x { assert x !in s'; }
      assert IsMin(y, s);
    } else {
      HasMinimum(s');
      var m :| IsMin(m, s');
      var least := if y < m then y else m;
      forall x | x in s ensures least <= x {
        if x != y { assert x in s'; }
      }
      assert IsMin(least, s);
    }
  }

  /** The elements of `s` in strictly ascending order. */
  function Ascending(s: set<int>): (r: seq<int>)
    ensures forall i, j | 0 <= i < j < |r| :: r[i] < r[j]
    ensures forall x :: x in r <==> x in s
    ensures |r| == |s|
    decreases |s|
  {
    if s == {} then []
    else
      HasMinimum(s);
      var m :| IsMin(m, s);
      var rest := Ascending(s - {m});
      assert forall x | x in rest :: m < x;
      [m] + rest
  }

  /** The rows of `t` stored under `symbol` at the timestamps `ts`, in that order. */
  function RowsAt(t: Table, symbol: string, ts: seq<int>): (rows: seq<Row>)
    requires forall i | 0 <= i < |ts| :: (symbol, ts[i]) in t
    ensures |rows| == |ts|
    ensures forall i | 0 <= i < |ts| :: rows[i] == t[(symbol, ts[i])]
    decreases |ts|
  {
    if ts == [] then [] else [t[(symbol, ts[0])]] + RowsAt(t, symbol, ts[1..])
  }

  /** The timestamps stored for `symbol`. */
  function TimestampsOf(t: Table, symbol: string): (r: set<int>)
    ensures forall ts :: ts in r <==> (symbol, ts) in t
  {
    set k | k in t && k.0 == symbol :: k.1
  }

  /** Rows fetched at strictly ascending timestamps are the stored rows, in ascending order. */
  lemma RowsAtOrdered(t: Table, symbol: string, ts: seq<int>)
    requires Keyed(t)
    requires forall i | 0 <= i < |ts| :: (symbol, ts[i]) in t
    requires forall i, j | 0 <= i < j < |ts| :: ts[i] < ts[j]
    ensures forall i | 0 <= i < |ts| ::
              var r := RowsAt(t, symbol, ts)[i]; r.symbol == symbol && KeyOf(r) in t && t[KeyOf(r)] == r
    ensures forall i, j | 0 <= i < j < |ts| :: RowsAt(t, symbol, ts)[i].timestamp < RowsAt(t, symbol, ts)[j].timestamp
  {
    var rows := RowsAt(t, symbol, ts);
    forall i | 0 <= i < |ts| ensures KeyOf(rows[i]) == (symbol, ts[i]) {
      assert rows[i] == t[(symbol, ts[i])];
    }
  }

  /** Rows fetched at every timestamp of `symbol` include every stored row of `symbol`. */
  lemma RowsAtComplete(t: Table, symbol: string, ts: seq<int>)
    requires forall i | 0 <= i < |ts| :: (symbol, ts[i]) in t
    requires forall k | k in t && k.0 == symbol :: k.1 in ts
    ensures forall k | k in t && k.0 == symbol :: t[k] in RowsAt(t, symbol, ts)
    ensures RowsAt(t, symbol, ts) == [] <==> forall k | k in t :: k.0 != symbol
  {
    var rows := RowsAt(t, symbol, ts);
    forall k | k in t && k.0 == symbol ensures t[k] in rows {
      var i :| 0 <= i < |ts| && ts[i] == k.1;
      assert (symbol, ts[i]) == k;
      assert rows[i] == t[k];
    }
  }

  /** SELECT ... WHERE symbol = ? ORDER BY timestamp ASC over table `t`. */
  function SymbolRows(t: Table, symbol: string): (rows: seq<Row>)
    requires Keyed(t)
    ensures forall i, j | 0 <= i < j < |rows| :: rows[i].timestamp < rows[j].timestamp
    ensures forall i | 0 <= i < |rows| :: rows[i].symbol == symbol && KeyOf(rows[i]) in t && t[KeyOf(rows[i])] == rows[i]
    ensures forall k | k in t && k.0 == symbol :: t[k] in rows
    ensures rows == [] <==> forall k | k in t :: k.0 != symbol
  {
    var present := TimestampsOf(t, symbol);
    var ts := Ascending(present);
    assert forall i | 0 <= i < |ts| :: (symbol, ts[i]) in t by {
      forall i | 0 <= i < |ts| ensures (symbol, ts[i]) in t {
        assert ts[i] in present;
      }
    }
    assert forall k | k in t && k.0 == symbol :: k.1 in ts by {
      forall k | k in t && k.0 == symbol ensures k.1 in ts {
        assert (symbol, k.1) == k;
      }
    }
    RowsAtComplete(t, symbol, ts);
    RowsAtOrdered(t, symbol, ts);
    RowsAt(t, symbol, ts)
  }

  // ---------------------------------------------------------------------------
  // The store

  class Database {
    /** convert_timestamp_to_datetime: local-time rendering of a millisecond timestamp. */
    const localTime: int -> string
    /** The historical_data table. */
    var historicalData: Table

    ghost predicate Valid()
      reads this
    {
      Keyed(historicalData)
    }

    /**
     __init__: opens the database file and creates the table if it does not exist,
     so the rows a previous run left in the file are kept.
     */
    constructor (localTime: int -> string, existing: Table)
      requires Keyed(existing)
      ensures Valid()
      ensures this.localTime == localTime && historicalData == existing
    {
      this.localTime := localTime;
      historicalData := existing;
    }

    /** insert_or_update_data: upsert of one candle under (symbol, timestamp). */
    method InsertOrUpdateData(symbol: string, timestamp: int, open: real, high: real, low: real, close: real, volume: real)
      requires Valid()
      modifies this
      ensures Valid()
      ensures historicalData ==
                Upsert(old(historicalData), Row(symbol, timestamp, localTime(timestamp), open, high, low, close, volume))
    {
      var datetime := localTime(timestamp);
      historicalData := Upsert(historicalData, Row(symbol, timestamp, datetime, open, high, low, close, volume));
    }

    /** The loop that builds data_to_insert from the sorted batch. */
    method BuildRows(symbol: string, sorted: seq<Candle>) returns (dataToInsert: seq<Row>)
      ensures dataToInsert == RowsFor(localTime, symbol, sorted)
      ensures |dataToInsert| == |sorted|
      ensures forall i | 0 <= i < |sorted| :: dataToInsert[i] == MakeRow(localTime, symbol, sorted[i])
    {
      dataToInsert := [];
      var i := 0;
      while i < |sorted|
        invariant 0 <= i <= |sorted|
        invariant dataToInsert == RowsFor(localTime, symbol, sorted[..i])
      {
        assert sorted[..i + 1][..i] == sorted[..i];
        dataToInsert := dataToInsert + [MakeRow(localTime, symbol, sorted[i])];
        i := i + 1;
      }
      assert sorted[..i] == sorted;
    }

    /**
     bulk_insert_historical_data: sorts the batch by timestamp, builds one row per
     candle and upserts them in that order. `writeOk` says whether the write went
     through; a failure is swallowed and leaves the table as it was. The result is
     the number of candles reported as loaded, None when the error was reported.
     */
    method BulkInsertHistoricalData(symbol: string, candles: seq<Candle>, writeOk: bool)
      returns (loaded: Option<nat>)
      requires Valid()
      modifies this
      ensures Valid()
      ensures loaded == if writeOk then Some(|candles|) else None
      ensures historicalData ==
                if writeOk then ApplyRows(old(historicalData), RowsFor(localTime, symbol, SortByTimestamp(candles)))
                else old(historicalData)
    {
      var sorted := SortByTimestamp(candles);
      var dataToInsert := BuildRows(symbol, sorted);
      if !writeOk {
        return None;
      }
      ExecuteMany(dataToInsert);
      loaded := Some(|dataToInsert|);
    }

    /** executemany of INSERT OR REPLACE: upserts `rows` one after the other. */
    method ExecuteMany(rows: seq<Row>)
      requires Valid()
      modifies this
      ensures Valid()
      ensures historicalData == ApplyRows(old(historicalData), rows)
    {
      var j := 0;
      while j < |rows|
        invariant 0 <= j <= |rows|
        invariant Keyed(historicalData)
        invariant historicalData == ApplyRows(old(historicalData), rows[..j])
      {
        assert rows[..j + 1][..j] == rows[..j];
        historicalData := Upsert(historicalData, rows[j]);
        j := j + 1;
      }
      assert rows[..j] == rows;
    }

    /**
     get_sorted_historical_data: the rows of `symbol` in ascending timestamp order;
     `readOk` says whether the query went through, and a failure yields [].
     */
    function GetSortedHistoricalData(symbol: string, readOk: bool): (rows: seq<Row>)
      requires Valid()
      reads this
      ensures !readOk ==> rows == []
      ensures readOk ==> rows == SymbolRows(historicalData, symbol)
    {
      if readOk then SymbolRows(historicalData, symbol) else []
    }
  }
}
