# Trading bot core in Dafny

This project models the decision core of a single-symbol cryptocurrency trading bot.
It has two parts:

- **The position state machine** (`TradingStrategy` in `strategy.py`). Two mutable fields
  hold the open position: `position_size` and `position_avg_price`. An entry rule emits
  `buy1` (first tranche, 40 units, when the last RSI value is below 33) or `buy2`
  (second tranche, 7 units, when the price is more than 4 % above the average price).
  An exit rule emits `immediate_exit` (price more than 2 % below the average) or `tp_sl`
  (3 % stop-loss or 5 % take-profit). Each loop iteration runs the entry check, possibly
  enters, and then runs the exit check on the post-entry position.
- **The candle table** (`Database` in `data/models.py`). The SQLite table
  `historical_data` has primary key `(symbol, timestamp)`. It supports a single upsert,
  a bulk upsert of a batch sorted by timestamp, and an ordered read of one symbol.

Files:

- `wrappers.dfy`: the `Option` datatype.
- `strategy.dfy`, module `Strategy`:
  - signals `Entry` and `Exit`, the `Position` value, and the entry and exit predicates as functions;
  - `Cycle`, one loop iteration as a function, and `Run`, a finite run of iterations;
  - the class `TradingStrategy`, whose methods update the two fields.
- `candle_store.dfy`, module `CandleStore`:
  - the table as a `map<(string, int), Row>`;
  - `Upsert` and `ApplyRows` (INSERT OR REPLACE, executemany);
  - a stable insertion sort standing for Python's `sorted`;
  - the ordered query `SymbolRows`;
  - the class `Database`, whose methods update the table.

Modelling choices:

- Every exchange call becomes an input. A fetched price is an `Option<real>`, with `None`
  when `get_ticker` raised. An order placement is a flag saying whether `place_order`
  returned without raising. The code treats any returned payload as a fill, even an error
  response from the exchange, and so does the model.
- The RSI library is not modelled. Each iteration receives the last RSI value as an
  `Option<real>`, with `None` standing for NaN; a NaN never compares below 33. A separate
  flag says whether computing or indexing the RSI series raised. In the source that
  exception reaches the loop's handler, so the whole iteration is skipped, exit check included.
- The check methods are functions over a `Position` value, so they cannot change the
  fields. The updates and the loop iteration are methods of `TradingStrategy`, and each is
  specified against `Cycle`.
- The datetime column comes from `convert_timestamp_to_datetime`. It is a formatter
  `localTime: int -> string` that the `Database` receives at construction.
- The exit rule tests the immediate exit before the stop-loss. With an average price of
  100, a price of 96 is below both the 98 immediate-exit level and the 97 stop-loss level.
  The immediate-exit test comes first (strategy.py:167), so the result is `immediate_exit`
  (`Strategy.SignalExamples`). With the shipped parameters and a positive average price,
  the stop-loss half of `tp_sl` can never fire (`Strategy.CheckExitConditions`).

## Model

| member | source | states |
|---|---|---|
| `Strategy.CheckEntryConditions` | strategy.py:125-149 | `buy1` iff the size is 0 and the last RSI is defined and below 33; `buy2` iff the size is exactly 40 and the price is strictly above avg·1.04; a signal only ever comes from size 0 or 40; an undefined RSI never gives `buy1` |
| `Strategy.CheckExitConditions` | strategy.py:151-177 | no signal when the size is 0; `immediate_exit` iff the size is nonzero and the price is below avg·0.98; `tp_sl` iff not that and price ≤ avg·0.97 or ≥ avg·1.05; with avg > 0 `tp_sl` means take-profit only (stop-loss unreachable) and no signal means avg·0.98 ≤ price < avg·1.05 |
| `Strategy.SignalExamples` | strategy.py:141-177 | worked cases: flat with RSI 25 gives `buy1`; (40, 100) at 105 gives `buy2` and at 104 nothing; size 47 never re-enters; (40, 100) at 96 and at 97 gives `immediate_exit`, at 98 nothing, at 105 `tp_sl`; a successful entry adds the tranche and sets the average to the fetched price |
| `Strategy.EntryThenExitWhenPricesDiffer` | strategy.py:259-271 | if the price fetched inside `enter_position` is above the iteration's price, one iteration can place a buy of 40 and then a sell of 40, ending flat |
| `Strategy.CycleKeepsConsistent` | strategy.py:253-271 | with positive prices, one iteration keeps the position in {flat at 0, 40 or 47 at a positive average} and keeps size 0 ⇔ average 0 |
| `Strategy.RunKeepsConsistent` | strategy.py:253-277 | any finite run of iterations with positive prices keeps that invariant |
| `Strategy.RunFromStart` | strategy.py:78-79 | from the constructor's (0, 0), every run leaves the size in {0, 40, 47} with size 0 ⇔ average 0 |
| `Strategy.EntryNotFollowedByExit` | strategy.py:259-271 | if the entry price equals the iteration's positive price, an entry that went through is followed by no exit signal and no exit order in that iteration |
| `Strategy.TradingStrategy.constructor` | strategy.py:77-79 | the position starts at size 0 and average 0 |
| `Strategy.TradingStrategy.EnterPosition` | strategy.py:179-210 | succeeds iff the price fetch and the order placement both return; then the size grows by the tranche and the average is overwritten by the fetched price, and the order has the given side and exactly that size (a buy in both calls from `RunStrategyCycle`); on any failure both fields are unchanged |
| `Strategy.TradingStrategy.ExitPosition` | strategy.py:212-241 | succeeds iff the order placement returns; the order sells the whole size when it is positive (buys otherwise); afterwards both fields are 0; on failure both are unchanged |
| `Strategy.TradingStrategy.RunStrategyCycle` | strategy.py:253-277 | the new position and the orders that went through are those of `Cycle`: skipped on a failed price or RSI step, otherwise entry first, then the exit check on the post-entry position with the same price; with positive prices a consistent position stays consistent |
| `CandleStore.Upsert` | data/models.py:80-96 | key (symbol, timestamp) holds exactly the new row; every other key is unchanged; the keys grow by that key only; rows stay stored under their own key |
| `CandleStore.UpsertIdempotent` | data/models.py:80-96 | upserting the same row twice equals upserting it once |
| `CandleStore.UpsertReplaces` | data/models.py:38 | a second write to the same primary key fully replaces the first |
| `CandleStore.ApplyRowsAt` | data/models.py:134-142 | after executing a batch of upserts, each key holds the last row of the batch written to it, and keys the batch does not write are untouched |
| `CandleStore.SortByTimestampSorted` | data/models.py:117 | the sorted batch is in ascending timestamp order and is a permutation (same multiset) of the input |
| `CandleStore.SortIsStable` | data/models.py:117 | for every timestamp, the candles with that timestamp appear in the sorted batch in their input order |
| `CandleStore.BulkInsertLastWins` | data/models.py:117-142 | after a bulk insert, a key of the symbol whose timestamp occurs in the batch holds the row of the last such candle in input order (a later duplicate overwrites an earlier one) |
| `CandleStore.BulkInsertKeepsOthers` | data/models.py:117-142 | after a bulk insert, keys of other symbols and of timestamps absent from the batch are untouched: present iff they were, with the same row |
| `CandleStore.SymbolRows` | data/models.py:158-165 | the rows returned are exactly the stored rows of the symbol, each at its own key, in strictly ascending timestamp order; the result is empty iff the symbol has no rows |
| `CandleStore.Database.constructor` | data/models.py:9-38 | the store opens on the rows already in the database file (`CREATE TABLE IF NOT EXISTS` keeps them), each stored under its own key |
| `CandleStore.Database.InsertOrUpdateData` | data/models.py:75-96 | the table becomes `Upsert` of the row built from the arguments, with the datetime rendered from the timestamp |
| `CandleStore.Database.BuildRows` | data/models.py:119-132 | `data_to_insert` has one row per sorted candle, in the same order, each carrying the symbol and the candle's columns |
| `CandleStore.Database.ExecuteMany` | data/models.py:134-142 | the table becomes the old table with the rows upserted in order |
| `CandleStore.Database.BulkInsertHistoricalData` | data/models.py:108-147 | on success, the rows of the timestamp-sorted batch are upserted in order and the reported count is the batch length; on failure, no count is returned and the table is unchanged |
| `CandleStore.Database.GetSortedHistoricalData` | data/models.py:149-169 | on success, the result is `SymbolRows` of the table; on failure, it is the empty list |

## Left out

- Exchange clients (`TradeAPI`, `MarketAPI`, `AccountAPI`, `get_ticker`, `get_candlesticks`, `place_order`): their results are inputs. The order's fixed fields (`tdMode='cross'`, `ordType='market'`) are not carried in `Order`.
- `get_historical_prices` and `calculate_rsi`: the RSI library and the price series feeding it are not modelled. Only the last RSI value, or the fact that computing it raised, is an input. The series is not claimed to be chronological closes; the code reads column 5, which is volume.
- Floating point: prices are reals. Boundary comparisons such as `price <= avg * 0.97` may round differently on IEEE doubles.
- The `while True` loops and `time.sleep` in `run_strategy` and `fetch_and_store_data`: one iteration is modelled, and `Run` folds finitely many iterations for the invariant.
- `fetch_and_store_data` (the ingestion runner) is not modelled. It only calls the bulk insert once and then the single upsert repeatedly.
- SQLite plumbing (`create_connection`, `create_table`, `create_strategy_signals_table`) and the `strategy_signals` table.
- `insert_signal`: it omits the NOT NULL `symbol` key column and is called with three arguments, so it never works as an upsert; it is not modelled.
- `convert_timestamp_to_datetime`: formatting in the local time zone is a parameter of the store, not defined here.
- Column types: timestamps and prices arrive as text from the exchange and are stored through SQLite's INTEGER and REAL affinity. The model takes them as `int` and `real`.
- `CandleStore.Database.InsertOrUpdateData`: does not model a failing write. The source has no handler there, so the exception propagates to the caller.
- `CandleStore.Database.BulkInsertHistoricalData`: does not model partial failure. Any failure (a malformed timestamp, a date the formatter rejects, a failed `executemany`) is one flag that leaves the table unchanged. SQLite's pending, uncommitted rows after a mid-batch error are not modelled.
- `account_api` and `rsi_overbought` are never used by the decision logic. `rsi_length` only sets the period of the RSI library call, which the model replaces with an input.
- `visualization.py`: a read-only charting front end.
- Position persistence: the position lives only in memory, as in the source.
