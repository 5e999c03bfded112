/**
 Model of the position state machine of the trading bot (class TradingStrategy in
 strategy.py): the entry and exit predicates, the two position updates, and one
 iteration of the strategy loop.

 Remote calls to the exchange become inputs: a fetched price is an Option<real>
 (None when the call raised) and an order placement is a flag saying whether
 place_order returned without raising. The RSI library is not modelled: only the
 last element of its output is an input (None when that value is NaN).
 Prices are mathematical reals, not IEEE doubles.
 */
module Strategy {
  import opened Wrappers

  // Trading parameters, fixed by the constructor (strategy.py:43-53).
  const Buy1Size: int := 40
  const Buy2Size: int := 7
  const StopLossPercent: real := 3.0
  const TakeProfitPercent: real := 5.0
  const Buy2Offset: real := 4.0
  const ImmediateExitThreshold: real := 2.0
  const RsiOversold: real := 33.0

  /** Entry signal: 'buy1', 'buy2' or None. */
  datatype Entry = Buy1 | Buy2 | NoEntry

  /** Exit signal: 'immediate_exit', 'tp_sl' or None. */
  datatype Exit = ImmediateExit | TpSl | NoExit

  datatype Side = Buy | Sell

  /** A market order in cross margin mode, as sent to place_order. */
  datatype Order = Order(symbol: string, side: Side, size: int)

  /** The two tracked fields position_size and position_avg_price. */
  datatype Position = Position(size: int, avgPrice: real)

  /** The state set by the constructor (strategy.py:78-79). */
  const Flat := Position(0, 0.0)

  function Buy2Price(avg: real): real { avg * (1.0 + Buy2Offset / 100.0) }
  function ImmediateExitPrice(avg: real): real { avg * (1.0 - ImmediateExitThreshold / 100.0) }
  function StopLossPrice(avg: real): real { avg * (1.0 - StopLossPercent / 100.0) }
  function TakeProfitPrice(avg: real): real { avg * (1.0 + TakeProfitPercent / 100.0) }

  /** Size of the tranche an entry signal buys. */
  function TrancheSize(e: Entry): int
  {
    match e
    case Buy1 => Buy1Size
    case Buy2 => Buy2Size
    case NoEntry => 0
  }

  /**
   check_entry_conditions. `lastRsi` is the last value of the RSI series, None when it
   is NaN (a NaN never compares below the threshold).
   */
  function CheckEntryConditions(p: Position, lastRsi: Option<real>, currentPrice: real): (e: Entry)
    ensures e == Buy1 <==> p.size == 0 && lastRsi.Some? && lastRsi.value < RsiOversold
    ensures e == Buy2 <==> p.size == Buy1Size && currentPrice > Buy2Price(p.avgPrice)
    ensures e != NoEntry ==> p.size == 0 || p.size == Buy1Size
    ensures lastRsi.None? ==> e != Buy1
  {
    if p.size == 0 && lastRsi.Some? && lastRsi.value < RsiOversold then Buy1
    else if p.size == Buy1Size && currentPrice > Buy2Price(p.avgPrice) then Buy2
    else NoEntry
  }

  /** check_exit_conditions. */
  function CheckExitConditions(p: Position, currentPrice: real): (x: Exit)
    ensures p.size == 0 ==> x == NoExit
    ensures x == ImmediateExit <==> p.size != 0 && currentPrice < ImmediateExitPrice(p.avgPrice)
    ensures x == TpSl <==>
              && p.size != 0
              && currentPrice >= ImmediateExitPrice(p.avgPrice)
              && (currentPrice <= StopLossPrice(p.avgPrice) || currentPrice >= TakeProfitPrice(p.avgPrice))
    // With a positive average price the stop-loss level lies below the immediate-exit
    // level, so 'tp_sl' can only mean take-profit.
    ensures p.avgPrice > 0.0 ==> (x == TpSl <==> p.size != 0 && currentPrice >= TakeProfitPrice(p.avgPrice))
    ensures p.avgPrice > 0.0 && p.size != 0 ==>
              (x == NoExit <==> ImmediateExitPrice(p.avgPrice) <= currentPrice < TakeProfitPrice(p.avgPrice))
  {
    if p.size == 0 then NoExit
    else if currentPrice < ImmediateExitPrice(p.avgPrice) then ImmediateExit
    else if currentPrice <= StopLossPrice(p.avgPrice) || currentPrice >= TakeProfitPrice(p.avgPrice) then TpSl
    else NoExit
  }

  /** Side of the closing order: 'sell' for a long position, 'buy' otherwise. */
  function ExitSide(p: Position): Side
  {
    if p.size > 0 then Sell else Buy
  }

  /** What the exchange and the indicator deliver during one loop iteration. */
  datatype CycleInputs = CycleInputs(
    lastRsi: Option<real>,      // last RSI value; None when it is NaN
    rsiFailed: bool,            // computing or indexing the RSI series raised
    currentPrice: Option<real>, // get_current_price in the loop; None when it raised
    entryPrice: Option<real>,   // get_current_price inside enter_position
    entryPlaced: bool,          // place_order inside enter_position returned
    exitPlaced: bool)           // place_order inside exit_position returned

  /** Signals evaluated, orders that went through, and the position afterwards. */
  datatype CycleOutcome = CycleOutcome(
    entry: Entry, entryOrder: Option<Order>, exit: Exit, exitOrder: Option<Order>, after: Position)

  /** Position after enter_position for a tranche of `size`. */
  function Entered(p: Position, size: int, fetched: Option<real>, placed: bool): Position
  {
    if fetched.Some? && placed then Position(p.size + size, fetched.value) else p
  }

  /** Position after exit_position. */
  function Exited(p: Position, placed: bool): Position
  {
    if placed then Flat else p
  }

  /**
   One iteration of run_strategy: a failed price fetch or RSI computation skips the
   iteration; otherwise the entry check may enter, and the exit check then runs
   against the position as it is after the entry, with the same current price.
   */
  function Cycle(p: Position, symbol: string, inp: CycleInputs): CycleOutcome
  {
    if inp.currentPrice.None? || inp.rsiFailed then
      CycleOutcome(NoEntry, None, NoExit, None, p)
    else
      var price := inp.currentPrice.value;
      var e := CheckEntryConditions(p, inp.lastRsi, price);
      var entered := e != NoEntry && inp.entryPrice.Some? && inp.entryPlaced;
      var p1 := if e != NoEntry then Entered(p, TrancheSize(e), inp.entryPrice, inp.entryPlaced) else p;
      var x := CheckExitConditions(p1, price);
      var exited := x != NoExit && inp.exitPlaced;
      var p2 := if x != NoExit then Exited(p1, inp.exitPlaced) else p1;
      CycleOutcome(
        e, if entered then Some(Order(symbol, Buy, TrancheSize(e))) else None,
        x, if exited then Some(Order(symbol, ExitSide(p1), p1.size)) else None,
        p2)
  }

  /** Position after a finite run of loop iterations. */
  function Run(p: Position, symbol: string, inputs: seq<CycleInputs>): Position
    decreases |inputs|
  {
    if inputs == [] then p
    else Run(Cycle(p, symbol, inputs[0]).after, symbol, inputs[1..])
  }

  /**
   The states the strategy can be in: flat with no cost basis, or holding one or
   both tranches at a positive average price.
   */
  predicate Consistent(p: Position)
  {
    || (p.size == 0 && p.avgPrice == 0.0)
    || ((p.size == Buy1Size || p.size == Buy1Size + Buy2Size) && p.avgPrice > 0.0)
  }

  /** Exchange prices are positive. */
  predicate PositivePrices(inp: CycleInputs)
  {
    && (inp.currentPrice.Some? ==> inp.currentPrice.value > 0.0)
    && (inp.entryPrice.Some? ==> inp.entryPrice.value > 0.0)
  }

  lemma CycleKeepsConsistent(p: Position, symbol: string, inp: CycleInputs)
    requires Consistent(p) && PositivePrices(inp)
    ensures Consistent(Cycle(p, symbol, inp).after)
    ensures Cycle(p, symbol, inp).after.size == 0 <==> Cycle(p, symbol, inp).after.avgPrice == 0.0
  {
  }

  lemma {:induction false} RunKeepsConsistent(p: Position, symbol: string, inputs: seq<CycleInputs>)
    requires Consistent(p)
    requires forall i :: 0 <= i < |inputs| ==> PositivePrices(inputs[i])
    ensures Consistent(Run(p, symbol, inputs))
    decreases |inputs|
  {
    if inputs != [] {
      CycleKeepsConsistent(p, symbol, inputs[0]);
      RunKeepsConsistent(Cycle(p, symbol, inputs[0]).after, symbol, inputs[1..]);
    }
  }

  /**
   From the initial flat state, any run keeps the size in {0, 40, 47} and keeps
   "size is zero exactly when the average price is zero".
   */
  lemma RunFromStart(symbol: string, inputs: seq<CycleInputs>)
    requires forall i :: 0 <= i < |inputs| ==> PositivePrices(inputs[i])
    ensures var q := Run(Flat, symbol, inputs);
      && (q.size == 0 || q.size == 40 || q.size == 47)
      && (q.size == 0 <==> q.avgPrice == 0.0)
  {
    RunKeepsConsistent(Flat, symbol, inputs);
  }

  /**
   An entry that goes through is never followed by an exit in the same iteration,
   provided enter_position fetched the same price the iteration started with.
   */
  lemma EntryNotFollowedByExit(p: Position, symbol: string, inp: CycleInputs)
    requires inp.currentPrice.Some? && inp.currentPrice.value > 0.0
    requires inp.entryPrice == inp.currentPrice
    ensures Cycle(p, symbol, inp).entryOrder.Some? ==>
              Cycle(p, symbol, inp).exit == NoExit && Cycle(p, symbol, inp).exitOrder.None?
  {
  }

  /**
   When the price fetched inside enter_position is above the price the iteration
   started with, the same iteration can buy and then sell straight away: here the
   position is entered at 103 and the iteration's price of 100 is below 103 * 0.98.
   */
  lemma EntryThenExitWhenPricesDiffer(symbol: string)
    ensures var c := Cycle(Flat, symbol, CycleInputs(Some(25.0), false, Some(100.0), Some(103.0), true, true));
      && c.entryOrder == Some(Order(symbol, Buy, 40))
      && c.exit == ImmediateExit
      && c.exitOrder == Some(Order(symbol, Sell, 40))
      && c.after == Flat
  {
  }

  /**
   Worked cases of the decision rules. With an average price of 100 a price of 96 is
   already below the 98 immediate-exit level, so the signal is 'immediate_exit' and
   not 'tp_sl', although 96 is also below the 97 stop-loss level.
   */
  lemma SignalExamples(symbol: string)
    ensures CheckEntryConditions(Flat, Some(25.0), 1.0) == Buy1
    ensures CheckEntryConditions(Position(40, 100.0), None, 105.0) == Buy2
    ensures CheckEntryConditions(Position(40, 100.0), None, 104.0) == NoEntry
    ensures CheckEntryConditions(Position(47, 100.0), Some(10.0), 200.0) == NoEntry
    ensures CheckExitConditions(Position(40, 100.0), 96.0) == ImmediateExit
    ensures CheckExitConditions(Position(40, 100.0), 97.0) == ImmediateExit
    ensures CheckExitConditions(Position(40, 100.0), 98.0) == NoExit
    ensures CheckExitConditions(Position(40, 100.0), 105.0) == TpSl
    ensures Entered(Flat, Buy1Size, Some(0.5), true) == Position(40, 0.5)
    ensures Entered(Position(40, 100.0), Buy2Size, Some(105.0), true).size == 47
  {
  }

  class TradingStrategy {
    var positionSize: int
    var positionAvgPrice: real

    /** The tracked position as a value. */
    function State(): Position
      reads this
    {
      Position(positionSize, positionAvgPrice)
    }

    constructor ()
      ensures State() == Flat
    {
      positionSize := 0;
      positionAvgPrice := 0.0;
    }

    /**
     enter_position: the price is fetched first, then the order is placed; only when
     both return are the fields updated. The average price is overwritten by the
     fetched price, not blended with the previous one.
     */
    method EnterPosition(symbol: string, side: Side, size: int, fetched: Option<real>, placed: bool)
      returns (order: Option<Order>)
      modifies this
      ensures order.Some? <==> fetched.Some? && placed
      ensures order.Some? ==>
                && order.value == Order(symbol, side, size)
                && positionSize == old(positionSize) + size
                && positionAvgPrice == fetched.value
      ensures order.None? ==> positionSize == old(positionSize) && positionAvgPrice == old(positionAvgPrice)
    {
      if fetched.None? {
        return None;
      }
      var currentPrice := fetched.value;
      if !placed {
        return None;
      }
      order := Some(Order(symbol, side, size));
      positionSize := positionSize + size;
      positionAvgPrice := currentPrice;
    }

    /**
     exit_position: closes the whole position with one market order; on success both
     fields are reset to zero.
     */
    method ExitPosition(symbol: string, placed: bool) returns (order: Option<Order>)
      modifies this
      ensures order.Some? <==> placed
      ensures order.Some? ==>
                && order.value == Order(symbol, if old(positionSize) > 0 then Sell else Buy, old(positionSize))
                && positionSize == 0 && positionAvgPrice == 0.0
      ensures order.None? ==> positionSize == old(positionSize) && positionAvgPrice == old(positionAvgPrice)
    {
      var side := if positionSize > 0 then Sell else Buy;
      if !placed {
        return None;
      }
      order := Some(Order(symbol, side, positionSize));
      positionSize := 0;
      positionAvgPrice := 0.0;
    }

    /**
     One iteration of the run_strategy loop. With positive exchange prices it keeps
     the tracked position consistent.
     */
    method RunStrategyCycle(symbol: string, inp: CycleInputs)
      returns (entryOrder: Option<Order>, exitOrder: Option<Order>)
      modifies this
      ensures State() == Cycle(old(State()), symbol, inp).after
      ensures entryOrder == Cycle(old(State()), symbol, inp).entryOrder
      ensures exitOrder == Cycle(old(State()), symbol, inp).exitOrder
      ensures Consistent(old(State())) && PositivePrices(inp) ==> Consistent(State())
    {
      if Consistent(State()) && PositivePrices(inp) {
        CycleKeepsConsistent(State(), symbol, inp);
      }
      entryOrder, exitOrder := None, None;
      if inp.currentPrice.None? || inp.rsiFailed {
        return;
      }
      var currentPrice := inp.currentPrice.value;
      var entrySignal := CheckEntryConditions(State(), inp.lastRsi, currentPrice);
      if entrySignal == Buy1 {
        entryOrder := EnterPosition(symbol, Buy, Buy1Size, inp.entryPrice, inp.entryPlaced);
      } else if entrySignal == Buy2 {
        entryOrder := EnterPosition(symbol, Buy, Buy2Size, inp.entryPrice, inp.entryPlaced);
      }
      var exitSignal := CheckExitConditions(State(), currentPrice);
      if exitSignal == ImmediateExit || exitSignal == TpSl {
        exitOrder := ExitPosition(symbol, inp.exitPlaced);
      }
    }
  }
}
