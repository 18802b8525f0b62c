/**
 * FIFO queues of open lots per instrument, the close loop that matches a
 * closing transaction against them, and the corporate actions that rewrite
 * them (tastyworksTaxes/position_manager.py).
 *
 * The pure functions over `State` say what one `add_position` call does;
 * the class `PositionManager` does it in place, lot objects and all, and
 * each of its methods is proved to agree with its function.
 */
module Manager {
  import opened Wrappers
  import opened Constants
  import opened Positions
  import opened Transactions
  import opened Lots
  import opened Fifo
  import opened Sorting

  /** The instrument a lot belongs to; option fields are None for a stock. */
  datatype InstrumentKey = InstrumentKey(
    symbol: string,
    positionType: PositionType,
    strike: Option<real>,
    expiry: Option<DateTime>,
    callPut: Option<string>)

  /** `_get_key_from_transaction`: the type first, then the symbol. */
  function KeyFromTransaction(row: Row): (r: Result<InstrumentKey>)
    ensures r.Ok? <==> GetType(row).Ok?
    ensures r.Err? ==> r.error == GetType(row).error
    ensures r.Ok? ==> r.value.symbol == row.symbol && r.value.positionType == GetType(row).value
    ensures r.Ok? && r.value.positionType == Stock ==>
      r.value.strike.None? && r.value.expiry.None? && r.value.callPut.None?
    ensures r.Ok? && r.value.positionType != Stock ==>
      r.value.strike == row.strike && r.value.expiry == row.expiry && r.value.callPut == Some(row.callPut)
  {
    var positionType :- GetType(row);
    // `getSymbol` cannot fail once `getType` has succeeded.
    var symbol := row.symbol;
    if positionType == Stock then Ok(InstrumentKey(symbol, positionType, None, None, None))
    else Ok(InstrumentKey(symbol, positionType, row.strike, row.expiry, Some(row.callPut)))
  }

  /** `_is_closing_transaction`. */
  predicate IsClosingTransaction(row: Row)
    ensures (row.subcode == Expiration || row.subcode == Assignment ||
             row.subcode == BuyToClose || row.subcode == SellToClose) ==> IsClosingTransaction(row)
    ensures (row.subcode == BuyToOpen || row.subcode == SellToOpen) && row.openClose != Close ==>
            !IsClosingTransaction(row)
  {
    row.subcode in ClosingSubcodes || row.openClose == Close
  }

  /** A lot with the transaction's own instrument, amounts, fees and date. */
  function LotFromRow(row: Row, symbol: string, positionType: PositionType, quantity: int): Lot
  {
    var value := GetValue(row);
    var fees := GetFees(row);
    var isOption := positionType != Stock;
    Lot(symbol, positionType, quantity, value.usd, value.eur, fees.usd, fees.eur, row.dateTime,
        if isOption then row.strike else None,
        if isOption then row.expiry else None,
        if isOption then Some(row.callPut) else None)
  }

  /** The engine's state: the queues, the realized trades and the pending symbol-change slot. */
  datatype State = State(lots: map<InstrumentKey, seq<Lot>>, trades: seq<TradeResult>, pending: Option<Lot>)

  /** The state after one call, and the error it raised if any (the state is what was left behind). */
  datatype Step = Step(state: State, failure: Option<Error>)

  function QueueOf(lots: map<InstrumentKey, seq<Lot>>, key: InstrumentKey): seq<Lot>
  {
    if key in lots then lots[key] else []
  }

  /** `open_lots[key].append(lot)` on a default-dict of queues. */
  function Enqueued(lots: map<InstrumentKey, seq<Lot>>, key: InstrumentKey, lot: Lot): map<InstrumentKey, seq<Lot>>
  {
    lots[key := QueueOf(lots, key) + [lot]]
  }

  /**
   * The lot `_open_position` builds and its key. The quantity is read first,
   * then the symbol and the type, as the key reads them.
   */
  function OpeningLot(row: Row): Result<(InstrumentKey, Lot)>
  {
    var quantity :- GetQuantity(row);
    var key :- KeyFromTransaction(row);
    Ok((key, LotFromRow(row, key.symbol, key.positionType, quantity)))
  }

  /** `_open_position`. */
  function Opened(s: State, row: Row): (r: Step)
    ensures r.state.trades == s.trades && r.state.pending == s.pending
    ensures r.failure.Some? ==> r.state == s
    ensures r.failure.None? <==> OpeningLot(row).Ok?
    ensures OpeningLot(row).Ok? ==> r.state.lots.Keys == s.lots.Keys + {OpeningLot(row).value.0}
  {
    match OpeningLot(row)
    case Err(e) => Step(s, Some(e))
    case Ok((key, lot)) => Step(s.(lots := Enqueued(s.lots, key, lot)), None)
  }

  /**
   * The open leg's lot: the transaction's instrument and quantity, the staged
   * lot's amounts, fees and date. Symbol and type are read before the quantity.
   */
  function TransferredLot(row: Row, staged: Lot): Result<(InstrumentKey, Lot)>
  {
    var key :- KeyFromTransaction(row);
    var quantity :- GetQuantity(row);
    var own := LotFromRow(row, key.symbol, key.positionType, quantity);
    Ok((key, own.(amountUsd := staged.amountUsd, amountEur := staged.amountEur,
                  feesUsd := staged.feesUsd, feesEur := staged.feesEur, date := staged.date)))
  }

  /** `_open_position_from_symbol_change`. */
  function OpenedFromSymbolChange(s: State, row: Row): Step
  {
    if s.pending.None? then Opened(s, row)
    else
      match TransferredLot(row, s.pending.value)
      case Err(e) => Step(s, Some(e))
      case Ok((key, lot)) => Step(s.(lots := Enqueued(s.lots, key, lot), pending := None), None)
  }

  /** The close leg of a symbol change: the head lot moves to the pending slot; no queue, no change. */
  function RemovedForSymbolChange(s: State, row: Row): Step
  {
    match KeyFromTransaction(row)
    case Err(e) => Step(s, Some(e))
    case Ok(key) =>
      if key !in s.lots || s.lots[key] == [] then Step(s, None)
      else
        var queue := s.lots[key];
        var lots := if |queue| == 1 then s.lots - {key} else s.lots[key := queue[1..]];
        Step(s.(lots := lots, pending := Some(queue[0])), None)
  }

  /** Where the close loop stopped: the queue left, the quantity still to close, the trades made, an error. */
  datatype LoopEnd = LoopEnd(queue: seq<Lot>, remaining: nat, trades: seq<TradeResult>, failure: Option<Error>)

  /** Expiration and Assignment close the head lot whatever its side. */
  predicate ForcedClose(closing: Closing)
  {
    closing.subcode == Expiration || closing.subcode == Assignment
  }

  /** The loop stops when nothing is left to close, the queue is empty, or the head lot has the wrong side. */
  predicate Stops(queue: seq<Lot>, closing: Closing, remaining: nat)
  {
    remaining == 0 || queue == [] || (!ForcedClose(closing) && !CanCloseWith(queue[0], closing.quantity))
  }

  /**
   * One pass of the close loop: pop the head lot, consume as much of it as is
   * still to close, record the trade, and put a non-empty remainder back at
   * the head. A refused consumption leaves the head popped.
   */
  function CloseStep(queue: seq<Lot>, closing: Closing, remaining: nat, trades: seq<TradeResult>): (r: LoopEnd)
    requires queue != [] && remaining > 0
    ensures r.failure.None? ==> r.remaining < remaining
    ensures r.remaining <= remaining
  {
    var head := queue[0];
    var n := ClosableQuantity(head, remaining);
    match CloseSlice(head, closing, n)
    case Err(e) => LoopEnd(queue[1..], remaining, trades, Some(e))
    case Ok((rest, trade)) =>
      LoopEnd(if IsEmpty(rest) then queue[1..] else [rest] + queue[1..], remaining - n, trades + [trade], None)
  }

  /** The while loop of `_close_position`. */
  function CloseLoop(queue: seq<Lot>, closing: Closing, remaining: nat, trades: seq<TradeResult>): (r: LoopEnd)
    ensures r.remaining <= remaining
    ensures r.failure.None? ==> Stops(r.queue, closing, r.remaining)
    decreases remaining
  {
    if Stops(queue, closing, remaining) then LoopEnd(queue, remaining, trades, None)
    else
      var step := CloseStep(queue, closing, remaining, trades);
      if step.failure.Some? then step else CloseLoop(step.queue, closing, step.remaining, step.trades)
  }

  /** What `_close_position` needs from its transaction: the closing record and the key. */
  function ClosingOf(row: Row): (r: Result<(Closing, InstrumentKey)>)
    ensures r.Ok? <==> DecodeClosing(row).Ok?
    ensures r.Ok? ==> r.value.0 == DecodeClosing(row).value && KeyFromTransaction(row) == Ok(r.value.1)
  {
    var closing :- DecodeClosing(row);
    Ok((closing, KeyFromTransaction(row).value))
  }

  /** `_close_position`. */
  function Closed(s: State, row: Row): (r: Step)
    ensures r.state.pending == s.pending
    ensures ClosingOf(row).Err? ==> r.state == s && r.failure.Some?
    ensures ClosingOf(row).Ok? ==>
      forall k :: k in s.lots && k != ClosingOf(row).value.1 ==> k in r.state.lots && r.state.lots[k] == s.lots[k]
  {
    match ClosingOf(row)
    case Err(e) => Step(s, Some(e))
    case Ok((closing, key)) =>
      if key !in s.lots || s.lots[key] == [] then Step(s, Some(NoPreviousPosition))
      else
        var end := CloseLoop(s.lots[key], closing, Abs(closing.quantity), []);
        var trades := s.trades + end.trades;
        if end.failure.Some? then
          Step(s.(lots := s.lots[key := end.queue], trades := trades), end.failure)
        else
          var lots := if end.queue == [] then s.lots - {key} else s.lots[key := end.queue];
          Step(s.(lots := lots, trades := trades), if end.remaining > 0 then Some(MoreThanAvailable) else None)
  }

  /** The ratio a split-ratio pair gives: min/max for a reverse split, max/min otherwise. */
  function PairRatio(pair: RatioPair, reverse: bool): (r: real)
    requires pair.first > 0 && pair.second > 0
    ensures r > 0.0
    ensures reverse ==> r <= 1.0
    ensures !reverse ==> r >= 1.0
  {
    var low := if pair.first < pair.second then pair.first else pair.second;
    var high := if pair.first < pair.second then pair.second else pair.first;
    QuotientBounds(low as real, high as real);
    if reverse then low as real / high as real else high as real / low as real
  }

  /** For 0 < low <= high, low/high lies in (0, 1] and high/low is at least 1. */
  lemma QuotientBounds(low: real, high: real)
    requires 0.0 < low <= high
    ensures 0.0 < low / high <= 1.0
    ensures high / low >= 1.0
  {
    var down := low / high;
    var up := high / low;
    assert down * high == low;
    assert up * low == high;
    assert down <= 0.0 ==> down * high <= 0.0;
    assert down > 1.0 ==> (down - 1.0) * high > 0.0;
    assert up < 1.0 ==> (1.0 - up) * low > 0.0;
  }

  /**
   * The ratio `_handle_reverse_split` settles on for a description that does
   * not quote an option symbol: the first pair found, else 1/8 for USO, else
   * none. A pair with a zero side is refused as a division by zero.
   */
  function SplitRatio(text: string, pair: Option<RatioPair>, symbol: string): (r: Result<Option<real>>)
    ensures r.Ok? && r.value.Some? ==> r.value.value > 0.0
    ensures r.Err? <==> pair.Some? && (pair.value.first == 0 || pair.value.second == 0)
  {
    if pair.Some? then
      if pair.value.first == 0 || pair.value.second == 0 then Err(ZeroDivision)
      else Ok(Some(PairRatio(pair.value, Contains(Lower(text), "reverse"))))
    else if symbol == "USO" then Ok(Some(1.0 / 8.0))
    else Ok(None)
  }

  function AdjustedQueue(queue: seq<Lot>, ratio: real): (r: seq<Lot>)
    requires ratio != 0.0
    ensures |r| == |queue|
    ensures forall i :: 0 <= i < |queue| ==> r[i] == AdjustedForSplit(queue[i], ratio)
  {
    seq(|queue|, i requires 0 <= i < |queue| => AdjustedForSplit(queue[i], ratio))
  }

  /** Every queue whose key has the split symbol, adjusted lot by lot. */
  function SplitLots(lots: map<InstrumentKey, seq<Lot>>, symbol: string, ratio: real): (r: map<InstrumentKey, seq<Lot>>)
    requires ratio != 0.0
    ensures r.Keys == lots.Keys
    ensures forall k :: k in lots && k.symbol != symbol ==> r[k] == lots[k]
  {
    map k | k in lots :: if k.symbol == symbol then AdjustedQueue(lots[k], ratio) else lots[k]
  }

  /** The outcome of `_handle_reverse_split`: the state, whether it was handled, the error raised. */
  datatype SplitStep = SplitStep(state: State, handled: bool, failure: Option<Error>)

  /** `_handle_reverse_split`. A missing description cannot be searched and raises. */
  function SplitAdjusted(s: State, row: Row): (r: SplitStep)
    ensures r.state.trades == s.trades && r.state.pending == s.pending && r.state.lots.Keys == s.lots.Keys
    ensures !r.handled ==> r.state == s
    ensures r.handled ==> r.failure.None?
  {
    match row.description
    case Missing => SplitStep(s, false, Some(DescriptionNotText))
    case Text(text, quotesOptionSymbol, pair, _) =>
      if quotesOptionSymbol then SplitStep(s, false, None)
      else
        match GetSymbol(row)
        case Err(e) => SplitStep(s, false, Some(e))
        case Ok(symbol) =>
          match SplitRatio(text, pair, symbol)
          case Err(e) => SplitStep(s, false, Some(e))
          case Ok(None) => SplitStep(s, false, None)
          case Ok(Some(ratio)) => SplitStep(s.(lots := SplitLots(s.lots, symbol, ratio)), true, None)
  }

  predicate IsSymbolChange(row: Row)
  {
    row.subcode == SymbolChange || row.subcode == StockMerger
  }

  /** `add_position`: corporate actions first, then close or open. */
  function AddPositionSpec(s: State, row: Row): (r: Step)
    ensures IsSymbolChange(row) || !IsClosingTransaction(row) ==> r.state.trades == s.trades
    ensures !IsSymbolChange(row) ==> r.state.pending == s.pending
  {
    if IsSymbolChange(row) then
      if IsClosingTransaction(row) then RemovedForSymbolChange(s, row) else OpenedFromSymbolChange(s, row)
    else
      var split := if row.subcode == ReverseSplit then SplitAdjusted(s, row) else SplitStep(s, false, None);
      if split.failure.Some? then Step(split.state, split.failure)
      else if split.handled then Step(split.state, None)
      else if IsClosingTransaction(row) then Closed(s, row)
      else Opened(s, row)
  }

  /** The key `add_lot_directly` files a lot under: the lot's own instrument fields. */
  function KeyOfLot(lot: Lot): InstrumentKey
  {
    InstrumentKey(lot.symbol, lot.positionType, lot.strike, lot.expiry, lot.callPut)
  }

  function LotDate(lot: Lot): DateTime
  {
    lot.date
  }

  /** Every open lot of every queue, counted with multiplicity. */
  ghost function AllLots(lots: map<InstrumentKey, seq<Lot>>): multiset<Lot>
    decreases |lots.Keys|
  {
    if lots == map[] then multiset{}
    else
      var k :| k in lots.Keys;
      multiset(lots[k]) + AllLots(lots - {k})
  }

  /** `AllLots` does not depend on which key is taken first. */
  lemma {:induction false} AllLotsRemove(lots: map<InstrumentKey, seq<Lot>>, key: InstrumentKey)
    requires key in lots
    ensures AllLots(lots) == multiset(lots[key]) + AllLots(lots - {key})
    decreases |lots.Keys|
  {
    var k :| k in lots.Keys && AllLots(lots) == multiset(lots[k]) + AllLots(lots - {k});
    if k != key {
      var without := lots - {k};
      assert |without.Keys| < |lots.Keys| by {
        assert without.Keys < lots.Keys;
      }
      AllLotsRemove(without, key);
      var withoutKey := lots - {key};
      assert |withoutKey.Keys| < |lots.Keys| by {
        assert withoutKey.Keys < lots.Keys;
      }
      AllLotsRemove(withoutKey, k);
      assert without - {key} == withoutKey - {k};
    }
  }

  /**
   * One pass of the close loop. The head lot is loaded into a `PositionLot`
   * and consumed in place; its new state goes back at the head unless it is
   * empty.
   */
  method CloseHead(queue: seq<Lot>, closing: Closing, remaining: nat, trades: seq<TradeResult>) returns (end: LoopEnd)
    requires queue != [] && remaining > 0
    ensures end == CloseStep(queue, closing, remaining, trades)
  {
    var lot := new PositionLot(queue[0]);
    var rest := queue[1..];
    var n := ClosableQuantity(lot.Value(), remaining);
    var consumed := lot.Consume(n);
    if consumed.Err? {
      return LoopEnd(rest, remaining, trades, Some(consumed.error));
    }
    var trade := CreateTradeResult(queue[0], closing, n, consumed.value);
    if !IsEmpty(lot.Value()) {
      rest := [lot.Value()] + rest;
    }
    end := LoopEnd(rest, remaining - n, trades + [trade], None);
  }

  /** Adjusts every lot of one queue for a split, in queue order, each in place. */
  method AdjustQueue(queue: seq<Lot>, ratio: real) returns (adjusted: seq<Lot>)
    requires ratio != 0.0
    ensures adjusted == AdjustedQueue(queue, ratio)
  {
    adjusted := [];
    for i := 0 to |queue|
      invariant |adjusted| == i
      invariant forall j :: 0 <= j < i ==> adjusted[j] == AdjustedForSplit(queue[j], ratio)
    {
      var lot := new PositionLot(queue[i]);
      lot.AdjustForSplit(ratio);
      adjusted := adjusted + [lot.Value()];
    }
  }

  /**
   * The manager. Each queue holds the states of its lots; the head lot is
   * loaded into a `PositionLot`, changed in place there, and its new state
   * put back, because no lot object is ever shared between two places.
   */
  class PositionManager {
    var openLots: map<InstrumentKey, seq<Lot>>
    var closedTrades: seq<TradeResult>
    var pending: Option<Lot>

    function Abstract(): State
      reads this
    {
      State(openLots, closedTrades, pending)
    }

    constructor ()
      ensures Abstract() == State(map[], [], None)
    {
      openLots, closedTrades, pending := map[], [], None;
    }

    method OpenPosition(row: Row) returns (failure: Option<Error>)
      modifies this
      ensures Step(Abstract(), failure) == Opened(old(Abstract()), row)
    {
      var opening := OpeningLot(row);
      if opening.Err? {
        return Some(opening.error);
      }
      var (key, lot) := opening.value;
      openLots := Enqueued(openLots, key, lot);
      failure := None;
    }

    method OpenPositionFromSymbolChange(row: Row) returns (failure: Option<Error>)
      modifies this
      ensures Step(Abstract(), failure) == OpenedFromSymbolChange(old(Abstract()), row)
    {
      if pending.None? {
        failure := OpenPosition(row);
        return;
      }
      var transferred := TransferredLot(row, pending.value);
      if transferred.Err? {
        return Some(transferred.error);
      }
      var (key, lot) := transferred.value;
      openLots := Enqueued(openLots, key, lot);
      pending := None;
      failure := None;
    }

    /** The close leg of a symbol change: `popleft` into the pending slot. */
    method RemoveForSymbolChange(row: Row) returns (failure: Option<Error>)
      modifies this
      ensures Step(Abstract(), failure) == RemovedForSymbolChange(old(Abstract()), row)
    {
      var k := KeyFromTransaction(row);
      if k.Err? {
        return Some(k.error);
      }
      var key := k.value;
      if key !in openLots || openLots[key] == [] {
        return None;
      }
      var queue := openLots[key];
      var head := queue[0];
      queue := queue[1..];
      if queue == [] {
        openLots := openLots - {key};
      } else {
        openLots := openLots[key := queue];
      }
      pending := Some(head);
      failure := None;
    }

    /**
     * `_close_position`. The deque is changed in place as the loop runs, so
     * whatever the loop did stays done when it raises.
     */
    method ClosePosition(row: Row) returns (failure: Option<Error>)
      modifies this
      ensures Step(Abstract(), failure) == Closed(old(Abstract()), row)
    {
      var decoded := ClosingOf(row);
      if decoded.Err? {
        return Some(decoded.error);
      }
      var (closing, key) := decoded.value;
      if key !in openLots || openLots[key] == [] {
        return Some(NoPreviousPosition);
      }
      var end := LoopEnd(openLots[key], Abs(closing.quantity), [], None);
      while !Stops(end.queue, closing, end.remaining)
        invariant end.failure.None? && key in openLots
        invariant openLots == old(openLots) && closedTrades == old(closedTrades) && pending == old(pending)
        invariant CloseLoop(end.queue, closing, end.remaining, end.trades) ==
                  CloseLoop(openLots[key], closing, Abs(closing.quantity), [])
        decreases end.remaining
      {
        var step := CloseHead(end.queue, closing, end.remaining, end.trades);
        if step.failure.Some? {
          openLots := openLots[key := step.queue];
          closedTrades := closedTrades + step.trades;
          return step.failure;
        }
        end := step;
      }
      openLots := if end.queue == [] then openLots - {key} else openLots[key := end.queue];
      closedTrades := closedTrades + end.trades;
      failure := if end.remaining > 0 then Some(MoreThanAvailable) else None;
    }

    /** `add_lot_directly`: the lot goes at the tail of its own instrument's queue. */
    method AddLotDirectly(lot: Lot)
      modifies this
      ensures Abstract() == old(Abstract()).(lots := Enqueued(old(openLots), KeyOfLot(lot), lot))
    {
      openLots := Enqueued(openLots, KeyOfLot(lot), lot);
    }

    /** `get_all_open_lots`: every open lot, ascending by date. */
    method GetAllOpenLots() returns (all: seq<Lot>)
      ensures SortedBy(all, LotDate)
      ensures multiset(all) == AllLots(openLots)
    {
      var flat: seq<Lot> := [];
      var left := openLots;
      while left != map[]
        invariant multiset(flat) + AllLots(left) == AllLots(openLots)
        decreases |left.Keys|
      {
        var k :| k in left.Keys;
        AllLotsRemove(left, k);
        flat := flat + left[k];
        assert (left - {k}).Keys < left.Keys;
        left := left - {k};
      }
      all := SortBy(flat, LotDate);
    }

    /** Adjusts every lot of every queue whose key has `symbol`. */
    method AdjustSymbol(symbol: string, ratio: real)
      requires ratio != 0.0
      modifies this
      ensures Abstract() == old(Abstract()).(lots := SplitLots(old(openLots), symbol, ratio))
    {
      var keys := set k | k in openLots.Keys && k.symbol == symbol;
      var todo := keys;
      while todo != {}
        invariant todo <= keys
        invariant openLots.Keys == old(openLots).Keys
        invariant closedTrades == old(closedTrades) && pending == old(pending)
        invariant forall k :: k in openLots ==>
          openLots[k] == if k in keys && k !in todo then AdjustedQueue(old(openLots)[k], ratio) else old(openLots)[k]
        decreases |todo|
      {
        var k :| k in todo;
        var adjusted := AdjustQueue(openLots[k], ratio);
        openLots := openLots[k := adjusted];
        todo := todo - {k};
      }
    }

    /** `_handle_reverse_split`: whether the split was applied, and the error raised if any. */
    method HandleReverseSplit(row: Row) returns (handled: bool, failure: Option<Error>)
      modifies this
      ensures SplitStep(Abstract(), handled, failure) == SplitAdjusted(old(Abstract()), row)
    {
      if row.description.Missing? {
        return false, Some(DescriptionNotText);
      }
      if row.description.quotesOptionSymbol {
        return false, None;
      }
      var symbol := GetSymbol(row);
      if symbol.Err? {
        return false, Some(symbol.error);
      }
      var ratio := SplitRatio(row.description.text, row.description.ratioPair, symbol.value);
      if ratio.Err? {
        return false, Some(ratio.error);
      }
      if ratio.value.None? {
        return false, None;
      }
      AdjustSymbol(symbol.value, ratio.value.value);
      return true, None;
    }

    /** `add_position`. */
    method AddPosition(row: Row) returns (failure: Option<Error>)
      modifies this
      ensures Step(Abstract(), failure) == AddPositionSpec(old(Abstract()), row)
    {
      if IsSymbolChange(row) {
        if IsClosingTransaction(row) {
          failure := RemoveForSymbolChange(row);
        } else {
          failure := OpenPositionFromSymbolChange(row);
        }
        return;
      }
      if row.subcode == ReverseSplit {
        var handled;
        handled, failure := HandleReverseSplit(row);
        if failure.Some? || handled {
          return;
        }
      }
      if IsClosingTransaction(row) {
        failure := ClosePosition(row);
      } else {
        failure := OpenPosition(row);
      }
    }
  }
}
