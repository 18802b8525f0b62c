/**
 * What `add_position` promises, stated about the functions of `Manager`:
 * the close loop is head-first FIFO and conserves quantity and basis, the
 * trade ledger only grows, lots stay filed under their instrument, and the
 * corporate actions move or rescale lots without realizing anything.
 */
module ManagerProperties {
  import opened Wrappers
  import opened Constants
  import opened Positions
  import opened Transactions
  import opened Lots
  import opened Fifo
  import opened Manager

  /** The four money fields a lot, a consumed slice and a trade carry. */
  datatype Field = AmountUsd | AmountEur | FeesUsd | FeesEur

  function LotField(lot: Lot, f: Field): real
  {
    match f
    case AmountUsd => lot.amountUsd
    case AmountEur => lot.amountEur
    case FeesUsd => lot.feesUsd
    case FeesEur => lot.feesEur
  }

  /** A trade's profit for the amount fields, its fees for the fee fields. */
  function TradeField(t: TradeResult, f: Field): real
  {
    match f
    case AmountUsd => t.profitUsd
    case AmountEur => t.profitEur
    case FeesUsd => t.feesUsd
    case FeesEur => t.feesEur
  }

  function AmountsField(a: ClosingAmounts, f: Field): real
  {
    match f
    case AmountUsd => a.amountUsd
    case AmountEur => a.amountEur
    case FeesUsd => a.feesUsd
    case FeesEur => a.feesEur
  }

  /** The transaction's value for the amount fields, its fees for the fee fields. */
  function RowField(row: Row, f: Field): real
  {
    match f
    case AmountUsd => GetValue(row).usd
    case AmountEur => GetValue(row).eur
    case FeesUsd => GetFees(row).usd
    case FeesEur => GetFees(row).eur
  }

  function SumLots(queue: seq<Lot>, f: Field): real
  {
    if queue == [] then 0.0 else LotField(queue[0], f) + SumLots(queue[1..], f)
  }

  function SumTrades(trades: seq<TradeResult>, f: Field): real
  {
    if trades == [] then 0.0 else SumTrades(trades[..|trades| - 1], f) + TradeField(trades[|trades| - 1], f)
  }

  /** The number of units each trade closed. */
  function Sizes(trades: seq<TradeResult>): seq<nat>
  {
    if trades == [] then [] else Sizes(trades[..|trades| - 1]) + [Abs(trades[|trades| - 1].quantity)]
  }

  /** The trades one run of the loop added to the `trades` it started with. */
  function Made(end: LoopEnd, trades: seq<TradeResult>): seq<TradeResult>
  {
    if |trades| <= |end.trades| then end.trades[|trades|..] else []
  }

  lemma ZeroRemainder(x: real, c: real, q: real)
    requires q != 0.0 && c * q == x * q
    ensures x - c == 0.0
  {
    assert (x - c) * q == 0.0;
  }

  /**
   * One pass of the close loop. It fails exactly on a head lot of quantity 0.
   * Otherwise it closes n > 0 units of the head and records one trade. A head it
   * empties leaves the queue with none of its basis left behind. A head it only
   * reduces is put back, and then nothing remains to close.
   */
  lemma CloseStepFacts(queue: seq<Lot>, closing: Closing, remaining: nat, trades: seq<TradeResult>)
    requires queue != [] && remaining > 0
    ensures var step := CloseStep(queue, closing, remaining, trades);
      && (step.failure.Some? <==> queue[0].quantity == 0)
      && (step.failure.Some? ==>
            step == LoopEnd(queue[1..], remaining, trades, Some(ZeroDivision)))
      && (step.failure.None? ==>
            var n := ClosableQuantity(queue[0], remaining);
            && ConsumeLot(queue[0], n).Ok?
            && var (rest, consumed) := ConsumeLot(queue[0], n).value;
            && 0 < n && step.remaining == remaining - n
            && step.trades == trades + [CreateTradeResult(queue[0], closing, n, consumed)]
            && Abs(rest.quantity) + n == Abs(queue[0].quantity)
            && (rest.quantity == 0 ==>
                  step.queue == queue[1..] && forall f :: LotField(rest, f) == 0.0)
            && (rest.quantity != 0 ==> step.queue == [rest] + queue[1..] && step.remaining == 0))
  {
    var head := queue[0];
    var n := ClosableQuantity(head, remaining);
    if head.quantity != 0 {
      ConsumeTowardZero(head, n);
      var (rest, consumed) := ConsumeLot(head, n).value;
      if rest.quantity == 0 {
        ConsumeProportional(head, n);
        var q := Abs(head.quantity) as real;
        assert n as real == q;
        ZeroRemainder(head.amountUsd, consumed.amountUsd, q);
        ZeroRemainder(head.amountEur, consumed.amountEur, q);
        ZeroRemainder(head.feesUsd, consumed.feesUsd, q);
        ZeroRemainder(head.feesEur, consumed.feesEur, q);
      }
    }
  }

  function ConsumedField(c: Consumed, f: Field): real
  {
    match f
    case AmountUsd => c.amountUsd
    case AmountEur => c.amountEur
    case FeesUsd => c.feesUsd
    case FeesEur => c.feesEur
  }

  /** A slice's trade realizes the basis it took from the lot plus its share of the closing transaction. */
  lemma SliceFields(head: Lot, closing: Closing, n: nat)
    requires ConsumeLot(head, n).Ok?
    ensures var (rest, consumed) := ConsumeLot(head, n).value;
      forall f :: TradeField(CreateTradeResult(head, closing, n, consumed), f) ==
        LotField(head, f) - LotField(rest, f) + AmountsField(CalculateClosingAmounts(closing, n), f)
  {
    var (rest, consumed) := ConsumeLot(head, n).value;
    forall f
      ensures TradeField(CreateTradeResult(head, closing, n, consumed), f) ==
        LotField(head, f) - LotField(rest, f) + AmountsField(CalculateClosingAmounts(closing, n), f)
    {
      match f
      case AmountUsd =>
      case AmountEur =>
      case FeesUsd =>
      case FeesEur =>
    }
  }

  lemma AppendOne(trades: seq<TradeResult>, t: TradeResult, closing: Closing)
    ensures Sizes(trades + [t]) == Sizes(trades) + [Abs(t.quantity)]
    ensures SumOf(Sizes(trades + [t])) == SumOf(Sizes(trades)) + Abs(t.quantity)
    ensures forall f :: SumTrades(trades + [t], f) == SumTrades(trades, f) + TradeField(t, f)
    ensures forall f ::
      AmountsField(SumClosingAmounts(closing, Sizes(trades + [t])), f) ==
      AmountsField(SumClosingAmounts(closing, Sizes(trades)), f) + AmountsField(CalculateClosingAmounts(closing, Abs(t.quantity)), f)
  {
    assert (trades + [t])[..|trades|] == trades;
    var sizes := Sizes(trades) + [Abs(t.quantity)];
    assert sizes[..|sizes| - 1] == Sizes(trades);
    forall f
      ensures AmountsField(SumClosingAmounts(closing, sizes), f) ==
        AmountsField(SumClosingAmounts(closing, Sizes(trades)), f) + AmountsField(CalculateClosingAmounts(closing, Abs(t.quantity)), f)
    {
      match f
      case AmountUsd =>
      case AmountEur =>
      case FeesUsd =>
      case FeesEur =>
    }
  }

  /** `closed_trades` only grows: the loop appends and never rewrites. */
  lemma {:induction false} CloseLoopAppends(queue: seq<Lot>, closing: Closing, remaining: nat, trades: seq<TradeResult>)
    ensures var end := CloseLoop(queue, closing, remaining, trades);
      |trades| <= |end.trades| && end.trades[..|trades|] == trades
    decreases remaining
  {
    if !Stops(queue, closing, remaining) {
      var step := CloseStep(queue, closing, remaining, trades);
      CloseStepFacts(queue, closing, remaining, trades);
      if step.failure.None? {
        CloseLoopAppends(step.queue, closing, step.remaining, step.trades);
        var end := CloseLoop(step.queue, closing, step.remaining, step.trades);
        assert end.trades[..|trades|] == end.trades[..|step.trades|][..|trades|];
      }
    }
  }

  /**
   * Conservation across a run of the loop that did not fail: the units closed
   * are the units the trades record, and for each money field the basis left
   * in the queue plus what the trades realized, less the closing transaction's
   * prorated share, is what the queue held before.
   */
  lemma {:induction false} CloseLoopConserves(queue: seq<Lot>, closing: Closing, remaining: nat, trades: seq<TradeResult>)
    ensures var end := CloseLoop(queue, closing, remaining, trades);
      end.failure.None? ==>
        && end.remaining <= remaining
        && SumOf(Sizes(end.trades)) + end.remaining == SumOf(Sizes(trades)) + remaining
        && forall f ::
             SumLots(end.queue, f) + SumTrades(end.trades, f) - AmountsField(SumClosingAmounts(closing, Sizes(end.trades)), f) ==
             SumLots(queue, f) + SumTrades(trades, f) - AmountsField(SumClosingAmounts(closing, Sizes(trades)), f)
    decreases remaining
  {
    if !Stops(queue, closing, remaining) {
      var step := CloseStep(queue, closing, remaining, trades);
      CloseStepFacts(queue, closing, remaining, trades);
      if step.failure.None? {
        var head := queue[0];
        var n := ClosableQuantity(head, remaining);
        var (rest, consumed) := ConsumeLot(head, n).value;
        var t := CreateTradeResult(head, closing, n, consumed);
        SliceFields(head, closing, n);
        AppendOne(trades, t, closing);
        assert Abs(t.quantity) == n;
        forall f
          ensures SumLots(step.queue, f) == LotField(head, f) - ConsumedField(consumed, f) + SumLots(queue[1..], f)
        {
          if rest.quantity != 0 {
            assert ([rest] + queue[1..])[1..] == queue[1..];
          }
          match f
          case AmountUsd =>
          case AmountEur =>
          case FeesUsd =>
          case FeesEur =>
        }
        forall f
          ensures LotField(head, f) - LotField(rest, f) == ConsumedField(consumed, f)
        {
          match f
          case AmountUsd =>
          case AmountEur =>
          case FeesUsd =>
          case FeesEur =>
        }
        CloseLoopConserves(step.queue, closing, step.remaining, step.trades);
      }
    }
  }

  /** Same instrument and opening date; only quantity and money may differ. */
  predicate SameOrigin(a: Lot, b: Lot)
  {
    a.symbol == b.symbol && a.positionType == b.positionType && a.date == b.date &&
    a.strike == b.strike && a.expiry == b.expiry && a.callPut == b.callPut
  }

  /** A pass that did not fail: the run from it is the run, less the pass's one trade. */
  lemma MadeUnfolds(queue: seq<Lot>, closing: Closing, remaining: nat, trades: seq<TradeResult>)
    requires !Stops(queue, closing, remaining)
    requires CloseStep(queue, closing, remaining, trades).failure.None?
    ensures var step := CloseStep(queue, closing, remaining, trades);
      var end := CloseLoop(step.queue, closing, step.remaining, step.trades);
      && CloseLoop(queue, closing, remaining, trades) == end
      && |step.trades| == |trades| + 1
      && Made(end, trades) == [step.trades[|trades|]] + Made(end, step.trades)
  {
    var step := CloseStep(queue, closing, remaining, trades);
    StepAppendsOne(queue, closing, remaining, trades);
    CloseLoopAppends(step.queue, closing, step.remaining, step.trades);
    var end := CloseLoop(step.queue, closing, step.remaining, step.trades);
    assert CloseLoop(queue, closing, remaining, trades) == end;
    assert end.trades[..|step.trades|] == step.trades;
    assert end.trades[|trades|] == step.trades[|trades|];
    assert end.trades[|trades|..] == [end.trades[|trades|]] + end.trades[|trades| + 1..];
  }

  /** A pass that did not fail records exactly one trade after the earlier ones. */
  lemma StepAppendsOne(queue: seq<Lot>, closing: Closing, remaining: nat, trades: seq<TradeResult>)
    requires queue != [] && remaining > 0
    ensures var step := CloseStep(queue, closing, remaining, trades);
      step.failure.None? ==> |step.trades| == |trades| + 1 && step.trades[..|trades|] == trades
  {
    var step := CloseStep(queue, closing, remaining, trades);
    if step.failure.None? {
      assert step.trades[..|trades|] == trades;
    }
  }

  /**
   * Strict head-first FIFO: the i-th trade of a close comes from the i-th lot
   * of the queue, on that lot's side, and every lot but the last one touched
   * is closed completely.
   */
  lemma {:induction false} CloseLoopIsFifo(queue: seq<Lot>, closing: Closing, remaining: nat, trades: seq<TradeResult>)
    ensures var end := CloseLoop(queue, closing, remaining, trades);
      var made := Made(end, trades);
      end.failure.None? ==>
        && |made| <= |queue|
        && (forall i :: 0 <= i < |made| ==>
              made[i].openingDate == queue[i].date && made[i].quantity != 0 &&
              (made[i].quantity > 0 <==> queue[i].quantity > 0) &&
              Abs(made[i].quantity) <= Abs(queue[i].quantity))
        && (forall i :: 0 <= i < |made| - 1 ==> Abs(made[i].quantity) == Abs(queue[i].quantity))
    decreases remaining
  {
    var end := CloseLoop(queue, closing, remaining, trades);
    CloseLoopAppends(queue, closing, remaining, trades);
    if Stops(queue, closing, remaining) {
      assert Made(end, trades) == [];
    } else {
      var step := CloseStep(queue, closing, remaining, trades);
      CloseStepFacts(queue, closing, remaining, trades);
      if step.failure.None? && end.failure.None? {
        MadeUnfolds(queue, closing, remaining, trades);
        CloseLoopIsFifo(step.queue, closing, step.remaining, step.trades);
        var rest := ConsumeLot(queue[0], ClosableQuantity(queue[0], remaining)).value.0;
        var later := Made(end, step.trades);
        if rest.quantity == 0 {
          assert step.queue == queue[1..];
        } else {
          assert Stops(step.queue, closing, step.remaining);
          assert later == [];
        }
      }
    }
  }

  /**
   * The side test of the loop: unless the closing transaction is an
   * expiration or an assignment, every lot a close touched was of the side
   * the closing quantity can close, and a head lot of the wrong side stops the
   * close before it makes any trade.
   */
  lemma {:induction false} CloseLoopRespectsSides(queue: seq<Lot>, closing: Closing, remaining: nat, trades: seq<TradeResult>)
    ensures var end := CloseLoop(queue, closing, remaining, trades);
      var made := Made(end, trades);
      end.failure.None? && !ForcedClose(closing) ==>
        && |made| <= |queue|
        && forall i :: 0 <= i < |made| ==> CanCloseWith(queue[i], closing.quantity)
    ensures queue != [] && !ForcedClose(closing) && !CanCloseWith(queue[0], closing.quantity) ==>
      CloseLoop(queue, closing, remaining, trades) == LoopEnd(queue, remaining, trades, None)
    decreases remaining
  {
    var end := CloseLoop(queue, closing, remaining, trades);
    CloseLoopAppends(queue, closing, remaining, trades);
    if Stops(queue, closing, remaining) {
      assert Made(end, trades) == [];
    } else {
      var step := CloseStep(queue, closing, remaining, trades);
      CloseStepFacts(queue, closing, remaining, trades);
      if step.failure.None? && end.failure.None? && !ForcedClose(closing) {
        MadeUnfolds(queue, closing, remaining, trades);
        CloseLoopRespectsSides(step.queue, closing, step.remaining, step.trades);
        var rest := ConsumeLot(queue[0], ClosableQuantity(queue[0], remaining)).value.0;
        var later := Made(end, step.trades);
        if rest.quantity == 0 {
          assert step.queue == queue[1..];
        } else {
          assert Stops(step.queue, closing, step.remaining);
          assert later == [];
        }
      }
    }
  }

  /**
   * What a close leaves in the queue: the untouched tail, behind at most one
   * reduced remainder of the last lot it touched.
   */
  lemma {:induction false} CloseLoopLeavesTail(queue: seq<Lot>, closing: Closing, remaining: nat, trades: seq<TradeResult>)
    ensures var end := CloseLoop(queue, closing, remaining, trades);
      var made := Made(end, trades);
      end.failure.None? ==>
        && |made| <= |queue|
        && (end.queue == queue[|made|..] ||
            (&& 0 < |made| && end.queue != [] && end.queue[1..] == queue[|made|..]
             && SameOrigin(end.queue[0], queue[|made| - 1])
             && Abs(end.queue[0].quantity) + Abs(made[|made| - 1].quantity) == Abs(queue[|made| - 1].quantity)))
    decreases remaining
  {
    var end := CloseLoop(queue, closing, remaining, trades);
    CloseLoopAppends(queue, closing, remaining, trades);
    if Stops(queue, closing, remaining) {
      assert Made(end, trades) == [];
    } else {
      var step := CloseStep(queue, closing, remaining, trades);
      CloseStepFacts(queue, closing, remaining, trades);
      if step.failure.None? && end.failure.None? {
        MadeUnfolds(queue, closing, remaining, trades);
        CloseLoopLeavesTail(step.queue, closing, step.remaining, step.trades);
        var rest := ConsumeLot(queue[0], ClosableQuantity(queue[0], remaining)).value.0;
        var made := Made(end, trades);
        var later := Made(end, step.trades);
        if rest.quantity == 0 {
          assert step.queue == queue[1..];
          assert |made| == |later| + 1 && |later| <= |queue| - 1;
          assert queue[1..][|later|..] == queue[|made|..];
          if |later| > 0 {
            assert queue[1..][|later| - 1] == queue[|made| - 1];
          }
        } else {
          assert Stops(step.queue, closing, step.remaining);
          assert later == [];
          assert end.queue == [rest] + queue[1..];
        }
      }
    }
  }

  /** Every lot of the queue belongs to the key's symbol and type. */
  predicate Filed(queue: seq<Lot>, key: InstrumentKey)
  {
    forall i :: 0 <= i < |queue| ==> queue[i].symbol == key.symbol && queue[i].positionType == key.positionType
  }

  lemma {:induction false} CloseLoopKeepsFiled(queue: seq<Lot>, closing: Closing, remaining: nat,
                                               trades: seq<TradeResult>, key: InstrumentKey)
    requires Filed(queue, key)
    ensures Filed(CloseLoop(queue, closing, remaining, trades).queue, key)
    decreases remaining
  {
    if !Stops(queue, closing, remaining) {
      var step := CloseStep(queue, closing, remaining, trades);
      CloseStepFacts(queue, closing, remaining, trades);
      assert Filed(queue[1..], key);
      if step.failure.None? {
        var n := ClosableQuantity(queue[0], remaining);
        var rest := ConsumeLot(queue[0], n).value.0;
        assert Filed([rest] + queue[1..], key);
        CloseLoopKeepsFiled(step.queue, closing, step.remaining, step.trades, key);
      }
    }
  }

  /**
   * A close that raised nothing closed the transaction's whole quantity, and
   * for each money field its trades realized exactly the basis taken out of
   * the queue plus the transaction's full value (or fees).
   */
  lemma CloseRealizesBasisAndValue(s: State, row: Row)
    requires Closed(s, row).failure.None? && row.quantity != 0
    ensures ClosingOf(row).Ok?
    ensures var key := ClosingOf(row).value.1;
      var after := Closed(s, row).state;
      && key in s.lots
      && |s.trades| <= |after.trades| && after.trades[..|s.trades|] == s.trades
      && var made := after.trades[|s.trades|..];
      && SumOf(Sizes(made)) == Abs(row.quantity)
      && forall f :: SumTrades(made, f) == SumLots(s.lots[key], f) - SumLots(QueueOf(after.lots, key), f) + RowField(row, f)
  {
    ClosedShape(s, row);
    var closing := ClosingOf(row).value.0;
    var key := ClosingOf(row).value.1;
    var queue := s.lots[key];
    var end := CloseLoop(queue, closing, Abs(closing.quantity), []);
    CloseLoopConserves(queue, closing, Abs(closing.quantity), []);
    var after := Closed(s, row).state;
    assert after.trades[|s.trades|..] == end.trades;
    ClosingAmountsAddUp(closing, Sizes(end.trades));
    forall f
      ensures AmountsField(SumClosingAmounts(closing, Sizes(end.trades)), f) == RowField(row, f)
    {
      match f
      case AmountUsd =>
      case AmountEur =>
      case FeesUsd =>
      case FeesEur =>
    }
  }

  /** A close that raised nothing ran the loop on the key's queue to the end, and the state records that run. */
  lemma ClosedShape(s: State, row: Row)
    requires Closed(s, row).failure.None?
    ensures ClosingOf(row).Ok?
    ensures var closing := ClosingOf(row).value.0;
      var key := ClosingOf(row).value.1;
      && key in s.lots && s.lots[key] != []
      && var end := CloseLoop(s.lots[key], closing, Abs(closing.quantity), []);
      && var after := Closed(s, row).state;
      && end.failure.None? && end.remaining == 0
      && after.trades == s.trades + end.trades
      && QueueOf(after.lots, key) == end.queue
  {
  }

  /** The split adjusts queues, never keys, and keeps every queue's length. */
  lemma SplitLotsShape(lots: map<InstrumentKey, seq<Lot>>, symbol: string, ratio: real)
    requires ratio != 0.0
    ensures var split := SplitLots(lots, symbol, ratio);
      && split.Keys == lots.Keys
      && forall k :: k in lots ==>
           |split[k]| == |lots[k]| &&
           (k.symbol != symbol ==> split[k] == lots[k]) &&
           (k.symbol == symbol ==> forall i :: 0 <= i < |lots[k]| ==> split[k][i] == AdjustedForSplit(lots[k][i], ratio))
  {
  }

  /** `closed_trades` is append-only, and only a close that is not a corporate action appends to it. */
  lemma AddPositionAppendsTrades(s: State, row: Row)
    ensures var after := AddPositionSpec(s, row).state;
      && |s.trades| <= |after.trades| && after.trades[..|s.trades|] == s.trades
      && (IsSymbolChange(row) || !IsClosingTransaction(row) ==> after.trades == s.trades)
  {
    if !IsSymbolChange(row) && IsClosingTransaction(row) && ClosingOf(row).Ok? {
      var (closing, key) := ClosingOf(row).value;
      if key in s.lots && s.lots[key] != [] {
        CloseLoopAppends(s.lots[key], closing, Abs(closing.quantity), []);
      }
    }
  }

  /** Every queue holds only lots of its key's symbol and type. */
  predicate AllFiled(lots: map<InstrumentKey, seq<Lot>>)
  {
    forall k :: k in lots ==> Filed(lots[k], k)
  }

  lemma EnqueuedKeepsFiled(lots: map<InstrumentKey, seq<Lot>>, key: InstrumentKey, lot: Lot)
    requires AllFiled(lots) && lot.symbol == key.symbol && lot.positionType == key.positionType
    ensures AllFiled(Enqueued(lots, key, lot))
  {
    var q := QueueOf(lots, key) + [lot];
    assert Filed(q, key) by {
      assert Filed(QueueOf(lots, key), key);
    }
  }

  /** Whatever `add_position` does, raising or not, lots stay in queues of their own symbol and type. */
  lemma AddPositionKeepsFiled(s: State, row: Row)
    requires AllFiled(s.lots)
    ensures AllFiled(AddPositionSpec(s, row).state.lots)
  {
    if IsSymbolChange(row) {
      if IsClosingTransaction(row) {
        if KeyFromTransaction(row).Ok? {
          var key := KeyFromTransaction(row).value;
          if key in s.lots && s.lots[key] != [] {
            assert Filed(s.lots[key][1..], key) by {
              assert Filed(s.lots[key], key);
            }
          }
        }
      } else if s.pending.None? {
        if OpeningLot(row).Ok? {
          var (key, lot) := OpeningLot(row).value;
          EnqueuedKeepsFiled(s.lots, key, lot);
        }
      } else if TransferredLot(row, s.pending.value).Ok? {
        var (key, lot) := TransferredLot(row, s.pending.value).value;
        EnqueuedKeepsFiled(s.lots, key, lot);
      }
    } else {
      var split := if row.subcode == ReverseSplit then SplitAdjusted(s, row) else SplitStep(s, false, None);
      if split.state != s {
        var symbol := row.symbol;
        var ratio := SplitRatio(row.description.text, row.description.ratioPair, symbol).value.value;
        SplitLotsShape(s.lots, symbol, ratio);
        forall k | k in split.state.lots
          ensures Filed(split.state.lots[k], k)
        {
          assert Filed(s.lots[k], k);
        }
      } else if split.failure.None? && !split.handled {
        if IsClosingTransaction(row) {
          if ClosingOf(row).Ok? {
            var (closing, key) := ClosingOf(row).value;
            if key in s.lots && s.lots[key] != [] {
              CloseLoopKeepsFiled(s.lots[key], closing, Abs(closing.quantity), [], key);
            }
          }
        } else if OpeningLot(row).Ok? {
          var (key, lot) := OpeningLot(row).value;
          EnqueuedKeepsFiled(s.lots, key, lot);
        }
      }
    }
  }

  /** No key is left holding an empty queue. */
  predicate NoEmptyQueues(lots: map<InstrumentKey, seq<Lot>>)
  {
    forall k :: k in lots ==> lots[k] != []
  }

  /**
   * A call that raises nothing leaves no empty queue behind: an emptied queue
   * is deleted. (A raising close can leave its popped queue empty.)
   */
  lemma AddPositionKeepsQueuesNonEmpty(s: State, row: Row)
    requires NoEmptyQueues(s.lots) && AddPositionSpec(s, row).failure.None?
    ensures NoEmptyQueues(AddPositionSpec(s, row).state.lots)
  {
    if !IsSymbolChange(row) {
      var split := if row.subcode == ReverseSplit then SplitAdjusted(s, row) else SplitStep(s, false, None);
      if split.handled {
        var ratio := SplitRatio(row.description.text, row.description.ratioPair, row.symbol).value.value;
        SplitLotsShape(s.lots, row.symbol, ratio);
      }
    }
  }

  /**
   * A plain open (no corporate action, not closing) appends exactly one lot,
   * with the transaction's own quantity, value, fees and date, at the tail of
   * its key's queue; nothing else changes. If the quantity, symbol or type
   * cannot be read, nothing changes at all.
   */
  lemma OpenAppendsOneLot(s: State, row: Row)
    requires !IsSymbolChange(row) && row.subcode != ReverseSplit && !IsClosingTransaction(row)
    ensures OpeningLot(row).Err? ==> AddPositionSpec(s, row) == Step(s, Some(OpeningLot(row).error))
    ensures OpeningLot(row).Ok? ==>
      var after := AddPositionSpec(s, row);
      var key := KeyFromTransaction(row).value;
      var old_ := QueueOf(s.lots, key);
      && KeyFromTransaction(row).Ok? && GetQuantity(row).Ok?
      && after.failure.None?
      && after.state.trades == s.trades && after.state.pending == s.pending
      && after.state.lots.Keys == s.lots.Keys + {key}
      && (forall k :: k in s.lots && k != key ==> after.state.lots[k] == s.lots[k])
      && |after.state.lots[key]| == |old_| + 1 && after.state.lots[key][..|old_|] == old_
      && var lot := after.state.lots[key][|old_|];
      && KeyOfLot(lot) == key
      && lot.quantity == GetQuantity(row).value && lot.date == row.dateTime
      && lot.amountUsd == GetValue(row).usd && lot.amountEur == GetValue(row).eur
      && lot.feesUsd == GetFees(row).usd && lot.feesEur == GetFees(row).eur
  {
    if OpeningLot(row).Ok? {
      var key := KeyFromTransaction(row).value;
      var old_ := QueueOf(s.lots, key);
      var after := AddPositionSpec(s, row);
      assert after.state.lots[key] == old_ + [OpeningLot(row).value.1];
      assert after.state.lots[key][..|old_|] == old_;
    }
  }

  /** The close leg moves the key's head lot into the pending slot and realizes nothing; with no queue it changes nothing. */
  lemma SymbolChangeCloseLegStagesHead(s: State, row: Row)
    requires IsSymbolChange(row) && IsClosingTransaction(row) && KeyFromTransaction(row).Ok?
    ensures var key := KeyFromTransaction(row).value;
      var after := AddPositionSpec(s, row);
      && after.failure.None?
      && after.state.trades == s.trades
      && (key !in s.lots || s.lots[key] == [] ==> after.state == s)
      && (key in s.lots && s.lots[key] != [] ==>
            && after.state.pending == Some(s.lots[key][0])
            && QueueOf(after.state.lots, key) == s.lots[key][1..]
            && (key in after.state.lots <==> |s.lots[key]| > 1)
            && forall k :: k != key ==>
                 (k in after.state.lots <==> k in s.lots) && (k in s.lots ==> after.state.lots[k] == s.lots[k]))
  {
  }

  /**
   * The open leg with a staged lot: a lot under the transaction's own key and
   * quantity carrying the staged lot's amounts, fees and opening date goes at
   * the tail of that key's queue, and the slot is cleared.
   */
  lemma SymbolChangeOpenLegTransfersBasis(s: State, row: Row)
    requires IsSymbolChange(row) && !IsClosingTransaction(row) && s.pending.Some?
    requires GetType(row).Ok? && GetQuantity(row).Ok?
    ensures var key := KeyFromTransaction(row).value;
      var staged := s.pending.value;
      var after := AddPositionSpec(s, row);
      var old_ := QueueOf(s.lots, key);
      && after.failure.None?
      && after.state.trades == s.trades && after.state.pending.None?
      && after.state.lots == s.lots[key := old_ + [after.state.lots[key][|old_|]]]
      && var lot := after.state.lots[key][|old_|];
      && KeyOfLot(lot) == key && lot.quantity == GetQuantity(row).value
      && lot.amountUsd == staged.amountUsd && lot.amountEur == staged.amountEur
      && lot.feesUsd == staged.feesUsd && lot.feesEur == staged.feesEur
      && lot.date == staged.date
  {
    var key := KeyFromTransaction(row).value;
    var old_ := QueueOf(s.lots, key);
    var lot := TransferredLot(row, s.pending.value).value.1;
    assert AddPositionSpec(s, row).state.lots[key] == old_ + [lot];
  }

  /** The open leg with nothing staged is an ordinary open with the transaction's own values. */
  lemma SymbolChangeOpenLegWithoutStagedLot(s: State, row: Row)
    requires IsSymbolChange(row) && !IsClosingTransaction(row) && s.pending.None?
    ensures AddPositionSpec(s, row) == Opened(s, row)
  {
  }

  /**
   * The handshake: a close leg for `was` followed by an open leg for a new
   * instrument moves the head lot's basis, fees and opening date to the new
   * key, under the new quantity, and leaves no staged lot and no trade.
   */
  lemma SymbolChangeHandshake(s: State, closeLeg: Row, openLeg: Row)
    requires IsSymbolChange(closeLeg) && IsClosingTransaction(closeLeg) && KeyFromTransaction(closeLeg).Ok?
    requires IsSymbolChange(openLeg) && !IsClosingTransaction(openLeg)
    requires GetType(openLeg).Ok? && GetQuantity(openLeg).Ok?
    requires var was := KeyFromTransaction(closeLeg).value; was in s.lots && s.lots[was] != []
    requires KeyFromTransaction(openLeg).value != KeyFromTransaction(closeLeg).value
    ensures var was := KeyFromTransaction(closeLeg).value;
      var now := KeyFromTransaction(openLeg).value;
      var first := AddPositionSpec(s, closeLeg);
      var second := AddPositionSpec(first.state, openLeg);
      var head := s.lots[was][0];
      var old_ := QueueOf(s.lots, now);
      && first.failure.None? && second.failure.None?
      && second.state.trades == s.trades && second.state.pending.None?
      && QueueOf(second.state.lots, was) == s.lots[was][1..]
      && |QueueOf(second.state.lots, now)| == |old_| + 1
      && QueueOf(second.state.lots, now)[..|old_|] == old_
      && var lot := QueueOf(second.state.lots, now)[|old_|];
      && lot.symbol == openLeg.symbol && lot.quantity == GetQuantity(openLeg).value
      && lot.amountUsd == head.amountUsd && lot.amountEur == head.amountEur
      && lot.feesUsd == head.feesUsd && lot.feesEur == head.feesEur && lot.date == head.date
  {
    var was := KeyFromTransaction(closeLeg).value;
    var now := KeyFromTransaction(openLeg).value;
    var first := AddPositionSpec(s, closeLeg);
    SymbolChangeCloseLegStagesHead(s, closeLeg);
    SymbolChangeOpenLegTransfersBasis(first.state, openLeg);
    assert QueueOf(first.state.lots, now) == QueueOf(s.lots, now);
  }

  /** A reverse split whose description quotes an option symbol is a trade: it is closed or opened like one. */
  lemma OptionSymbolSplitIsATrade(s: State, row: Row)
    requires row.subcode == ReverseSplit && row.description.Text? && row.description.quotesOptionSymbol
    ensures AddPositionSpec(s, row) == if IsClosingTransaction(row) then Closed(s, row) else Opened(s, row)
  {
  }

  /** A split with no ratio found, and not for USO, falls through to close or open. */
  lemma UnparsedSplitFallsThrough(s: State, row: Row)
    requires row.subcode == ReverseSplit && row.description.Text? && !row.description.quotesOptionSymbol
    requires row.description.ratioPair.None? && GetSymbol(row).Ok? && row.symbol != "USO"
    ensures AddPositionSpec(s, row) == if IsClosingTransaction(row) then Closed(s, row) else Opened(s, row)
  {
  }

  /**
   * A split that is applied adjusts every lot of its symbol's queues, leaves
   * every other queue, the keys, the trades and the pending slot alone, and
   * raises nothing.
   */
  lemma SplitTouchesOnlyItsSymbol(s: State, row: Row)
    requires row.subcode == ReverseSplit && SplitAdjusted(s, row).handled
    ensures var ratio := SplitRatio(row.description.text, row.description.ratioPair, row.symbol);
      var after := AddPositionSpec(s, row);
      && ratio.Ok? && ratio.value.Some? && ratio.value.value > 0.0
      && after.failure.None?
      && after.state.trades == s.trades && after.state.pending == s.pending
      && after.state.lots.Keys == s.lots.Keys
      && forall k :: k in s.lots ==>
           |after.state.lots[k]| == |s.lots[k]| &&
           (k.symbol != row.symbol ==> after.state.lots[k] == s.lots[k]) &&
           (k.symbol == row.symbol ==> forall i :: 0 <= i < |s.lots[k]| ==>
              after.state.lots[k][i] == AdjustedForSplit(s.lots[k][i], ratio.value.value))
  {
    var ratio := SplitRatio(row.description.text, row.description.ratioPair, row.symbol).value.value;
    SplitLotsShape(s.lots, row.symbol, ratio);
  }
}
