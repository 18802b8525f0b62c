/**
 * Worked histories through `add_position`, with the numbers from the
 * repository's own tests (test/test_fifo_logic.py,
 * test/test_position_manager.py, test/test_bft_psfe_symbol_change.py,
 * test/test_corporate_actions.py).
 */
module ManagerExamples {
  import opened Wrappers
  import opened Constants
  import opened Positions
  import opened Transactions
  import opened Lots
  import opened Fifo
  import opened Manager

  function Note(text: string): Description
  {
    Text(text, false, None, false)
  }

  /** A stock trade row with usd amounts only. */
  function StockRow(at: DateTime, subcode: string, symbol: string, buySell: string, openClose: string,
                    quantity: int, amount: real, fees: real): Row
  {
    Row(at, Trade, subcode, symbol, buySell, openClose, quantity, None, None, "", amount, 0.0, fees, 0.0, Note(""))
  }

  /** A put-option row with usd amounts only. */
  function PutRow(at: DateTime, code: string, subcode: string, symbol: string, buySell: string, openClose: string,
                  amount: real): Row
  {
    Row(at, code, subcode, symbol, buySell, openClose, 1, Some(DateTime(2021, 416)), Some(15.0), "P",
        amount, 0.0, 0.0, 0.0, Note(""))
  }

  const Empty := State(map[], [], None)

  /** A plain open whose lot is known. */
  lemma OpensAs(s: State, row: Row, key: InstrumentKey, lot: Lot)
    requires !IsSymbolChange(row) && row.subcode != ReverseSplit && !IsClosingTransaction(row)
    requires OpeningLot(row) == Ok((key, lot))
    ensures AddPositionSpec(s, row) == Step(s.(lots := Enqueued(s.lots, key, lot)), None)
  {
  }

  /** A plain close is `_close_position`. */
  lemma ClosesAs(s: State, row: Row)
    requires !IsSymbolChange(row) && row.subcode != ReverseSplit && IsClosingTransaction(row)
    ensures AddPositionSpec(s, row) == Closed(s, row)
  {
  }

  const FifoKey := InstrumentKey("FIFO", Stock, None, None, None)
  const Buy1 := StockRow(DateTime(2024, 1), BuyToOpen, "FIFO", "Buy", Open, 10, -100.0, 10.0)
  const Buy2 := StockRow(DateTime(2024, 2), BuyToOpen, "FIFO", "Buy", Open, 10, -200.0, 10.0)
  const Sell15 := StockRow(DateTime(2024, 3), SellToClose, "FIFO", "Sell", Close, 15, 375.0, 10.0)
  const Lot1 := Lot("FIFO", Stock, 10, -100.0, 0.0, 10.0, 0.0, DateTime(2024, 1), None, None, None)
  const Lot2 := Lot("FIFO", Stock, 10, -200.0, 0.0, 10.0, 0.0, DateTime(2024, 2), None, None, None)
  const Close15 := Closing("FIFO", Stock, DateTime(2024, 3), -15, Monetary.Money(0.0, 375.0),
                           Monetary.Money(0.0, 10.0), SellToClose, None, None)

  lemma FifoOpens()
    ensures AddPositionSpec(AddPositionSpec(Empty, Buy1).state, Buy2) ==
      Step(State(map[FifoKey := [Lot1, Lot2]], [], None), None)
  {
    assert KeyFromTransaction(Buy1) == Ok(FifoKey) && GetQuantity(Buy1) == Ok(10);
    assert OpeningLot(Buy1) == Ok((FifoKey, Lot1));
    OpensAs(Empty, Buy1, FifoKey, Lot1);
    assert QueueOf(Empty.lots, FifoKey) + [Lot1] == [Lot1];
    var s1 := AddPositionSpec(Empty, Buy1);
    assert s1.state == State(map[FifoKey := [Lot1]], [], None);
    assert KeyFromTransaction(Buy2) == Ok(FifoKey) && GetQuantity(Buy2) == Ok(10);
    assert OpeningLot(Buy2) == Ok((FifoKey, Lot2));
    OpensAs(s1.state, Buy2, FifoKey, Lot2);
    assert [Lot1] + [Lot2] == [Lot1, Lot2];
  }

  /** The first slice closes all of the first lot: 10 units, profit -100 + 375·10/15 = 150. */
  lemma FifoFirstSlice()
    ensures var step := CloseStep([Lot1, Lot2], Close15, 15, []);
      && step.failure.None? && step.remaining == 5 && step.queue == [Lot2]
      && |step.trades| == 1 && step.trades[0].quantity == 10 && step.trades[0].profitUsd == 150.0
  {
    var rest := ConsumeLot(Lot1, 10).value.0;
    assert rest.quantity == 0;
    assert [Lot1, Lot2][1..] == [Lot2];
  }

  /** The second slice takes 5 of the second lot: profit -100 + 375·5/15 = 25, and 5 units with basis -100 stay. */
  lemma FifoSecondSlice(trades: seq<TradeResult>)
    ensures var step := CloseStep([Lot2], Close15, 5, trades);
      && step.failure.None? && step.remaining == 0
      && |step.queue| == 1 && step.queue[0].quantity == 5 && step.queue[0].amountUsd == -100.0
      && step.queue[0].date == DateTime(2024, 2)
      && step.trades == trades + [step.trades[|trades|]]
      && step.trades[|trades|].quantity == 5 && step.trades[|trades|].profitUsd == 25.0
  {
    var rest := ConsumeLot(Lot2, 5).value.0;
    assert rest.quantity == 5;
  }

  /** The whole close loop for the sale of 15. */
  lemma FifoLoop()
    ensures var end := CloseLoop([Lot1, Lot2], Close15, 15, []);
      && end.failure.None? && end.remaining == 0
      && |end.trades| == 2
      && end.trades[0].quantity == 10 && end.trades[1].quantity == 5
      && end.trades[0].profitUsd + end.trades[1].profitUsd == 175.0
      && |end.queue| == 1 && end.queue[0].quantity == 5 && end.queue[0].amountUsd == -100.0
      && end.queue[0].date == DateTime(2024, 2)
  {
    FifoFirstSlice();
    var first := CloseStep([Lot1, Lot2], Close15, 15, []);
    FifoSecondSlice(first.trades);
    var second := CloseStep([Lot2], Close15, 5, first.trades);
    assert CloseLoop([Lot2], Close15, 5, first.trades) == CloseLoop(second.queue, Close15, 0, second.trades);
  }

  lemma SaleOfFifteen()
    ensures !IsSymbolChange(Sell15) && Sell15.subcode != ReverseSplit && IsClosingTransaction(Sell15)
    ensures ClosingOf(Sell15) == Ok((Close15, FifoKey))
  {
  }

  /** The sale of 15 is a plain close, which leaves the queue and the trades of the close loop. */
  lemma FifoCloses()
    ensures var end := CloseLoop([Lot1, Lot2], Close15, 15, []);
      AddPositionSpec(State(map[FifoKey := [Lot1, Lot2]], [], None), Sell15) ==
      Step(State(map[FifoKey := end.queue], end.trades, None), None)
  {
    var s2 := State(map[FifoKey := [Lot1, Lot2]], [], None);
    SaleOfFifteen();
    ClosesAs(s2, Sell15);
    var end := CloseLoop([Lot1, Lot2], Close15, 15, []);
    assert [] + end.trades == end.trades;
  }

  /**
   * Buy 10 for -100, buy 10 for -200, sell 15 for 375: the first lot closes
   * completely, five units come from the second. Total profit 175; what is
   * left is 5 units with basis -100.
   */
  lemma FifoExample()
    ensures var s2 := AddPositionSpec(AddPositionSpec(Empty, Buy1).state, Buy2);
      var s3 := AddPositionSpec(s2.state, Sell15);
      && s3.failure.None?
      && |s3.state.trades| == 2
      && s3.state.trades[0].quantity == 10 && s3.state.trades[1].quantity == 5
      && s3.state.trades[0].profitUsd + s3.state.trades[1].profitUsd == 175.0
      && FifoKey in s3.state.lots && |s3.state.lots[FifoKey]| == 1
      && s3.state.lots[FifoKey][0].quantity == 5 && s3.state.lots[FifoKey][0].amountUsd == -100.0
      && s3.state.lots[FifoKey][0].date == DateTime(2024, 2)
  {
    FifoOpens();
    FifoCloses();
    FifoLoop();
  }

  const XyzKey := InstrumentKey("XYZ", Stock, None, None, None)
  const Buy10 := StockRow(DateTime(2024, 1), BuyToOpen, "XYZ", "Buy", Open, 10, -100.0, 5.0)
  const Sell20 := StockRow(DateTime(2024, 2), SellToClose, "XYZ", "Sell", Close, 20, 240.0, 3.0)
  const Lot10 := Lot("XYZ", Stock, 10, -100.0, 0.0, 5.0, 0.0, DateTime(2024, 1), None, None, None)
  const Close20 := Closing("XYZ", Stock, DateTime(2024, 2), -20, Monetary.Money(0.0, 240.0),
                           Monetary.Money(0.0, 3.0), SellToClose, None, None)

  lemma OvercloseSlice()
    ensures var step := CloseStep([Lot10], Close20, 20, []);
      && step.failure.None? && step.remaining == 10 && step.queue == []
      && |step.trades| == 1 && step.trades[0].quantity == 10 && step.trades[0].profitUsd == 20.0
  {
    var rest := ConsumeLot(Lot10, 10).value.0;
    assert rest.quantity == 0;
  }

  /**
   * Closing 20 against 10: the 10 are closed and recorded and the emptied
   * queue is deleted before "more shares than available" is raised.
   */
  lemma OvercloseIsNotAtomic()
    ensures var s1 := AddPositionSpec(Empty, Buy10);
      var s2 := AddPositionSpec(s1.state, Sell20);
      && s2.failure == Some(MoreThanAvailable)
      && XyzKey !in s2.state.lots
      && |s2.state.trades| == 1 && s2.state.trades[0].quantity == 10 && s2.state.trades[0].profitUsd == 20.0
  {
    Buy10Opens();
    Sell20Overcloses();
  }

  const Holding10 := State(map[XyzKey := [Lot10]], [], None)

  /** Buying 10 into an empty book opens one queue holding the one lot. */
  lemma Buy10Opens()
    ensures AddPositionSpec(Empty, Buy10).state == Holding10
  {
    assert KeyFromTransaction(Buy10) == Ok(XyzKey) && GetQuantity(Buy10) == Ok(10);
    assert OpeningLot(Buy10) == Ok((XyzKey, Lot10));
    OpensAs(Empty, Buy10, XyzKey, Lot10);
    assert QueueOf(Empty.lots, XyzKey) + [Lot10] == [Lot10];
  }

  /** Selling 20 against the 10 held closes those 10, deletes the queue and raises. */
  lemma Sell20Overcloses()
    ensures var s2 := AddPositionSpec(Holding10, Sell20);
      && s2.failure == Some(MoreThanAvailable)
      && XyzKey !in s2.state.lots
      && |s2.state.trades| == 1 && s2.state.trades[0].quantity == 10 && s2.state.trades[0].profitUsd == 20.0
  {
    ClosesAs(Holding10, Sell20);
    assert ClosingOf(Sell20) == Ok((Close20, XyzKey));
    OvercloseLoop();
    var end := CloseLoop([Lot10], Close20, 20, []);
    assert Closed(Holding10, Sell20) ==
      Step(Holding10.(lots := Holding10.lots - {XyzKey}, trades := end.trades), Some(MoreThanAvailable));
  }

  /** The loop closes the one lot and stops at the empty queue with 10 still to close. */
  lemma OvercloseLoop()
    ensures var end := CloseLoop([Lot10], Close20, 20, []);
      && end.failure.None? && end.remaining == 10 && end.queue == []
      && |end.trades| == 1 && end.trades[0].quantity == 10 && end.trades[0].profitUsd == 20.0
  {
    OvercloseSlice();
    var step := CloseStep([Lot10], Close20, 20, []);
    assert Stops(step.queue, Close20, step.remaining);
    assert CloseLoop([Lot10], Close20, 20, []) == step;
  }

  /** Closing with nothing open raises "no previous position" and changes nothing. */
  lemma CloseWithoutPosition(s: State, row: Row)
    requires !IsSymbolChange(row) && row.subcode != ReverseSplit && IsClosingTransaction(row)
    requires ClosingOf(row).Ok? && QueueOf(s.lots, ClosingOf(row).value.1) == []
    ensures AddPositionSpec(s, row) == Step(s, Some(NoPreviousPosition))
  {
  }

  const Expiry := Some(DateTime(2021, 416))
  const BftKey := InstrumentKey("BFT", Put, Some(15.0), Expiry, Some("P"))
  const PsfeKey := InstrumentKey("PSFE", Put, Some(15.0), Expiry, Some("P"))
  const SellBft := PutRow(DateTime(2021, 1), Trade, SellToOpen, "BFT", "Sell", Open, 132.0)
  const CloseLeg := PutRow(DateTime(2021, 2), ReceiveDeliver, SymbolChange, "BFT", "Buy", Close, -132.0)
  const OpenLeg := PutRow(DateTime(2021, 2), ReceiveDeliver, SymbolChange, "PSFE", "Sell", Open, 132.0)
  const BuyBack := PutRow(DateTime(2021, 3), Trade, BuyToClose, "PSFE", "Buy", Close, -80.0)
  const BftLot := Lot("BFT", Put, -1, 132.0, 0.0, 0.0, 0.0, DateTime(2021, 1), Some(15.0), Expiry, Some("P"))
  const PsfeLot := Lot("PSFE", Put, -1, 132.0, 0.0, 0.0, 0.0, DateTime(2021, 1), Some(15.0), Expiry, Some("P"))
  const BuyBackClosing := Closing("PSFE", Put, DateTime(2021, 3), 1, Monetary.Money(0.0, -80.0),
                                  Monetary.Money(0.0, 0.0), BuyToClose, Some(15.0), Expiry)

  lemma ShortPutOpens()
    ensures AddPositionSpec(Empty, SellBft) == Step(State(map[BftKey := [BftLot]], [], None), None)
  {
    assert KeyFromTransaction(SellBft) == Ok(BftKey) && GetQuantity(SellBft) == Ok(-1);
    assert OpeningLot(SellBft) == Ok((BftKey, BftLot));
    OpensAs(Empty, SellBft, BftKey, BftLot);
    assert QueueOf(Empty.lots, BftKey) + [BftLot] == [BftLot];
  }

  /** The close leg stages the BFT lot and removes its now empty queue. */
  lemma CloseLegStages()
    ensures AddPositionSpec(State(map[BftKey := [BftLot]], [], None), CloseLeg) ==
      Step(State(map[], [], Some(BftLot)), None)
  {
    assert KeyFromTransaction(CloseLeg) == Ok(BftKey);
  }

  /** The open leg files the staged lot under PSFE with the BFT basis and date. */
  lemma OpenLegTransfers()
    ensures AddPositionSpec(State(map[], [], Some(BftLot)), OpenLeg) ==
      Step(State(map[PsfeKey := [PsfeLot]], [], None), None)
  {
    assert KeyFromTransaction(OpenLeg) == Ok(PsfeKey) && GetQuantity(OpenLeg) == Ok(-1);
    assert TransferredLot(OpenLeg, BftLot) == Ok((PsfeKey, PsfeLot));
    assert QueueOf(map[], PsfeKey) + [PsfeLot] == [PsfeLot];
  }

  lemma BuyBackIsAClose()
    ensures !IsSymbolChange(BuyBack) && BuyBack.subcode != ReverseSplit && IsClosingTransaction(BuyBack)
    ensures ClosingOf(BuyBack) == Ok((BuyBackClosing, PsfeKey))
  {
  }

  lemma BuyBackSlice()
    ensures var step := CloseStep([PsfeLot], BuyBackClosing, 1, []);
      && step.failure.None? && step.queue == [] && step.remaining == 0
      && |step.trades| == 1 && step.trades[0].symbol == "PSFE" && step.trades[0].profitUsd == 52.0
      && step.trades[0].openingDate == DateTime(2021, 1)
  {
    var rest := ConsumeLot(PsfeLot, 1).value.0;
    assert rest.quantity == 0;
  }

  /** Buying back for 80 what was sold for 132 makes 52 and closes the lot. */
  lemma BuyBackLoop()
    ensures var end := CloseLoop([PsfeLot], BuyBackClosing, 1, []);
      && end.failure.None? && end.queue == [] && end.remaining == 0
      && |end.trades| == 1 && end.trades[0].symbol == "PSFE" && end.trades[0].profitUsd == 52.0
      && end.trades[0].openingDate == DateTime(2021, 1)
  {
    BuyBackSlice();
    assert CanCloseWith(PsfeLot, BuyBackClosing.quantity);
    var step := CloseStep([PsfeLot], BuyBackClosing, 1, []);
    assert Stops(step.queue, BuyBackClosing, step.remaining);
    assert CloseLoop([PsfeLot], BuyBackClosing, 1, []) == CloseLoop([], BuyBackClosing, 0, step.trades);
  }

  lemma BuyBackCloses()
    ensures var end := CloseLoop([PsfeLot], BuyBackClosing, 1, []);
      AddPositionSpec(State(map[PsfeKey := [PsfeLot]], [], None), BuyBack) == Step(State(map[], end.trades, None), None)
  {
    BuyBackIsAClose();
    BuyBackLoop();
    ClosesAs(State(map[PsfeKey := [PsfeLot]], [], None), BuyBack);
    var end := CloseLoop([PsfeLot], BuyBackClosing, 1, []);
    assert [] + end.trades == end.trades;
    assert map[PsfeKey := [PsfeLot]] - {PsfeKey} == map[];
  }

  /**
   * Open a short BFT put for 132, change its symbol to PSFE in two legs, buy
   * it back for 80: one trade, for PSFE, with profit 52 against the BFT
   * opening, and nothing left open.
   */
  lemma SymbolChangeExample()
    ensures var s1 := AddPositionSpec(Empty, SellBft);
      var s2 := AddPositionSpec(s1.state, CloseLeg);
      var s3 := AddPositionSpec(s2.state, OpenLeg);
      var s4 := AddPositionSpec(s3.state, BuyBack);
      && s1.failure.None? && s2.failure.None? && s3.failure.None? && s4.failure.None?
      && s2.state.trades == [] && s2.state.lots == map[]
      && s3.state.pending.None?
      && s4.state.lots == map[]
      && |s4.state.trades| == 1
      && s4.state.trades[0].symbol == "PSFE" && s4.state.trades[0].profitUsd == 52.0
      && s4.state.trades[0].openingDate == DateTime(2021, 1)
  {
    ShortPutOpens();
    CloseLegStages();
    OpenLegTransfers();
    BuyBackCloses();
    BuyBackLoop();
  }

  /** `part` found at position k of `text`. */
  lemma {:induction false} ContainsAt(text: string, part: string, k: nat)
    requires k + |part| <= |text| && text[k..k + |part|] == part
    ensures Contains(text, part)
    decreases k
  {
    if k == 0 {
      assert part <= text;
    } else {
      assert text[1..][k - 1..k - 1 + |part|] == part;
      ContainsAt(text[1..], part, k - 1);
    }
  }

  /** A text without the letter v does not contain "reverse". */
  lemma {:induction false} NoReverseWithoutV(text: string)
    requires forall i :: 0 <= i < |text| ==> text[i] != 'v'
    ensures !Contains(text, "reverse")
    decreases |text|
  {
    if |text| > 0 {
      NoReverseWithoutV(text[1..]);
      assert !("reverse" <= text) by {
        if |text| >= 7 {
          assert text[2] != "reverse"[2];
        }
      }
    }
  }

  /** "1-for-8 reverse split" with the pair (1, 8) gives 1/8. */
  lemma SplitRatioReverseExample(d: string)
    requires d == "1-for-8 reverse split"
    ensures SplitRatio(d, Some(RatioPair(1, 8)), "TEST") == Ok(Some(0.125))
  {
    var lower := Lower(d);
    assert lower[8..15] == "reverse";
    ContainsAt(lower, "reverse", 8);
  }

  /** "8 for 1 Reverse split": the order of the pair does not matter, nor the case of "reverse". */
  lemma SplitRatioReverseSwappedExample(d: string)
    requires d == "8 for 1 Reverse split"
    ensures SplitRatio(d, Some(RatioPair(8, 1)), "XYZ") == Ok(Some(0.125))
  {
    var lower := Lower(d);
    assert lower[8..15] == "reverse";
    ContainsAt(lower, "reverse", 8);
  }

  /** "Regular split: 2:1" gives 2. */
  lemma SplitRatioForwardExample(d: string)
    requires d == "Regular split: 2:1"
    ensures SplitRatio(d, Some(RatioPair(2, 1)), "SPLIT") == Ok(Some(2.0))
  {
    assert forall i :: 0 <= i < |d| ==> d[i] != 'v' && d[i] != 'V';
    NoReverseWithoutV(Lower(d));
  }

  /** With no pair, USO falls back to 1/8 and any other symbol has no ratio. */
  lemma SplitRatioFallbackExamples()
    ensures SplitRatio("Reverse split", None, "USO") == Ok(Some(0.125))
    ensures SplitRatio("Reverse split", None, "XYZ") == Ok(None)
  {
  }

  /** A reverse split of 1:8 on 100 shares leaves 12 and leaves other symbols' lots alone. */
  lemma SplitExample()
    ensures var uso := InstrumentKey("USO", Stock, None, None, None);
      var xyz := InstrumentKey("XYZ", Stock, None, None, None);
      var a := Lot("USO", Stock, 100, -1000.0, 0.0, 1.0, 0.0, DateTime(2020, 1), None, None, None);
      var b := Lot("XYZ", Stock, 50, -500.0, 0.0, 1.0, 0.0, DateTime(2020, 1), None, None, None);
      var row := Row(DateTime(2020, 2), ReceiveDeliver, ReverseSplit, "USO", "Sell", Close, 100, None, None, "",
                     0.0, 0.0, 0.0, 0.0, Note("Reverse split"));
      var after := AddPositionSpec(State(map[uso := [a], xyz := [b]], [], None), row);
      && after.failure.None? && after.state.trades == []
      && after.state.lots[uso][0].quantity == 12 && after.state.lots[xyz] == [b]
  {
    var a := Lot("USO", Stock, 100, -1000.0, 0.0, 1.0, 0.0, DateTime(2020, 1), None, None, None);
    SplitLongExample(a);
  }
}
