/**
 * One realized trade from a consumed slice of an opening lot
 * (tastyworksTaxes/fifo_processor.py).
 */
module Fifo {
  import opened Wrappers
  import opened Constants
  import opened Monetary
  import opened Positions
  import opened Transactions
  import opened Lots

  /** A realized trade: one opening lot slice matched against one closing transaction. */
  datatype TradeResult = TradeResult(
    symbol: string,
    positionType: PositionType,
    openingDate: DateTime,
    closingDate: DateTime,
    quantity: int,              // positive for a long opening lot, negative for a short one
    profitUsd: real,
    profitEur: real,
    feesUsd: real,
    feesEur: real,
    worthlessExpiry: bool,
    strike: Option<real>,
    expiry: Option<DateTime>)

  /** The decoded fields of a closing transaction that a trade record reads. */
  datatype Closing = Closing(
    symbol: string,
    positionType: PositionType,
    dateTime: DateTime,
    quantity: int,              // signed, as `getQuantity` returns it
    value: Money,
    fees: Money,
    subcode: string,
    strike: Option<real>,
    expiry: Option<DateTime>)

  function DecodeClosing(row: Row): (r: Result<Closing>)
    ensures r.Ok? <==> GetQuantity(row).Ok? && GetType(row).Ok?
    ensures r.Ok? ==>
      && r.value.quantity == GetQuantity(row).value
      && r.value.symbol == row.symbol
      && r.value.positionType == GetType(row).value
      && r.value.value == GetValue(row) && r.value.fees == GetFees(row)
  {
    var quantity :- GetQuantity(row);
    var symbol :- GetSymbol(row);
    var positionType :- GetType(row);
    Ok(Closing(symbol, positionType, row.dateTime, quantity, GetValue(row), GetFees(row),
               row.subcode, row.strike, row.expiry))
  }

  datatype ClosingAmounts = ClosingAmounts(amountUsd: real, amountEur: real, feesUsd: real, feesEur: real)

  /** The closing transaction's share n/|quantity|, or 0 when its quantity is 0. */
  function Share(closing: Closing, n: int): (r: real)
    ensures closing.quantity != 0 ==> r * Abs(closing.quantity) as real == n as real
    ensures closing.quantity == 0 ==> r == 0.0
  {
    var total := Abs(closing.quantity);
    if total > 0 then n as real / total as real else 0.0
  }

  /** The closing transaction's value and fees prorated to the n units of one slice. */
  function CalculateClosingAmounts(closing: Closing, n: int): (r: ClosingAmounts)
    ensures closing.quantity == 0 ==> r == ClosingAmounts(0.0, 0.0, 0.0, 0.0)
  {
    var share := Share(closing, n);
    ClosingAmounts(Scaled(closing.value.usd, share), Scaled(closing.value.eur, share),
                   Scaled(closing.fees.usd, share), Scaled(closing.fees.eur, share))
  }

  /** For a non-zero closing quantity each amount is prorated: amount·|quantity| = total·n. */
  lemma ClosingAmountsProrated(closing: Closing, n: int)
    requires closing.quantity != 0
    ensures var r := CalculateClosingAmounts(closing, n);
      var q := Abs(closing.quantity) as real;
      && r.amountUsd * q == closing.value.usd * n as real
      && r.amountEur * q == closing.value.eur * n as real
      && r.feesUsd * q == closing.fees.usd * n as real
      && r.feesEur * q == closing.fees.eur * n as real
  {
    var q := Abs(closing.quantity) as real;
    var share := n as real / q;
    assert share * q == n as real;
    ScaledTimes(closing.value.usd, share, q);
    ScaledTimes(closing.value.eur, share, q);
    ScaledTimes(closing.fees.usd, share, q);
    ScaledTimes(closing.fees.eur, share, q);
  }

  lemma ScaledTimes(x: real, share: real, q: real)
    ensures Scaled(x, share) * q == x * (share * q)
  {
  }

  function SumOf(parts: seq<nat>): nat
  {
    if parts == [] then 0 else SumOf(parts[..|parts| - 1]) + parts[|parts| - 1]
  }

  /** The four prorated amounts of a sequence of slices, added up. */
  function SumClosingAmounts(closing: Closing, parts: seq<nat>): (r: ClosingAmounts)
    ensures |parts| == 1 ==> r == CalculateClosingAmounts(closing, parts[0])
    ensures closing.quantity == 0 ==> r == ClosingAmounts(0.0, 0.0, 0.0, 0.0)
  {
    if parts == [] then ClosingAmounts(0.0, 0.0, 0.0, 0.0)
    else
      var a := SumClosingAmounts(closing, parts[..|parts| - 1]);
      var b := CalculateClosingAmounts(closing, parts[|parts| - 1]);
      ClosingAmounts(a.amountUsd + b.amountUsd, a.amountEur + b.amountEur, a.feesUsd + b.feesUsd, a.feesEur + b.feesEur)
  }

  lemma {:induction false} SumClosingAmountsIsShareOfTotal(closing: Closing, parts: seq<nat>)
    ensures var s := SumClosingAmounts(closing, parts);
      var share := Share(closing, SumOf(parts));
      && s.amountUsd == Scaled(closing.value.usd, share)
      && s.amountEur == Scaled(closing.value.eur, share)
      && s.feesUsd == Scaled(closing.fees.usd, share)
      && s.feesEur == Scaled(closing.fees.eur, share)
  {
    if parts != [] {
      var init := parts[..|parts| - 1];
      var last := parts[|parts| - 1];
      SumClosingAmountsIsShareOfTotal(closing, init);
      var a := Share(closing, SumOf(init));
      var b := Share(closing, last);
      ShareAdds(closing, SumOf(init), last);
      ScaledAdds(closing.value.usd, a, b);
      ScaledAdds(closing.value.eur, a, b);
      ScaledAdds(closing.fees.usd, a, b);
      ScaledAdds(closing.fees.eur, a, b);
    }
  }

  lemma ScaledAdds(x: real, a: real, b: real)
    ensures Scaled(x, a + b) == Scaled(x, a) + Scaled(x, b)
  {
  }

  lemma ShareAdds(closing: Closing, a: nat, b: nat)
    ensures Share(closing, a + b) == Share(closing, a) + Share(closing, b)
  {
    if closing.quantity != 0 {
      var q := Abs(closing.quantity) as real;
      assert Share(closing, a + b) == (a + b) as real / q;
      assert (a + b) as real / q == a as real / q + b as real / q;
    }
  }

  /**
   * When the slices of one close add up to its whole quantity, their prorated
   * closing amounts add up to the transaction's full value and fees.
   */
  lemma ClosingAmountsAddUp(closing: Closing, parts: seq<nat>)
    requires closing.quantity != 0 && SumOf(parts) == Abs(closing.quantity)
    ensures SumClosingAmounts(closing, parts) ==
      ClosingAmounts(closing.value.usd, closing.value.eur, closing.fees.usd, closing.fees.eur)
  {
    SumClosingAmountsIsShareOfTotal(closing, parts);
    WholeShare(closing);
  }

  lemma WholeShare(closing: Closing)
    requires closing.quantity != 0
    ensures Share(closing, Abs(closing.quantity)) == 1.0
  {
    var q := Abs(closing.quantity) as real;
    assert q > 0.0;
    assert q / q == 1.0;
  }

  /**
   * `create_trade_result` on the opening lot as it was before the slice was
   * consumed: the slice's consumed basis plus the prorated closing amounts.
   */
  function CreateTradeResult(openingLot: Lot, closing: Closing, n: nat, consumed: Consumed): (r: TradeResult)
    ensures r.quantity == (if openingLot.quantity > 0 then n as int else -(n as int))
    ensures openingLot.quantity > 0 ==> r.quantity > 0 || n == 0
    ensures r.worthlessExpiry <==> closing.subcode == Expiration && openingLot.quantity > 0
    ensures r.profitUsd == consumed.amountUsd + CalculateClosingAmounts(closing, n).amountUsd
    ensures r.profitEur == consumed.amountEur + CalculateClosingAmounts(closing, n).amountEur
    ensures r.feesUsd == consumed.feesUsd + CalculateClosingAmounts(closing, n).feesUsd
    ensures r.feesEur == consumed.feesEur + CalculateClosingAmounts(closing, n).feesEur
    ensures r.symbol == closing.symbol && r.positionType == closing.positionType
    ensures r.openingDate == openingLot.date && r.closingDate == closing.dateTime
    ensures closing.positionType == Stock ==> r.strike.None? && r.expiry.None?
    ensures closing.positionType != Stock ==> r.strike == closing.strike && r.expiry == closing.expiry
  {
    var amounts := CalculateClosingAmounts(closing, n);
    var signed := if openingLot.quantity > 0 then n as int else -(n as int);
    TradeResult(
      closing.symbol, closing.positionType, openingLot.date, closing.dateTime, signed,
      consumed.amountUsd + amounts.amountUsd, consumed.amountEur + amounts.amountEur,
      consumed.feesUsd + amounts.feesUsd, consumed.feesEur + amounts.feesEur,
      closing.subcode == Expiration && openingLot.quantity > 0,
      if closing.positionType != Stock then closing.strike else None,
      if closing.positionType != Stock then closing.expiry else None)
  }

  /**
   * One FIFO slice: consume n units of the lot and record the trade, with the
   * lot's side taken before the consumption.
   */
  function CloseSlice(lot: Lot, closing: Closing, n: nat): (r: Result<(Lot, TradeResult)>)
    ensures r.Ok? <==> ConsumeLot(lot, n).Ok?
    ensures r.Ok? ==> r.value.0 == ConsumeLot(lot, n).value.0
    ensures r.Ok? ==> r.value.1 == CreateTradeResult(lot, closing, n, ConsumeLot(lot, n).value.1)
  {
    var (rest, consumed) :- ConsumeLot(lot, n);
    Ok((rest, CreateTradeResult(lot, closing, n, consumed)))
  }

  /**
   * The same slice as the source's record builder evaluates it when handed the
   * lot after `consume` has changed it in place: it reads the remaining
   * quantity instead of the opening one.
   */
  function CloseSliceAsWritten(lot: Lot, closing: Closing, n: nat): (r: Result<(Lot, TradeResult)>)
    ensures r.Ok? <==> CloseSlice(lot, closing, n).Ok?
    ensures r.Ok? ==> r.value.0 == CloseSlice(lot, closing, n).value.0
    ensures r.Ok? ==> r.value.1 == CloseSlice(lot, closing, n).value.1.(quantity := r.value.1.quantity,
                                                                        worthlessExpiry := r.value.1.worthlessExpiry)
    ensures r.Ok? && r.value.0.quantity != 0 ==> r.value.1 == CloseSlice(lot, closing, n).value.1
  {
    var (rest, consumed) :- ConsumeLot(lot, n);
    Ok((rest, CreateTradeResult(rest, closing, n, consumed)))
  }

  /**
   * A long lot closed completely by an expiration: read after consumption the
   * lot is empty, so the trade comes out short and not worthless; read before,
   * it is long and worthless.
   */
  lemma AsWrittenMisreadsFullyClosedLongLot(lot: Lot, closing: Closing)
    requires lot.quantity > 0 && closing.subcode == Expiration
    ensures CloseSliceAsWritten(lot, closing, lot.quantity).Ok?
    ensures CloseSliceAsWritten(lot, closing, lot.quantity).value.1.quantity == -lot.quantity
    ensures !CloseSliceAsWritten(lot, closing, lot.quantity).value.1.worthlessExpiry
    ensures CloseSlice(lot, closing, lot.quantity).value.1.quantity == lot.quantity
    ensures CloseSlice(lot, closing, lot.quantity).value.1.worthlessExpiry
  {
    var rest := ConsumeLot(lot, lot.quantity).value.0;
    ConsumeTowardZero(lot, lot.quantity);
    assert rest.quantity == 0;
  }

  /** The trade's profit and fees: opening basis 100·(-10), closing 50 for 600 with fees 3 → profit 100, fees 5.5. */
  lemma PartialCloseExample(lot: Lot, closing: Closing)
    requires lot.quantity == 100 && lot.amountUsd == -1000.0 && lot.feesUsd == 5.0
    requires closing.quantity == -50 && closing.value.usd == 600.0 && closing.fees.usd == 3.0
    ensures CloseSlice(lot, closing, 50).Ok?
    ensures var (rest, trade) := CloseSlice(lot, closing, 50).value;
      && rest.quantity == 50 && rest.amountUsd == -500.0 && rest.feesUsd == 2.5
      && trade.quantity == 50 && trade.profitUsd == 100.0 && trade.feesUsd == 5.5
  {
    ConsumeHalfExample(lot);
    assert Share(closing, 50) == 1.0;
  }
}
