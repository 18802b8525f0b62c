/**
 * One row of the broker's transaction history and the accessors that
 * validate and decode it (tastyworksTaxes/transaction.py).
 */
module Transactions {
  import opened Wrappers
  import opened Constants
  import opened Monetary
  import opened Positions

  /** A point in time: its calendar year and an ordered position within that year. */
  datatype DateTime = DateTime(year: int, tick: nat)

  predicate Before(a: DateTime, b: DateTime)
  {
    a.year < b.year || (a.year == b.year && a.tick < b.tick)
  }

  predicate AtOrBefore(a: DateTime, b: DateTime)
  {
    !Before(b, a)
  }

  /** A pair of integers found in a description by one of the split-ratio patterns. */
  datatype RatioPair = RatioPair(first: nat, second: nat)

  /**
   * The Description column. `Missing` is the NaN of an empty cell. Regular
   * expression matches are carried as decoded facts: whether the text quotes
   * an option symbol (six digits, C or P, eight digits), the first ratio pair
   * any split pattern finds, and whether it names a debit-interest period
   * ("FROM mm/dd THRU mm/dd @").
   */
  datatype Description =
    | Missing
    | Text(text: string, quotesOptionSymbol: bool, ratioPair: Option<RatioPair>, debitInterestPeriod: bool)

  /** The columns of one exported row that the engine reads. */
  datatype Row = Row(
    dateTime: DateTime,
    code: string,               // Transaction Code
    subcode: string,            // Transaction Subcode
    symbol: string,             // "" or "nan" when the cell is empty
    buySell: string,            // Buy/Sell
    openClose: string,          // Open/Close, "" when absent
    quantity: int,
    expiry: Option<DateTime>,   // Expiration Date
    strike: Option<real>,       // None when Strike is null
    callPut: string,            // Call/Put, "" when empty
    amount: real,               // Amount (usd)
    amountEuro: real,           // AmountEuro
    fees: real,                 // Fees (usd)
    feesEuro: real,             // FeesEuro
    description: Description)

  /** `part` occurs as a contiguous piece of `text`. */
  predicate Contains(text: string, part: string)
    decreases |text|
  {
    part <= text || (|text| > 0 && Contains(text[1..], part))
  }

  function LowerChar(c: char): char
  {
    if 'A' <= c <= 'Z' then (c as int - 'A' as int + 'a' as int) as char else c
  }

  function Lower(s: string): (r: string)
    ensures |r| == |s|
    ensures forall i :: 0 <= i < |s| ==> r[i] == LowerChar(s[i])
  {
    if s == [] then [] else [LowerChar(s[0])] + Lower(s[1..])
  }

  /** The year of the row, refused outside 2010..2100. */
  function GetYear(row: Row): (r: Result<int>)
    ensures r.Ok? <==> 2010 <= row.dateTime.year <= 2100
    ensures r.Ok? ==> r.value == row.dateTime.year
    ensures row.dateTime.year < 2010 ==> r == Err(YearTooEarly(row.dateTime.year))
    ensures row.dateTime.year > 2100 ==> r == Err(YearTooLate(row.dateTime.year))
  {
    var y := row.dateTime.year;
    if y < 2010 then Err(YearTooEarly(y))
    else if y > 2100 then Err(YearTooLate(y))
    else Ok(y)
  }

  /** The ticker, refused when the cell is empty or holds 'nan'. */
  function GetSymbol(row: Row): (r: Result<string>)
    ensures r.Ok? <==> row.symbol != "" && row.symbol != "nan"
    ensures r.Ok? ==> r.value == row.symbol
    ensures r.Err? ==> r.error == MissingSymbol
  {
    if row.symbol == "nan" || row.symbol == "" then Err(MissingSymbol) else Ok(row.symbol)
  }

  /** A stock row has a symbol and no strike; a missing symbol raises. */
  function IsStock(row: Row): (r: Result<bool>)
    ensures r.Err? <==> GetSymbol(row).Err?
    ensures r.Ok? ==> (r.value <==> row.strike.None?)
  {
    var _ :- GetSymbol(row);
    Ok(row.strike.None?)
  }

  /** Stock when there is no strike, otherwise the Call/Put letter decides. */
  function GetType(row: Row): (r: Result<PositionType>)
    ensures GetSymbol(row).Err? ==> r == Err(MissingSymbol)
    ensures GetSymbol(row).Ok? && row.strike.None? ==> r == Ok(Stock)
    ensures GetSymbol(row).Ok? && row.strike.Some? ==>
      r == (if row.callPut == "C" then Ok(Call) else if row.callPut == "P" then Ok(Put) else Err(UnknownPositionType))
  {
    var stock :- IsStock(row);
    if stock then Ok(Stock)
    else if row.callPut == "C" then Ok(Call)
    else if row.callPut == "P" then Ok(Put)
    else Err(UnknownPositionType)
  }

  /** An option trade: a put or call letter and one of the four open/close trade subcodes. */
  predicate IsOption(row: Row)
    ensures IsOption(row) ==> row.subcode != Assignment && row.subcode != Expiration
  {
    row.callPut in {"P", "C"} && row.subcode in {SellToOpen, BuyToOpen, SellToClose, BuyToClose}
  }

  /** The option test case by case: the four open/close trades of a put or a call, never an assignment or expiration. */
  lemma IsOptionTable(row: Row)
    ensures row.callPut != "P" && row.callPut != "C" ==> !IsOption(row)
    ensures row.callPut == "P" || row.callPut == "C" ==>
      (IsOption(row) <==>
        row.subcode == SellToOpen || row.subcode == BuyToOpen || row.subcode == SellToClose || row.subcode == BuyToClose)
    ensures row.subcode == Assignment || row.subcode == Expiration || row.subcode == ReverseSplit ==> !IsOption(row)
  {
  }

  /** Codes whose rows carry a quantity. */
  predicate IsTradeCode(code: string)
  {
    code == Trade || code == ReceiveDeliver
  }

  /** The sign a subcode gives to the unsigned Quantity column. */
  function QuantitySign(subcode: string, buySell: string): (r: Result<int>)
    ensures r.Ok? ==> r.value == 1 || r.value == -1
  {
    if subcode in {ReverseSplit, SymbolChange, StockMerger} then Ok(if buySell == "Buy" then 1 else -1)
    else if subcode in {BuyToOpen, BuyToClose, Assignment, Expiration} then Ok(1)
    else if subcode in {SellToOpen, SellToClose} then Ok(-1)
    else Err(UnknownSubcode(subcode))
  }

  /** The signed quantity of a Trade or Receive Deliver row. */
  function GetQuantity(row: Row): (r: Result<int>)
    ensures !IsTradeCode(row.code) ==> r == Err(UnexpectedCode(row.code))
    ensures IsTradeCode(row.code) ==> (r.Ok? <==> QuantitySign(row.subcode, row.buySell).Ok?)
    ensures r.Ok? ==> r.value == row.quantity || r.value == -row.quantity
  {
    if !IsTradeCode(row.code) then Err(UnexpectedCode(row.code))
    else
      var sign :- QuantitySign(row.subcode, row.buySell);
      Ok(sign * row.quantity)
  }

  /** The sign table of `GetQuantity`, subcode by subcode. */
  lemma GetQuantityTable(row: Row)
    requires IsTradeCode(row.code)
    ensures row.subcode in {BuyToOpen, BuyToClose, Assignment, Expiration} ==> GetQuantity(row) == Ok(row.quantity)
    ensures row.subcode in {SellToOpen, SellToClose} ==> GetQuantity(row) == Ok(-row.quantity)
    ensures row.subcode in {ReverseSplit, SymbolChange, StockMerger} ==>
      GetQuantity(row) == Ok(if row.buySell == "Buy" then row.quantity else -row.quantity)
    ensures row.subcode !in {BuyToOpen, BuyToClose, Assignment, Expiration, SellToOpen, SellToClose,
                             ReverseSplit, SymbolChange, StockMerger} ==>
      GetQuantity(row) == Err(UnknownSubcode(row.subcode))
  {
  }

  /** A row after a write, and the error the write raised part-way, if any. */
  datatype Written = Written(row: Row, failure: Option<Error>)

  /**
   * `setQuantity`: an expiry or assignment delivery keeps the signed value and
   * its subcode; any other row stores |q|, sets Buy/Sell from the sign and
   * rewrites the subcode from Open/Close. An Open/Close other than "Open" or
   * "Close" raises after the quantity and Buy/Sell have been written.
   */
  function WithQuantity(row: Row, q: int): (w: Written)
    ensures !IsTradeCode(row.code) ==> w == Written(row, Some(UnexpectedCode(row.code)))
    ensures w.failure.None? <==>
      IsTradeCode(row.code) &&
      ((row.code == ReceiveDeliver && row.subcode in {Assignment, Expiration}) || row.openClose in {Open, Close})
    ensures w.row.dateTime == row.dateTime && w.row.symbol == row.symbol && w.row.strike == row.strike
    ensures w.row.amount == row.amount && w.row.fees == row.fees && w.row.description == row.description
    ensures w.row.amountEuro == row.amountEuro && w.row.feesEuro == row.feesEuro
    ensures w.row.expiry == row.expiry && w.row.callPut == row.callPut
    ensures w.row.code == row.code && w.row.openClose == row.openClose
  {
    if !IsTradeCode(row.code) then Written(row, Some(UnexpectedCode(row.code)))
    else if row.code == ReceiveDeliver && row.subcode in {Assignment, Expiration} then
      Written(row.(quantity := q), None)
    else
      var side := if q < 0 then "Sell" else "Buy";
      var stored := row.(quantity := if q < 0 then -q else q, buySell := side);
      if stored.openClose == Open then Written(stored.(subcode := side + " to Open"), None)
      else if stored.openClose == Close then Written(stored.(subcode := side + " to Close"), None)
      else Written(stored, Some(UnexpectedOpenClose(stored.openClose)))
  }

  /** Reading back a quantity that was written gives the written value, zero and negatives included. */
  lemma SetThenGetQuantity(row: Row, q: int)
    requires WithQuantity(row, q).failure.None?
    ensures GetQuantity(WithQuantity(row, q).row) == Ok(q)
  {
    var w := WithQuantity(row, q).row;
    GetQuantityTable(w);
    if !(row.code == ReceiveDeliver && row.subcode in {Assignment, Expiration}) {
      WrittenSide(row, q);
    }
  }

  /** Outside an assignment or expiration, the written row stores the magnitude and the side's subcode. */
  lemma WrittenSide(row: Row, q: int)
    requires WithQuantity(row, q).failure.None?
    requires !(row.code == ReceiveDeliver && row.subcode in {Assignment, Expiration})
    ensures var w := WithQuantity(row, q).row;
      && w.code == row.code
      && w.quantity == (if q < 0 then -q else q)
      && (q < 0 ==> w.subcode in {SellToOpen, SellToClose})
      && (q >= 0 ==> w.subcode in {BuyToOpen, BuyToClose})
  {
    var side := if q < 0 then "Sell" else "Buy";
    if row.openClose == Open {
      assert side + " to Open" == if q < 0 then SellToOpen else BuyToOpen;
    } else {
      assert side + " to Close" == if q < 0 then SellToClose else BuyToClose;
    }
  }
  /** The transaction's value: `Amount` in usd and `AmountEuro` in eur. */
  function GetValue(row: Row): (m: Money)
    ensures m == FromRow(0.0, 0.0, Some(row.amount), Some(row.amountEuro))
    ensures WithValue(row, m) == row
  {
    Money(row.amountEuro, row.amount)
  }

  /** The transaction's fees: `Fees` in usd and `FeesEuro` in eur; writing them back changes nothing. */
  function GetFees(row: Row): (m: Money)
    ensures WithFees(row, m) == row
  {
    Money(row.feesEuro, row.fees)
  }

  function WithValue(row: Row, m: Money): (r: Row)
    ensures r.fees == row.fees && r.feesEuro == row.feesEuro && r.quantity == row.quantity
  {
    row.(amount := m.usd, amountEuro := m.eur)
  }

  function WithFees(row: Row, m: Money): (r: Row)
    ensures r.amount == row.amount && r.amountEuro == row.amountEuro && r.quantity == row.quantity
  {
    row.(fees := m.usd, feesEuro := m.eur)
  }

  lemma ValueRoundTrip(row: Row, m: Money)
    ensures GetValue(WithValue(row, m)) == m
    ensures GetFees(WithValue(row, m)) == GetFees(row)
  {
  }

  lemma FeesRoundTrip(row: Row, m: Money)
    ensures GetFees(WithFees(row, m)) == m
    ensures GetValue(WithFees(row, m)) == GetValue(row)
  {
  }

  /** A transaction whose row is edited in place by the setters. */
  class TransactionRecord {
    var row: Row

    constructor (r: Row)
      ensures row == r
    {
      row := r;
    }

    method SetQuantity(q: int) returns (failure: Option<Error>)
      modifies this
      ensures Written(row, failure) == WithQuantity(old(row), q)
    {
      if !IsTradeCode(row.code) {
        return Some(UnexpectedCode(row.code));
      }
      if row.code == ReceiveDeliver && row.subcode in {Assignment, Expiration} {
        row := row.(quantity := q);
        return None;
      }
      row := row.(quantity := if q < 0 then -q else q);
      row := row.(buySell := if q < 0 then "Sell" else "Buy");
      if row.openClose == Open {
        row := row.(subcode := row.buySell + " to Open");
        failure := None;
      } else if row.openClose == Close {
        row := row.(subcode := row.buySell + " to Close");
        failure := None;
      } else {
        failure := Some(UnexpectedOpenClose(row.openClose));
      }
    }

    method SetValue(m: Money)
      modifies this
      ensures row == WithValue(old(row), m)
    {
      row := row.(amount := m.usd);
      row := row.(amountEuro := m.eur);
    }

    method SetFees(m: Money)
      modifies this
      ensures row == WithFees(old(row), m)
    {
      row := row.(fees := m.usd);
      row := row.(feesEuro := m.eur);
    }
  }
}
