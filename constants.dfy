/** Transaction codes and subcodes of the broker export (tastyworksTaxes/constants.py). */
module Constants {

  const BuyToOpen: string := "Buy to Open"
  const SellToOpen: string := "Sell to Open"
  const BuyToClose: string := "Buy to Close"
  const SellToClose: string := "Sell to Close"
  const Assignment: string := "Assignment"
  const Expiration: string := "Expiration"
  const ReverseSplit: string := "Reverse Split"
  const SymbolChange: string := "Symbol Change"
  const StockMerger: string := "Stock Merger"

  const Trade: string := "Trade"
  const ReceiveDeliver: string := "Receive Deliver"
  const MoneyMovement: string := "Money Movement"

  const Open: string := "Open"
  const Close: string := "Close"

  const Transfer: string := "Transfer"
  const Withdrawal: string := "Withdrawal"
  const BalanceAdjustment: string := "Balance Adjustment"
  const Fee: string := "Fee"
  const Deposit: string := "Deposit"
  const CreditInterest: string := "Credit Interest"
  const DebitInterest: string := "Debit Interest"
  const Dividend: string := "Dividend"
  const StockLending: string := "Fully Paid Stock Lending Income"

  /** The subcodes that always close a position. */
  const ClosingSubcodes: set<string> := {Assignment, Expiration, BuyToClose, SellToClose}
}
