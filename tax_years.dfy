/**
 * The driver of the engine (tastyworksTaxes/tasty.py): money movements are
 * booked into per-year buckets, trades are fed to the position manager in
 * date order, realized trades are grouped by the year they closed, and each
 * year's record receives the trade fees and the aggregates of the report.
 */
module TaxYears {
  import opened Wrappers
  import C = Constants
  import opened Monetary
  import opened Transactions
  import opened Fifo
  import opened Manager
  import opened ManagerProperties
  import opened TradeCalculator
  import opened Sorting

  // ---- The per-year record --------------------------------------------------

  /** The fields of the per-year record that money movements add to. */
  datatype Bucket =
    | Withdrawal | Transfer | BalanceAdjustment | Fee | Deposit
    | CreditInterest | DebitInterest | Dividend | SecuritiesLendingIncome

  /** The fields `run` fills in from the year's realized trades. */
  datatype Report = Report(
    stockAndOptionsSum: Money,
    equityEtfGrossProfits: Money,
    equityEtfProfits: Money,
    otherStockAndBondProfits: Money,
    stockAndEtfLosses: Money,
    totalTaxableStockAndEtfProfits: Money,
    optionSum: Money,
    longOptionProfits: Money,
    longOptionLosses: Money,
    longOptionTotalLosses: Money,
    shortOptionProfits: Money,
    shortOptionLosses: Money,
    grossOptionDifferential: Money,
    stockFees: Money,
    otherFees: Money)

  /** One year's totals (`Values`), every field its own zero to start with. */
  datatype Values = Values(
    withdrawal: Money,
    transfer: Money,
    balanceAdjustment: Money,
    fee: Money,
    deposit: Money,
    creditInterest: Money,
    debitInterest: Money,
    dividend: Money,
    securitiesLendingIncome: Money,
    report: Report)

  const EmptyReport: Report :=
    Report(Zero, Zero, Zero, Zero, Zero, Zero, Zero, Zero, Zero, Zero, Zero, Zero, Zero, Zero, Zero)

  const EmptyValues: Values := Values(Zero, Zero, Zero, Zero, Zero, Zero, Zero, Zero, Zero, EmptyReport)

  function Get(v: Values, b: Bucket): Money
  {
    match b
    case Withdrawal => v.withdrawal
    case Transfer => v.transfer
    case BalanceAdjustment => v.balanceAdjustment
    case Fee => v.fee
    case Deposit => v.deposit
    case CreditInterest => v.creditInterest
    case DebitInterest => v.debitInterest
    case Dividend => v.dividend
    case SecuritiesLendingIncome => v.securitiesLendingIncome
  }

  /** `bucket += m`: that bucket grows by `m`, every other field stays. */
  function Credited(v: Values, b: Bucket, m: Money): (r: Values)
    ensures Get(r, b) == Add(Get(v, b), m)
    ensures forall c :: c != b ==> Get(r, c) == Get(v, c)
    ensures r.report == v.report
  {
    match b
    case Withdrawal => v.(withdrawal := Add(v.withdrawal, m))
    case Transfer => v.(transfer := Add(v.transfer, m))
    case BalanceAdjustment => v.(balanceAdjustment := Add(v.balanceAdjustment, m))
    case Fee => v.(fee := Add(v.fee, m))
    case Deposit => v.(deposit := Add(v.deposit, m))
    case CreditInterest => v.(creditInterest := Add(v.creditInterest, m))
    case DebitInterest => v.(debitInterest := Add(v.debitInterest, m))
    case Dividend => v.(dividend := Add(v.dividend, m))
    case SecuritiesLendingIncome => v.(securitiesLendingIncome := Add(v.securitiesLendingIncome, m))
  }

  /** `year(y)`: the year's record, created empty the first time it is asked for. */
  function WithYear(years: map<int, Values>, y: int): (r: map<int, Values>)
    ensures y in r && r.Keys == years.Keys + {y}
    ensures y in years ==> r == years
    ensures y !in years ==> r[y] == EmptyValues
    ensures forall z :: z in years && z != y ==> r[z] == years[z]
  {
    if y in years then years else years[y := EmptyValues]
  }

  /** Asking for a year twice is asking once: the record made the first time is the one returned. */
  lemma WithYearOnce(years: map<int, Values>, y: int)
    ensures WithYear(WithYear(years, y), y) == WithYear(years, y)
    ensures y in years ==> WithYear(years, y)[y] == years[y]
  {
  }

  // ---- Routing of money movements -------------------------------------------

  const WireFundsReceived: string := "Wire Funds Received"
  const InterestOnCreditBalance: string := "INTEREST ON CREDIT BALANCE"

  /**
   * The bucket a money movement goes to. A withdrawal that is an incoming
   * wire is a deposit and one that names an interest period is debit
   * interest; a deposit described as credit-balance interest is credit
   * interest; a withdrawal without a description is a withdrawal.
   */
  function MovementBucket(subcode: string, description: Description): (r: Result<Bucket>)
    ensures r.Err? <==> subcode !in MovementSubcodes
    ensures r.Err? ==> r.error == UnknownMoneyMovement(subcode)
  {
    if subcode == C.Transfer then Ok(Transfer)
    else if subcode == C.Withdrawal then
      match description
      case Missing => Ok(Withdrawal)
      case Text(text, _, _, debitInterestPeriod) =>
        if Contains(text, WireFundsReceived) then Ok(Deposit)
        else if debitInterestPeriod then Ok(DebitInterest)
        else Ok(Withdrawal)
    else if subcode == C.BalanceAdjustment then Ok(BalanceAdjustment)
    else if subcode == C.Fee then Ok(Fee)
    else if subcode == C.Deposit then
      if description.Text? && description.text == InterestOnCreditBalance then Ok(CreditInterest) else Ok(Deposit)
    else if subcode == C.CreditInterest then Ok(CreditInterest)
    else if subcode == C.DebitInterest then Ok(DebitInterest)
    else if subcode == C.Dividend then Ok(Dividend)
    else if subcode == C.StockLending then Ok(SecuritiesLendingIncome)
    else Err(UnknownMoneyMovement(subcode))
  }

  /** The money-movement subcodes the match statement names. */
  const MovementSubcodes: set<string> :=
    {C.Transfer, C.Withdrawal, C.BalanceAdjustment, C.Fee, C.Deposit,
     C.CreditInterest, C.DebitInterest, C.Dividend, C.StockLending}

  /**
   * The routing as written: searching a missing (NaN) description for the
   * wire text raises a TypeError, and the record class declares no
   * `securitiesLendingIncome` field, so `+=` on it raises an AttributeError.
   */
  function MovementBucketAsWritten(subcode: string, description: Description): (r: Result<Bucket>)
    ensures r.Ok? ==> r == MovementBucket(subcode, description)
    ensures MovementBucket(subcode, description).Err? ==> r.Err?
  {
    if subcode == C.Withdrawal && description.Missing? then Err(DescriptionNotText)
    else if subcode == C.StockLending then Err(MissingAttribute("securitiesLendingIncome"))
    else MovementBucket(subcode, description)
  }

  /** As written, a withdrawal with an empty description and any lending income raise. */
  lemma AsWrittenRaisesOnNaNWithdrawalAndLendingIncome(description: Description)
    ensures MovementBucketAsWritten(C.Withdrawal, Missing) == Err(DescriptionNotText)
    ensures MovementBucketAsWritten(C.StockLending, description) == Err(MissingAttribute("securitiesLendingIncome"))
  {
  }

  /** The corrected routing books both, and agrees with the code everywhere else. */
  lemma CorrectedRoutingBooksThem(subcode: string, description: Description)
    ensures MovementBucket(C.Withdrawal, Missing) == Ok(Withdrawal)
    ensures MovementBucket(C.StockLending, description) == Ok(SecuritiesLendingIncome)
    ensures !(subcode == C.Withdrawal && description.Missing?) && subcode != C.StockLending ==>
      MovementBucketAsWritten(subcode, description) == MovementBucket(subcode, description)
  {
  }

  /** The routing table, one subcode at a time. */
  lemma MovementRouting(subcode: string, description: Description)
    ensures subcode == C.Withdrawal && description.Text? ==>
      MovementBucket(subcode, description) ==
        if Contains(description.text, WireFundsReceived) then Ok(Deposit)
        else if description.debitInterestPeriod then Ok(DebitInterest)
        else Ok(Withdrawal)
    ensures subcode == C.Deposit ==>
      (MovementBucket(subcode, description) == Ok(CreditInterest) <==>
        description.Text? && description.text == InterestOnCreditBalance)
    ensures subcode == C.Deposit ==> MovementBucket(subcode, description) in {Ok(CreditInterest), Ok(Deposit)}
    ensures subcode == C.Transfer ==> MovementBucket(subcode, description) == Ok(Transfer)
    ensures subcode == C.CreditInterest ==> MovementBucket(subcode, description) == Ok(CreditInterest)
    ensures subcode == C.DebitInterest ==> MovementBucket(subcode, description) == Ok(DebitInterest)
  {
  }

  /**
   * `moneyMovement`: the year is read first (and may raise), then its record
   * is created if new, then the row's value is added to one bucket. An
   * unknown subcode raises after the record was created.
   */
  function BookMovement(years: map<int, Values>, row: Row): (r: (map<int, Values>, Option<Error>))
    ensures GetYear(row).Err? ==> r.0 == years && r.1.Some?
    ensures r.1.None? <==> GetYear(row).Ok? && MovementBucket(row.subcode, row.description).Ok?
    ensures years.Keys <= r.0.Keys <= years.Keys + {row.dateTime.year}
    ensures forall z :: z in years && z != row.dateTime.year ==> r.0[z] == years[z]
  {
    match GetYear(row)
    case Err(e) => (years, Some(e))
    case Ok(y) =>
      var withYear := WithYear(years, y);
      match MovementBucket(row.subcode, row.description)
      case Err(e) => (withYear, Some(e))
      case Ok(b) => (withYear[y := Credited(withYear[y], b, GetValue(row))], None)
  }

  /**
   * A movement in a year the record accepts, routed to bucket `b`, is booked
   * without failure; the year gets a record and every other year keeps its own.
   */
  lemma BookMovementKeepsOtherYears(years: map<int, Values>, row: Row, b: Bucket)
    requires 2010 <= row.dateTime.year <= 2100 && MovementBucket(row.subcode, row.description) == Ok(b)
    ensures BookMovement(years, row).1.None?
    ensures BookMovement(years, row).0.Keys == years.Keys + {row.dateTime.year}
    ensures forall z :: z in years && z != row.dateTime.year ==> BookMovement(years, row).0[z] == years[z]
  {
    var y := row.dateTime.year;
    BookedAs(years, row, y, b);
    var withYear := WithYear(years, y);
    Overwritten(withYear, y, Credited(withYear[y], b, GetValue(row)));
  }

  /** Overwriting a key that is present keeps the key set and every other entry. */
  lemma Overwritten<K, V>(m: map<K, V>, k: K, v: V)
    requires k in m
    ensures m[k := v].Keys == m.Keys
    ensures forall z :: z in m && z != k ==> m[k := v][z] == m[z]
  {
  }

  /** Within the year, the movement changes bucket `b` by the row's value and nothing else. */
  lemma BookMovementTouchesOneBucket(years: map<int, Values>, row: Row, b: Bucket)
    requires 2010 <= row.dateTime.year <= 2100 && MovementBucket(row.subcode, row.description) == Ok(b)
    ensures var y := row.dateTime.year;
      var after := BookMovement(years, row).0[y];
      var before := if y in years then years[y] else EmptyValues;
      && Get(after, b) == Add(Get(before, b), GetValue(row))
      && (forall c :: c != b ==> Get(after, c) == Get(before, c))
      && after.report == before.report
  {
    var y := row.dateTime.year;
    BookedAs(years, row, y, b);
    var before := if y in years then years[y] else EmptyValues;
    assert WithYear(years, y)[y] == before;
    assert BookMovement(years, row).0[y] == Credited(before, b, GetValue(row));
  }

  lemma BookedAs(years: map<int, Values>, row: Row, y: int, b: Bucket)
    requires GetYear(row) == Ok(y) && MovementBucket(row.subcode, row.description) == Ok(b)
    ensures BookMovement(years, row) == (WithYear(years, y)[y := Credited(WithYear(years, y)[y], b, GetValue(row))], None)
  {
  }

  /** A year outside 2010..2100 or an unknown subcode raises; the first leaves the records alone. */
  lemma BookMovementFailures(years: map<int, Values>, row: Row)
    ensures GetYear(row).Err? ==> BookMovement(years, row) == (years, Some(GetYear(row).error))
    ensures GetYear(row).Ok? && row.subcode !in MovementSubcodes ==>
      BookMovement(years, row) == (WithYear(years, row.dateTime.year), Some(UnknownMoneyMovement(row.subcode)))
  {
  }

  // ---- Processing the history -----------------------------------------------

  /** Everything the driver accumulates: the per-year records and the manager's state. */
  datatype Books = Books(years: map<int, Values>, positions: State)

  /** One row: a money movement is booked, a trade or delivery goes to the manager, anything else is skipped. */
  function ApplyRow(books: Books, row: Row): (Books, Option<Error>)
  {
    if row.code == C.MoneyMovement then
      var (years, failure) := BookMovement(books.years, row);
      (books.(years := years), failure)
    else if IsTradeCode(row.code) then
      var step := AddPositionSpec(books.positions, row);
      (books.(positions := step.state), step.failure)
    else (books, None)
  }

  /** The rows in order, stopping at the first one that raises. */
  function ApplyRows(books: Books, rows: seq<Row>): (r: (Books, Option<Error>))
    ensures books.years.Keys <= r.0.years.Keys
    ensures rows == [] ==> r == (books, None)
    decreases |rows|
  {
    if rows == [] then (books, None)
    else
      var (next, failure) := ApplyRow(books, rows[0]);
      if failure.Some? then (next, failure) else ApplyRows(next, rows[1..])
  }

  function RowDate(row: Row): DateTime
  {
    row.dateTime
  }

  /** Processing two stretches of history is processing the first, then the second unless the first raised. */
  lemma {:induction false} ApplyRowsAppend(books: Books, a: seq<Row>, b: seq<Row>)
    ensures ApplyRows(books, a + b) ==
      var (mid, failure) := ApplyRows(books, a);
      if failure.Some? then (mid, failure) else ApplyRows(mid, b)
    decreases |a|
  {
    if a == [] {
      assert a + b == b;
    } else {
      assert (a + b)[0] == a[0];
      assert (a + b)[1..] == a[1..] + b;
      var (next, failure) := ApplyRow(books, a[0]);
      if failure.None? {
        ApplyRowsAppend(next, a[1..], b);
      }
    }
  }

  /** Rows of any other code are skipped: they change nothing. */
  lemma {:induction false} IgnoredRowsChangeNothing(books: Books, rows: seq<Row>)
    requires forall i :: 0 <= i < |rows| ==> rows[i].code != C.MoneyMovement && !IsTradeCode(rows[i].code)
    ensures ApplyRows(books, rows) == (books, None)
    decreases |rows|
  {
    if rows != [] {
      IgnoredRowsChangeNothing(books, rows[1..]);
    }
  }

  /** The realized trades only grow: whatever the rows do, the earlier ledger is a prefix of the later one. */
  lemma {:induction false} ApplyRowsExtendsLedger(books: Books, rows: seq<Row>)
    ensures var after := ApplyRows(books, rows).0.positions.trades;
      |books.positions.trades| <= |after| && after[..|books.positions.trades|] == books.positions.trades
    decreases |rows|
  {
    if rows != [] {
      var row := rows[0];
      if IsTradeCode(row.code) && row.code != C.MoneyMovement {
        AddPositionAppendsTrades(books.positions, row);
      }
      var (next, failure) := ApplyRow(books, row);
      if failure.None? {
        ApplyRowsExtendsLedger(next, rows[1..]);
      }
    }
  }

  /** The history is taken in ascending date order, rows of one date in their file order, none lost. */
  lemma ChronologicalHistory(history: seq<Row>, d: DateTime)
    ensures SortedBy(SortBy(history, RowDate), RowDate)
    ensures multiset(SortBy(history, RowDate)) == multiset(history)
    ensures WithDate(SortBy(history, RowDate), RowDate, d) == WithDate(history, RowDate, d)
  {
    SortByIsStable(history, RowDate, d);
  }

  // ---- Trades by closing year -----------------------------------------------

  function ClosingYear(t: TradeResult): int
  {
    t.closingDate.year
  }

  /** `getYearlyTrades`: each realized trade appended to the list of the year it closed in. */
  function TradesByYear(trades: seq<TradeResult>): (r: map<int, seq<TradeResult>>)
    ensures forall y :: y in r ==> r[y] != [] && forall i :: 0 <= i < |r[y]| ==> ClosingYear(r[y][i]) == y
  {
    if trades == [] then map[]
    else
      var grouped := TradesByYear(trades[..|trades| - 1]);
      var t := trades[|trades| - 1];
      var y := ClosingYear(t);
      grouped[y := (if y in grouped then grouped[y] else []) + [t]]
  }

  /** The trades of one closing year, in ledger order. */
  function ClosedIn(trades: seq<TradeResult>, y: int): seq<TradeResult>
  {
    Where(trades, t => ClosingYear(t) == y)
  }

  /** The years of the grouping are exactly the closing years that occur; with no trades there are none. */
  lemma {:induction false} TradesByYearKeys(trades: seq<TradeResult>)
    ensures trades == [] ==> TradesByYear(trades) == map[]
    ensures forall y :: y in TradesByYear(trades) <==> exists i :: 0 <= i < |trades| && ClosingYear(trades[i]) == y
  {
    if trades != [] {
      var init := trades[..|trades| - 1];
      TradesByYearKeys(init);
      forall y
        ensures y in TradesByYear(trades) <==> exists i :: 0 <= i < |trades| && ClosingYear(trades[i]) == y
      {
        if y in TradesByYear(init) {
          var i :| 0 <= i < |init| && ClosingYear(init[i]) == y;
          assert trades[i] == init[i];
        }
        if exists i :: 0 <= i < |trades| && ClosingYear(trades[i]) == y {
          var i :| 0 <= i < |trades| && ClosingYear(trades[i]) == y;
          if i < |init| {
            assert init[i] == trades[i];
          }
        }
      }
    }
  }

  /** Each year's list holds exactly the trades that closed in that year, in ledger order, and is not empty. */
  lemma {:induction false} TradesByYearLists(trades: seq<TradeResult>)
    ensures forall y :: y in TradesByYear(trades) ==> TradesByYear(trades)[y] == ClosedIn(trades, y) != []
  {
    if trades != [] {
      var init := trades[..|trades| - 1];
      var t := trades[|trades| - 1];
      TradesByYearLists(init);
      var grouped := TradesByYear(init);
      assert trades == init + [t];
      forall y | y in TradesByYear(trades)
        ensures TradesByYear(trades)[y] == ClosedIn(trades, y)
        ensures ClosedIn(trades, y) != []
      {
        WhereSnoc(init, t, u => ClosingYear(u) == y);
        if y == ClosingYear(t) && y !in grouped {
          TradesByYearKeys(init);
          forall u | u in init
            ensures ClosingYear(u) != y
          {
            var i :| 0 <= i < |init| && init[i] == u;
          }
          WhereNone(init, u => ClosingYear(u) == y);
        }
      }
    }
  }

  // ---- The report -----------------------------------------------------------

  /** The report fields `run` computes from one year's trades. */
  function YearReport(trades: seq<TradeResult>): Report
  {
    ReportWith(trades, GrossEquityEtf(trades), TaxableEquityEtf(trades), OtherStockAndBond(trades))
  }

  /** The report, given the three ETF sums that `run` obtains from their loops. */
  function ReportWith(trades: seq<TradeResult>, gross: Money, equityEtf: Money, otherStock: Money): Report
  {
    Report(
      CombinedSum(trades),
      gross,
      equityEtf,
      otherStock,
      StockLoss(trades),
      Money(equityEtf.eur + otherStock.eur, equityEtf.usd + otherStock.usd),
      OptionSum(trades),
      LongOptionProfits(trades),
      LongOptionLosses(trades),
      LongOptionTotalLosses(trades),
      ShortOptionProfits(trades),
      ShortOptionLosses(trades),
      OptionDifferential(trades),
      Neg(StockFees(trades)),
      Neg(OtherFees(trades)))
  }

  function TradesOfYear(byYear: map<int, seq<TradeResult>>, y: int): seq<TradeResult>
  {
    if y in byYear then byYear[y] else []
  }

  /** The first pass of `run`: the fee bucket takes minus the fees of the year's trades. */
  function FeeRolled(v: Values, trades: seq<TradeResult>): Values
  {
    v.(fee := Add(v.fee, Neg(FeesSum(trades))))
  }

  /** One year's record after `run`: the fee rolled up, then the report set. */
  function Finalized(v: Values, trades: seq<TradeResult>): Values
  {
    WithReport(FeeRolled(v, trades), trades)
  }

  /** The first loop of `run`, over every year that has a record. */
  function FeesRolled(years: map<int, Values>, byYear: map<int, seq<TradeResult>>): map<int, Values>
  {
    map y | y in years :: FeeRolled(years[y], TradesOfYear(byYear, y))
  }

  /** One year's record with its report set from the year's trades. */
  function WithReport(v: Values, trades: seq<TradeResult>): Values
  {
    v.(report := YearReport(trades))
  }

  /** The second loop of `run`, over every year that has a record. */
  function ReportsFilled(years: map<int, Values>, byYear: map<int, seq<TradeResult>>): map<int, Values>
  {
    map y | y in years :: WithReport(years[y], TradesOfYear(byYear, y))
  }

  /** What `run` returns once the history is processed: exactly the years that have a record. */
  function Reported(years: map<int, Values>, trades: seq<TradeResult>): (r: map<int, Values>)
    ensures r.Keys == years.Keys
  {
    var byYear := TradesByYear(trades);
    ReportsFilled(FeesRolled(years, byYear), byYear)
  }

  lemma Filled(before: map<int, Values>, after: map<int, Values>, byYear: map<int, seq<TradeResult>>)
    requires after.Keys == before.Keys
    requires forall y :: y in before ==> after[y] == WithReport(before[y], TradesOfYear(byYear, y))
    ensures after == ReportsFilled(before, byYear)
  {
  }

  /** The trades `run` reports for a year are the trades that closed in it. */
  lemma TradesOfYearIsClosedIn(trades: seq<TradeResult>, y: int)
    ensures TradesOfYear(TradesByYear(trades), y) == ClosedIn(trades, y)
  {
    TradesByYearKeys(trades);
    TradesByYearLists(trades);
    if y !in TradesByYear(trades) {
      forall u | u in trades
        ensures ClosingYear(u) != y
      {
        var i :| 0 <= i < |trades| && trades[i] == u;
      }
      WhereNone(trades, u => ClosingYear(u) == y);
    }
  }

  /** A year's fee bucket drops by the fees of its trades; the other buckets stay as they were. */
  lemma FinalizedFee(v: Values, closed: seq<TradeResult>)
    ensures Finalized(v, closed).fee == Sub(v.fee, FeesSum(closed))
    ensures forall b :: b != Fee ==> Get(Finalized(v, closed), b) == Get(v, b)
  {
  }

  /** The reported stock fees and option fees add up to minus all the year's fees. */
  lemma ReportedFeesAddUp(closed: seq<TradeResult>)
    ensures Add(YearReport(closed).stockFees, YearReport(closed).otherFees) == Neg(FeesSum(closed))
  {
    var stock := StockFees(closed);
    var other := OtherFees(closed);
    ReportedFees(closed);
    FeesSplit(closed);
    assert Add(Neg(stock), Neg(other)) == Neg(Add(stock, other));
  }

  lemma ReportedFees(closed: seq<TradeResult>)
    ensures YearReport(closed).stockFees == Neg(StockFees(closed))
    ensures YearReport(closed).otherFees == Neg(OtherFees(closed))
  {
  }

  /** The report covers exactly the years that have a record, each finalized with the trades that closed in it. */
  lemma ReportedYears(years: map<int, Values>, trades: seq<TradeResult>)
    ensures Reported(years, trades).Keys == years.Keys
    ensures forall y :: y in years ==> Reported(years, trades)[y] == Finalized(years[y], ClosedIn(trades, y))
  {
    forall y | y in years
      ensures Reported(years, trades)[y] == Finalized(years[y], ClosedIn(trades, y))
    {
      TradesOfYearIsClosedIn(trades, y);
    }
  }

  /** The report fields of one year, with the three ETF aggregates computed by their loops. */
  method ComputeReport(trades: seq<TradeResult>) returns (report: Report)
    ensures report == YearReport(trades)
  {
    var gross := CalculateGrossEquityEtfProfits(trades);
    var equityEtf := CalculateEquityEtfProfits(trades);
    var otherStock := CalculateOtherStockAndBondProfits(trades);
    report := ReportWith(trades, gross, equityEtf, otherStock);
  }

  // ---- The driver object ----------------------------------------------------

  /**
   * `Tasty`: the loaded history, the per-year records and the position
   * manager. Loading the file is not part of the model: the rows are given.
   */
  class Tasty {
    var yearValues: map<int, Values>
    const history: seq<Row>
    const positionManager: PositionManager

    function Abstract(): Books
      reads this, positionManager
    {
      Books(yearValues, positionManager.Abstract())
    }

    constructor (rows: seq<Row>)
      ensures history == rows && yearValues == map[]
      ensures fresh(positionManager) && positionManager.Abstract() == State(map[], [], None)
    {
      history := rows;
      yearValues := map[];
      positionManager := new PositionManager();
    }

    /** `year`: the record of year `y`, created empty if there was none. */
    method Year(y: int) returns (v: Values)
      modifies this
      ensures yearValues == WithYear(old(yearValues), y) && v == yearValues[y]
    {
      if y !in yearValues {
        yearValues := yearValues[y := EmptyValues];
      }
      v := yearValues[y];
    }

    method MoneyMovement(row: Row) returns (failure: Option<Error>)
      modifies this
      ensures (yearValues, failure) == BookMovement(old(yearValues), row)
    {
      var year := GetYear(row);
      if year.Err? {
        return Some(year.error);
      }
      var values := Year(year.value);
      var bucket := MovementBucket(row.subcode, row.description);
      if bucket.Err? {
        return Some(bucket.error);
      }
      yearValues := yearValues[year.value := Credited(values, bucket.value, GetValue(row))];
      failure := None;
    }

    /** `processTransactionHistory`: the rows in stable date order, until one raises. */
    method ProcessTransactionHistory() returns (failure: Option<Error>)
      modifies this, positionManager
      ensures (Abstract(), failure) == ApplyRows(old(Abstract()), SortBy(history, RowDate))
    {
      var rows := SortBy(history, RowDate);
      for i := 0 to |rows|
        invariant ApplyRows(old(Abstract()), rows) == ApplyRows(Abstract(), rows[i..])
      {
        var row := rows[i];
        var rowFailure := None;
        if row.code == C.MoneyMovement {
          rowFailure := MoneyMovement(row);
        } else if IsTradeCode(row.code) {
          rowFailure := positionManager.AddPosition(row);
        }
        assert rows[i..][1..] == rows[i + 1..];
        if rowFailure.Some? {
          return rowFailure;
        }
      }
      failure := None;
    }

    /** `getYearlyTrades`. */
    method GetYearlyTrades() returns (byYear: map<int, seq<TradeResult>>)
      ensures byYear == TradesByYear(positionManager.closedTrades)
    {
      var trades := positionManager.closedTrades;
      byYear := map[];
      for i := 0 to |trades|
        invariant byYear == TradesByYear(trades[..i])
      {
        assert trades[..i + 1][..i] == trades[..i];
        var y := ClosingYear(trades[i]);
        var list := if y in byYear then byYear[y] else [];
        byYear := byYear[y := list + [trades[i]]];
      }
      assert trades[..|trades|] == trades;
    }

    /** The first loop of `run`: each year's fee takes minus the fees of the trades closed in it. */
    method RollUpFees(byYear: map<int, seq<TradeResult>>)
      modifies this
      ensures yearValues == FeesRolled(old(yearValues), byYear)
    {
      var start := yearValues;
      var keys := start.Keys;
      var todo := keys;
      var values := start;
      while todo != {}
        invariant todo <= keys && values.Keys == keys
        invariant forall y :: y in todo ==> values[y] == start[y]
        invariant forall y :: y in keys - todo ==> values[y] == FeeRolled(start[y], TradesOfYear(byYear, y))
        decreases |todo|
      {
        var y := Pick(todo);
        var fees := Zero;
        if y in byYear {
          fees := Neg(FeesSum(byYear[y]));
        }
        values := values[y := values[y].(fee := Add(values[y].fee, fees))];
        todo := todo - {y};
      }
      yearValues := values;
    }

    /** The second loop of `run`: each year's report from the trades closed in it. */
    method FillReports(byYear: map<int, seq<TradeResult>>)
      modifies this
      ensures yearValues == ReportsFilled(old(yearValues), byYear)
    {
      var start := yearValues;
      var keys := start.Keys;
      var todo := keys;
      var values := start;
      while todo != {}
        invariant todo <= keys && values.Keys == keys
        invariant forall y :: y in todo ==> values[y] == start[y]
        invariant forall y :: y in keys - todo ==> values[y] == WithReport(start[y], TradesOfYear(byYear, y))
        decreases |todo|
      {
        var y := Pick(todo);
        var report := ComputeReport(TradesOfYear(byYear, y));
        assert values[y].(report := report) == WithReport(start[y], TradesOfYear(byYear, y));
        values := values[y := values[y].(report := report)];
        todo := todo - {y};
      }
      Filled(start, values, byYear);
      yearValues := values;
    }

    /** `run`: process the history, roll the trade fees into each year's fee, and fill in each year's report. */
    method Run() returns (failure: Option<Error>, ret: map<int, Values>)
      modifies this, positionManager
      ensures failure.Some? ==> (Abstract(), failure) == ApplyRows(old(Abstract()), SortBy(history, RowDate))
      ensures failure.None? ==>
        var processed := ApplyRows(old(Abstract()), SortBy(history, RowDate)).0;
        && positionManager.Abstract() == processed.positions
        && ret == yearValues == Reported(processed.years, processed.positions.trades)
    {
      ret := map[];
      failure := ProcessTransactionHistory();
      if failure.Some? {
        return;
      }
      var byYear := GetYearlyTrades();
      RollUpFees(byYear);
      FillReports(byYear);
      ret := yearValues;
    }
  }
}
