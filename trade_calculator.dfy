/**
 * The reductions over the ledger of realized trades
 * (tastyworksTaxes/trade_calculator.py): filters that keep the trades
 * satisfying one test, sums of profits, fees or net profits, and the
 * aggregates the tax report is built from, including the partial exemption
 * of equity ETFs.
 */
module TradeCalculator {
  import opened Monetary
  import opened Positions
  import opened Fifo
  import opened AssetDefinitions
  import opened AssetClassifier

  // ---- Filters --------------------------------------------------------------

  /** The trades that pass `keep`, in their order. */
  function Where(trades: seq<TradeResult>, keep: TradeResult -> bool): (r: seq<TradeResult>)
    ensures |r| <= |trades|
  {
    if trades == [] then []
    else Where(trades[..|trades| - 1], keep) + (if keep(trades[|trades| - 1]) then [trades[|trades| - 1]] else [])
  }

  /** A filter keeps exactly the trades that pass its test. */
  lemma {:induction false} WhereMembers(trades: seq<TradeResult>, keep: TradeResult -> bool, t: TradeResult)
    ensures t in Where(trades, keep) <==> t in trades && keep(t)
  {
    if trades != [] {
      var init := trades[..|trades| - 1];
      WhereMembers(init, keep, t);
      assert trades == init + [trades[|trades| - 1]];
    }
  }

  /** A filter keeps every copy of a passing trade and no copy of any other. */
  lemma {:induction false} WhereCount(trades: seq<TradeResult>, keep: TradeResult -> bool, t: TradeResult)
    ensures multiset(Where(trades, keep))[t] == if keep(t) then multiset(trades)[t] else 0
  {
    if trades != [] {
      var init := trades[..|trades| - 1];
      WhereCount(init, keep, t);
      assert trades == init + [trades[|trades| - 1]];
    }
  }

  lemma WhereExactly(trades: seq<TradeResult>, keep: TradeResult -> bool)
    ensures forall t :: t in Where(trades, keep) <==> t in trades && keep(t)
  {
    forall t {
      WhereMembers(trades, keep, t);
    }
  }

  predicate IsOptionTrade(t: TradeResult) { t.positionType == Call || t.positionType == Put }
  predicate IsStockTrade(t: TradeResult) { t.positionType == Stock }
  predicate IsProfitable(t: TradeResult) { t.profitEur > 0.0 }
  predicate IsLoss(t: TradeResult) { t.profitEur <= 0.0 }
  predicate IsLong(t: TradeResult) { t.quantity > 0 }
  predicate IsShort(t: TradeResult) { t.quantity < 0 }
  predicate IsWorthlessExpiry(t: TradeResult) { t.worthlessExpiry }
  predicate IsNotWorthlessExpiry(t: TradeResult) { !t.worthlessExpiry }

  /** `get_option_trades` and its seven siblings: the trades that pass each test, in order. */
  function OptionTrades(trades: seq<TradeResult>): (r: seq<TradeResult>)
    ensures |r| <= |trades|
    ensures forall t :: t in r <==> t in trades && IsOptionTrade(t)
  {
    WhereExactly(trades, IsOptionTrade);
    Where(trades, IsOptionTrade)
  }

  function StockTrades(trades: seq<TradeResult>): (r: seq<TradeResult>)
    ensures |r| <= |trades|
    ensures forall t :: t in r <==> t in trades && IsStockTrade(t)
  {
    WhereExactly(trades, IsStockTrade);
    Where(trades, IsStockTrade)
  }

  function ProfitableTrades(trades: seq<TradeResult>): (r: seq<TradeResult>)
    ensures |r| <= |trades|
    ensures forall t :: t in r <==> t in trades && IsProfitable(t)
  {
    WhereExactly(trades, IsProfitable);
    Where(trades, IsProfitable)
  }

  function LossTrades(trades: seq<TradeResult>): (r: seq<TradeResult>)
    ensures |r| <= |trades|
    ensures forall t :: t in r <==> t in trades && IsLoss(t)
  {
    WhereExactly(trades, IsLoss);
    Where(trades, IsLoss)
  }

  function LongTrades(trades: seq<TradeResult>): (r: seq<TradeResult>)
    ensures |r| <= |trades|
    ensures forall t :: t in r <==> t in trades && IsLong(t)
  {
    WhereExactly(trades, IsLong);
    Where(trades, IsLong)
  }

  function ShortTrades(trades: seq<TradeResult>): (r: seq<TradeResult>)
    ensures |r| <= |trades|
    ensures forall t :: t in r <==> t in trades && IsShort(t)
  {
    WhereExactly(trades, IsShort);
    Where(trades, IsShort)
  }

  function WorthlessExpiryTrades(trades: seq<TradeResult>): (r: seq<TradeResult>)
    ensures |r| <= |trades|
    ensures forall t :: t in r <==> t in trades && IsWorthlessExpiry(t)
  {
    WhereExactly(trades, IsWorthlessExpiry);
    Where(trades, IsWorthlessExpiry)
  }

  function NonWorthlessExpiryTrades(trades: seq<TradeResult>): (r: seq<TradeResult>)
    ensures |r| <= |trades|
    ensures forall t :: t in r <==> t in trades && IsNotWorthlessExpiry(t)
  {
    WhereExactly(trades, IsNotWorthlessExpiry);
    Where(trades, IsNotWorthlessExpiry)
  }

  // ---- Sums -----------------------------------------------------------------

  /** The sum of `value` over the trades; `Money()` for none. */
  function Total(trades: seq<TradeResult>, value: TradeResult -> Money): Money
  {
    if trades == [] then Zero
    else Add(Total(trades[..|trades| - 1], value), value(trades[|trades| - 1]))
  }

  function Profit(t: TradeResult): Money { Money(t.profitEur, t.profitUsd) }
  function Fees(t: TradeResult): Money { Money(t.feesEur, t.feesUsd) }
  /** Profit net of fees, per currency. */
  function Net(t: TradeResult): Money { Money(t.profitEur - t.feesEur, t.profitUsd - t.feesUsd) }

  /** `sum_money_from_trades`: all gains give a gain, all losses a loss. */
  function SumMoney(trades: seq<TradeResult>): (r: Money)
    ensures trades == [] ==> r == Zero
    ensures (forall t :: t in trades ==> t.profitEur >= 0.0) ==> r.eur >= 0.0
    ensures (forall t :: t in trades ==> t.profitEur <= 0.0) ==> r.eur <= 0.0
  {
    TotalEurSign(trades, Profit);
    Total(trades, Profit)
  }

  /** `sum_fees_from_trades`: fees that are never negative sum to a non-negative amount. */
  function SumFees(trades: seq<TradeResult>): (r: Money)
    ensures trades == [] ==> r == Zero
    ensures (forall t :: t in trades ==> t.feesEur >= 0.0) ==> r.eur >= 0.0
  {
    TotalEurSign(trades, Fees);
    Total(trades, Fees)
  }

  // ---- Aggregates -----------------------------------------------------------

  /** `calculate_combined_sum`: the profit of every trade, zero for none, of the sign all trades share. */
  function CombinedSum(trades: seq<TradeResult>): (r: Money)
    ensures trades == [] ==> r == Zero
    ensures (forall t :: t in trades ==> t.profitEur >= 0.0) ==> r.eur >= 0.0
    ensures (forall t :: t in trades ==> t.profitEur <= 0.0) ==> r.eur <= 0.0
  {
    SumMoney(trades)
  }

  /** `calculate_option_sum`: the option trades' profit, zero without option trades. */
  function OptionSum(trades: seq<TradeResult>): (r: Money)
    ensures (forall t :: t in trades ==> t.positionType == Stock) ==> r == Zero
  {
    var options := OptionTrades(trades);
    assert options != [] ==> options[0] in options;
    SumMoney(options)
  }

  /** `calculate_long_option_profits`: a gain. */
  function LongOptionProfits(trades: seq<TradeResult>): (r: Money)
    ensures r.eur >= 0.0
  {
    SumMoney(LongTrades(ProfitableTrades(NonWorthlessExpiryTrades(OptionTrades(trades)))))
  }

  /** `calculate_long_option_losses`: a loss. */
  function LongOptionLosses(trades: seq<TradeResult>): (r: Money)
    ensures r.eur <= 0.0
  {
    SumMoney(LongTrades(LossTrades(NonWorthlessExpiryTrades(OptionTrades(trades)))))
  }

  /** `calculate_long_option_total_losses`: a loss. */
  function LongOptionTotalLosses(trades: seq<TradeResult>): (r: Money)
    ensures r.eur <= 0.0
  {
    SumMoney(LongTrades(LossTrades(WorthlessExpiryTrades(OptionTrades(trades)))))
  }

  /** `calculate_short_option_profits`: a gain. */
  function ShortOptionProfits(trades: seq<TradeResult>): (r: Money)
    ensures r.eur >= 0.0
  {
    SumMoney(ShortTrades(ProfitableTrades(OptionTrades(trades))))
  }

  /** `calculate_short_option_losses`: a loss. */
  function ShortOptionLosses(trades: seq<TradeResult>): (r: Money)
    ensures r.eur <= 0.0
  {
    SumMoney(ShortTrades(LossTrades(OptionTrades(trades))))
  }

  function RealAbs(x: real): real { if x < 0.0 then -x else x }
  function RealMin(x: real, y: real): real { if x < y then x else y }

  /**
   * `calculate_option_differential`: per currency, the smaller magnitude of
   * the option losses and the option profits; zero without option trades.
   */
  function OptionDifferential(trades: seq<TradeResult>): (r: Money)
    ensures r.eur >= 0.0 && r.usd >= 0.0
    ensures r.eur <= RealAbs(SumMoney(LossTrades(OptionTrades(trades))).eur)
    ensures r.eur <= RealAbs(SumMoney(ProfitableTrades(OptionTrades(trades))).eur)
    ensures r.usd <= RealAbs(SumMoney(LossTrades(OptionTrades(trades))).usd)
    ensures r.usd <= RealAbs(SumMoney(ProfitableTrades(OptionTrades(trades))).usd)
  {
    var options := OptionTrades(trades);
    if options == [] then Zero
    else
      var negative := SumMoney(LossTrades(options));
      var positive := SumMoney(ProfitableTrades(options));
      Money(RealMin(RealAbs(negative.eur), RealAbs(positive.eur)), RealMin(RealAbs(negative.usd), RealAbs(positive.usd)))
  }

  /** `calculate_stock_loss`: net of fees that are never negative, the losing stock trades give a loss. */
  function StockLoss(trades: seq<TradeResult>): (r: Money)
    ensures (forall t :: t in trades ==> t.feesEur >= 0.0) ==> r.eur <= 0.0
  {
    TotalEurSign(LossTrades(StockTrades(trades)), Net);
    Total(LossTrades(StockTrades(trades)), Net)
  }

  /** `calculate_stock_fees`: zero without stock trades. */
  function StockFees(trades: seq<TradeResult>): (r: Money)
    ensures (forall t :: t in trades ==> t.positionType != Stock) ==> r == Zero
  {
    var stocks := StockTrades(trades);
    assert stocks != [] ==> stocks[0] in stocks;
    SumFees(stocks)
  }

  /** `calculate_other_fees`: the option trades' fees, zero without option trades. */
  function OtherFees(trades: seq<TradeResult>): (r: Money)
    ensures (forall t :: t in trades ==> t.positionType == Stock) ==> r == Zero
  {
    var options := OptionTrades(trades);
    assert options != [] ==> options[0] in options;
    SumFees(options)
  }

  /** `calculate_fees_sum`: the fees of every trade, zero for none. */
  function FeesSum(trades: seq<TradeResult>): (r: Money)
    ensures trades == [] ==> r == Zero
    ensures (forall t :: t in trades ==> t.feesEur >= 0.0) ==> r.eur >= 0.0
  {
    SumFees(trades)
  }

  /** A trade in a symbol the classifier files as an equity ETF. */
  predicate IsEquityEtfTrade(t: TradeResult)
  {
    Classify(t.symbol, t.positionType) == EquityEtf
  }

  predicate IsNotEquityEtfTrade(t: TradeResult)
  {
    Classify(t.symbol, t.positionType) != EquityEtf
  }

  /** The share of an equity ETF's profit that is taxed: 1 - percentage/100. */
  function TaxablePortion(): real
  {
    1.0 - GetExemptionPercentage(EquityEtf) as real / 100.0
  }

  function Taxable(t: TradeResult): Money
  {
    Money((t.profitEur - t.feesEur) * TaxablePortion(), (t.profitUsd - t.feesUsd) * TaxablePortion())
  }

  /** The profitable stock trades the three ETF aggregates iterate over. */
  function ProfitableStockTrades(trades: seq<TradeResult>): seq<TradeResult>
  {
    ProfitableTrades(StockTrades(trades))
  }

  /** What `calculate_gross_equity_etf_profits` adds up. */
  function GrossEquityEtf(trades: seq<TradeResult>): Money
  {
    Total(Where(ProfitableStockTrades(trades), IsEquityEtfTrade), Profit)
  }

  /** What `calculate_equity_etf_profits` adds up. */
  function TaxableEquityEtf(trades: seq<TradeResult>): Money
  {
    Total(Where(ProfitableStockTrades(trades), IsEquityEtfTrade), Taxable)
  }

  /** What `calculate_other_stock_and_bond_profits` adds up. */
  function OtherStockAndBond(trades: seq<TradeResult>): Money
  {
    Total(Where(ProfitableStockTrades(trades), IsNotEquityEtfTrade), Net)
  }

  // ---- Generic laws of filters and sums ---------------------------------------

  /** One step of the definition, with the empty append removed. */
  lemma WhereStep(trades: seq<TradeResult>, keep: TradeResult -> bool)
    requires trades != []
    ensures var init := trades[..|trades| - 1];
      var last := trades[|trades| - 1];
      Where(trades, keep) == if keep(last) then Where(init, keep) + [last] else Where(init, keep)
  {
    var init := trades[..|trades| - 1];
    assert Where(init, keep) + [] == Where(init, keep);
  }

  lemma WhereSnoc(trades: seq<TradeResult>, t: TradeResult, keep: TradeResult -> bool)
    ensures Where(trades + [t], keep) == if keep(t) then Where(trades, keep) + [t] else Where(trades, keep)
  {
    assert (trades + [t])[..|trades|] == trades;
    WhereStep(trades + [t], keep);
  }

  /** Filtering distributes over concatenation, so a filter keeps the order of its input. */
  lemma {:induction false} WhereAppend(a: seq<TradeResult>, b: seq<TradeResult>, keep: TradeResult -> bool)
    ensures Where(a + b, keep) == Where(a, keep) + Where(b, keep)
    decreases |b|
  {
    if b == [] {
      assert a + b == a;
    } else {
      var init := b[..|b| - 1];
      var last := b[|b| - 1];
      var tail: seq<TradeResult> := if keep(last) then [last] else [];
      assert a + b == (a + init) + [last];
      assert b == init + [last];
      WhereSnoc(a + init, last, keep);
      assert Where(a + b, keep) == Where(a + init, keep) + tail;
      WhereSnoc(init, last, keep);
      assert Where(b, keep) == Where(init, keep) + tail;
      WhereAppend(a, init, keep);
      assert Where(a, keep) + Where(init, keep) + tail == Where(a, keep) + (Where(init, keep) + tail);
    }
  }

  lemma TotalSnoc(trades: seq<TradeResult>, t: TradeResult, value: TradeResult -> Money)
    ensures Total(trades + [t], value) == Add(Total(trades, value), value(t))
  {
    assert (trades + [t])[..|trades|] == trades;
  }

  lemma {:induction false} TotalAppend(a: seq<TradeResult>, b: seq<TradeResult>, value: TradeResult -> Money)
    ensures Total(a + b, value) == Add(Total(a, value), Total(b, value))
    decreases |b|
  {
    if b == [] {
      assert a + b == a;
    } else {
      var init := b[..|b| - 1];
      var last := b[|b| - 1];
      assert a + b == (a + init) + [last];
      assert b == init + [last];
      TotalSnoc(a + init, last, value);
      TotalAppend(a, init, value);
    }
  }

  /**
   * Two complementary tests split any list: the sum over the whole is the
   * sum over the kept trades plus the sum over the others.
   */
  lemma {:induction false} TotalSplits(trades: seq<TradeResult>, keep: TradeResult -> bool, other: TradeResult -> bool,
                                       value: TradeResult -> Money)
    requires forall t :: keep(t) <==> !other(t)
    ensures Total(trades, value) == Add(Total(Where(trades, keep), value), Total(Where(trades, other), value))
  {
    if trades != [] {
      var init := trades[..|trades| - 1];
      var last := trades[|trades| - 1];
      TotalSplits(init, keep, other, value);
      var k := Total(Where(init, keep), value);
      var o := Total(Where(init, other), value);
      var v := value(last);
      AddInsert(k, o, v);
      WhereStep(trades, keep);
      WhereStep(trades, other);
      if keep(last) {
        assert !other(last);
        TotalSnoc(Where(init, keep), last, value);
      } else {
        assert other(last);
        TotalSnoc(Where(init, other), last, value);
      }
    }
  }

  /** A sum of euro amounts of one sign has that sign. */
  lemma {:induction false} TotalEurSign(trades: seq<TradeResult>, value: TradeResult -> Money)
    ensures (forall t :: t in trades ==> value(t).eur >= 0.0) ==> Total(trades, value).eur >= 0.0
    ensures (forall t :: t in trades ==> value(t).eur <= 0.0) ==> Total(trades, value).eur <= 0.0
  {
    if trades != [] {
      var init := trades[..|trades| - 1];
      TotalEurSign(init, value);
      assert forall t :: t in init ==> t in trades;
    }
  }

  /** Adding a third amount to a split sum lands on either side of the split. */
  lemma AddInsert(k: Money, o: Money, v: Money)
    ensures Add(Add(k, o), v) == Add(Add(k, v), o)
    ensures Add(Add(k, o), v) == Add(k, Add(o, v))
  {
  }

  /** Sums are linear: the net total is profits minus fees. */
  lemma {:induction false} NetIsProfitMinusFees(trades: seq<TradeResult>)
    ensures Total(trades, Net) == Sub(SumMoney(trades), SumFees(trades))
  {
    if trades != [] {
      NetIsProfitMinusFees(trades[..|trades| - 1]);
    }
  }

  /** Filtering twice with the same test changes nothing. */
  lemma {:induction false} WhereIdempotent(trades: seq<TradeResult>, keep: TradeResult -> bool)
    ensures Where(Where(trades, keep), keep) == Where(trades, keep)
  {
    if trades != [] {
      var init := trades[..|trades| - 1];
      var last := trades[|trades| - 1];
      WhereIdempotent(init, keep);
      WhereStep(trades, keep);
      if keep(last) {
        WhereSnoc(Where(init, keep), last, keep);
      }
    }
  }

  /** Two filters commute. */
  lemma {:induction false} WhereCommutes(trades: seq<TradeResult>, p: TradeResult -> bool, q: TradeResult -> bool)
    ensures Where(Where(trades, p), q) == Where(Where(trades, q), p)
  {
    if trades != [] {
      var init := trades[..|trades| - 1];
      var last := trades[|trades| - 1];
      WhereCommutes(init, p, q);
      WhereStep(trades, p);
      WhereStep(trades, q);
      if p(last) {
        WhereSnoc(Where(init, p), last, q);
      }
      if q(last) {
        WhereSnoc(Where(init, q), last, p);
      }
    }
  }

  /** A filter whose test no trade passes gives the empty list. */
  lemma {:induction false} WhereNone(trades: seq<TradeResult>, keep: TradeResult -> bool)
    requires forall t :: t in trades ==> !keep(t)
    ensures Where(trades, keep) == []
  {
    if trades != [] {
      WhereNone(trades[..|trades| - 1], keep);
      WhereStep(trades, keep);
    }
  }

  // ---- The ledger's own laws -------------------------------------------------

  /** Nothing to sum gives `Money()`. */
  lemma EmptySums(value: TradeResult -> Money)
    ensures Total([], value) == Zero && SumMoney([]) == Zero && SumFees([]) == Zero
  {
  }

  /** Profitable and losing trades partition the ledger. */
  lemma ProfitAndLossPartition(trades: seq<TradeResult>)
    ensures CombinedSum(trades) == Add(SumMoney(ProfitableTrades(trades)), SumMoney(LossTrades(trades)))
    ensures |ProfitableTrades(trades)| + |LossTrades(trades)| == |trades|
  {
    TotalSplits(trades, IsProfitable, IsLoss, Profit);
    WhereLengths(trades, IsProfitable, IsLoss);
  }

  lemma {:induction false} WhereLengths(trades: seq<TradeResult>, keep: TradeResult -> bool, other: TradeResult -> bool)
    requires forall t :: keep(t) <==> !other(t)
    ensures |Where(trades, keep)| + |Where(trades, other)| == |trades|
  {
    if trades != [] {
      WhereLengths(trades[..|trades| - 1], keep, other);
    }
  }

  /** Option and stock trades partition the ledger: every trade is one or the other. */
  lemma OptionAndStockPartition(trades: seq<TradeResult>, value: TradeResult -> Money)
    ensures Total(trades, value) == Add(Total(OptionTrades(trades), value), Total(StockTrades(trades), value))
    ensures |OptionTrades(trades)| + |StockTrades(trades)| == |trades|
  {
    TotalSplits(trades, IsOptionTrade, IsStockTrade, value);
    WhereLengths(trades, IsOptionTrade, IsStockTrade);
  }

  /** Long and short never share a trade, and a trade of quantity 0 is in neither. */
  lemma LongShortDisjoint(trades: seq<TradeResult>, t: TradeResult)
    ensures t in LongTrades(trades) ==> t !in ShortTrades(trades)
    ensures t.quantity == 0 ==> t !in LongTrades(trades) && t !in ShortTrades(trades)
  {
    WhereMembers(trades, IsLong, t);
    WhereMembers(trades, IsShort, t);
  }

  /** Membership in a chain of filters is passing every test. */
  lemma InChain(trades: seq<TradeResult>, a: TradeResult -> bool, b: TradeResult -> bool, c: TradeResult -> bool,
                d: TradeResult -> bool, t: TradeResult)
    ensures t in Where(Where(Where(Where(trades, a), b), c), d) <==> t in trades && a(t) && b(t) && c(t) && d(t)
  {
    WhereMembers(trades, a, t);
    WhereMembers(Where(trades, a), b, t);
    WhereMembers(Where(Where(trades, a), b), c, t);
    WhereMembers(Where(Where(Where(trades, a), b), c), d, t);
  }

  /**
   * The long-option profits and losses are over options that did not expire
   * worthless; the total losses are over exactly the losing long options
   * that did.
   */
  lemma LongOptionWorthlessSplit(trades: seq<TradeResult>, t: TradeResult)
    ensures t in LongTrades(ProfitableTrades(NonWorthlessExpiryTrades(OptionTrades(trades)))) <==>
      t in trades && IsOptionTrade(t) && !t.worthlessExpiry && t.profitEur > 0.0 && t.quantity > 0
    ensures t in LongTrades(LossTrades(NonWorthlessExpiryTrades(OptionTrades(trades)))) <==>
      t in trades && IsOptionTrade(t) && !t.worthlessExpiry && t.profitEur <= 0.0 && t.quantity > 0
    ensures t in LongTrades(LossTrades(WorthlessExpiryTrades(OptionTrades(trades)))) <==>
      t in trades && IsOptionTrade(t) && t.worthlessExpiry && t.profitEur <= 0.0 && t.quantity > 0
  {
    InChain(trades, IsOptionTrade, IsNotWorthlessExpiry, IsProfitable, IsLong, t);
    InChain(trades, IsOptionTrade, IsNotWorthlessExpiry, IsLoss, IsLong, t);
    InChain(trades, IsOptionTrade, IsWorthlessExpiry, IsLoss, IsLong, t);
  }

  /** The long-option losses and total losses add up to all losing long options. */
  lemma LongOptionLossesSplit(trades: seq<TradeResult>)
    ensures Add(LongOptionLosses(trades), LongOptionTotalLosses(trades)) ==
      SumMoney(LongTrades(LossTrades(OptionTrades(trades))))
  {
    var options := OptionTrades(trades);
    // Move the worthless filter to the front, then split on it.
    var inner := LongTrades(LossTrades(options));
    TotalSplits(inner, IsNotWorthlessExpiry, IsWorthlessExpiry, Profit);
    CommuteThree(options, IsNotWorthlessExpiry);
    CommuteThree(options, IsWorthlessExpiry);
  }

  /** The first of three filters can move last. */
  lemma CommuteThree(trades: seq<TradeResult>, p: TradeResult -> bool)
    ensures Where(Where(Where(trades, p), IsLoss), IsLong) == Where(Where(Where(trades, IsLoss), IsLong), p)
  {
    WhereCommutes(trades, p, IsLoss);
    WhereCommutes(Where(trades, IsLoss), p, IsLong);
  }

  /** The option sum is the option losses plus the option profits. */
  lemma OptionSumSplits(trades: seq<TradeResult>)
    ensures OptionSum(trades) ==
      Add(SumMoney(ProfitableTrades(OptionTrades(trades))), SumMoney(LossTrades(OptionTrades(trades))))
  {
    ProfitAndLossPartition(OptionTrades(trades));
  }

  /** With option trades, the differential is exactly the smaller magnitude per currency. */
  lemma OptionDifferentialIsMin(trades: seq<TradeResult>)
    requires OptionTrades(trades) != []
    ensures var negative := SumMoney(LossTrades(OptionTrades(trades)));
      var positive := SumMoney(ProfitableTrades(OptionTrades(trades)));
      && (OptionDifferential(trades).eur == RealAbs(negative.eur) || OptionDifferential(trades).eur == RealAbs(positive.eur))
      && (OptionDifferential(trades).usd == RealAbs(negative.usd) || OptionDifferential(trades).usd == RealAbs(positive.usd))
  {
  }

  lemma TotalOne(t: TradeResult, value: TradeResult -> Money)
    ensures Total([t], value) == value(t)
  {
    assert [t][..0] == [];
  }

  /** A loss of 300 and a profit of 700 on options give a differential of 300. */
  lemma OptionDifferentialExample(loss: TradeResult, gain: TradeResult)
    requires loss.positionType == Call && loss.profitEur == -300.0 && loss.profitUsd == -300.0
    requires gain.positionType == Put && gain.profitEur == 700.0 && gain.profitUsd == 700.0
    ensures OptionDifferential([loss, gain]) == Money(300.0, 300.0)
  {
    var both := [loss, gain];
    assert both[..1] == [loss] && [loss][..0] == [];
    WhereStep(both, IsOptionTrade);
    WhereStep([loss], IsOptionTrade);
    assert OptionTrades(both) == both;
    WhereStep(both, IsLoss);
    WhereStep([loss], IsLoss);
    WhereStep(both, IsProfitable);
    WhereStep([loss], IsProfitable);
    assert LossTrades(both) == [loss] && ProfitableTrades(both) == [gain];
    assert [gain][..0] == [];
    TotalOne(loss, Profit);
    TotalOne(gain, Profit);
  }

  /** Without option trades, the differential is zero. */
  lemma OptionDifferentialWithoutOptions(trades: seq<TradeResult>)
    requires forall t :: t in trades ==> t.positionType == Stock
    ensures OptionDifferential(trades) == Zero
  {
    WhereNone(trades, IsOptionTrade);
  }

  /** Stock fees and option fees add up to all fees. */
  lemma FeesSplit(trades: seq<TradeResult>)
    ensures Add(StockFees(trades), OtherFees(trades)) == FeesSum(trades)
  {
    OptionAndStockPartition(trades, Fees);
  }

  /** The stock loss is the losing stock trades' profit minus their fees. */
  lemma StockLossIsProfitMinusFees(trades: seq<TradeResult>)
    ensures StockLoss(trades) == Sub(SumMoney(LossTrades(StockTrades(trades))), SumFees(LossTrades(StockTrades(trades))))
  {
    NetIsProfitMinusFees(LossTrades(StockTrades(trades)));
  }

  /** The taxed share of an equity ETF's profit is 70 %. */
  lemma EquityEtfPortion()
    ensures TaxablePortion() == 0.7
  {
    CategoryTable(EquityEtf);
  }

  lemma {:induction false} TotalScales(trades: seq<TradeResult>)
    ensures Total(trades, Taxable) == Money(Total(trades, Net).eur * TaxablePortion(), Total(trades, Net).usd * TaxablePortion())
  {
    if trades != [] {
      TotalScales(trades[..|trades| - 1]);
    }
  }

  /** The taxable equity ETF profit is 70 % of the net equity ETF profit. */
  lemma TaxableIsSeventyPercentOfNet(trades: seq<TradeResult>)
    ensures var net := Total(Where(ProfitableStockTrades(trades), IsEquityEtfTrade), Net);
      TaxableEquityEtf(trades) == Money(net.eur * 0.7, net.usd * 0.7)
  {
    TotalScales(Where(ProfitableStockTrades(trades), IsEquityEtfTrade));
    EquityEtfPortion();
  }

  lemma {:induction false} NetIsProfitWithoutFees(trades: seq<TradeResult>)
    requires forall t :: t in trades ==> t.feesEur == 0.0 && t.feesUsd == 0.0
    ensures Total(trades, Net) == Total(trades, Profit)
  {
    if trades != [] {
      NetIsProfitWithoutFees(trades[..|trades| - 1]);
    }
  }

  /** Without fees, the taxable equity ETF profit is 70 % of the gross. */
  lemma TaxableIsSeventyPercentOfGross(trades: seq<TradeResult>)
    requires forall t :: t in trades ==> t.feesEur == 0.0 && t.feesUsd == 0.0
    ensures TaxableEquityEtf(trades) == Money(GrossEquityEtf(trades).eur * 0.7, GrossEquityEtf(trades).usd * 0.7)
  {
    var etf := Where(ProfitableStockTrades(trades), IsEquityEtfTrade);
    forall t | t in etf
      ensures t.feesEur == 0.0 && t.feesUsd == 0.0
    {
      WhereMembers(ProfitableStockTrades(trades), IsEquityEtfTrade, t);
      WhereMembers(StockTrades(trades), IsProfitable, t);
      WhereMembers(trades, IsStockTrade, t);
    }
    NetIsProfitWithoutFees(etf);
    TaxableIsSeventyPercentOfNet(trades);
  }

  /** Every profitable stock trade is counted once: as an equity ETF or as other stock and bond. */
  lemma ProfitableStocksCountedOnce(trades: seq<TradeResult>)
    ensures Add(Total(Where(ProfitableStockTrades(trades), IsEquityEtfTrade), Net), OtherStockAndBond(trades)) ==
      Total(ProfitableStockTrades(trades), Net)
  {
    TotalSplits(ProfitableStockTrades(trades), IsEquityEtfTrade, IsNotEquityEtfTrade, Net);
  }

  // ---- The loops of the three ETF aggregates ----------------------------------

  /** The accumulation loop the three ETF aggregates share, over the trades `keep` selects. */
  method Accumulate(trades: seq<TradeResult>, keep: TradeResult -> bool, value: TradeResult -> Money)
    returns (total: Money)
    ensures total == Total(Where(trades, keep), value)
  {
    var totalEur := 0.0;
    var totalUsd := 0.0;
    for i := 0 to |trades|
      invariant Money(totalEur, totalUsd) == Total(Where(trades[..i], keep), value)
    {
      assert trades[..i + 1] == trades[..i] + [trades[i]];
      WhereSnoc(trades[..i], trades[i], keep);
      if keep(trades[i]) {
        TotalSnoc(Where(trades[..i], keep), trades[i], value);
        totalEur := totalEur + value(trades[i]).eur;
        totalUsd := totalUsd + value(trades[i]).usd;
      }
    }
    assert trades[..|trades|] == trades;
    total := Money(totalEur, totalUsd);
  }

  /** `calculate_gross_equity_etf_profits`. */
  method CalculateGrossEquityEtfProfits(trades: seq<TradeResult>) returns (r: Money)
    ensures r == GrossEquityEtf(trades)
  {
    var profitable := ProfitableStockTrades(trades);
    if profitable == [] {
      return Zero;
    }
    r := Accumulate(profitable, IsEquityEtfTrade, Profit);
  }

  /** `calculate_equity_etf_profits`. */
  method CalculateEquityEtfProfits(trades: seq<TradeResult>) returns (r: Money)
    ensures r == TaxableEquityEtf(trades)
  {
    var profitable := ProfitableStockTrades(trades);
    if profitable == [] {
      return Zero;
    }
    r := Accumulate(profitable, IsEquityEtfTrade, Taxable);
  }

  /** `calculate_other_stock_and_bond_profits`. */
  method CalculateOtherStockAndBondProfits(trades: seq<TradeResult>) returns (r: Money)
    ensures r == OtherStockAndBond(trades)
  {
    var profitable := ProfitableStockTrades(trades);
    if profitable == [] {
      return Zero;
    }
    r := Accumulate(profitable, IsNotEquityEtfTrade, Net);
  }
}
