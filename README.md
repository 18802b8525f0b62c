# tastyworksTaxes: the FIFO tax-lot engine, in Dafny

This project models the core of tastyworksTaxes, a tool that reads a
tastyworks transaction history and computes German per-year tax figures.
The model covers the following parts:

- **Money** (`money.dfy`, module `Monetary`). A value in EUR and USD, built
  from explicit amounts or from a row's `Amount`/`AmountEuro`, with `+`, `-`
  and negation. The USD-to-EUR conversion is a parameter `convert(amount, date)`.
- **Transactions** (`transaction.dfy`). A broker row as a plain record. The
  accessors that can raise (`getYear`, `getSymbol`, `getType`, `getQuantity`)
  return a `Result`. `setQuantity`, `setValue` and `setFees` write the fields
  of a `TransactionRecord` object in place. Each writer is specified by a pure
  function, and a round-trip lemma closes it with its reader.
- **Position lots** (`position_lot.dfy`, module `Lots`). The
  `PositionLot` class:
  - `Consume` and `AdjustForSplit` change the lot in place. Each is proved
    equal to a value-level function, `ConsumeLot` and `AdjustedForSplit`.
  - The lemmas cover proportional consumption, movement toward zero, and
    floor/ceil split rounding.
  - A split keeps the residual basis of a lot that rounds to zero.
- **The FIFO processor** (`fifo_processor.dfy`, module `Fifo`). It builds one
  realized `TradeResult` from a consumed slice. The closing transaction is
  prorated, and the slices of one close add up to the whole transaction.
- **The position manager** (`position_manager.dfy`, module `Manager`). It
  holds a map from `InstrumentKey` to a FIFO queue of lots, the append-only
  list of closed trades, and the pending symbol-change lot.
  - Every method of the `PositionManager` class is proved equal to a pure
    step function over `State`.
  - `AddPositionSpec` dispatches in order: symbol change or merger, then
    reverse split, then close, then open.
  - The close loop (`CloseStep`/`CloseLoop`) pops from the head, consumes,
    records one trade per slice, and puts a remainder back at the head.
  - `position_manager_lemmas.dfy` (module `ManagerProperties`) proves the
    following about these functions:
    - FIFO order, the untouched tail, and conservation of units and basis;
    - the symbol-change handshake;
    - the reverse split;
    - invariants of the whole dispatcher.
  - `position_manager_examples.dfy` (module `ManagerExamples`) works through
    the repository's scenarios as lemmas:
    - the FIFO sale of 15 against 10 + 10;
    - an overclose;
    - the BFT→PSFE symbol change;
    - the parsing of split ratios.
- **The trade calculator** (`trade_calculator.dfy`). The filters are an
  order-preserving `Where`, and the sums are a `Total` of `Money`. Lemmas
  state the partitions, the option differential, the fee split and the 30 %
  partial exemption of equity ETFs. The three ETF aggregates are loops
  proved against their specification functions.
- **The asset classifier** (`asset_definitions.dfy`, `asset_classifier.dfy`).
  An ordered first-match rule table: EQUITY_ETF, BOND_ETF, MIXED_FUND_ETF,
  REAL_ESTATE_ETF, then CRYPTO as a predicate. It gives exemption
  percentages and tax categories. Warnings are returned as a list rather
  than logged.
- **The driver** (`tax_years.dfy`, module `TaxYears`). The `Tasty` class
  books each money movement into one bucket of its year's record. It feeds
  trades to the manager in stable date order, groups realized trades by
  closing year, and in `run` rolls the trade fees into each year's fee and
  fills each year's report.
  - `ApplyRows`, `TradesByYear`, `FeesRolled`, `ReportsFilled` and
    `Reported` are the functions the methods are proved against.
- **The older engine's position arithmetic** (`legacy_position.dfy`): root
  `tasty.py` `_updatePosition` and its doctest table.
- **Supporting modules:**
  - `sorting.dfy`: a stable insertion sort by date, with sortedness,
    permutation and stability proved;
  - `wrappers.dfy`: `Option`, `Result` and the error values;
  - `constants.dfy` and `position.dfy`: the subcode strings and
    `PositionType`.

### Where the code disagrees with itself

The close loop at `tastyworksTaxes/position_manager.py:161-168` does not
match the two functions it calls:

- It unpacks `new_lot, consumed_values` from `consume`. But
  `position_lot.py:41-68` changes the lot in place and returns only the
  consumed values.
- It passes a fifth argument, `opening_was_long`, to `create_trade_result`.
  That function takes four arguments and reads the lot's quantity after it
  was consumed.

As written, the loop therefore never records a trade. `consume` returns a
dict of four consumed amounts (`position_lot.py:53-58`), so unpacking it into
two names at `position_manager.py:163` raises ValueError on every slice that
reaches it. Past that, the five-argument call at `position_manager.py:166`
would raise TypeError. The model is of the loop its code evidently intends.

The model follows the functions as defined:

- `PositionLot.Consume` changes the lot and returns the consumed part.
- The changed lot is the remainder, put back at the head when it is not
  empty.
- The trade's side comes from the lot as it was before consumption, which
  `test/test_quantity_sign_fix.py` requires (see Findings).

The loop also computes `opening_was_long = lot_to_process.amount_usd < 0`
(`tastyworksTaxes/position_manager.py:161`), the sign of the lot's cost
basis, and passes it as that fifth argument. `create_trade_result` has no
such parameter, so the model does not use it: `Fifo.CloseSlice` takes the
side from the sign of the lot's quantity before consumption. The two tests
disagree on two kinds of lot:

- a long lot whose `amount_usd` is not negative, for example shares
  delivered at zero cost;
- a short lot whose `amount_usd` is negative, that is, a short opened
  with a net debit.

For a long lot that was paid for and a short lot that was credited, they
agree.

Other points where the model follows the code rather than the tests:

- `isOption` is false for Assignment rows.
- A reverse split whose ratio cannot be found, for any symbol but USO, is
  not an error. It falls through to close or open.
- Tests that expect a configuration file for split ratios have no
  counterpart in the code.

## Model

| member | source | states |
|---|---|---|
| Monetary.FromRow | tastyworksTaxes/money.py:18-33 | a non-zero explicit usd/eur wins; a zero one falls back to the row's Amount/AmountEuro, or 0 when absent |
| Monetary.Construct | tastyworksTaxes/money.py:18-33 | with a date and a non-zero usd the eur is the converted usd; otherwise the result is exactly the row fallback |
| Monetary.FromUsdToEur | tastyworksTaxes/money.py:35-38 | usd is kept and eur becomes convert(usd, date) |
| Monetary.Neg | tastyworksTaxes/money.py:57-59 | both components are negated |
| Monetary.Add | tastyworksTaxes/money.py:43-48 | componentwise: subtracting either summand from the sum gives back the other |
| Monetary.Sub | tastyworksTaxes/money.py:50-55 | componentwise: in each currency the difference plus the subtrahend is the minuend |
| Monetary.ZeroIsDefault | tastyworksTaxes/money.py:18-33 | `Money()` with no row is (0, 0) |
| Monetary.NegInvolutive | tastyworksTaxes/money.py:57-59 | −(−m) = m |
| Monetary.SubIsAddNeg | tastyworksTaxes/money.py:50-59 | a − b = a + (−b) |
| Monetary.AddCommutative | tastyworksTaxes/money.py:43-48 | a + b = b + a |
| Monetary.AddAssociative | tastyworksTaxes/money.py:43-48 | (a + b) + c = a + (b + c) |
| Monetary.AddZero | tastyworksTaxes/money.py:43-48 | zero is the identity on both sides |
| Transactions.Lower | tastyworksTaxes/position_manager.py:204 | `lower()` keeps the length and lowers each ASCII letter in place |
| Transactions.IsOption | tastyworksTaxes/transaction.py:143-159 | an option row is never an Assignment or an Expiration |
| Transactions.IsOptionTable | tastyworksTaxes/transaction.py:156-158 | false unless Call/Put is P or C; for a P or C row, true iff the subcode is Buy/Sell to Open/Close; so false for Assignment, Expiration and reverse splits |
| Transactions.GetYear | tastyworksTaxes/transaction.py:109-116 | Ok(year) iff 2010 ≤ year ≤ 2100; the too-early and too-late errors otherwise |
| Transactions.GetSymbol | tastyworksTaxes/transaction.py:188-193 | Ok(symbol) iff the symbol is neither empty nor "nan"; MissingSymbol otherwise |
| Transactions.IsStock | tastyworksTaxes/transaction.py:171 | fails exactly when the symbol is missing; otherwise stock iff there is no strike |
| Transactions.GetType | tastyworksTaxes/transaction.py:224-234 | stock without a strike; with a strike "C" → call, "P" → put, anything else raises; a missing symbol raises first |
| Transactions.QuantitySign | tastyworksTaxes/transaction.py:292-309 | any sign it returns is +1 or −1 |
| Transactions.GetQuantity | tastyworksTaxes/transaction.py:311-320 | raises unless the code is Trade or Receive Deliver; succeeds iff the subcode has a sign; the result is ±quantity |
| Transactions.GetQuantityTable | tastyworksTaxes/transaction.py:292-320 | the sign table: Buy to Open/Close, Assignment, Expiration → +q; Sell to Open/Close → −q; split, symbol change, merger → ±q by Buy/Sell; other subcodes raise |
| Transactions.WithQuantity | tastyworksTaxes/transaction.py:365-384 | raises on another code; succeeds iff the row is a Receive Deliver Assignment/Expiration, or Open/Close is Open or Close; date, code, symbol, Open/Close, strike, expiry, call/put, both amounts, both fees and description are untouched |
| Transactions.SetThenGetQuantity | tastyworksTaxes/transaction.py:322-384 | after a successful `setQuantity(q)`, `getQuantity()` returns q, for zero and negative q too |
| Transactions.WrittenSide | tastyworksTaxes/transaction.py:365-384 | outside Assignment/Expiration, `setQuantity(q)` stores \|q\| with a Sell subcode for q < 0 and a Buy subcode otherwise, keeping the code |
| Transactions.GetValue | tastyworksTaxes/transaction.py:388-396 | the value is the row's Amount and AmountEuro read through the Money constructor, and writing it back with `setValue` leaves the row as it is |
| Transactions.GetFees | tastyworksTaxes/transaction.py:414-425 | the fees read are exactly what `setFees` would write back without changing the row |
| Transactions.WithValue | tastyworksTaxes/transaction.py:398-412 | fees and quantity are untouched |
| Transactions.WithFees | tastyworksTaxes/transaction.py:427-438 | amounts and quantity are untouched |
| Transactions.ValueRoundTrip | tastyworksTaxes/transaction.py:388-412 | `getValue` after `setValue(m)` is m, and the fees are unchanged |
| Transactions.FeesRoundTrip | tastyworksTaxes/transaction.py:414-438 | `getFees` after `setFees(m)` is m, and the value is unchanged |
| Transactions.TransactionRecord.constructor | tastyworksTaxes/transaction.py:31-32 | the record holds the given row |
| Transactions.TransactionRecord.SetQuantity | tastyworksTaxes/transaction.py:322-384 | the new row and the reported failure are exactly WithQuantity of the old row |
| Transactions.TransactionRecord.SetValue | tastyworksTaxes/transaction.py:398-412 | the new row is WithValue of the old row |
| Transactions.TransactionRecord.SetFees | tastyworksTaxes/transaction.py:427-438 | the new row is WithFees of the old row |
| Sorting.SortBy | tastyworksTaxes/tasty.py:79-81 | the result is in ascending date order and has the same multiset of elements |
| Sorting.SortByIsStable | tastyworksTaxes/tasty.py:79-81 | rows of one date keep their original relative order (`kind='stable'`) |
| Sorting.SortByKeepsSorted | tastyworksTaxes/tasty.py:79-81 | an already sorted history is left exactly as it is |
| Sorting.InsertPermutes | tastyworksTaxes/tasty.py:79-81 | one insertion adds exactly the inserted row |
| Sorting.InsertSorted | tastyworksTaxes/tasty.py:79-81 | inserting into a sorted list keeps it sorted |
| Sorting.InsertStable | tastyworksTaxes/tasty.py:79-81 | an insertion goes behind the rows of its own date |
| Lots.ClosableQuantity | tastyworksTaxes/position_lot.py:38-39 | min(\|requested\|, \|quantity\|): at most each, and equal to one of them |
| Lots.ConsumeLot | tastyworksTaxes/position_lot.py:41-68 | fails iff \|n\| > \|quantity\| (ValueError), or the lot is zero (division by zero); on success consumed + remaining = original for each money field, and only quantity and money fields change |
| Lots.ConsumeProportional | tastyworksTaxes/position_lot.py:45-58 | consumed·\|quantity\| = original·n for each of the four money fields |
| Lots.ConsumeTowardZero | tastyworksTaxes/position_lot.py:60-61 | \|rest\| + n = \|quantity\|, and the sign is kept (never crosses zero) |
| Lots.ConsumeHalfExample | test/test_position_manager.py:56-71 | 100 / −1000 / 5 consuming 50 leaves 50 / −500 / 2.5 and consumes −500 / 2.5 |
| Lots.MatchesStockIgnoresOptionFields | tastyworksTaxes/position_lot.py:24-29 | a stock lot matches its symbol and type whatever strike, expiry and call/put are given |
| Lots.MatchesOptionNeedsAllFields | tastyworksTaxes/position_lot.py:24-33 | an option lot matches iff symbol, type, strike, expiry and call/put are all equal |
| Lots.CanCloseWithOppositeSigns | tastyworksTaxes/position_lot.py:35-36 | can close iff the two quantities have strictly opposite signs (false if either is zero) |
| Lots.Matches | tastyworksTaxes/position_lot.py:24-33 | a lot that matches has the symbol and position type asked for |
| Lots.CanCloseWith | tastyworksTaxes/position_lot.py:35-36 | a lot that can close has a non-zero quantity, and so has the closing quantity |
| Lots.IsEmpty | tastyworksTaxes/position_lot.py:91-92 | empty iff the (integer) quantity is 0 |
| Lots.AdjustedForSplit | tastyworksTaxes/position_lot.py:70-89 | symbol, type, date, expiry and call/put are never changed by a split |
| Lots.SplitCases | tastyworksTaxes/position_lot.py:70-89 | a zero lot is untouched; otherwise quantity is the rounded target and the strike is divided; a result of 0 keeps the money fields, any other result scales them by new/target |
| Lots.SplitRounding | tastyworksTaxes/position_lot.py:74-75 | long lots take the floor and short lots the ceiling of quantity·ratio |
| Lots.SplitNeverRoundsUp | tastyworksTaxes/position_lot.py:74-86 | with a positive ratio \|new\| ≤ \|quantity·ratio\| and the sign is kept |
| Lots.SplitKeepsBasisPerTargetShare | tastyworksTaxes/position_lot.py:77-84 | a non-zero result carries, per new share, the old basis and fees per target share |
| Lots.RescaledPerUnit | tastyworksTaxes/position_lot.py:80-84 | rescaling by n/t turns each money field per n units into the old field per t units |
| Lots.SplitLongExample | test/test_corporate_actions.py:47-74 | 100 long shares at 1/8 become 12 |
| Lots.SplitShortExample | test/test_corporate_actions.py:182-218 | −100 with basis 1000 and fees 1 at 1/8 become −12 with 960 and 0.96 |
| Lots.SplitToZeroExample | test/test_corporate_actions.py:220-250 | 5 shares at 1/8 round to 0 and keep basis and fees |
| Lots.PositionLot.constructor | tastyworksTaxes/position_lot.py:10-22 | the object's fields are the given lot |
| Lots.PositionLot.Consume | tastyworksTaxes/position_lot.py:41-68 | on success the lot becomes ConsumeLot's remainder and the consumed part is returned; a refusal changes nothing |
| Lots.PositionLot.Rescale | tastyworksTaxes/position_lot.py:80-84 | the four money fields are multiplied by the scale, nothing else changes |
| Lots.PositionLot.AdjustForSplit | tastyworksTaxes/position_lot.py:70-89 | the lot in place becomes AdjustedForSplit of its old value |
| Fifo.DecodeClosing | tastyworksTaxes/fifo_processor.py:23-44 | decodes iff quantity and type can be read; carries the signed quantity, symbol, type, value and fees of the row |
| Fifo.CalculateClosingAmounts | tastyworksTaxes/fifo_processor.py:47-56 | a closing quantity of 0 gives four zeros |
| Fifo.Share | tastyworksTaxes/fifo_processor.py:47-56 | the slice's share: share · \|closing quantity\| = n, and 0 for a zero closing quantity |
| Fifo.SumClosingAmounts | tastyworksTaxes/fifo_processor.py:47-56 | the sum over one slice is that slice's prorated amounts; a zero closing quantity gives four zeros |
| Fifo.ClosingAmountsProrated | tastyworksTaxes/fifo_processor.py:47-56 | otherwise each amount·\|closing quantity\| = the transaction's value or fees·n |
| Fifo.SumClosingAmountsIsShareOfTotal | tastyworksTaxes/fifo_processor.py:49-55 | the amounts of several slices add up to the transaction's totals scaled by their combined share |
| Fifo.ClosingAmountsAddUp | tastyworksTaxes/fifo_processor.py:49-55 | slices adding up to \|closing quantity\| sum to the transaction's full value and fees |
| Fifo.CreateTradeResult | tastyworksTaxes/fifo_processor.py:23-44 | quantity +n for a long opening lot, −n for a short one; worthless iff Expiration and long; profit and fees = consumed + prorated closing, per currency; symbol, type and close date from the transaction, opening date from the lot; strike and expiry only for options |
| Fifo.CloseSlice | tastyworksTaxes/position_manager.py:159-169 | a slice succeeds iff the lot can be consumed; it yields ConsumeLot's remainder and the trade built from the lot before consumption |
| Fifo.AsWrittenMisreadsFullyClosedLongLot | tastyworksTaxes/fifo_processor.py:26-39 | reading the lot after consume, a fully closed long lot gives quantity −n and no worthless flag, where the corrected slice gives +n and the flag |
| Fifo.CloseSliceAsWritten | tastyworksTaxes/fifo_processor.py:23-44 | as written, a slice succeeds iff the corrected one does, with the same remainder and the same trade except quantity and worthless flag; when the lot is not fully closed the trades are identical |
| Fifo.PartialCloseExample | test/test_position_manager.py:56-76 | 100 at −1000 / 5, closing 50 for 600 with fees 3: rest 50 / −500 / 2.5; trade 50 with profit 100 and fees 5.5 |
| Manager.KeyFromTransaction | tastyworksTaxes/position_manager.py:26-37 | a stock key has no strike, expiry or call/put; an option key has all three from the row; fails exactly when the type cannot be read |
| Manager.IsClosingTransaction | tastyworksTaxes/position_manager.py:89-92 | Expiration, Assignment, Buy to Close and Sell to Close always close; Buy/Sell to Open not marked Close never does |
| Manager.Opened | tastyworksTaxes/position_manager.py:94-112 | trades and pending slot are kept; a failure changes nothing; it succeeds iff the opening lot can be read, and then the keys become the old keys plus the lot's key |
| Manager.CloseStep | tastyworksTaxes/position_manager.py:151-177 | a slice that raises nothing strictly decreases the quantity still to close; no slice increases it |
| Manager.CloseLoop | tastyworksTaxes/position_manager.py:150-177 | the quantity still to close never grows; a run that raises nothing ends at a stop: nothing left, an empty queue, or (unless Expiration/Assignment) a head of the wrong side |
| Manager.ClosingOf | tastyworksTaxes/position_manager.py:140-145 | succeeds iff the closing record decodes, and then carries that record and the row's key |
| Manager.Closed | tastyworksTaxes/position_manager.py:140-183 | the pending slot is kept; an unreadable row raises and changes nothing; every other key's queue is untouched |
| Manager.SplitLots | tastyworksTaxes/position_manager.py:214-229 | the keys are kept and the queues of other symbols are untouched |
| Manager.SplitAdjusted | tastyworksTaxes/position_manager.py:185-232 | trades, pending slot and keys are kept; a split not handled changes nothing; a handled one raises nothing |
| Manager.AddPositionSpec | tastyworksTaxes/position_manager.py:57-87 | only a close that is not a symbol change can add trades; only a symbol change can touch the pending slot |
| Manager.PairRatio | tastyworksTaxes/position_manager.py:203-207 | positive; at most 1 for a reverse split (min/max), at least 1 otherwise (max/min) |
| Manager.SplitRatio | tastyworksTaxes/position_manager.py:193-213 | a ratio found is positive; fails exactly when the found pair has a zero component |
| Manager.AdjustedQueue | tastyworksTaxes/position_manager.py:219-226 | same length, each lot adjusted for the split |
| Manager.AllLotsRemove | tastyworksTaxes/position_manager.py:39-44 | the flat lot collection is one queue plus the rest |
| Manager.CloseHead | tastyworksTaxes/position_manager.py:151-177 | one iteration, computed with a PositionLot consumed in place, equals CloseStep |
| Manager.AdjustQueue | tastyworksTaxes/position_manager.py:219-227 | the in-place loop over one queue's lots gives AdjustedQueue |
| Manager.PositionManager.constructor | tastyworksTaxes/position_manager.py:22-24 | no lots, no trades, nothing pending |
| Manager.PositionManager.OpenPosition | tastyworksTaxes/position_manager.py:94-112 | the new state and failure are Opened of the old state |
| Manager.PositionManager.OpenPositionFromSymbolChange | tastyworksTaxes/position_manager.py:114-138 | the new state and failure are OpenedFromSymbolChange of the old state |
| Manager.PositionManager.RemoveForSymbolChange | tastyworksTaxes/position_manager.py:60-73 | the new state and failure are RemovedForSymbolChange of the old state |
| Manager.PositionManager.ClosePosition | tastyworksTaxes/position_manager.py:140-183 | the new state and failure are Closed of the old state (the while loop against CloseLoop) |
| Manager.PositionManager.AddLotDirectly | tastyworksTaxes/position_manager.py:46-55 | the lot is appended to the queue of its own key |
| Manager.PositionManager.GetAllOpenLots | tastyworksTaxes/position_manager.py:39-44 | the result is sorted by date and holds exactly the open lots |
| Manager.PositionManager.AdjustSymbol | tastyworksTaxes/position_manager.py:214-229 | every queue of the symbol is adjusted lot by lot; the rest of the state is unchanged |
| Manager.PositionManager.HandleReverseSplit | tastyworksTaxes/position_manager.py:185-232 | new state, handled flag and failure are SplitAdjusted of the old state |
| Manager.PositionManager.AddPosition | tastyworksTaxes/position_manager.py:57-87 | new state and failure are AddPositionSpec of the old state |
| ManagerProperties.CloseStepFacts | tastyworksTaxes/position_manager.py:151-177 | a zero head raises and is dropped; otherwise n = closable quantity > 0 is consumed, one trade appended, an emptied head (with zero basis left) dropped, and a non-empty remainder put back at the head with nothing left to close |
| ManagerProperties.SliceFields | tastyworksTaxes/position_manager.py:159-169 | each trade money field = basis taken from the lot + prorated closing amount |
| ManagerProperties.CloseLoopAppends | tastyworksTaxes/position_manager.py:168-169 | the loop only appends to the trade list |
| ManagerProperties.CloseLoopConserves | tastyworksTaxes/position_manager.py:150-177 | units closed + units left = units requested; per money field, queue basis + realized − prorated closing is invariant |
| ManagerProperties.CloseLoopIsFifo | tastyworksTaxes/position_manager.py:150-177 | the i-th trade comes from the i-th lot of the queue, on its side, with its opening date; every lot but the last touched is closed completely |
| ManagerProperties.CloseLoopRespectsSides | tastyworksTaxes/position_manager.py:150-157 | unless the close is an Expiration or Assignment, every lot it touched has the side the closing quantity can close; a head lot of the wrong side stops it before any trade |
| ManagerProperties.CloseLoopLeavesTail | tastyworksTaxes/position_manager.py:150-177 | what is left is the untouched tail, behind at most one reduced remainder of the last lot touched |
| ManagerProperties.CloseLoopKeepsFiled | tastyworksTaxes/position_manager.py:150-177 | a queue of one symbol and type stays so |
| ManagerProperties.CloseRealizesBasisAndValue | tastyworksTaxes/position_manager.py:140-183 | a close that raises nothing makes trades covering \|quantity\| units, and per field they realize the basis taken from the queue plus the transaction's full value or fees |
| ManagerProperties.ClosedShape | tastyworksTaxes/position_manager.py:140-183 | a close that raises nothing ran the loop to completion on a non-empty queue and records exactly that run |
| ManagerProperties.SplitLotsShape | tastyworksTaxes/position_manager.py:214-229 | keys and queue lengths are kept; the symbol's lots are adjusted, other queues are untouched |
| ManagerProperties.AddPositionAppendsTrades | tastyworksTaxes/position_manager.py:57-87 | the trade list only grows, and only a close that is not a corporate action adds to it |
| ManagerProperties.EnqueuedKeepsFiled | tastyworksTaxes/position_manager.py:111-112 | appending a lot under its own key keeps every queue filed under its key |
| ManagerProperties.AddPositionKeepsFiled | tastyworksTaxes/position_manager.py:57-87 | every transaction keeps each queue holding only lots of its key's symbol and type |
| ManagerProperties.AddPositionKeepsQueuesNonEmpty | tastyworksTaxes/position_manager.py:57-87 | a transaction that raises nothing leaves no empty queue behind |
| ManagerProperties.OpenAppendsOneLot | tastyworksTaxes/position_manager.py:84-112 | an open appends exactly one lot with its own quantity, value, fees and date at the tail of its key's queue; nothing else changes; a row that cannot be read changes nothing |
| ManagerProperties.SymbolChangeCloseLegStagesHead | tastyworksTaxes/position_manager.py:60-73 | the close leg moves the head lot into the pending slot, deletes an emptied queue, emits no trade; with no queue nothing changes |
| ManagerProperties.SymbolChangeOpenLegTransfersBasis | tastyworksTaxes/position_manager.py:114-138 | the open leg appends a lot under the new key with its own quantity and the staged amounts, fees and date, then clears the slot |
| ManagerProperties.SymbolChangeOpenLegWithoutStagedLot | tastyworksTaxes/position_manager.py:115-119 | with nothing staged the open leg is an ordinary open |
| ManagerProperties.SymbolChangeHandshake | tastyworksTaxes/position_manager.py:60-138 | close leg then open leg moves the head lot's basis, fees and date to the new key under the new quantity, with no trade and nothing left staged |
| ManagerProperties.OptionSymbolSplitIsATrade | tastyworksTaxes/position_manager.py:186-190 | a split quoting an option symbol is closed or opened like a trade |
| ManagerProperties.UnparsedSplitFallsThrough | tastyworksTaxes/position_manager.py:210-232 | no ratio and not USO: the row falls through to close or open |
| ManagerProperties.SplitTouchesOnlyItsSymbol | tastyworksTaxes/position_manager.py:214-229 | an applied split adjusts every lot of its symbol, keeps keys, lengths, other queues, trades and pending slot, and raises nothing |
| ManagerExamples.OpensAs | tastyworksTaxes/position_manager.py:84-87 | a non-closing ordinary row is an open of its lot |
| ManagerExamples.ClosesAs | tastyworksTaxes/position_manager.py:84-85 | a closing ordinary row is a close |
| ManagerExamples.FifoExample | test/test_position_manager.py:33-54 | buy 10 at −100, buy 10 at −200, sell 15 for 375: trades of 10 and 5, total profit 175, 5 left with basis −100 from the second lot |
| ManagerExamples.OvercloseIsNotAtomic | test/test_position_manager.py:98-107 | selling 20 against 10 raises "more than available" after recording the 10 and deleting the queue |
| ManagerExamples.CloseWithoutPosition | tastyworksTaxes/position_manager.py:144-148 | closing with no queue raises "no previous position" and changes nothing |
| ManagerExamples.SymbolChangeExample | test/test_bft_psfe_symbol_change.py:12-58 | BFT sold for 132, symbol change to PSFE, bought back for 80: one PSFE trade with profit 52 dated from the BFT opening, nothing left open |
| ManagerExamples.SplitRatioReverseExample | test/test_corporate_actions.py:147-180 | "1-for-8 reverse split" gives 0.125 |
| ManagerExamples.SplitRatioReverseSwappedExample | tastyworksTaxes/position_manager.py:203-205 | "8 for 1 Reverse split" gives 0.125 (case-insensitive "reverse") |
| ManagerExamples.SplitRatioForwardExample | tastyworksTaxes/position_manager.py:206-207 | "Regular split: 2:1" gives 2 |
| ManagerExamples.SplitRatioFallbackExamples | tastyworksTaxes/position_manager.py:210-212 | no pair: USO gets 1/8, another symbol gets none |
| ManagerExamples.SplitExample | test/test_corporate_actions.py:106-145 | a USO split turns 100 into 12 and leaves the XYZ queue alone, with no trade |
| TradeCalculator.Where | tastyworksTaxes/trade_calculator.py:25-47 | a filter never lengthens its input |
| TradeCalculator.WhereMembers | tastyworksTaxes/trade_calculator.py:25-47 | t is kept iff it is in the input and satisfies the predicate |
| TradeCalculator.WhereCount | tastyworksTaxes/trade_calculator.py:25-47 | a filter keeps every copy of a passing trade and no copy of a failing one |
| TradeCalculator.WhereExactly | tastyworksTaxes/trade_calculator.py:25-47 | a filter holds exactly the input's elements that pass its test |
| TradeCalculator.OptionTrades | tastyworksTaxes/trade_calculator.py:25-26 | no longer than its input; holds t iff the input does and t is a call or a put |
| TradeCalculator.StockTrades | tastyworksTaxes/trade_calculator.py:28-29 | no longer than its input; holds t iff the input does and t is a stock trade |
| TradeCalculator.ProfitableTrades | tastyworksTaxes/trade_calculator.py:31-32 | no longer than its input; holds t iff the input does and t's euro profit is > 0 |
| TradeCalculator.LossTrades | tastyworksTaxes/trade_calculator.py:34-35 | no longer than its input; holds t iff the input does and t's euro profit is ≤ 0 |
| TradeCalculator.LongTrades | tastyworksTaxes/trade_calculator.py:37-38 | no longer than its input; holds t iff the input does and t's quantity is > 0 |
| TradeCalculator.ShortTrades | tastyworksTaxes/trade_calculator.py:40-41 | no longer than its input; holds t iff the input does and t's quantity is < 0 |
| TradeCalculator.WorthlessExpiryTrades | tastyworksTaxes/trade_calculator.py:43-44 | no longer than its input; holds t iff the input does and t expired worthless |
| TradeCalculator.NonWorthlessExpiryTrades | tastyworksTaxes/trade_calculator.py:46-47 | no longer than its input; holds t iff the input does and t did not expire worthless |
| TradeCalculator.SumMoney | tastyworksTaxes/trade_calculator.py:9-15 | Money(0, 0) for no trades; the euro sum is a gain when no trade lost and a loss when none gained |
| TradeCalculator.SumFees | tastyworksTaxes/trade_calculator.py:17-23 | Money(0, 0) for no trades; non-negative euro fees when every trade's are |
| TradeCalculator.TotalEurSign | tastyworksTaxes/trade_calculator.py:9-23 | a sum of euro amounts that share a sign has that sign |
| TradeCalculator.WhereAppend | tastyworksTaxes/trade_calculator.py:25-47 | filtering distributes over concatenation (order is preserved) |
| TradeCalculator.WhereIdempotent | tastyworksTaxes/trade_calculator.py:25-47 | filtering twice is filtering once |
| TradeCalculator.WhereCommutes | tastyworksTaxes/trade_calculator.py:56-100 | filters nested in either order give the same list |
| TradeCalculator.WhereNone | tastyworksTaxes/trade_calculator.py:25-47 | a filter that rejects every element gives [] |
| TradeCalculator.TotalAppend | tastyworksTaxes/trade_calculator.py:9-23 | a sum over a concatenation is the sum of the sums |
| TradeCalculator.TotalSplits | tastyworksTaxes/trade_calculator.py:9-47 | for complementary predicates the total is the sum of the two filtered totals |
| TradeCalculator.EmptySums | tastyworksTaxes/trade_calculator.py:9-23 | sums over no trades are Money(0, 0) |
| TradeCalculator.NetIsProfitMinusFees | tastyworksTaxes/trade_calculator.py:116-123 | Σ(profit − fees) = Σ profit − Σ fees |
| TradeCalculator.ProfitAndLossPartition | tastyworksTaxes/trade_calculator.py:31-35 | profitable and loss trades partition the list; combined sum = profit sum + loss sum |
| TradeCalculator.WhereLengths | tastyworksTaxes/trade_calculator.py:25-41 | complementary filters split the count |
| TradeCalculator.OptionAndStockPartition | tastyworksTaxes/trade_calculator.py:25-29 | option and stock trades partition the list, in count and in any total |
| TradeCalculator.LongShortDisjoint | tastyworksTaxes/trade_calculator.py:37-41 | no trade is both long and short; a zero-quantity trade is neither |
| TradeCalculator.CombinedSum | tastyworksTaxes/trade_calculator.py:49-50 | zero for no trades; a gain when no trade lost, a loss when none gained (its split into gains and losses is ProfitAndLossPartition) |
| TradeCalculator.OptionSum | tastyworksTaxes/trade_calculator.py:52-54 | zero when every trade is a stock trade (its split is OptionSumSplits) |
| TradeCalculator.LongOptionProfits | tastyworksTaxes/trade_calculator.py:56-64 | never a euro loss |
| TradeCalculator.LongOptionLosses | tastyworksTaxes/trade_calculator.py:66-74 | never a euro gain |
| TradeCalculator.LongOptionTotalLosses | tastyworksTaxes/trade_calculator.py:76-84 | never a euro gain |
| TradeCalculator.ShortOptionProfits | tastyworksTaxes/trade_calculator.py:86-92 | never a euro loss |
| TradeCalculator.ShortOptionLosses | tastyworksTaxes/trade_calculator.py:94-100 | never a euro gain |
| TradeCalculator.StockLoss | tastyworksTaxes/trade_calculator.py:116-123 | with fees that are never negative, never a euro gain (profit minus fees: StockLossIsProfitMinusFees) |
| TradeCalculator.StockFees | tastyworksTaxes/trade_calculator.py:125-127 | zero without stock trades |
| TradeCalculator.OtherFees | tastyworksTaxes/trade_calculator.py:129-131 | zero without option trades |
| TradeCalculator.FeesSum | tastyworksTaxes/trade_calculator.py:133-134 | zero for no trades; non-negative when every trade's euro fees are (its split is FeesSplit) |
| TradeCalculator.LongOptionWorthlessSplit | tastyworksTaxes/trade_calculator.py:56-84 | membership of the three long-option selections, spelled out: profits and losses exclude worthless expiries, total losses take only them |
| TradeCalculator.LongOptionLossesSplit | tastyworksTaxes/trade_calculator.py:66-84 | long losses + long total losses = all losing long options |
| TradeCalculator.OptionSumSplits | tastyworksTaxes/trade_calculator.py:52-54 | option sum = option profits + option losses |
| TradeCalculator.OptionDifferential | tastyworksTaxes/trade_calculator.py:102-114 | non-negative and at most both \|loss sum\| and \|profit sum\| in each currency |
| TradeCalculator.OptionDifferentialIsMin | tastyworksTaxes/trade_calculator.py:108-114 | with options it equals one of the two magnitudes, per currency |
| TradeCalculator.OptionDifferentialExample | tastyworksTaxes/trade_calculator.py:102-114 | −300 and +700 give 300 |
| TradeCalculator.OptionDifferentialWithoutOptions | tastyworksTaxes/trade_calculator.py:105-106 | no option trades give 0 |
| TradeCalculator.FeesSplit | tastyworksTaxes/trade_calculator.py:125-134 | stock fees + option fees = all fees |
| TradeCalculator.StockLossIsProfitMinusFees | tastyworksTaxes/trade_calculator.py:116-123 | stock loss = Σ profit − Σ fees of losing stock trades |
| TradeCalculator.EquityEtfPortion | tastyworksTaxes/trade_calculator.py:165-166 | 1 − 30/100 = 0.7 for EQUITY_ETF |
| TradeCalculator.TotalScales | tastyworksTaxes/trade_calculator.py:168-172 | summing net·0.7 per trade is 0.7 times the net sum |
| TradeCalculator.TaxableIsSeventyPercentOfNet | tastyworksTaxes/trade_calculator.py:153-176 | taxable equity ETF profit = 0.7 · Σ(profit − fees) of profitable equity ETF trades |
| TradeCalculator.NetIsProfitWithoutFees | tastyworksTaxes/trade_calculator.py:168-169 | without fees the net equals the profit |
| TradeCalculator.TaxableIsSeventyPercentOfGross | test/test_gross_equity_etf_profits.py:110-133 | without fees taxable = 0.7 · gross |
| TradeCalculator.ProfitableStocksCountedOnce | tastyworksTaxes/trade_calculator.py:178-193 | equity ETF net + other stock and bond = net of all profitable stock trades |
| TradeCalculator.Accumulate | tastyworksTaxes/trade_calculator.py:141-151 | the accumulating loop yields the total over the kept trades |
| TradeCalculator.CalculateGrossEquityEtfProfits | tastyworksTaxes/trade_calculator.py:136-151 | Σ profit of profitable EQUITY_ETF stock trades |
| TradeCalculator.CalculateEquityEtfProfits | tastyworksTaxes/trade_calculator.py:153-176 | Σ (profit − fees)·0.7 over the same trades |
| TradeCalculator.CalculateOtherStockAndBondProfits | tastyworksTaxes/trade_calculator.py:178-193 | Σ (profit − fees) of profitable stock trades not EQUITY_ETF |
| AssetDefinitions.FixedSymbolsAreShort | tastyworksTaxes/asset_definitions.py:6-26 | listed symbols are short, contain no '/', and are not coins |
| AssetDefinitions.IsCrypto | tastyworksTaxes/asset_definitions.py:26 | an accepted symbol is BTC, ETH or DOGE, or has '/' four characters from its end |
| AssetDefinitions.SymbolSetsDisjoint | tastyworksTaxes/asset_definitions.py:6-26 | the four sets are pairwise disjoint and none is crypto |
| AssetDefinitions.CategoriesDistinct | tastyworksTaxes/asset_definitions.py:3-31 | no category appears twice in the table |
| AssetClassifier.FirstMatch | tastyworksTaxes/asset_classifier.py:16-24 | the first accepting rule, no earlier one accepts; none iff no rule accepts |
| AssetClassifier.Classify | tastyworksTaxes/asset_classifier.py:12-26 | options → upper-cased type; stocks → category of the first accepting rule, or INDIVIDUAL_STOCK if none |
| AssetClassifier.CategoryIndex | tastyworksTaxes/asset_classifier.py:28-38 | the first rule with that category, none iff there is none |
| AssetClassifier.Lookup | tastyworksTaxes/asset_classifier.py:28-38 | the rule found has that category; none iff no rule has it |
| AssetClassifier.GetTaxCategory | tastyworksTaxes/asset_classifier.py:28-32 | one of KAP-INV, SO and KAP; SO iff the classification is CRYPTO |
| AssetClassifier.GetExemptionPercentage | tastyworksTaxes/asset_classifier.py:34-38 | between 0 and 60; non-zero only for EQUITY_ETF, MIXED_FUND_ETF and REAL_ESTATE_ETF |
| AssetClassifier.GetAllSymbolsByType | tastyworksTaxes/asset_classifier.py:40-46 | a subset of the four listed sets; non-empty only for EQUITY_ETF, BOND_ETF, MIXED_FUND_ETF and REAL_ESTATE_ETF |
| AssetClassifier.WarningFor | tastyworksTaxes/asset_classifier.py:49-62 | a warning names its symbol; no warning iff the symbol classifies as EQUITY_ETF or BOND_ETF |
| AssetClassifier.Warnings | tastyworksTaxes/asset_classifier.py:48-62 | at most one warning per symbol; none iff no symbol draws one |
| AssetClassifier.Collect | tastyworksTaxes/asset_classifier.py:48-62 | one output at most per input |
| AssetClassifier.CollectEmptyIff | tastyworksTaxes/asset_classifier.py:48-62 | nothing collected iff nothing produced a value |
| AssetClassifier.CollectFrom | tastyworksTaxes/asset_classifier.py:48-62 | everything collected came from an input |
| AssetClassifier.CheckUnsupportedAssets | tastyworksTaxes/asset_classifier.py:48-62 | the loop returns the warnings of the symbols, in order, and never fails |
| AssetClassifier.OptionsClassifyByType | tastyworksTaxes/asset_classifier.py:13-14 | calls → "CALL", puts → "PUT" |
| AssetClassifier.ListedSymbolsClassify | tastyworksTaxes/asset_definitions.py:6-21 | a listed symbol classifies to its set's category |
| AssetClassifier.CryptoSymbolsClassify | tastyworksTaxes/asset_definitions.py:25-29 | a symbol the crypto predicate accepts classifies to CRYPTO |
| AssetClassifier.IndividualStockIffUnlisted | tastyworksTaxes/asset_classifier.py:16-26 | INDIVIDUAL_STOCK iff the symbol is in no set and not crypto |
| AssetClassifier.LookupFindsRule | tastyworksTaxes/asset_classifier.py:28-38 | every rule is found by its category |
| AssetClassifier.LookupMisses | tastyworksTaxes/asset_classifier.py:28-38 | an unknown category finds nothing |
| AssetClassifier.CategoryTable | tastyworksTaxes/asset_definitions.py:4-30 | 30/KAP-INV, 0/KAP-INV, 15/KAP-INV, 60/KAP-INV, CRYPTO 0/SO; unknown categories 0/KAP |
| AssetClassifier.SymbolsByTypeTable | tastyworksTaxes/asset_classifier.py:40-46 | the symbol set for each set category, {} for CRYPTO and unknown types |
| AssetClassifier.SymbolsByTypeClassifyBack | tastyworksTaxes/asset_classifier.py:40-46 | every symbol listed for a type classifies back to that type |
| AssetClassifier.NoWarningsIffEquityOrBond | tastyworksTaxes/asset_classifier.py:48-62 | no warning at all iff every symbol is an equity or bond ETF |
| AssetClassifier.WarnedIffNotEquityOrBond | tastyworksTaxes/asset_classifier.py:48-62 | one symbol is unflagged iff it is an equity or bond ETF |
| AssetClassifier.FlaggedSymbols | tastyworksTaxes/asset_classifier.py:52-62 | crypto → SO warning; mixed fund → 15 %; real estate → 60 %; unlisted → unknown fund type |
| AssetClassifier.WarningsNameTheirSymbols | tastyworksTaxes/asset_classifier.py:48-62 | every warning names one of the given symbols |
| AssetClassifier.CryptoExamples | test/test_asset_classifier.py:30-33 | BTC/USD, ETH/EUR and BTC are CRYPTO |
| AssetClassifier.IndividualStockExample | test/test_asset_classifier.py:35-37 | AAPL is an individual stock |
| AssetClassifier.ListedExamples | test/test_asset_classifier.py:12-28 | SCHG, TLT, AOM and IYR classify to their categories |
| LegacyPosition.UpdatePosition | tasty.py:430-436 | new = old + tx; second component 0; trade ≠ 0 iff \|new\| < \|old\|, then \|trade\| = min(\|tx\|, \|old\|) with the transaction's sign |
| LegacyPosition.TradeClosesOldPosition | tasty.py:430-436 | a reported trade opposes the old position and is no larger |
| LegacyPosition.TradeIsShrinkWithoutFlip | tasty.py:430-436 | without a flip the trade is exactly how much the position shrank |
| LegacyPosition.SameSideReportsNoTrade | tasty.py:432 | adding on the same side reports no trade |
| LegacyPosition.DoctestTable | tasty.py:401-425 | all eleven doctest rows |
| LegacyPosition.FlipExamples | tasty.py:432-434 | an overshooting flip reports 0, a partial one the closed part |
| TaxYears.Credited | tastyworksTaxes/tasty.py:41-67 | one bucket grows by m, all other buckets and the report stay |
| TaxYears.WithYear | tastyworksTaxes/tasty.py:29-32 | the year is present afterwards, an existing record is kept, a new one is empty, other years stay |
| TaxYears.WithYearOnce | tastyworksTaxes/tasty.py:29-32 | asking twice is asking once; an existing record is returned unchanged |
| TaxYears.MovementBucket | tastyworksTaxes/tasty.py:41-70 | the corrected routing of Findings row 2: a Withdrawal without description is a withdrawal and lending income has its own bucket; it raises exactly on a subcode outside the nine known ones, naming it |
| TaxYears.MovementRouting | tastyworksTaxes/tasty.py:44-63 | Wire Funds Received → deposit, FROM…THRU…@ → debit interest, else withdrawal; deposit is credit interest iff the text is INTEREST ON CREDIT BALANCE; transfer, credit and debit interest go to their own buckets |
| TaxYears.AsWrittenRaisesOnNaNWithdrawalAndLendingIncome | tastyworksTaxes/tasty.py:44-67 | as written, a Withdrawal without description and any lending income raise |
| TaxYears.CorrectedRoutingBooksThem | tastyworksTaxes/tasty.py:44-67 | corrected, they go to withdrawal and lending income; every other row routes as written |
| TaxYears.MovementBucketAsWritten | tastyworksTaxes/tasty.py:44-67 | where the code as written books a row, it books it where the corrected routing does; a row the corrected routing refuses is refused too |
| TaxYears.BookMovementKeepsOtherYears | tastyworksTaxes/tasty.py:34-67 | a booked movement raises nothing, adds its year, and leaves all other years |
| TaxYears.BookMovement | tastyworksTaxes/tasty.py:34-70 | routes by the corrected MovementBucket; a bad year raises and changes nothing; succeeds iff the year is accepted and the subcode routes; the years grow by at most the row's year, and every other year's record is kept |
| TaxYears.BookMovementTouchesOneBucket | tastyworksTaxes/tasty.py:34-67 | the year's routed bucket grows by the row's value; other buckets and the report stay |
| TaxYears.BookMovementFailures | tastyworksTaxes/tasty.py:36-70 | a bad year raises with no change; an unknown subcode raises after the year's record was created |
| TaxYears.ApplyRowsAppend | tastyworksTaxes/tasty.py:82-87 | processing two stretches is processing one, then the other unless the first raised |
| TaxYears.ApplyRows | tastyworksTaxes/tasty.py:82-87 | the set of years with a record only grows; no rows change nothing |
| TaxYears.IgnoredRowsChangeNothing | tastyworksTaxes/tasty.py:82-87 | rows of any other code change nothing |
| TaxYears.ApplyRowsExtendsLedger | tastyworksTaxes/tasty.py:82-87 | the realized-trade list only grows |
| TaxYears.ChronologicalHistory | tastyworksTaxes/tasty.py:78-81 | the history is processed in ascending date order, stable, none lost |
| TaxYears.TradesByYearKeys | tastyworksTaxes/tasty.py:89-104 | {} with no trades; a year is a key iff some trade closed in it |
| TaxYears.TradesByYear | tastyworksTaxes/tasty.py:89-104 | every year's list is non-empty and holds only trades that closed in that year |
| TaxYears.TradesByYearLists | tastyworksTaxes/tasty.py:96-104 | each year's list is exactly its trades, in order, and non-empty |
| TaxYears.TradesOfYearIsClosedIn | tastyworksTaxes/tasty.py:133-134 | a year's trades (or [] for a year without) are the trades closed in it |
| TaxYears.FinalizedFee | tastyworksTaxes/tasty.py:123-130 | the fee becomes fee − Σ trade fees; the other buckets stay |
| TaxYears.ReportedFeesAddUp | tastyworksTaxes/tasty.py:156-157 | reported stock fees + other fees = −Σ trade fees |
| TaxYears.Reported | tastyworksTaxes/tasty.py:119-161 | exactly the years that already have a record are reported |
| TaxYears.ReportedYears | tastyworksTaxes/tasty.py:123-161 | exactly the years already in the records are reported, each finalized with its closed trades |
| TaxYears.ComputeReport | tastyworksTaxes/tasty.py:138-157 | the report fields equal the calculator aggregates of the year's trades |
| TaxYears.Tasty.constructor | tastyworksTaxes/tasty.py:23-27 | the history is the given rows, no records, a fresh empty manager |
| TaxYears.Tasty.Year | tastyworksTaxes/tasty.py:29-32 | the records become WithYear of the old ones and the year's record is returned |
| TaxYears.Tasty.MoneyMovement | tastyworksTaxes/tasty.py:34-70 | records and failure are BookMovement of the old records, so the corrected routing books the two rows the code as written raises on |
| TaxYears.Tasty.ProcessTransactionHistory | tastyworksTaxes/tasty.py:78-87 | records, manager state and failure are ApplyRows over the date-sorted history |
| TaxYears.Tasty.GetYearlyTrades | tastyworksTaxes/tasty.py:89-104 | the loop's grouping equals TradesByYear of the closed trades |
| TaxYears.Tasty.RollUpFees | tastyworksTaxes/tasty.py:123-130 | the records become FeesRolled of the old ones |
| TaxYears.Tasty.FillReports | tastyworksTaxes/tasty.py:132-159 | the records become ReportsFilled of the old ones |
| TaxYears.Tasty.Run | tastyworksTaxes/tasty.py:119-161 | after a processing error the state is what processing left; otherwise the result is Reported of the processed records and trades |

## Left out

- CSV loading and pandas plumbing (`History`, `Transaction.fromString`,
  `__repr__`) are not part of this model. A transaction is a plain `Row`,
  and `Tasty` is constructed from the rows.
- The currency converter is a function parameter of
  `Monetary.Construct`/`Monetary.FromUsdToEur`. The converter itself is
  not modelled.
- Logging is not modelled:
  - every `logger` call is left out;
  - the warnings of `check_unsupported_assets` are returned as a list;
  - `run`'s call of `_checkAssetClassifications` is left out because it
    only logs.
- `printer.py`, both `main.py` files, `legacy.py` and `Tasty.print` format
  or print only and are not part of this model.
- Regular expressions are not modelled. A row's description is given
  pre-parsed:
  - missing, or text;
  - whether it quotes an option symbol;
  - the first ratio pair found by the three patterns;
  - whether it matches the `FROM .. THRU .. @` debit-interest pattern.

  Only the case-insensitive "reverse" test is computed.
- Manager.SplitRatio: a ratio pair with a zero component raises
  ZeroDivision in the model. Python raises it only when the zero is the
  divisor.
- A reverse split whose description is missing raises TypeError in the
  model, as `re.search` on a NaN description does.
- Dates are `DateTime(year, tick)`, ordered by year and then tick.
  `strftime`/`strptime` formatting is not modelled.
- Floating point is not modelled. Money is `real` and quantities are `int`.
  - For integer quantities, the 1e-6 tolerances of `is_empty` and the close
    loop are exact zero tests.
  - Rounding of float products is not modelled.
- Manager.PositionManager: the lots of a queue are value snapshots, not
  shared objects.
  - The head lot is loaded into a `PositionLot` object, consumed or
    split in place, and stored back.
  - Aliasing of a lot between the manager and a caller (for example a lot
    given to `add_lot_directly` and changed later) is not modelled.
- Manager.PositionManager.GetAllOpenLots: states that the result is
  date-sorted and has the same lots. It does not state the order of lots
  with equal dates, which the source takes from dict iteration order.
- Iteration order is not modelled for `yearValues` in
  TaxYears.Tasty.RollUpFees, TaxYears.Tasty.FillReports and
  TaxYears.Tasty.Run.
  - Each year's update does not depend on any other year.
  - The methods copy the records into a local map and assign the field once.
- Shared class-level `Money()` defaults in `values.py` are not modelled.
  Each record starts with its own zeros. The `+` used on buckets builds new
  objects, so no aliasing is observable.
- `Values` holds the fields `run` writes as one `Report`. The legacy fields
  `run` never writes (`stockSum`, `optionProfits` and the like) stay zero
  in the source and are not modelled.
- The overclose is not atomic. The closed slices stay recorded and the
  emptied queue stays deleted when "more than available" is raised (see
  ManagerExamples.OvercloseIsNotAtomic).
- `run` reports only years that already have a record from a money
  movement. Trades closed in a year without any money movement are not
  reported. The model keeps this behaviour.
- The superseded root copies (`transaction.py`, `money.py`, `position.py`,
  `history.py`) and root `tasty.py` apart from `_updatePosition` are not
  part of this model. Neither are the `Position`/`Stock`/`Option` classes
  of `position.py`, which the core does not use.
- `getDate`, `getDateTime`, `getExpiry`, `getStrike` and `isType` are field
  reads. They appear only as fields of `Row`.
- TaxYears.MovementBucket / TaxYears.BookMovement / TaxYears.Tasty.MoneyMovement:
  the driver (`ApplyRows`, `ProcessTransactionHistory`, `Run`) books money
  movements by the corrected routing of Findings row 2, not by the code as
  written. A Withdrawal with a missing (NaN) description is booked as a
  withdrawal, where `tastyworksTaxes/tasty.py:45` raises TypeError. A
  "Fully Paid Stock Lending Income" row is added to
  `securitiesLendingIncome`, where `tastyworksTaxes/tasty.py:67` raises
  AttributeError because `values.py` does not declare that field. The
  as-written routing is `TaxYears.MovementBucketAsWritten`, and
  `TaxYears.AsWrittenRaisesOnNaNWithdrawalAndLendingIncome` shows the two
  raises.
- A reverse-split ratio from a configuration file is not modelled. The code
  has only the hard-coded USO ratio of 1/8.

## Findings

| source | as written | input that shows it | evidently intended | confidence | as-written member | corrected member |
|---|---|---|---|---|---|---|
| tastyworksTaxes/fifo_processor.py:26-39 | the trade's sign and worthless flag read `opening_lot.quantity` after `consume` has reduced the lot | a long lot of n units closed completely by an Expiration: its quantity is 0 by then, so the trade gets −n and `worthless_expiry` is false | the side of the lot before consumption: +n and worthless (test/test_quantity_sign_fix.py:49-60) | high, not executed | Fifo.AsWrittenMisreadsFullyClosedLongLot | Fifo.CloseSlice |
| tastyworksTaxes/tasty.py:44-67 | the Withdrawal branch tests `"Wire Funds Received" in desc` on the raw description; lending income is added to `securitiesLendingIncome`, which `Values` does not declare | a Withdrawal with an empty description (NaN): `in` on a float raises TypeError; any "Fully Paid Stock Lending Income" row: reading the undeclared attribute raises AttributeError | the empty-description Withdrawal is booked as a withdrawal (test/test_nan_description_edge_cases.py:9-24); lending income goes to its own bucket, `securitiesLendingIncome`, which test/test_tasty.py:83-86 reads back and tastyworksTaxes/printer.py:362 and :376 print | high, not executed | TaxYears.AsWrittenRaisesOnNaNWithdrawalAndLendingIncome | TaxYears.CorrectedRoutingBooksThem |
