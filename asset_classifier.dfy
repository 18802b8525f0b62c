/**
 * The asset classifier (tastyworksTaxes/asset_classifier.py): a first-match
 * search of the stock rules, lookups by category with defaults, and the
 * warnings about assets the tax report does not handle, returned as a list.
 */
module AssetClassifier {
  import opened Wrappers
  import opened Positions
  import opened AssetDefinitions

  const IndividualStock: string := "INDIVIDUAL_STOCK"
  const Kap: string := "KAP"

  /** The index of the first rule that accepts the symbol. */
  function FirstMatch(rules: seq<Definition>, symbol: string): (r: Option<nat>)
    ensures r.Some? ==>
      && r.value < |rules| && Accepts(rules[r.value].checker, symbol)
      && forall j :: 0 <= j < r.value ==> !Accepts(rules[j].checker, symbol)
    ensures r.None? ==> forall j :: 0 <= j < |rules| ==> !Accepts(rules[j].checker, symbol)
  {
    if rules == [] then None
    else if Accepts(rules[0].checker, symbol) then Some(0)
    else match FirstMatch(rules[1..], symbol)
      case None => None
      case Some(i) => Some(i + 1)
  }

  /** `classify`: options by their type's name; stocks by the first matching rule. */
  function Classify(symbol: string, positionType: PositionType): (r: string)
    ensures positionType != Stock ==> r == UpperName(positionType)
    ensures positionType == Stock ==>
      || (exists i :: 0 <= i < |StockRules| && Accepts(StockRules[i].checker, symbol)
            && StockRules[i].category == r
            && forall j :: 0 <= j < i ==> !Accepts(StockRules[j].checker, symbol))
      || ((forall j :: 0 <= j < |StockRules| ==> !Accepts(StockRules[j].checker, symbol)) && r == IndividualStock)
  {
    if positionType != Stock then UpperName(positionType)
    else match FirstMatch(StockRules, symbol)
      case Some(i) => StockRules[i].category
      case None => IndividualStock
  }

  /** The index of the first rule with the category, if any. */
  function CategoryIndex(rules: seq<Definition>, category: string): (r: Option<nat>)
    ensures r.Some? ==>
      && r.value < |rules| && rules[r.value].category == category
      && forall j :: 0 <= j < r.value ==> rules[j].category != category
    ensures r.None? ==> forall j :: 0 <= j < |rules| ==> rules[j].category != category
  {
    if rules == [] then None
    else if rules[0].category == category then Some(0)
    else match CategoryIndex(rules[1..], category)
      case None => None
      case Some(i) => Some(i + 1)
  }

  /** The rule of a category the table has. */
  function Lookup(category: string): (r: Option<Definition>)
    ensures r.Some? ==> r.value in StockRules && r.value.category == category
    ensures r.None? ==> forall j :: 0 <= j < |StockRules| ==> StockRules[j].category != category
  {
    match CategoryIndex(StockRules, category)
    case Some(i) => Some(StockRules[i])
    case None => None
  }

  /** `get_tax_category`: the rule's label, "KAP" for a category the table does not have. */
  function GetTaxCategory(classification: string): (r: string)
    ensures r == KapInv || r == So || r == Kap
    ensures r == So <==> classification == Crypto
  {
    match Lookup(classification)
    case Some(d) => d.taxCategory
    case None => assert StockRules[4].category == Crypto; Kap
  }

  /** `get_exemption_percentage`: the rule's percentage; 0 when it has none or is unknown. */
  function GetExemptionPercentage(classification: string): (r: int)
    ensures 0 <= r <= 60
    ensures r != 0 ==> classification == EquityEtf || classification == MixedFundEtf || classification == RealEstateEtf
  {
    match Lookup(classification)
    case Some(d) => d.exemptionPct.GetOr(0)
    case None => 0
  }

  /** `get_all_symbols_by_type`: a fixed-set category's symbols, otherwise the empty set. */
  function GetAllSymbolsByType(assetType: string): (r: set<string>)
    ensures r <= EquitySymbols + BondSymbols + MixedFundSymbols + RealEstateSymbols
    ensures r != {} ==> assetType == EquityEtf || assetType == BondEtf || assetType == MixedFundEtf || assetType == RealEstateEtf
  {
    match Lookup(assetType)
    case Some(d) => if d.checker.SymbolSet? then d.checker.symbols else {}
    case None => {}
  }

  /** The three warnings `check_unsupported_assets` logs. */
  datatype Warning =
    | UnsupportedTaxCategory(symbol: string, classification: string)  // belongs in Anlage SO
    | UnknownFundType(symbol: string)                                 // treated as an individual stock
    | SpecialFundType(symbol: string, classification: string, exemptionPct: int)

  /** The warning for one symbol, classified as a stock, or none. */
  function WarningFor(symbol: string): (r: Option<Warning>)
    ensures r.Some? ==> r.value.symbol == symbol
    ensures r.None? <==> Classify(symbol, Stock) == EquityEtf || Classify(symbol, Stock) == BondEtf
  {
    var classification := Classify(symbol, Stock);
    if GetTaxCategory(classification) == So then Some(UnsupportedTaxCategory(symbol, classification))
    else if classification == IndividualStock then Some(UnknownFundType(symbol))
    else if classification == MixedFundEtf || classification == RealEstateEtf then
      Some(SpecialFundType(symbol, classification, GetExemptionPercentage(classification)))
    else None
  }

  /** The present values of `f` over `xs`, in order. */
  function Collect<T, U>(xs: seq<T>, f: T -> Option<U>): (r: seq<U>)
    ensures |r| <= |xs|
  {
    if xs == [] then []
    else Collect(xs[..|xs| - 1], f) + (match f(xs[|xs| - 1]) case Some(y) => [y] case None => [])
  }

  lemma CollectSnoc<T, U>(xs: seq<T>, x: T, f: T -> Option<U>)
    ensures Collect(xs + [x], f) == Collect(xs, f) + (match f(x) case Some(y) => [y] case None => [])
  {
    assert (xs + [x])[..|xs|] == xs;
  }

  /** The collection is empty exactly when `f` gives nothing for every element. */
  lemma {:induction false} CollectEmptyIff<T, U>(xs: seq<T>, f: T -> Option<U>)
    ensures Collect(xs, f) == [] <==> forall i :: 0 <= i < |xs| ==> f(xs[i]).None?
  {
    if xs != [] {
      var init := xs[..|xs| - 1];
      CollectEmptyIff(init, f);
      assert forall i :: 0 <= i < |init| ==> init[i] == xs[i];
    }
  }

  /** Every collected value is the value of some element. */
  lemma {:induction false} CollectFrom<T, U>(xs: seq<T>, f: T -> Option<U>, y: U)
    requires y in Collect(xs, f)
    ensures exists i :: 0 <= i < |xs| && f(xs[i]) == Some(y)
  {
    var init := xs[..|xs| - 1];
    if y in Collect(init, f) {
      CollectFrom(init, f, y);
      var i :| 0 <= i < |init| && f(init[i]) == Some(y);
      assert xs[i] == init[i];
    } else {
      assert f(xs[|xs| - 1]) == Some(y);
    }
  }

  /** The warnings for a list of symbols, in their order. */
  function Warnings(symbols: seq<string>): (r: seq<Warning>)
    ensures |r| <= |symbols|
    ensures r == [] <==> forall i :: 0 <= i < |symbols| ==> WarningFor(symbols[i]).None?
  {
    CollectEmptyIff(symbols, WarningFor);
    Collect(symbols, WarningFor)
  }

  /** `check_unsupported_assets`: it never raises and reports what it would log. */
  method CheckUnsupportedAssets(symbols: seq<string>) returns (warnings: seq<Warning>)
    ensures warnings == Warnings(symbols)
  {
    warnings := [];
    for i := 0 to |symbols|
      invariant warnings == Warnings(symbols[..i])
    {
      assert symbols[..i + 1] == symbols[..i] + [symbols[i]];
      CollectSnoc(symbols[..i], symbols[i], WarningFor);
      match WarningFor(symbols[i])
      case Some(w) => warnings := warnings + [w];
      case None =>
    }
    assert symbols[..|symbols|] == symbols;
  }

  // ---- Properties -----------------------------------------------------------

  /** Options classify by type, whatever the symbol. */
  lemma OptionsClassifyByType(symbol: string)
    ensures Classify(symbol, Call) == "CALL" && Classify(symbol, Put) == "PUT"
  {
  }

  /** Every symbol of a fixed set gets its own category: no earlier rule takes it. */
  lemma ListedSymbolsClassify(symbol: string)
    ensures symbol in EquitySymbols ==> Classify(symbol, Stock) == EquityEtf
    ensures symbol in BondSymbols ==> Classify(symbol, Stock) == BondEtf
    ensures symbol in MixedFundSymbols ==> Classify(symbol, Stock) == MixedFundEtf
    ensures symbol in RealEstateSymbols ==> Classify(symbol, Stock) == RealEstateEtf
  {
    SymbolSetsDisjoint();
    var i := FirstMatch(StockRules, symbol);
    if symbol in EquitySymbols {
      assert Accepts(StockRules[0].checker, symbol);
    } else if symbol in BondSymbols {
      assert Accepts(StockRules[1].checker, symbol);
    } else if symbol in MixedFundSymbols {
      assert Accepts(StockRules[2].checker, symbol);
    } else if symbol in RealEstateSymbols {
      assert Accepts(StockRules[3].checker, symbol);
    }
  }

  /** Every symbol the crypto predicate accepts classifies as CRYPTO. */
  lemma CryptoSymbolsClassify(symbol: string)
    requires IsCrypto(symbol)
    ensures Classify(symbol, Stock) == Crypto
  {
    SymbolSetsDisjoint();
    assert symbol !in EquitySymbols + BondSymbols + MixedFundSymbols + RealEstateSymbols;
    assert Accepts(StockRules[4].checker, symbol);
  }

  /** A stock is an individual stock exactly when no rule accepts it. */
  lemma IndividualStockIffUnlisted(symbol: string)
    ensures Classify(symbol, Stock) == IndividualStock <==>
      symbol !in EquitySymbols + BondSymbols + MixedFundSymbols + RealEstateSymbols && !IsCrypto(symbol)
  {
    ListedSymbolsClassify(symbol);
    if IsCrypto(symbol) {
      CryptoSymbolsClassify(symbol);
    } else if symbol !in EquitySymbols + BondSymbols + MixedFundSymbols + RealEstateSymbols {
      forall j | 0 <= j < |StockRules|
        ensures !Accepts(StockRules[j].checker, symbol)
      {
      }
    }
  }

  /** Each rule is found under its own category. */
  lemma LookupFindsRule(i: nat)
    requires i < |StockRules|
    ensures Lookup(StockRules[i].category) == Some(StockRules[i])
  {
    CategoriesDistinct();
    var r := CategoryIndex(StockRules, StockRules[i].category);
    assert r.Some? && r.value == i;
  }

  /** A name that is not one of the five categories is not found. */
  lemma LookupMisses(category: string)
    requires category !in {EquityEtf, BondEtf, MixedFundEtf, RealEstateEtf, Crypto}
    ensures Lookup(category) == None
  {
    assert forall j :: 0 <= j < |StockRules| ==> StockRules[j].category in {EquityEtf, BondEtf, MixedFundEtf, RealEstateEtf, Crypto};
  }

  /** The percentage and label of each category, and the defaults for any other name. */
  lemma CategoryTable(classification: string)
    ensures GetExemptionPercentage(EquityEtf) == 30 && GetTaxCategory(EquityEtf) == KapInv
    ensures GetExemptionPercentage(BondEtf) == 0 && GetTaxCategory(BondEtf) == KapInv
    ensures GetExemptionPercentage(MixedFundEtf) == 15 && GetTaxCategory(MixedFundEtf) == KapInv
    ensures GetExemptionPercentage(RealEstateEtf) == 60 && GetTaxCategory(RealEstateEtf) == KapInv
    ensures GetExemptionPercentage(Crypto) == 0 && GetTaxCategory(Crypto) == So
    ensures classification !in {EquityEtf, BondEtf, MixedFundEtf, RealEstateEtf, Crypto} ==>
      GetExemptionPercentage(classification) == 0 && GetTaxCategory(classification) == Kap
      && GetAllSymbolsByType(classification) == {}
  {
    LookupFindsRule(0);
    LookupFindsRule(1);
    LookupFindsRule(2);
    LookupFindsRule(3);
    LookupFindsRule(4);
    if classification !in {EquityEtf, BondEtf, MixedFundEtf, RealEstateEtf, Crypto} {
      LookupMisses(classification);
    }
  }

  /** The fixed sets come back whole; the crypto category has no set. */
  lemma SymbolsByTypeTable()
    ensures GetAllSymbolsByType(EquityEtf) == EquitySymbols
    ensures GetAllSymbolsByType(BondEtf) == BondSymbols
    ensures GetAllSymbolsByType(MixedFundEtf) == MixedFundSymbols
    ensures GetAllSymbolsByType(RealEstateEtf) == RealEstateSymbols
    ensures GetAllSymbolsByType(Crypto) == {}
  {
    LookupFindsRule(0);
    LookupFindsRule(1);
    LookupFindsRule(2);
    LookupFindsRule(3);
    LookupFindsRule(4);
  }

  /** Every set `get_all_symbols_by_type` returns classifies back to the category asked for. */
  lemma SymbolsByTypeClassifyBack(assetType: string, symbol: string)
    requires symbol in GetAllSymbolsByType(assetType)
    ensures Classify(symbol, Stock) == assetType
  {
    ListedSymbolsClassify(symbol);
    if assetType !in {EquityEtf, BondEtf, MixedFundEtf, RealEstateEtf, Crypto} {
      CategoryTable(assetType);
    }
  }

  /** No warning at all exactly when every symbol is an equity or bond ETF. */
  lemma NoWarningsIffEquityOrBond(symbols: seq<string>)
    ensures Warnings(symbols) == [] <==>
      forall i :: 0 <= i < |symbols| ==> symbols[i] in EquitySymbols + BondSymbols
  {
    CollectEmptyIff(symbols, WarningFor);
    forall i | 0 <= i < |symbols|
      ensures WarningFor(symbols[i]).None? <==> symbols[i] in EquitySymbols + BondSymbols
    {
      WarnedIffNotEquityOrBond(symbols[i]);
    }
  }

  /** One symbol draws a warning exactly when it is neither an equity nor a bond ETF. */
  lemma WarnedIffNotEquityOrBond(s: string)
    ensures WarningFor(s).None? <==> s in EquitySymbols + BondSymbols
  {
    ListedSymbolsClassify(s);
    IndividualStockIffUnlisted(s);
    CategoryTable(Classify(s, Stock));
    if IsCrypto(s) {
      CryptoSymbolsClassify(s);
    }
    if s !in EquitySymbols + BondSymbols && !IsCrypto(s) {
      var c := Classify(s, Stock);
      assert c == MixedFundEtf || c == RealEstateEtf || c == IndividualStock;
    }
  }

  /** A symbol the table does not know and the Anlage SO and special-fund symbols each get their warning. */
  lemma FlaggedSymbols(symbol: string)
    ensures IsCrypto(symbol) ==> WarningFor(symbol) == Some(UnsupportedTaxCategory(symbol, Crypto))
    ensures symbol in MixedFundSymbols ==> WarningFor(symbol) == Some(SpecialFundType(symbol, MixedFundEtf, 15))
    ensures symbol in RealEstateSymbols ==> WarningFor(symbol) == Some(SpecialFundType(symbol, RealEstateEtf, 60))
    ensures symbol !in EquitySymbols + BondSymbols + MixedFundSymbols + RealEstateSymbols && !IsCrypto(symbol) ==>
      WarningFor(symbol) == Some(UnknownFundType(symbol))
  {
    ListedSymbolsClassify(symbol);
    IndividualStockIffUnlisted(symbol);
    CategoryTable(Classify(symbol, Stock));
    if IsCrypto(symbol) {
      CryptoSymbolsClassify(symbol);
    }
  }

  /** Each warning names one of the symbols it was asked about. */
  lemma WarningsNameTheirSymbols(symbols: seq<string>, w: Warning)
    requires w in Warnings(symbols)
    ensures w.symbol in symbols
  {
    CollectFrom(symbols, WarningFor, w);
  }

  /** Pairs quoted in dollars or euros, and bare coins, are crypto. */
  lemma CryptoExamples(btcUsd: string, ethEur: string)
    requires btcUsd == "BTC/USD" && ethEur == "ETH/EUR"
    ensures Classify(btcUsd, Stock) == Crypto && Classify(ethEur, Stock) == Crypto
    ensures Classify("BTC", Stock) == Crypto
  {
    assert btcUsd[|btcUsd| - 4..] == "/USD";
    CryptoSymbolsClassify(btcUsd);
    assert ethEur[|ethEur| - 4..] == "/EUR";
    CryptoSymbolsClassify(ethEur);
    CryptoSymbolsClassify("BTC");
  }

  /** A symbol in no rule is an individual stock. */
  lemma IndividualStockExample(aapl: string)
    requires aapl == "AAPL"
    ensures Classify(aapl, Stock) == IndividualStock
  {
    AaplUnlisted(aapl);
    IndividualStockIffUnlisted(aapl);
  }

  lemma AaplUnlisted(aapl: string)
    requires aapl == "AAPL"
    ensures aapl !in EquitySymbols + BondSymbols + MixedFundSymbols + RealEstateSymbols && !IsCrypto(aapl)
  {
    assert aapl[|aapl| - 4..] == aapl;
  }

  lemma ListedExamples()
    ensures Classify("SCHG", Stock) == EquityEtf && Classify("TLT", Stock) == BondEtf
    ensures Classify("AOM", Stock) == MixedFundEtf && Classify("IYR", Stock) == RealEstateEtf
  {
    ListedSymbolsClassify("SCHG");
    ListedSymbolsClassify("TLT");
    ListedSymbolsClassify("AOM");
    ListedSymbolsClassify("IYR");
  }
}
