/**
 * The asset rule table for stock positions (tastyworksTaxes/asset_definitions.py):
 * an ordered list of categories, each with either a fixed symbol set or the
 * crypto predicate, an optional partial-exemption percentage
 * ("Teilfreistellung") and the label of the tax form section.
 */
module AssetDefinitions {
  import opened Wrappers

  /** How a category recognises its symbols. */
  datatype Checker = SymbolSet(symbols: set<string>) | CryptoCheck

  /** One rule: `properties` holds at most the exemption percentage. */
  datatype Definition = Definition(category: string, checker: Checker, exemptionPct: Option<int>, taxCategory: string)

  const EquityEtf: string := "EQUITY_ETF"
  const BondEtf: string := "BOND_ETF"
  const MixedFundEtf: string := "MIXED_FUND_ETF"
  const RealEstateEtf: string := "REAL_ESTATE_ETF"
  const Crypto: string := "CRYPTO"

  const KapInv: string := "KAP-INV"
  const So: string := "SO"

  const EquitySymbols: set<string> := {"SCHG", "TECL", "QQQ", "SPY", "VTI", "VXUS"}
  const BondSymbols: set<string> := {"PULS", "VGSH", "ICSH", "TLT", "BND", "AGG"}
  const MixedFundSymbols: set<string> := {"AOM", "AOR", "AOK", "AOA"}
  const RealEstateSymbols: set<string> := {"VNQ", "IYR", "VNQI", "RWR"}
  const CryptoCoins: set<string> := {"BTC", "ETH", "DOGE"}

  predicate EndsWith(s: string, suffix: string)
  {
    |suffix| <= |s| && s[|s| - |suffix|..] == suffix
  }

  /** The CRYPTO rule's predicate: a /USD or /EUR pair, or one of three coins. */
  predicate IsCrypto(symbol: string)
    ensures IsCrypto(symbol) ==> symbol in CryptoCoins || (4 <= |symbol| && symbol[|symbol| - 4] == '/')
  {
    EndsWith(symbol, "/USD") || EndsWith(symbol, "/EUR") || symbol in CryptoCoins
  }

  /** The stock rules in the table's order. */
  const StockRules: seq<Definition> := [
    Definition(EquityEtf, SymbolSet(EquitySymbols), Some(30), KapInv),
    Definition(BondEtf, SymbolSet(BondSymbols), Some(0), KapInv),
    Definition(MixedFundEtf, SymbolSet(MixedFundSymbols), Some(15), KapInv),
    Definition(RealEstateEtf, SymbolSet(RealEstateSymbols), Some(60), KapInv),
    Definition(Crypto, CryptoCheck, None, So)
  ]

  predicate Accepts(checker: Checker, symbol: string)
  {
    match checker
    case SymbolSet(symbols) => symbol in symbols
    case CryptoCheck => IsCrypto(symbol)
  }

  /** No symbol of a fixed set ends in a currency pair suffix or is one of the coins. */
  lemma FixedSymbolsAreShort(s: string)
    requires s in EquitySymbols + BondSymbols + MixedFundSymbols + RealEstateSymbols
    ensures |s| <= 4 && '/' !in s && s !in CryptoCoins
  {
  }

  /**
   * The four symbol sets are pairwise disjoint and none of their symbols is
   * accepted by the crypto predicate, so the order of the rules decides
   * nothing for a listed symbol.
   */
  lemma SymbolSetsDisjoint()
    ensures EquitySymbols !! BondSymbols && EquitySymbols !! MixedFundSymbols
    ensures EquitySymbols !! RealEstateSymbols && BondSymbols !! MixedFundSymbols
    ensures BondSymbols !! RealEstateSymbols && MixedFundSymbols !! RealEstateSymbols
    ensures forall s :: s in EquitySymbols + BondSymbols + MixedFundSymbols + RealEstateSymbols ==> !IsCrypto(s)
  {
    forall s | s in EquitySymbols + BondSymbols + MixedFundSymbols + RealEstateSymbols
      ensures !IsCrypto(s)
    {
      FixedSymbolsAreShort(s);
    }
  }

  /** The categories are distinct, so looking one up by name is unambiguous. */
  lemma CategoriesDistinct()
    ensures forall i, j :: 0 <= i < j < |StockRules| ==> StockRules[i].category != StockRules[j].category
  {
  }
}
