/**
 * A two-currency amount (EUR and USD) with componentwise arithmetic
 * (tastyworksTaxes/money.py).
 */
module Monetary {
  import opened Wrappers

  datatype Money = Money(eur: real, usd: real)

  /** `Money()`: both components zero. */
  const Zero: Money := Money(0.0, 0.0)

  /**
   * The constructor's defaulting rule without a date: an explicit non-zero
   * amount wins; a zero one falls back to the row's `Amount` (usd) or
   * `AmountEuro` (eur) column when the row has that column.
   */
  function FromRow(eur: real, usd: real, amount: Option<real>, amountEuro: Option<real>): (m: Money)
    ensures usd != 0.0 ==> m.usd == usd
    ensures usd == 0.0 ==> m.usd == amount.GetOr(0.0)
    ensures eur != 0.0 ==> m.eur == eur
    ensures eur == 0.0 ==> m.eur == amountEuro.GetOr(0.0)
  {
    var u := if usd != 0.0 then usd else if amount.Some? then amount.value else usd;
    var e := if eur != 0.0 then eur else if amountEuro.Some? then amountEuro.value else eur;
    Money(e, u)
  }

  /**
   * The full constructor: after defaulting, a non-empty date and a non-zero
   * usd replace eur by the converted usd. The converter is a parameter.
   */
  function Construct<D>(eur: real, usd: real, amount: Option<real>, amountEuro: Option<real>,
                        date: Option<D>, convert: (real, D) -> real): (m: Money)
    ensures m.usd == FromRow(eur, usd, amount, amountEuro).usd
    ensures date.None? || m.usd == 0.0 ==> m == FromRow(eur, usd, amount, amountEuro)
    ensures date.Some? && m.usd != 0.0 ==> m.eur == convert(m.usd, date.value)
  {
    var m := FromRow(eur, usd, amount, amountEuro);
    if date.Some? && m.usd != 0.0 then FromUsdToEur(m, date.value, convert) else m
  }

  /** Replaces eur by the conversion of usd at the given date. */
  function FromUsdToEur<D>(m: Money, date: D, convert: (real, D) -> real): (r: Money)
    ensures r.usd == m.usd
    ensures r.eur == convert(m.usd, date)
  {
    m.(eur := convert(m.usd, date))
  }

  /** `__add__`, componentwise; subtracting either summand gives back the other. */
  function Add(a: Money, b: Money): (r: Money)
    ensures Sub(r, b) == a && Sub(r, a) == b
  {
    Money(a.eur + b.eur, a.usd + b.usd)
  }

  /** `__sub__`, componentwise: the difference is what must be added to `b` to reach `a`. */
  function Sub(a: Money, b: Money): (r: Money)
    ensures r.eur + b.eur == a.eur && r.usd + b.usd == a.usd
  {
    Money(a.eur - b.eur, a.usd - b.usd)
  }

  /** Negation goes through the constructor with both amounts negated and no row. */
  function Neg(m: Money): (r: Money)
    ensures r.eur == -m.eur && r.usd == -m.usd
  {
    FromRow(-m.eur, -m.usd, None, None)
  }

  lemma ZeroIsDefault()
    ensures FromRow(0.0, 0.0, None, None) == Zero
  {
  }

  lemma NegInvolutive(m: Money)
    ensures Neg(Neg(m)) == m
  {
  }

  lemma SubIsAddNeg(a: Money, b: Money)
    ensures Sub(a, b) == Add(a, Neg(b))
  {
  }

  lemma AddCommutative(a: Money, b: Money)
    ensures Add(a, b) == Add(b, a)
  {
  }

  lemma AddAssociative(a: Money, b: Money, c: Money)
    ensures Add(Add(a, b), c) == Add(a, Add(b, c))
  {
  }

  lemma AddZero(a: Money)
    ensures Add(a, Zero) == a && Add(Zero, a) == a
  {
  }
}
