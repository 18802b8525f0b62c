/** One open lot and its in-place consumption and split adjustment (tastyworksTaxes/position_lot.py). */
module Lots {
  import opened Wrappers
  import opened Positions
  import opened Transactions

  function Abs(x: int): nat
  {
    if x < 0 then -x else x
  }

  function RealAbs(x: real): real
  {
    if x < 0.0 then -x else x
  }

  function Floor(x: real): int
  {
    x.Floor
  }

  function Ceil(x: real): int
  {
    -((-x).Floor)
  }

  /** A value snapshot of an open lot. */
  datatype Lot = Lot(
    symbol: string,
    positionType: PositionType,
    quantity: int,              // positive long, negative short
    amountUsd: real,            // remaining cost basis
    amountEur: real,
    feesUsd: real,
    feesEur: real,
    date: DateTime,             // opening date
    strike: Option<real>,
    expiry: Option<DateTime>,
    callPut: Option<string>)

  /** The consumed share of a lot's four money fields. */
  datatype Consumed = Consumed(amountUsd: real, amountEur: real, feesUsd: real, feesEur: real)

  /** Same instrument: symbol and type, and for options also strike, expiry and call/put. */
  predicate Matches(lot: Lot, symbol: string, positionType: PositionType,
                    strike: Option<real>, expiry: Option<DateTime>, callPut: Option<string>)
    ensures Matches(lot, symbol, positionType, strike, expiry, callPut) ==>
      lot.symbol == symbol && lot.positionType == positionType
  {
    if lot.symbol != symbol || lot.positionType != positionType then false
    else if positionType == Stock then true
    else lot.strike == strike && lot.expiry == expiry && lot.callPut == callPut
  }

  /** Opposite signs: the closing quantity reduces this lot. */
  predicate CanCloseWith(lot: Lot, closingQuantity: int)
    ensures CanCloseWith(lot, closingQuantity) ==> lot.quantity != 0 && closingQuantity != 0
  {
    lot.quantity * closingQuantity < 0
  }

  function ClosableQuantity(lot: Lot, requested: int): (r: nat)
    ensures r <= Abs(requested) && r <= Abs(lot.quantity)
    ensures r == Abs(requested) || r == Abs(lot.quantity)
  {
    if Abs(requested) < Abs(lot.quantity) then Abs(requested) else Abs(lot.quantity)
  }

  /** The 1e-6 tolerance of the source, applied to an integer quantity. */
  predicate IsEmpty(lot: Lot)
    ensures IsEmpty(lot) <==> lot.quantity == 0
  {
    RealAbs(lot.quantity as real) < 0.000001
  }

  /**
   * `consume(n)`: take the share n/|quantity| of each money field and move
   * the quantity n units toward zero. Consuming more than the lot holds is
   * refused; a zero lot with n = 0 divides zero by zero.
   */
  function ConsumeLot(lot: Lot, n: int): (r: Result<(Lot, Consumed)>)
    ensures r.Err? <==> Abs(n) > Abs(lot.quantity) || lot.quantity == 0
    ensures Abs(n) > Abs(lot.quantity) ==> r == Err(ConsumeExceedsLot)
    ensures r.Err? && Abs(n) <= Abs(lot.quantity) ==> r == Err(ZeroDivision)
    ensures r.Ok? ==>
      var (rest, c) := r.value;
      && rest.amountUsd + c.amountUsd == lot.amountUsd
      && rest.amountEur + c.amountEur == lot.amountEur
      && rest.feesUsd + c.feesUsd == lot.feesUsd
      && rest.feesEur + c.feesEur == lot.feesEur
      && rest == lot.(quantity := rest.quantity, amountUsd := rest.amountUsd, amountEur := rest.amountEur,
                      feesUsd := rest.feesUsd, feesEur := rest.feesEur)
  {
    if Abs(n) > Abs(lot.quantity) then Err(ConsumeExceedsLot)
    else if lot.quantity == 0 then Err(ZeroDivision)
    else
      var share := n as real / Abs(lot.quantity) as real;
      var c := Consumed(lot.amountUsd * share, lot.amountEur * share, lot.feesUsd * share, lot.feesEur * share);
      var sign := if lot.quantity > 0 then 1 else -1;
      Ok((lot.(quantity := lot.quantity - sign * n,
               amountUsd := lot.amountUsd - c.amountUsd,
               amountEur := lot.amountEur - c.amountEur,
               feesUsd := lot.feesUsd - c.feesUsd,
               feesEur := lot.feesEur - c.feesEur), c))
  }

  /** A consumption that is not refused takes `share` of each money field and moves the quantity n toward zero. */
  lemma ConsumeLotTakesShare(lot: Lot, n: int, share: real)
    requires Abs(n) <= Abs(lot.quantity) && lot.quantity != 0 && share == n as real / Abs(lot.quantity) as real
    ensures var c := Consumed(lot.amountUsd * share, lot.amountEur * share, lot.feesUsd * share, lot.feesEur * share);
      var sign := if lot.quantity > 0 then 1 else -1;
      ConsumeLot(lot, n) == Ok((Lot(lot.symbol, lot.positionType, lot.quantity - sign * n,
                                    lot.amountUsd - c.amountUsd, lot.amountEur - c.amountEur,
                                    lot.feesUsd - c.feesUsd, lot.feesEur - c.feesEur,
                                    lot.date, lot.strike, lot.expiry, lot.callPut), c))
  {
    assert ConsumeLot(lot, n).Ok?;
    var share' := n as real / Abs(lot.quantity) as real;
    assert share' == share;
    var c := Consumed(lot.amountUsd * share, lot.amountEur * share, lot.feesUsd * share, lot.feesEur * share);
    assert ConsumeLot(lot, n).value.1 == c;
  }

  /** The new quantity of a split: floor of quantity·ratio for a long lot, ceil for a short one. */
  function SplitQuantity(quantity: int, ratio: real): int
  {
    var target := quantity as real * ratio;
    if quantity > 0 then Floor(target) else Ceil(target)
  }

  function Scaled(x: real, scale: real): real
  {
    x * scale
  }

  /** The lot with its four money fields multiplied by `scale`. */
  function Rescaled(lot: Lot, scale: real): Lot
  {
    lot.(amountUsd := Scaled(lot.amountUsd, scale), amountEur := Scaled(lot.amountEur, scale),
         feesUsd := Scaled(lot.feesUsd, scale), feesEur := Scaled(lot.feesEur, scale))
  }

  function DividedStrike(strike: Option<real>, ratio: real): Option<real>
    requires ratio != 0.0
  {
    if strike.Some? then Some(strike.value / ratio) else None
  }

  lemma NonZeroProduct(a: real, b: real)
    requires a != 0.0 && b != 0.0
    ensures a * b != 0.0
  {
  }

  /**
   * `adjust_for_split(ratio)`: a non-zero lot's quantity becomes floor (long)
   * or ceil (short) of quantity·ratio; a non-zero result rescales the four
   * money fields by new/target, a zero result keeps them as residual basis;
   * a strike is divided by the ratio. A zero lot is left as it is.
   */
  function AdjustedForSplit(lot: Lot, ratio: real): (r: Lot)
    requires ratio != 0.0
    ensures r.symbol == lot.symbol && r.positionType == lot.positionType && r.date == lot.date
    ensures r.expiry == lot.expiry && r.callPut == lot.callPut
  {
    if lot.quantity == 0 then lot
    else
      var base := match SplitScale(lot.quantity, ratio)
        case Some(scale) => Rescaled(lot, scale)
        case None => lot;
      base.(quantity := SplitQuantity(lot.quantity, ratio), strike := DividedStrike(lot.strike, ratio))
  }

  /** The factor new/target the money fields are rescaled by; none when the split rounds the lot to zero. */
  function SplitScale(quantity: int, ratio: real): Option<real>
  {
    var target := quantity as real * ratio;
    var newQuantity := SplitQuantity(quantity, ratio);
    if newQuantity == 0 || target == 0.0 then None else Some(newQuantity as real / target)
  }

  lemma MatchesStockIgnoresOptionFields(lot: Lot, strike: Option<real>, expiry: Option<DateTime>, callPut: Option<string>)
    requires lot.positionType == Stock
    ensures Matches(lot, lot.symbol, Stock, strike, expiry, callPut)
  {
  }

  lemma MatchesOptionNeedsAllFields(lot: Lot, symbol: string, positionType: PositionType,
                                    strike: Option<real>, expiry: Option<DateTime>, callPut: Option<string>)
    requires lot.positionType != Stock
    ensures Matches(lot, symbol, positionType, strike, expiry, callPut) <==>
      symbol == lot.symbol && positionType == lot.positionType &&
      strike == lot.strike && expiry == lot.expiry && callPut == lot.callPut
  {
  }

  /** Closing needs strictly opposite signs, so a zero on either side never closes. */
  lemma CanCloseWithOppositeSigns(lot: Lot, closingQuantity: int)
    ensures CanCloseWith(lot, closingQuantity) <==>
      (lot.quantity > 0 && closingQuantity < 0) || (lot.quantity < 0 && closingQuantity > 0)
  {
    var a, b := lot.quantity, closingQuantity;
    if a > 0 && b > 0 {
      assert a * b > 0;
    } else if a < 0 && b < 0 {
      assert a * b == (-a) * (-b);
    } else if a > 0 && b < 0 {
      assert a * b == -(a * (-b));
    } else if a < 0 && b > 0 {
      assert a * b == -((-a) * b);
    }
  }

  /** The consumed portion of each money field is original·n/|quantity|. */
  lemma ConsumeProportional(lot: Lot, n: int)
    requires ConsumeLot(lot, n).Ok?
    ensures var c := ConsumeLot(lot, n).value.1;
      var q := Abs(lot.quantity) as real;
      && c.amountUsd * q == lot.amountUsd * n as real
      && c.amountEur * q == lot.amountEur * n as real
      && c.feesUsd * q == lot.feesUsd * n as real
      && c.feesEur * q == lot.feesEur * n as real
  {
    var q := Abs(lot.quantity) as real;
    var share := n as real / q;
    assert share * q == n as real;
    var c := ConsumeLot(lot, n).value.1;
    assert c.amountUsd == lot.amountUsd * share;
    assert c.amountUsd * q == lot.amountUsd * (share * q);
    assert c.amountEur * q == lot.amountEur * (share * q);
    assert c.feesUsd * q == lot.feesUsd * (share * q);
    assert c.feesEur * q == lot.feesEur * (share * q);
  }

  /** A non-negative consumption moves the quantity n units toward zero and never past it. */
  lemma ConsumeTowardZero(lot: Lot, n: int)
    requires ConsumeLot(lot, n).Ok? && n >= 0
    ensures var rest := ConsumeLot(lot, n).value.0;
      && Abs(rest.quantity) + n == Abs(lot.quantity)
      && (lot.quantity > 0 ==> rest.quantity >= 0)
      && (lot.quantity < 0 ==> rest.quantity <= 0)
  {
  }

  /** 100 shares with basis -1000 and fees 5: consuming 50 leaves 50, -500 and 2.5. */
  lemma ConsumeHalfExample(lot: Lot)
    requires lot.quantity == 100 && lot.amountUsd == -1000.0 && lot.feesUsd == 5.0
    ensures ConsumeLot(lot, 50).Ok?
    ensures var (rest, c) := ConsumeLot(lot, 50).value;
      rest.quantity == 50 && rest.amountUsd == -500.0 && rest.feesUsd == 2.5 &&
      c.amountUsd == -500.0 && c.feesUsd == 2.5
  {
    var share := 50 as real / 100 as real;
    assert share == 0.5;
  }

  /**
   * The cases of a split: a zero lot is untouched; otherwise the quantity is
   * the rounded target, the strike is divided, and the money fields are kept
   * (new quantity 0) or scaled by new/target.
   */
  lemma SplitCases(lot: Lot, ratio: real)
    requires ratio != 0.0
    ensures var r := AdjustedForSplit(lot, ratio);
      && (lot.quantity == 0 ==> r == lot)
      && (lot.quantity != 0 ==> r.quantity == SplitQuantity(lot.quantity, ratio))
      && (lot.quantity != 0 ==> r.strike == DividedStrike(lot.strike, ratio))
      && (lot.quantity != 0 && r.quantity == 0 ==> r == lot.(quantity := 0, strike := DividedStrike(lot.strike, ratio)))
      && (lot.quantity != 0 && r.quantity != 0 ==>
            r == Rescaled(lot, r.quantity as real / (lot.quantity as real * ratio)).(quantity := r.quantity,
                                                                                     strike := DividedStrike(lot.strike, ratio)))
  {
    if lot.quantity != 0 {
      NonZeroProduct(lot.quantity as real, ratio);
    }
  }

  /** Floor for a long lot and ceil for a short one: the new quantity is within one unit of quantity·ratio. */
  lemma SplitRounding(lot: Lot, ratio: real)
    requires ratio != 0.0
    ensures var r := AdjustedForSplit(lot, ratio);
      && (lot.quantity > 0 ==> r.quantity as real <= lot.quantity as real * ratio < r.quantity as real + 1.0)
      && (lot.quantity < 0 ==> r.quantity as real - 1.0 < lot.quantity as real * ratio <= r.quantity as real)
  {
    SplitCases(lot, ratio);
    var target := lot.quantity as real * ratio;
    assert Floor(target) as real <= target < Floor(target) as real + 1.0;
    assert Ceil(target) as real - 1.0 < target <= Ceil(target) as real by {
      assert (-target).Floor as real <= -target < (-target).Floor as real + 1.0;
    }
  }

  /** With a positive ratio the new quantity keeps its sign and never exceeds |quantity·ratio|. */
  lemma SplitNeverRoundsUp(lot: Lot, ratio: real)
    requires ratio > 0.0
    ensures var r := AdjustedForSplit(lot, ratio);
      && RealAbs(r.quantity as real) <= RealAbs(lot.quantity as real * ratio)
      && (lot.quantity > 0 ==> r.quantity >= 0)
      && (lot.quantity < 0 ==> r.quantity <= 0)
  {
    var q := lot.quantity as real;
    SplitCases(lot, ratio);
    SplitRounding(lot, ratio);
    if lot.quantity > 0 {
      assert q * ratio > 0.0;
    } else if lot.quantity < 0 {
      assert (-q) * ratio > 0.0;
      assert q * ratio == -((-q) * ratio);
    }
  }

  /**
   * A split that leaves shares rescales the basis so that the basis per
   * new share equals the old basis per target share (the un-rounded count).
   */
  lemma SplitKeepsBasisPerTargetShare(lot: Lot, ratio: real)
    requires ratio != 0.0
    requires AdjustedForSplit(lot, ratio).quantity != 0
    ensures var r := AdjustedForSplit(lot, ratio);
      var target := lot.quantity as real * ratio;
      && target != 0.0
      && r.amountUsd / r.quantity as real == lot.amountUsd / target
      && r.amountEur / r.quantity as real == lot.amountEur / target
      && r.feesUsd / r.quantity as real == lot.feesUsd / target
      && r.feesEur / r.quantity as real == lot.feesEur / target
  {
    var r := AdjustedForSplit(lot, ratio);
    var target := lot.quantity as real * ratio;
    SplitCases(lot, ratio);
    NonZeroProduct(lot.quantity as real, ratio);
    var n := r.quantity as real;
    RescaledPerUnit(lot, n, target);
  }

  lemma RescaledPerUnit(lot: Lot, n: real, t: real)
    requires n != 0.0 && t != 0.0
    ensures var s := Rescaled(lot, n / t);
      && s.amountUsd / n == lot.amountUsd / t
      && s.amountEur / n == lot.amountEur / t
      && s.feesUsd / n == lot.feesUsd / t
      && s.feesEur / n == lot.feesEur / t
  {
    var s := Rescaled(lot, n / t);
    ScaledPerUnit(lot.amountUsd, n, t, s.amountUsd);
    ScaledPerUnit(lot.amountEur, n, t, s.amountEur);
    ScaledPerUnit(lot.feesUsd, n, t, s.feesUsd);
    ScaledPerUnit(lot.feesEur, n, t, s.feesEur);
  }

  lemma ScaledPerUnit(x: real, n: real, t: real, y: real)
    requires n != 0.0 && t != 0.0
    requires y == Scaled(x, n / t)
    ensures y / n == x / t
  {
    calc {
      y / n;
      == (x * (n / t)) / n;
      == (x * n / t) / n;
      == x * n / (t * n);
      == x / t;
    }
  }

  /** 100 long shares in a 1-for-8 reverse split become 12. */
  lemma SplitLongExample(lot: Lot)
    requires lot.quantity == 100
    ensures AdjustedForSplit(lot, 1.0 / 8.0).quantity == 12
  {
    assert 100 as real * (1.0 / 8.0) == 12.5;
    assert Floor(12.5) == 12;
  }

  /** 100 short shares with basis 1000 and fees 1 become -12 with basis 960 and fees 0.96. */
  lemma SplitShortExample(lot: Lot)
    requires lot.quantity == -100 && lot.amountUsd == 1000.0 && lot.feesUsd == 1.0
    ensures var r := AdjustedForSplit(lot, 1.0 / 8.0);
      r.quantity == -12 && r.amountUsd == 960.0 && r.feesUsd == 0.96
  {
    assert -100 as real * (1.0 / 8.0) == -12.5;
    assert Ceil(-12.5) == -12;
    assert -12 as real / -12.5 == 0.96;
  }

  /** 5 shares in a 1-for-8 reverse split round to 0 and keep their basis. */
  lemma SplitToZeroExample(lot: Lot)
    requires lot.quantity == 5
    ensures var r := AdjustedForSplit(lot, 1.0 / 8.0);
      r.quantity == 0 && r.amountUsd == lot.amountUsd && r.feesUsd == lot.feesUsd
  {
    assert 5 as real * (1.0 / 8.0) == 0.625;
    assert Floor(0.625) == 0;
  }

  /** Two lots with equal fields are equal; stated field by field to keep split proofs small. */
  lemma SameLot(a: Lot, b: Lot)
    requires a.symbol == b.symbol && a.positionType == b.positionType && a.quantity == b.quantity
    requires a.amountUsd == b.amountUsd && a.amountEur == b.amountEur
    requires a.feesUsd == b.feesUsd && a.feesEur == b.feesEur
    requires a.date == b.date && a.strike == b.strike && a.expiry == b.expiry && a.callPut == b.callPut
    ensures a == b
  {
  }

  /** An open lot whose quantity, basis, fees and strike change in place. */
  class PositionLot {
    const symbol: string
    const positionType: PositionType
    var quantity: int
    var amountUsd: real
    var amountEur: real
    var feesUsd: real
    var feesEur: real
    const date: DateTime
    var strike: Option<real>
    const expiry: Option<DateTime>
    const callPut: Option<string>

    function Value(): Lot
      reads this
    {
      Lot(symbol, positionType, quantity, amountUsd, amountEur, feesUsd, feesEur, date, strike, expiry, callPut)
    }

    constructor (v: Lot)
      ensures Value() == v
    {
      symbol, positionType, quantity := v.symbol, v.positionType, v.quantity;
      amountUsd, amountEur, feesUsd, feesEur := v.amountUsd, v.amountEur, v.feesUsd, v.feesEur;
      date, strike, expiry, callPut := v.date, v.strike, v.expiry, v.callPut;
    }

    /** Consumes n units in place and returns the consumed portion; a refusal changes nothing. */
    method Consume(n: int) returns (r: Result<Consumed>)
      modifies this
      ensures match ConsumeLot(old(Value()), n)
              case Ok((rest, c)) => r == Ok(c) && Value() == rest
              case Err(e) => r == Err(e) && Value() == old(Value())
    {
      if Abs(n) > Abs(quantity) {
        return Err(ConsumeExceedsLot);
      }
      if quantity == 0 {
        return Err(ZeroDivision);
      }
      ghost var was := Value();
      assert was.quantity == quantity && was.amountUsd == amountUsd && was.amountEur == amountEur;
      assert was.feesUsd == feesUsd && was.feesEur == feesEur;
      var share := n as real / Abs(quantity) as real;
      var c := Consumed(amountUsd * share, amountEur * share, feesUsd * share, feesEur * share);
      var sign := if quantity > 0 then 1 else -1;
      ghost var rest := Lot(symbol, positionType, quantity - sign * n,
                            amountUsd - c.amountUsd, amountEur - c.amountEur, feesUsd - c.feesUsd, feesEur - c.feesEur,
                            date, strike, expiry, callPut);
      ConsumeLotTakesShare(was, n, share);
      assert ConsumeLot(was, n).Ok?;
      assert ConsumeLot(was, n).value.1 == c;
      assert ConsumeLot(was, n).value.0.quantity == rest.quantity;
      assert ConsumeLot(was, n).value.0.amountUsd == rest.amountUsd;
      assert ConsumeLot(was, n).value.0.strike == rest.strike;
      assert ConsumeLot(was, n).value.0 == rest;
      quantity, amountUsd, amountEur, feesUsd, feesEur :=
        quantity - sign * n, amountUsd - c.amountUsd, amountEur - c.amountEur, feesUsd - c.feesUsd, feesEur - c.feesEur;
      r := Ok(c);
      assert Value() == rest;
    }

    /** Multiplies the four money fields by `scale`. */
    method Rescale(scale: real)
      modifies this
      ensures Value() == Rescaled(old(Value()), scale)
    {
      amountUsd := Scaled(amountUsd, scale);
      amountEur := Scaled(amountEur, scale);
      feesUsd := Scaled(feesUsd, scale);
      feesEur := Scaled(feesEur, scale);
    }

    method AdjustForSplit(ratio: real)
      requires ratio != 0.0
      modifies this
      ensures Value() == AdjustedForSplit(old(Value()), ratio)
    {
      if quantity == 0 {
        return;
      }
      var scale := SplitScale(quantity, ratio);
      if scale.Some? {
        Rescale(scale.value);
      }
      // With no scale the lot is zeroed and its basis stays for reporting.
      quantity := SplitQuantity(quantity, ratio);
      strike := DividedStrike(strike, ratio);
    }
  }
}
