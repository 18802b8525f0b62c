/**
 * The position arithmetic of the older engine (tasty.py, `_updatePosition`):
 * a running signed position, a transaction quantity, and the part of the
 * transaction that closed something.
 */
module LegacyPosition {

  function Abs(x: int): nat
  {
    if x < 0 then -x else x
  }

  function Min(a: nat, b: nat): nat
  {
    if a < b then a else b
  }

  /** `math.copysign` on integers: the magnitude `m` with the sign of `s` (zero counts as positive). */
  function CopySign(m: nat, s: int): int
  {
    if s < 0 then -(m as int) else m
  }

  /** What one update yields: the new position, the transaction quantity left over, and the closing trade. */
  datatype Update = Update(newPosition: int, newTransaction: int, trade: int)

  /**
   * `_updatePosition`: the position moves by the transaction; a trade is
   * reported only when the position shrank in magnitude, and then it is the
   * closed amount with the transaction's sign.
   */
  function UpdatePosition(oldPosition: int, transaction: int): (r: Update)
    ensures r.newPosition == oldPosition + transaction
    ensures r.newTransaction == 0
    ensures r.trade != 0 <==> Abs(r.newPosition) < Abs(oldPosition)
    ensures r.trade != 0 ==> Abs(r.trade) == Min(Abs(transaction), Abs(oldPosition))
    ensures r.trade != 0 ==> (r.trade < 0 <==> transaction < 0)
  {
    var newPosition := oldPosition + transaction;
    var trade := if Abs(newPosition) < Abs(oldPosition)
                 then CopySign(Min(Abs(transaction), Abs(oldPosition)), transaction)
                 else 0;
    Update(newPosition, transaction - (newPosition - oldPosition), trade)
  }

  /**
   * A reported trade runs against the old position and never closes more
   * than it held: the old position plus the trade lies between zero and the
   * old position.
   */
  lemma TradeClosesOldPosition(oldPosition: int, transaction: int)
    ensures var r := UpdatePosition(oldPosition, transaction);
      r.trade != 0 ==> r.trade * oldPosition < 0 && Abs(r.trade) <= Abs(oldPosition)
  {
    var r := UpdatePosition(oldPosition, transaction);
    if r.trade != 0 {
      if oldPosition > 0 {
        assert transaction < 0;
        assert r.trade < 0;
      } else {
        assert oldPosition < 0 && transaction > 0;
        assert r.trade > 0;
      }
    }
  }

  /** Without a flip the trade is exactly how much the position shrank. */
  lemma TradeIsShrinkWithoutFlip(oldPosition: int, transaction: int)
    requires (oldPosition >= 0 && oldPosition + transaction >= 0) || (oldPosition <= 0 && oldPosition + transaction <= 0)
    ensures var r := UpdatePosition(oldPosition, transaction);
      Abs(r.trade) == if Abs(r.newPosition) < Abs(oldPosition) then Abs(oldPosition) - Abs(r.newPosition) else 0
  {
    var r := UpdatePosition(oldPosition, transaction);
    if Abs(r.newPosition) < Abs(oldPosition) {
      assert Abs(transaction) <= Abs(oldPosition);
      assert Abs(r.trade) == Abs(transaction);
    }
  }

  /** Adding on the same side, or doing nothing, never reports a trade. */
  lemma SameSideReportsNoTrade(oldPosition: int, transaction: int)
    requires oldPosition * transaction >= 0
    ensures UpdatePosition(oldPosition, transaction).trade == 0
  {
    if oldPosition < 0 {
      assert transaction <= 0;
    } else if oldPosition > 0 {
      assert transaction >= 0;
    }
  }

  /** The doctest table of `_updatePosition`. */
  lemma DoctestTable()
    ensures UpdatePosition(1, 1) == Update(2, 0, 0)
    ensures UpdatePosition(1, -1) == Update(0, 0, -1)
    ensures UpdatePosition(1, 0) == Update(1, 0, 0)
    ensures UpdatePosition(-1, 1) == Update(0, 0, 1)
    ensures UpdatePosition(-3, 1) == Update(-2, 0, 1)
    ensures UpdatePosition(-3, 2) == Update(-1, 0, 2)
    ensures UpdatePosition(-16, 5) == Update(-11, 0, 5)
    ensures UpdatePosition(-1, -1) == Update(-2, 0, 0)
    ensures UpdatePosition(16, -5) == Update(11, 0, -5)
    ensures UpdatePosition(3, -2) == Update(1, 0, -2)
    ensures UpdatePosition(3, -3) == Update(0, 0, -3)
  {
  }

  /** An overshooting flip that ends no smaller than it started reports nothing; a smaller flip reports the old size. */
  lemma FlipExamples()
    ensures UpdatePosition(2, -5) == Update(-3, 0, 0)
    ensures UpdatePosition(3, -5) == Update(-2, 0, -3)
  {
  }
}
