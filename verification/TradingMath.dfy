/**
 The arithmetic of `trading-math.ts`. A thrown error is `None`.
 */
module TradingMath {
  import opened Options
  import opened Positions

  datatype Metrics = Metrics(perUnit: real, ratio: real, total: real)

  function PositionSide(first: Option<Side>, sides: seq<Side>): Option<Side> {
    if first.Some? then first else if sides == [] then None else Some(sides[0])
  }

  function PositionMetrics(entrySide: Side, average: real, last: real, amount: real): Option<Metrics> {
    if !(average > 0.0) || !(last > 0.0) || !(amount >= 0.0) then None
    else
      var perUnit := if entrySide == Buy then last - average else average - last;
      Some(Metrics(perUnit, perUnit / average, perUnit * amount))
  }

  function BuyBackAmount(average: real, stepPercent: real, drawdownStep: int): Option<real> {
    if !(average > 0.0) || !(stepPercent >= 0.0) || !(drawdownStep >= 1) then None
    else Some(average * stepPercent * drawdownStep as real)
  }

  /** What an order of this size takes out of the balance it is paid from. */
  function Required(side: Side, amount: real, price: real): real {
    if side == Buy then amount * price else amount
  }

  /** The size of the next averaging order: a multiple of the position size, or a share of the balance. It is
      placed exactly if it is positive and the balance pays for it. */
  function BuyBackOrderAmount(side: Side, available: real, last: real, fromBalance: real, size: real,
                              drawdownStep: int, fibonacci: bool): (amount: real)
    ensures amount == 0.0 || (amount > 0.0 && Required(side, amount, last) <= available)
  {
    if !(available > 0.0) || !(last > 0.0) then 0.0
    else
      var amount :=
        if fibonacci then size * drawdownStep as real
        else (available * fromBalance) / (if side == Buy then last else 1.0);
      if amount > 0.0 && Required(side, amount, last) <= available then amount else 0.0
  }

  lemma ShareOfBalance(available: real, divisor: real, fromBalance: real)
    requires available > 0.0 && divisor > 0.0
    ensures var amount := available * fromBalance / divisor;
      && amount * divisor == available * fromBalance
      && (amount > 0.0 <==> fromBalance > 0.0)
      && (available * fromBalance <= available <==> fromBalance <= 1.0)
  {
    var amount := available * fromBalance / divisor;
    RatioTimesAverage(available * fromBalance, divisor);
    if fromBalance > 0.0 {
      assert available * fromBalance > 0.0;
    } else {
      assert available * fromBalance <= 0.0;
    }
    if fromBalance > 1.0 {
      assert available * fromBalance > available * 1.0;
    } else {
      assert available * fromBalance <= available * 1.0;
    }
  }

  /** Without the multiples, the order takes the given share of the balance, and is placed exactly if that is a
      positive share of at most the whole. */
  lemma ShareSize(side: Side, available: real, last: real, fromBalance: real, size: real, drawdownStep: int)
    ensures var amount := BuyBackOrderAmount(side, available, last, fromBalance, size, drawdownStep, false);
      && (amount > 0.0 <==> available > 0.0 && last > 0.0 && 0.0 < fromBalance <= 1.0)
      && (amount > 0.0 ==> (if side == Buy then amount * last else amount) == available * fromBalance)
  {
    if available > 0.0 && last > 0.0 {
      ShareOfBalance(available, if side == Buy then last else 1.0, fromBalance);
    }
  }

  /** With them, it is the position size times the step, and is placed exactly if it is positive and paid for. */
  lemma MultipleSize(side: Side, available: real, last: real, fromBalance: real, size: real, drawdownStep: int)
    ensures var amount := BuyBackOrderAmount(side, available, last, fromBalance, size, drawdownStep, true);
      var multiple := size * drawdownStep as real;
      && (amount > 0.0 <==>
          && available > 0.0 && last > 0.0 && multiple > 0.0
          && (if side == Buy then multiple * last else multiple) <= available)
      && (amount > 0.0 ==> amount == multiple)
  {
  }

  lemma RatioTimesAverage(perUnit: real, average: real)
    requires average > 0.0
    ensures perUnit / average * average == perUnit
  {
  }

  lemma Cancel(average: real, x: real, y: real)
    requires average > 0.0 && x * average <= y * average
    ensures x <= y
  {
  }

  /** A position that is deep enough for its next averaging order, but not yet at the stop-loss, has
      made fewer than stop-loss / step entries. */
  lemma AveragingStopsAtLoss(entrySide: Side, average: real, last: real, amount: real, stepPercent: real,
                             drawdownStep: int, stopLoss: real)
    requires PositionMetrics(entrySide, average, last, amount).Some?
    requires BuyBackAmount(average, stepPercent, drawdownStep).Some?
    requires PositionMetrics(entrySide, average, last, amount).value.ratio > -stopLoss
    requires PositionMetrics(entrySide, average, last, amount).value.perUnit
          <= -BuyBackAmount(average, stepPercent, drawdownStep).value
    ensures drawdownStep as real * stepPercent < stopLoss
  {
    var m := PositionMetrics(entrySide, average, last, amount).value;
    var n := drawdownStep as real;
    RatioTimesAverage(m.perUnit, average);
    Reorder(average, stepPercent, n);
    Cancel(average, m.ratio, -(n * stepPercent));
  }

  lemma Reorder(a: real, b: real, c: real)
    ensures -(a * b * c) == -(c * b) * a
  {
    assert a * b * c == a * (b * c);
  }
}
