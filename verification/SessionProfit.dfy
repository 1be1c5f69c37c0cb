/**
 The profit recorded for a session: the SQL formula of `getProfitForTradeSession` against what the
 executed orders are really worth.
 */
module SessionProfit {
  import opened Positions
  import TradingMath

  /** The formula over all active rows, closing row included; `price` is the closing row's. */
  function SqlProfit(rows: seq<Order>, closingSide: Side, price: real): real {
    if closingSide == Sell then Amount(rows) * price - Value(rows) else Value(rows) - Amount(rows) * price
  }

  /** What these orders gain at `price`, each entered at its own price on side `side`. */
  function Gain(orders: seq<Order>, side: Side, price: real): real {
    if orders == [] then 0.0
    else
      orders[0].amount * (if side == Buy then price - orders[0].price else orders[0].price - price)
      + Gain(orders[1..], side, price)
  }

  function Weighted(orders: seq<Order>): real
    requires Amount(orders) > 0.0
  {
    Value(orders) / Amount(orders)
  }

  lemma Distribute(a: real, p: real, q: real)
    ensures a * (p - q) == a * p - q * a
    ensures a * (q - p) == q * a - a * p
  {
  }

  lemma DistributeSum(a: real, b: real, p: real)
    ensures (a + b) * p == a * p + b * p && p * (a - b) == a * p - b * p
  {
  }

  /** The aggregate formula is the sum over the single orders. */
  lemma {:induction false} GainIsAggregate(orders: seq<Order>, side: Side, price: real)
    ensures Gain(orders, side, price) == SqlProfit(orders, Opposite(side), price)
  {
    if orders != [] {
      var o, rest := orders[0], orders[1..];
      GainIsAggregate(rest, side, price);
      Distribute(o.amount, price, o.price);
      DistributeSum(o.amount, Amount(rest), price);
    }
  }

  /** The closing row adds nothing at its own price. */
  lemma ClosingRowCancels(entries: seq<Order>, closing: Order)
    ensures SqlProfit(entries + [closing], closing.side, closing.price)
         == SqlProfit(entries, closing.side, closing.price)
  {
    SumsAppend(entries, closing);
    DistributeSum(Amount(entries), closing.amount, closing.price);
  }

  /** For entries on one side, the recorded profit is the sum of the entries' gains at the closing price,
      and the profit of the whole amount entered at the weighted average price. */
  lemma ProfitOfOneSidedEntries(entries: seq<Order>, closing: Order)
    requires OneSided(entries, Opposite(closing.side))
    ensures SqlProfit(entries + [closing], closing.side, closing.price)
         == Gain(entries, Opposite(closing.side), closing.price)
    ensures Amount(entries) > 0.0 && Weighted(entries) > 0.0 && closing.price > 0.0 ==>
      var m := TradingMath.PositionMetrics(Opposite(closing.side), Weighted(entries), closing.price, Amount(entries));
      m.Some? && m.value.total == SqlProfit(entries + [closing], closing.side, closing.price)
  {
    ClosingRowCancels(entries, closing);
    GainIsAggregate(entries, Opposite(closing.side), closing.price);
    if Amount(entries) > 0.0 && Weighted(entries) > 0.0 && closing.price > 0.0 {
      TradingMath.RatioTimesAverage(Value(entries), Amount(entries));
      Distribute(Amount(entries), closing.price, Weighted(entries));
    }
  }

  lemma TwoSides(bought: real, sold: real, cost: real, proceeds: real, price: real)
    ensures (bought + sold) * price - (cost + proceeds)
         == proceeds - cost + price * (bought - sold) + 2.0 * (sold * price - proceeds)
    ensures (cost + proceeds) - (bought + sold) * price
         == proceeds - cost + price * (bought - sold) + 2.0 * (cost - bought * price)
  {
    DistributeSum(bought, sold, price);
  }

  /** For any rows at all, the formula differs from what the orders are worth at the closing price by
      twice the gain of the rows on the closing side, which it counts as if they were entries. */
  lemma ProfitAgainstWorth(rows: seq<Order>, closingSide: Side, price: real)
    ensures SqlProfit(rows, closingSide, price)
         == Worth(rows, price) + 2.0 * Gain(OnSide(rows, closingSide), Opposite(closingSide), price)
  {
    var bought, sold := OnSide(rows, Buy), OnSide(rows, Sell);
    hide Amount, Value, OnSide, Gain;
    SidesAddUp(rows);
    GainIsAggregate(OnSide(rows, closingSide), Opposite(closingSide), price);
    TwoSides(Amount(bought), Amount(sold), Value(bought), Value(sold), price);
  }

  /** After a full close the recorded profit is the cash the session brought in exactly when the rows on
      the closing side show no gain of their own. */
  lemma ProfitIsCashExactlyWhen(rows: seq<Order>, closingSide: Side, price: real)
    requires Net(rows) == 0.0
    ensures SqlProfit(rows, closingSide, price) == Cash(rows)
       <==> Gain(OnSide(rows, closingSide), Opposite(closingSide), price) == 0.0
  {
    ProfitAgainstWorth(rows, closingSide, price);
  }

  /** In particular for a session closed by one order. */
  lemma OneCloseIsCash(entries: seq<Order>, closing: Order)
    requires OneSided(entries, Opposite(closing.side)) && closing.amount == Amount(entries)
    ensures SqlProfit(entries + [closing], closing.side, closing.price) == Cash(entries + [closing])
  {
    var rows := entries + [closing];
    OneSidedFilter(entries, Opposite(closing.side));
    OnSideAppend(entries, closing, closing.side);
    OnSideAppend(entries, closing, Opposite(closing.side));
    assert OnSide(rows, closing.side) == [closing];
    assert Amount([closing][1..]) == 0.0 && Gain([closing][1..], Opposite(closing.side), closing.price) == 0.0;
    ProfitIsCashExactlyWhen(rows, closing.side, closing.price);
  }

  /** A session that was closed in two orders at different prices is misreported: bought 2 at 10, sold 1
      at 12 and 1 at 11, it brought 3 in and is recorded with 1. */
  lemma TwoClosesAreMisreported()
    ensures var rows := [Order(0, Buy, 10.0, 2.0), Order(1, Sell, 12.0, 1.0), Order(2, Sell, 11.0, 1.0)];
      Net(rows) == 0.0 && Cash(rows) == 3.0 && SqlProfit(rows, Sell, 11.0) == 1.0
  {
    var bought, first, second := Order(0, Buy, 10.0, 2.0), Order(1, Sell, 12.0, 1.0), Order(2, Sell, 11.0, 1.0);
    var rows := [bought, first, second];
    assert rows[1..] == [first, second] && rows[1..][1..] == [second] && [second][1..] == [];
    assert [first, second][1..] == [second];
    assert OnSide([second], Sell) == [second];
    assert OnSide([first, second], Sell) == [first] + OnSide([second], Sell);
    assert OnSide([second], Buy) == [];
    assert OnSide([first, second], Buy) == OnSide([second], Buy);
    assert OnSide(rows, Buy) == [bought] && OnSide(rows, Sell) == [first, second];
    assert [bought][1..] == [];
    assert Amount([second]) == 1.0 && Value([second]) == 11.0;
    assert Amount([first, second]) == 2.0 && Value([first, second]) == 23.0;
  }
}
