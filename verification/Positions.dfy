/**
 Executed orders of a trading session and the quantities that are summed over them.
 */
module Positions {
  datatype Side = Buy | Sell

  function Opposite(side: Side): Side {
    if side == Buy then Sell else Buy
  }

  /** One executed order: `amount` of the base currency at `price`. */
  datatype Order = Order(id: nat, side: Side, price: real, amount: real)

  function Cost(o: Order): real {
    o.price * o.amount
  }

  function OnSide(orders: seq<Order>, side: Side): seq<Order> {
    if orders == [] then []
    else if orders[0].side == side then [orders[0]] + OnSide(orders[1..], side)
    else OnSide(orders[1..], side)
  }

  /** Total base amount, whatever the sides. */
  function Amount(orders: seq<Order>): real {
    if orders == [] then 0.0 else orders[0].amount + Amount(orders[1..])
  }

  /** Total of price times amount, whatever the sides. */
  function Value(orders: seq<Order>): real {
    if orders == [] then 0.0 else Cost(orders[0]) + Value(orders[1..])
  }

  /** What the orders leave in the base currency: bought less sold. */
  function Net(orders: seq<Order>): real {
    Amount(OnSide(orders, Buy)) - Amount(OnSide(orders, Sell))
  }

  /** What the orders leave in the quote currency: proceeds of sales less cost of purchases. */
  function Cash(orders: seq<Order>): real {
    Value(OnSide(orders, Sell)) - Value(OnSide(orders, Buy))
  }

  /** What the orders are worth at price `p`. */
  function Worth(orders: seq<Order>, p: real): real {
    Cash(orders) + p * Net(orders)
  }

  ghost predicate OneSided(orders: seq<Order>, side: Side) {
    forall i :: 0 <= i < |orders| ==> orders[i].side == side
  }

  lemma {:induction false} OneSidedFilter(orders: seq<Order>, side: Side)
    requires OneSided(orders, side)
    ensures OnSide(orders, side) == orders && OnSide(orders, Opposite(side)) == []
  {
    if orders != [] {
      OneSidedFilter(orders[1..], side);
    }
  }

  lemma {:induction false} OnSideAppend(xs: seq<Order>, o: Order, side: Side)
    ensures OnSide(xs + [o], side) == if o.side == side then OnSide(xs, side) + [o] else OnSide(xs, side)
  {
    if xs != [] {
      assert (xs + [o])[1..] == xs[1..] + [o];
      OnSideAppend(xs[1..], o, side);
    } else {
      assert OnSide([o][1..], side) == [];
    }
  }

  lemma {:induction false} SumsAppend(xs: seq<Order>, o: Order)
    ensures Amount(xs + [o]) == Amount(xs) + o.amount
    ensures Value(xs + [o]) == Value(xs) + Cost(o)
  {
    if xs != [] {
      assert (xs + [o])[1..] == xs[1..] + [o];
      SumsAppend(xs[1..], o);
    } else {
      assert Amount([o][1..]) == 0.0 && Value([o][1..]) == 0.0;
    }
  }

  lemma OneOrder(o: Order)
    ensures Amount([o]) == o.amount && Value([o]) == Cost(o)
  {
    assert [o] == [] + [o] && Amount([]) == 0.0 && Value([]) == 0.0;
    SumsAppend([], o);
  }

  /** Both sides together make up the whole. */
  lemma {:induction false} SidesAddUp(orders: seq<Order>)
    ensures Amount(orders) == Amount(OnSide(orders, Buy)) + Amount(OnSide(orders, Sell))
    ensures Value(orders) == Value(OnSide(orders, Buy)) + Value(OnSide(orders, Sell))
    ensures |orders| == |OnSide(orders, Buy)| + |OnSide(orders, Sell)|
  {
    hide Cost;
    if orders != [] {
      var first, rest := orders[0], orders[1..];
      SidesAddUp(rest);
      var same := OnSide(orders, first.side);
      assert same[0] == first && same[1..] == OnSide(rest, first.side);
      assert OnSide(orders, Opposite(first.side)) == OnSide(rest, Opposite(first.side));
    }
  }
}
