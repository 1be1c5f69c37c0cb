/**
 `_onPriceTracker`: after the profit target is reached, a stop follows the price at a fixed indent and
 is moved only when the price has run a whole indent ahead.
 */
module TrailingStop {
  import opened Options
  import opened Positions
  import opened Reals

  // ---------------------------------------------------------------- the tracker

  function Indent(price: real, percent: real): real {
    price * percent
  }

  function TakeTarget(side: Side, price: real, indent: real): real {
    if side == Sell then price + indent else price - indent
  }

  function StopTarget(side: Side, price: real, indent: real): real {
    if side == Sell then price - indent else price + indent
  }

  /** The tracking loop on the prices it reads, starting from `price`; the result is the index of the
      price at which it closes the position, if it does. */
  method TrackPrice(side: Side, price: real, percent: real, prices: seq<real>) returns (closedAt: Option<nat>)
    ensures closedAt == ClosedAt(Seen(side, price, prices), Indent(price, percent))
    ensures price * percent > 0.0 && closedAt.Some? ==>
      && closedAt.value < |prices|
      && (side == Sell ==> prices[closedAt.value] <= Highest(price, prices[..closedAt.value]) - price * percent)
      && (side == Buy ==> prices[closedAt.value] >= Lowest(price, prices[..closedAt.value]) + price * percent)
    ensures price * percent > 0.0 && side == Sell ==> forall i :: 0 <= i < |prices| ==>
      (prices[i] <= Highest(price, prices[..i]) - 2.0 * (price * percent) ==> ClosedBy(closedAt, i))
    ensures price * percent > 0.0 && side == Buy ==> forall i :: 0 <= i < |prices| ==>
      (prices[i] >= Lowest(price, prices[..i]) + 2.0 * (price * percent) ==> ClosedBy(closedAt, i))
    ensures price * percent > 0.0 ==> forall i :: 0 <= i < |prices| && InBand(price, price * percent, prices, i) ==>
      && (side == Sell && prices[i] <= price - price * percent ==> closedAt == Some(i))
      && (side == Buy && prices[i] >= price + price * percent ==> closedAt == Some(i))
      && (side == Sell && prices[i] > price - price * percent ==> !ClosedBy(closedAt, i))
      && (side == Buy && prices[i] < price + price * percent ==> !ClosedBy(closedAt, i))
  {
    closedAt := Track(side, price, Indent(price, percent), prices);
    if price * percent > 0.0 {
      InRealPrices(side, price, prices, Indent(price, percent), closedAt);
      FirstStop(side, price, prices, Indent(price, percent), closedAt);
    }
  }

  /** The highest of a price and the prices after it. */
  function Highest(price: real, prices: seq<real>): real {
    if prices == [] then price
    else
      var before, last := Highest(price, prices[..|prices| - 1]), prices[|prices| - 1];
      if last > before then last else before
  }

  /** The lowest of a price and the prices after it. */
  function Lowest(price: real, prices: seq<real>): real {
    if prices == [] then price
    else
      var before, last := Lowest(price, prices[..|prices| - 1]), prices[|prices| - 1];
      if last < before then last else before
  }

  /** The first `i` prices stay less than one indent away from `price`. */
  ghost predicate InBand(price: real, d: real, prices: seq<real>, i: nat)
    requires i <= |prices|
  {
    forall j :: 0 <= j < i ==> price - d < prices[j] < price + d
  }

  predicate ClosedBy(closedAt: Option<nat>, i: nat) {
    closedAt.Some? && closedAt.value <= i
  }

  method Track(side: Side, price: real, indent: real, prices: seq<real>) returns (closedAt: Option<nat>)
    ensures closedAt == ClosedAt(Seen(side, price, prices), indent)
  {
    hide Anchor, Triggers, ClosedAt;
    AnchorStart(Seen(side, price, prices), indent);
    var targetTake, targetStop := TakeTarget(side, price, indent), StopTarget(side, price, indent);
    ghost var seen := Seen(side, price, prices);
    var i := 0;
    while i < |prices|
      invariant 0 <= i <= |prices|
      invariant Towards(side, targetTake) == Anchor(seen[..i + 1], indent) + indent
      invariant Towards(side, targetStop) == Anchor(seen[..i + 1], indent) - indent
      invariant Untriggered(seen, indent, i)
    {
      var lastPrice := prices[i];
      AnchorStep(seen, indent, i + 1);
      HitsStop(seen, indent, i + 1);
      if (side == Sell && lastPrice <= targetStop) || (side == Buy && lastPrice >= targetStop) {
        FirstIsUnique(seen, indent, i + 1);
        return Some(i);
      }
      if (side == Sell && lastPrice >= targetTake) || (side == Buy && lastPrice <= targetTake) {
        targetTake, targetStop := TakeTarget(side, lastPrice, indent), StopTarget(side, lastPrice, indent);
      }
      i := i + 1;
    }
    NeverHit(seen, indent);
    closedAt := None;
  }

  // ---------------------------------------------------------------- specification

  /** Prices as seen from the closing side: for a buy, downwards is up. */
  function Towards(side: Side, price: real): real {
    if side == Sell then price else -price
  }

  function Seen(side: Side, price: real, prices: seq<real>): seq<real> {
    [Towards(side, price)] + seq(|prices|, i requires 0 <= i < |prices| => Towards(side, prices[i]))
  }

  /** The price that the targets are computed from, after the prices `ps`. */
  function Anchor(ps: seq<real>, d: real): real
    requires ps != []
  {
    if |ps| == 1 then ps[0]
    else
      var before, last := Anchor(ps[..|ps| - 1], d), ps[|ps| - 1];
      if last >= before + d then last else before
  }

  lemma AnchorStart(ps: seq<real>, d: real)
    requires ps != []
    ensures Anchor(ps[..1], d) == ps[0]
  {
  }

  lemma AnchorStep(ps: seq<real>, d: real, i: nat)
    requires 1 <= i < |ps|
    ensures Anchor(ps[..i + 1], d) == if ps[i] >= Anchor(ps[..i], d) + d then ps[i] else Anchor(ps[..i], d)
  {
    assert ps[..i + 1][..i] == ps[..i];
  }

  /** The running maximum. */
  function Peak(ps: seq<real>): real
    requires ps != []
  {
    if |ps| == 1 then ps[0]
    else
      var before, last := Peak(ps[..|ps| - 1]), ps[|ps| - 1];
      if last > before then last else before
  }

  /** How often the anchor was moved. */
  function Moves(ps: seq<real>, d: real): nat
    requires ps != []
  {
    if |ps| == 1 then 0
    else Moves(ps[..|ps| - 1], d) + if ps[|ps| - 1] >= Anchor(ps[..|ps| - 1], d) + d then 1 else 0
  }

  /** The stop computed from the prices before `i` is hit by price `i`. */
  predicate Triggers(ps: seq<real>, d: real, i: nat)
    requires 1 <= i < |ps|
  {
    ps[i] <= Anchor(ps[..i], d) - d
  }

  /** An ideal trailing stop at distance `d` below the running maximum is hit by price `i`. */
  predicate IdealTriggers(ps: seq<real>, d: real, i: nat)
    requires 1 <= i < |ps|
  {
    ps[i] <= Peak(ps[..i]) - d
  }

  lemma HitsStop(ps: seq<real>, d: real, i: nat)
    requires 1 <= i < |ps|
    ensures Triggers(ps, d, i) <==> ps[i] <= Anchor(ps[..i], d) - d
  {
  }

  ghost predicate Untriggered(ps: seq<real>, d: real, i: nat) {
    forall j :: 1 <= j <= i && j < |ps| ==> !Triggers(ps, d, j)
  }

  ghost predicate First(ps: seq<real>, d: real, i: nat) {
    && 1 <= i < |ps| && Triggers(ps, d, i)
    && forall j :: 1 <= j < i ==> !Triggers(ps, d, j)
  }

  /** The position, among the prices after the first, of the first that hits the stop. */
  ghost function ClosedAt(ps: seq<real>, d: real): Option<nat> {
    if i: nat :| First(ps, d, i) then Some(i - 1) else None
  }

  lemma FirstIsUnique(ps: seq<real>, d: real, i: nat)
    requires First(ps, d, i)
    ensures ClosedAt(ps, d) == Some(i - 1)
  {
  }

  lemma NeverHit(ps: seq<real>, d: real)
    requires ps != [] && Untriggered(ps, d, |ps| - 1)
    ensures ClosedAt(ps, d) == None
  {
  }

  // ---------------------------------------------------------------- theorems

  /** The anchor trails the running maximum by less than one indent. */
  lemma {:induction false} AnchorTrailsPeak(ps: seq<real>, d: real)
    requires ps != [] && d > 0.0
    ensures Anchor(ps, d) <= Peak(ps) < Anchor(ps, d) + d
  {
    if |ps| > 1 {
      AnchorTrailsPeak(ps[..|ps| - 1], d);
    }
  }

  /** The anchor, and with it the stop, never moves back. */
  lemma {:induction false} StopNeverRetreats(ps: seq<real>, d: real, i: nat)
    requires 1 <= i <= |ps| && d > 0.0
    ensures Anchor(ps[..i], d) <= Anchor(ps, d)
    decreases |ps|
  {
    if i < |ps| {
      StopNeverRetreats(ps[..|ps| - 1], d, i);
      assert ps[..|ps| - 1][..i] == ps[..i];
    } else {
      assert ps[..i] == ps;
    }
  }

  /** Each move gains at least one indent, so there are at most (peak - first) / indent of them. */
  lemma {:induction false} MovesAreBounded(ps: seq<real>, d: real)
    requires ps != [] && d > 0.0
    ensures Times(Moves(ps, d), d) <= Anchor(ps, d) - ps[0] <= Peak(ps) - ps[0]
  {
    hide Times;
    AnchorTrailsPeak(ps, d);
    OneMoreTime(0, d);
    if |ps| > 1 {
      var before := ps[..|ps| - 1];
      MovesAreBounded(before, d);
      OneMoreTime(Moves(before, d), d);
    }
  }

  /** At every price the tracker lies between two ideal trailing stops: it closes only where the one at
      a single indent would, and always where the one at two indents would. */
  lemma BetweenIdealStops(ps: seq<real>, d: real, i: nat)
    requires 1 <= i < |ps| && d > 0.0
    ensures Triggers(ps, d, i) ==> IdealTriggers(ps, d, i)
    ensures IdealTriggers(ps, 2.0 * d, i) ==> Triggers(ps, d, i)
  {
    AnchorTrailsPeak(ps[..i], d);
  }

  ghost predicate NoneBefore(ps: seq<real>, d: real, i: nat) {
    forall j :: 1 <= j < i && j < |ps| ==> !IdealTriggers(ps, d, j)
  }

  /** Hence the moment it closes lies between theirs: the ideal stop at one indent is hit there too, and
      the one at two indents has not been hit before. */
  lemma ClosesBetweenIdealStops(ps: seq<real>, d: real, i: nat)
    requires 1 <= i < |ps| && d > 0.0
    ensures ClosedAt(ps, d) == Some(i - 1) ==>
      IdealTriggers(ps, d, i) && NoneBefore(ps, 2.0 * d, i)
    ensures IdealTriggers(ps, 2.0 * d, i) ==> ClosedAt(ps, d).Some? && ClosedAt(ps, d).value <= i - 1
  {
    var twice := 2.0 * d;
    forall j | 1 <= j < |ps|
      ensures Triggers(ps, d, j) ==> IdealTriggers(ps, d, j)
      ensures IdealTriggers(ps, twice, j) ==> Triggers(ps, d, j)
    {
      BetweenIdealStops(ps, d, j);
    }
    if Triggers(ps, d, i) {
      var first := FirstFrom(ps, d, i, 1);
      FirstIsUnique(ps, d, first);
      assert NoneBefore(ps, twice, first);
    }
  }

  lemma FirstFrom(ps: seq<real>, d: real, i: nat, from: nat) returns (first: nat)
    requires 1 <= from <= i < |ps| && Triggers(ps, d, i)
    requires forall j :: 1 <= j < from ==> !Triggers(ps, d, j)
    ensures First(ps, d, first) && first <= i
    decreases i - from
  {
    if Triggers(ps, d, from) {
      first := from;
    } else {
      first := FirstFrom(ps, d, i, from + 1);
    }
  }

  // ---------------------------------------------------------------- in real prices

  lemma {:induction false} PeakIsExtreme(side: Side, price: real, prices: seq<real>, i: nat)
    requires i <= |prices|
    ensures Peak(Seen(side, price, prices)[..i + 1])
         == if side == Sell then Highest(price, prices[..i]) else -Lowest(price, prices[..i])
  {
    var ps := Seen(side, price, prices)[..i + 1];
    if i > 0 {
      PeakIsExtreme(side, price, prices, i - 1);
      assert ps[..i] == Seen(side, price, prices)[..i];
      assert prices[..i][..i - 1] == prices[..i - 1];
    }
  }

  /** The two bounds on the moment of closing, for either side, in the prices themselves. */
  lemma InRealPrices(side: Side, price: real, prices: seq<real>, d: real, closedAt: Option<nat>)
    requires d > 0.0 && closedAt == ClosedAt(Seen(side, price, prices), d)
    ensures closedAt.Some? ==>
      && closedAt.value < |prices|
      && (side == Sell ==> prices[closedAt.value] <= Highest(price, prices[..closedAt.value]) - d)
      && (side == Buy ==> prices[closedAt.value] >= Lowest(price, prices[..closedAt.value]) + d)
    ensures side == Sell ==> forall i :: 0 <= i < |prices| ==>
      (prices[i] <= Highest(price, prices[..i]) - 2.0 * d ==> ClosedBy(closedAt, i))
    ensures side == Buy ==> forall i :: 0 <= i < |prices| ==>
      (prices[i] >= Lowest(price, prices[..i]) + 2.0 * d ==> ClosedBy(closedAt, i))
  {
    hide ClosedAt, Peak;
    var ps := Seen(side, price, prices);
    if closedAt.Some? {
      var i := ClosedIndex(ps, d);
      ClosesBetweenIdealStops(ps, d, i + 1);
      PeakIsExtreme(side, price, prices, i);
    }
    forall i | 0 <= i < |prices|
      ensures IdealTriggers(ps, 2.0 * d, i + 1) ==> ClosedBy(closedAt, i)
      ensures IdealTriggers(ps, 2.0 * d, i + 1) <==>
        if side == Sell then prices[i] <= Highest(price, prices[..i]) - 2.0 * d
        else prices[i] >= Lowest(price, prices[..i]) + 2.0 * d
    {
      ClosesBetweenIdealStops(ps, d, i + 1);
      PeakIsExtreme(side, price, prices, i);
    }
  }

  lemma ClosedIndex(ps: seq<real>, d: real) returns (i: nat)
    requires ClosedAt(ps, d).Some?
    ensures ClosedAt(ps, d) == Some(i) && i + 1 < |ps|
  {
    i := ClosedAt(ps, d).value;
  }

  lemma {:induction false} AnchorStays(side: Side, price: real, prices: seq<real>, d: real, i: nat)
    requires i <= |prices| && d > 0.0 && InBand(price, d, prices, i)
    ensures Anchor(Seen(side, price, prices)[..i + 1], d) == Towards(side, price)
  {
    AnchorStart(Seen(side, price, prices), d);
    if i > 0 {
      AnchorStays(side, price, prices, d, i - 1);
      AnchorStep(Seen(side, price, prices), d, i);
    }
  }

  lemma BandTriggers(side: Side, price: real, prices: seq<real>, d: real, i: nat)
    requires i < |prices| && d > 0.0 && InBand(price, d, prices, i)
    ensures Triggers(Seen(side, price, prices), d, i + 1) <==>
      if side == Sell then prices[i] <= price - d else prices[i] >= price + d
    ensures forall j :: 1 <= j <= i ==> !Triggers(Seen(side, price, prices), d, j)
  {
    AnchorStays(side, price, prices, d, i);
    forall j | 1 <= j <= i
      ensures !Triggers(Seen(side, price, prices), d, j)
    {
      AnchorStays(side, price, prices, d, j - 1);
    }
  }

  /** Until the price has run a whole indent in either direction, the stop is where it was set at first. */
  lemma FirstStop(side: Side, price: real, prices: seq<real>, d: real, closedAt: Option<nat>)
    requires d > 0.0 && closedAt == ClosedAt(Seen(side, price, prices), d)
    ensures forall i :: 0 <= i < |prices| && InBand(price, d, prices, i) ==>
      && (side == Sell && prices[i] <= price - d ==> closedAt == Some(i))
      && (side == Buy && prices[i] >= price + d ==> closedAt == Some(i))
      && (side == Sell && prices[i] > price - d ==> !ClosedBy(closedAt, i))
      && (side == Buy && prices[i] < price + d ==> !ClosedBy(closedAt, i))
  {
    hide Anchor, Triggers;
    var ps := Seen(side, price, prices);
    forall i | 0 <= i < |prices| && InBand(price, d, prices, i)
      ensures Triggers(ps, d, i + 1) ==> closedAt == Some(i)
      ensures !Triggers(ps, d, i + 1) ==> !ClosedBy(closedAt, i)
      ensures Triggers(ps, d, i + 1) <==> if side == Sell then prices[i] <= price - d else prices[i] >= price + d
    {
      BandTriggers(side, price, prices, d, i);
      if Triggers(ps, d, i + 1) {
        FirstIsUnique(ps, d, i + 1);
      }
    }
  }

  lemma {:induction false} AnchorRestarts(ps: seq<real>, d: real, m: nat, i: nat)
    requires m < i <= |ps| && Anchor(ps[..m + 1], d) == ps[m]
    ensures Anchor(ps[..i], d) == Anchor(ps[m..i], d)
  {
    if i == m + 1 {
      assert ps[m..i] == [ps[m]];
    } else {
      AnchorRestarts(ps, d, m, i - 1);
      AnchorStep(ps, d, i - 1);
      assert ps[m..i][..|ps[m..i]| - 1] == ps[m..i - 1];
    }
  }

  /** A price that has run a whole indent ahead becomes the start of a new track at the same indent. */
  lemma MoveRestartsTracking(side: Side, price: real, prices: seq<real>, d: real, m: nat)
    requires d > 0.0 && m < |prices| && InBand(price, d, prices, m)
    requires if side == Sell then prices[m] >= price + d else prices[m] <= price - d
    ensures var rest := ClosedAt(Seen(side, prices[m], prices[m + 1..]), d);
      ClosedAt(Seen(side, price, prices), d) == if rest.None? then None else Some(m + 1 + rest.value)
  {
    hide Anchor, Triggers, ClosedAt;
    var ps, qs := Seen(side, price, prices), Seen(side, prices[m], prices[m + 1..]);
    assert ps[m + 1..] == qs;
    AnchorStays(side, price, prices, d, m);
    AnchorStep(ps, d, m + 1);
    BandTriggers(side, price, prices, d, m);
    forall j: nat | 1 <= j < |qs|
      ensures Triggers(qs, d, j) <==> Triggers(ps, d, m + 1 + j)
    {
      AnchorRestarts(ps, d, m + 1, m + 1 + j);
      assert ps[m + 1..m + 1 + j] == qs[..j];
      HitsStop(qs, d, j);
      HitsStop(ps, d, m + 1 + j);
    }
    Shifted(ps, qs, d, m + 1);
  }

  lemma Shifted(ps: seq<real>, qs: seq<real>, d: real, m: nat)
    requires 0 < m < |ps| && qs == ps[m..] && (forall j :: 1 <= j <= m ==> !Triggers(ps, d, j))
    requires forall j: nat :: 1 <= j < |qs| ==> (Triggers(qs, d, j) <==> Triggers(ps, d, m + j))
    ensures var rest := ClosedAt(qs, d);
      ClosedAt(ps, d) == if rest.None? then None else Some(m + rest.value)
  {
    hide Triggers;
    forall i: nat | First(qs, d, i)
      ensures First(ps, d, m + i)
    {
      forall j | 1 <= j < m + i
        ensures !Triggers(ps, d, j)
      {
        assert j > m ==> !Triggers(qs, d, j - m);
      }
    }
    forall i: nat | First(ps, d, i)
      ensures i > m && First(qs, d, i - m)
    {
      forall j | 1 <= j < i - m
        ensures !Triggers(qs, d, j)
      {
        assert !Triggers(ps, d, m + j);
      }
      assert Triggers(qs, d, i - m);
    }
    if i: nat :| First(ps, d, i) {
      FirstIsUnique(ps, d, i);
      FirstIsUnique(qs, d, i - m);
    }
  }
}
