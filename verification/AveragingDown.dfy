/**
 The averaging-down loop (`_watchingProcess`): every tick may close the position or, when the price has
 moved far enough against it, open one more entry. The loop runs over whatever prices and balances the
 exchange reports, and is resumed from the stored rows after a restart.
 */
module AveragingDown {
  import opened Options
  import opened Positions
  import opened TradingMath
  import PositionClosing
  import SessionProfit
  import TrailingStop

  /** The configuration, read again on every tick. A stop-loss of zero is switched off; `trailing` lets a
      price tracker take the profit. */
  datatype Config = Config(emergencyStop: bool, stopLoss: real, percentProfit: real, trailing: bool,
                           percentTarget: real, percentBuyBackStep: real, percentFromBalance: real,
                           positionSize: real, fibonacci: bool)

  /** What a call that closes the position comes to: an order, nothing to close, or an error. */
  datatype Closing = ClosingOrder | NoExposure | ClosingFailed

  /** One executed entry: as the exchange returned it, and as its row is stored. */
  datatype Entry = Entry(order: Order, row: Order)

  /** What one pass of the loop sees of the world; the tracker, if it runs, starts from `trackStart` and
      reads `tracked`. */
  datatype Tick = Tick(config: Config, lastPrice: real, base: real, quote: real, trackStart: real, tracked: seq<real>,
                       closing: Closing, entry: Option<Entry>)

  /** The variables of the loop. */
  datatype Watch = Watch(first: Option<Side>, price: real, orders: seq<Order>, buyingBack: real, drawdownStep: int)

  datatype Verdict =
    | Throw
    | EmergencyClose
    | StopLoss
    | TakeProfit
    | KeepTracking
    | BuyBack(side: Side, amount: real)
    | Wait

  datatype Outcome = Watching | Tracking | Ended | Abandoned | Failed

  /** What the take-profit logic of one pass comes to. */
  datatype Profit = NotTaken | Taken | Unsettled | Error

  // ---------------------------------------------------------------- one pass

  function Sides(orders: seq<Order>): seq<Side> {
    seq(|orders|, i requires 0 <= i < |orders| => orders[i].side)
  }

  function AverageEntry(entries: seq<Order>, price: real): real {
    if Amount(entries) > 0.0 then Value(entries) / Amount(entries) else price
  }

  function BuyBackDecision(side: Side, buyBack: real, perUnit: real, step: int, t: Tick): Verdict {
    if buyBack > 0.0 && perUnit <= -buyBack then
      var amount := BuyBackOrderAmount(side, if side == Sell then t.base else t.quote, t.lastPrice,
                                       t.config.percentFromBalance, t.config.positionSize, step, t.config.fibonacci);
      if amount > 0.0 then BuyBack(side, amount) else Wait
    else Wait
  }

  /** The tracker of a position on `side` hits its stop at one of the prices it reads. */
  ghost predicate TrackerCloses(t: Tick, side: Side) {
    TrailingStop.ClosedAt(TrailingStop.Seen(Opposite(side), t.trackStart, t.tracked),
                          TrailingStop.Indent(t.trackStart, t.config.percentTarget)).Some?
  }

  /** `_watchingTakeProfitLogic`: from the profit percentage on, close at once or let the tracker close. An
      error of the close goes up only when there is no tracker to catch it. */
  ghost function TakeProfitLogic(side: Side, ratio: real, t: Tick): Profit {
    if ratio < t.config.percentProfit then NotTaken
    else if t.config.trailing then
      if !TrackerCloses(t, side) then Unsettled
      else if t.closing == ClosingOrder then Taken
      else NotTaken
    else
      match t.closing
      case ClosingOrder => Taken
      case NoExposure => NotTaken
      case ClosingFailed => Error
  }

  /** The branches of one pass, in their order. */
  ghost function Decide(w: Watch, t: Tick): Verdict {
    var found := PositionSide(w.first, Sides(w.orders));
    if found.None? then Throw
    else
      var side := found.value;
      var entries := OnSide(w.orders, side);
      var average := AverageEntry(entries, w.price);
      var metrics := PositionMetrics(side, average, t.lastPrice, Amount(entries));
      var buyBack := BuyBackAmount(average, t.config.percentBuyBackStep, w.drawdownStep);
      if metrics.None? || buyBack.None? then Throw
      else if t.config.emergencyStop then EmergencyClose
      else if t.config.stopLoss != 0.0 && metrics.value.ratio <= -t.config.stopLoss then StopLoss
      else
        match TakeProfitLogic(side, metrics.value.ratio, t)
        case Error => Throw
        case Taken => TakeProfit
        case Unsettled => KeepTracking
        case NotTaken => BuyBackDecision(side, buyBack.value, metrics.value.perUnit, w.drawdownStep, t)
  }

  /** Closing ends the session and clears its orders, or leaves them as they are. */
  function Closed(w: Watch, closing: Closing): (Watch, Outcome) {
    match closing
    case ClosingOrder => (w.(orders := []), Ended)
    case NoExposure => (w, Abandoned)
    case ClosingFailed => (w, Failed)
  }

  ghost function Passed(w: Watch, t: Tick): (Watch, Outcome) {
    match Decide(w, t)
    case Throw => (w, Failed)
    case EmergencyClose => Closed(w, t.closing)
    case StopLoss => Closed(w, t.closing)
    case TakeProfit => (w.(orders := []), Ended)
    case KeepTracking => (w, Tracking)
    case Wait => (w, Watching)
    case BuyBack(side, amount) =>
      if t.entry.None? then (w, Failed)
      else (w.(orders := w.orders + [t.entry.value.order], buyingBack := w.buyingBack + amount,
               drawdownStep := w.drawdownStep + 1), Watching)
  }

  /** The loop, on the ticks it sees. */
  ghost function Watched(w: Watch, ticks: seq<Tick>): (Watch, Outcome)
    decreases |ticks|
  {
    if w.orders == [] || ticks == [] then (w, Watching)
    else
      var (next, outcome) := Passed(w, ticks[0]);
      if outcome == Watching then Watched(next, ticks[1..]) else (next, outcome)
  }

  class Strategy {
    var orders: seq<Order>

    constructor ()
      ensures orders == []
    {
      orders := [];
    }

    /** The loop; `buyingBack` and `drawdownStep` are its options. */
    method WatchingProcess(first: Option<Side>, price: real, amount: real, ticks: seq<Tick>)
      returns (outcome: Outcome, buyingBack: real, drawdownStep: int)
      modifies this
      ensures (Watch(first, price, orders, buyingBack, drawdownStep), outcome)
           == Watched(Watch(first, price, old(orders), amount, |old(orders)|), ticks)
      ensures outcome != Ended ==> drawdownStep == |orders|
    {
      hide Decide;
      outcome, buyingBack, drawdownStep := Watching, amount, |orders|;
      var i := 0;
      while i < |ticks| && |orders| != 0
        invariant 0 <= i <= |ticks| && drawdownStep == |orders|
        invariant Watched(Watch(first, price, old(orders), amount, |old(orders)|), ticks)
               == Watched(Watch(first, price, orders, buyingBack, drawdownStep), ticks[i..])
      {
        var t := ticks[i];
        assert ticks[i..][1..] == ticks[i + 1..];
        var verdict := Judge(first, price, drawdownStep, t);
        assert verdict == Decide(Watch(first, price, orders, buyingBack, drawdownStep), t);
        match verdict {
          case Throw =>
            return Failed, buyingBack, drawdownStep;
          case EmergencyClose | StopLoss =>
            if t.closing == ClosingOrder {
              orders := [];
              return Ended, buyingBack, drawdownStep;
            }
            return if t.closing == NoExposure then Abandoned else Failed, buyingBack, drawdownStep;
          case TakeProfit =>
            orders := [];
            return Ended, buyingBack, drawdownStep;
          case KeepTracking =>
            return Tracking, buyingBack, drawdownStep;
          case BuyBack(_, added) =>
            if t.entry.None? {
              return Failed, buyingBack, drawdownStep;
            }
            orders := orders + [t.entry.value.order];
            drawdownStep := drawdownStep + 1;
            buyingBack := buyingBack + added;
          case Wait =>
        }
        i := i + 1;
      }
    }

    /** One pass of the loop, up to what it does with the position. */
    method Judge(first: Option<Side>, price: real, drawdownStep: int, t: Tick) returns (v: Verdict)
      ensures forall buyingBack :: v == Decide(Watch(first, price, orders, buyingBack, drawdownStep), t)
    {
      var side := PositionSide(first, Sides(orders));
      if side.None? {
        return Throw;
      }
      var entries := OnSide(orders, side.value);
      var average := AverageEntry(entries, price);
      var metrics := PositionMetrics(side.value, average, t.lastPrice, Amount(entries));
      var buyBack := BuyBackAmount(average, t.config.percentBuyBackStep, drawdownStep);
      if metrics.None? || buyBack.None? {
        return Throw;
      }
      if t.config.emergencyStop {
        return EmergencyClose;
      }
      if t.config.stopLoss != 0.0 && metrics.value.ratio <= -t.config.stopLoss {
        return StopLoss;
      }
      var profit := TryProfit(side.value, metrics.value.ratio, t);
      if profit == Error {
        return Throw;
      }
      if profit == Unsettled {
        return KeepTracking;
      }
      if profit == Taken {
        return TakeProfit;
      }
      v := BuyBackDecision(side.value, buyBack.value, metrics.value.perUnit, drawdownStep, t);
    }

    method TryProfit(side: Side, ratio: real, t: Tick) returns (profit: Profit)
      ensures profit == TakeProfitLogic(side, ratio, t)
    {
      if ratio < t.config.percentProfit {
        return NotTaken;
      }
      if t.config.trailing {
        var closedAt := TrailingStop.TrackPrice(Opposite(side), t.trackStart, t.config.percentTarget, t.tracked);
        if closedAt.None? {
          return Unsettled;
        }
        return if t.closing == ClosingOrder then Taken else NotTaken;
      }
      if t.closing == ClosingFailed {
        return Error;
      }
      profit := if t.closing == ClosingOrder then Taken else NotTaken;
    }
  }

  /** What each verdict does to the loop's variables. */
  lemma VerdictsSpelledOut(w: Watch, t: Tick)
    ensures var v := Decide(w, t); var (next, outcome) := Passed(w, t);
      && next.first == w.first && next.price == w.price
      && (v.EmergencyClose? || v.StopLoss? ==>
            && (outcome == Ended <==> t.closing == ClosingOrder) && (outcome == Abandoned <==> t.closing == NoExposure)
            && (outcome == Failed <==> t.closing == ClosingFailed))
      && (v.TakeProfit? <==> outcome == Ended && !v.EmergencyClose? && !v.StopLoss?)
      && next.orders == (if outcome == Ended then []
                         else if v.BuyBack? && t.entry.Some? then w.orders + [t.entry.value.order] else w.orders)
      && (v.BuyBack? && t.entry.Some? ==>
            && outcome == Watching && next.buyingBack == w.buyingBack + v.amount
            && next.drawdownStep == w.drawdownStep + 1)
      && (!(v.BuyBack? && t.entry.Some?) ==> next.buyingBack == w.buyingBack && next.drawdownStep == w.drawdownStep)
      && (v.Throw? || (v.BuyBack? && t.entry.None?) ==> outcome == Failed) && (v.Wait? ==> outcome == Watching)
  {
    hide Decide;
  }

  /** A pass fails when there is no side, no positive price, a negative step or no step to count. */
  lemma FailsOnBadInput(w: Watch, t: Tick)
    requires (w.first.None? && w.orders == []) || t.lastPrice <= 0.0 || t.config.percentBuyBackStep < 0.0
          || w.drawdownStep < 1
    ensures Passed(w, t) == (w, Failed)
  {
  }

  /** The loop goes on from where it was: watching more ticks is watching the rest from the state reached, and
      one tick is one pass. */
  lemma {:induction false} WatchedConcat(w: Watch, before: seq<Tick>, after: seq<Tick>)
    ensures var (mid, outcome) := Watched(w, before);
      Watched(w, before + after) == if outcome == Watching then Watched(mid, after) else (mid, outcome)
    decreases |before|
  {
    if before == [] {
      assert before + after == after;
    } else if w.orders != [] {
      assert (before + after)[1..] == before[1..] + after;
      WatchedConcat(Passed(w, before[0]).0, before[1..], after);
    }
  }

  lemma WatchedOne(w: Watch, t: Tick)
    requires w.orders != []
    ensures Watched(w, [t]) == Passed(w, t)
  {
    assert [t][1..] == [];
  }

  // ---------------------------------------------------------------- one pass never averages past the stop-loss

  /** An entry is opened only while the number of entries times the step is below the stop-loss, and only
      on the position's own side with money the account has. */
  lemma OpensOnlyAboveStopLoss(w: Watch, t: Tick)
    requires Decide(w, t).BuyBack? && t.config.stopLoss != 0.0
    ensures w.drawdownStep >= 1 && w.drawdownStep as real * t.config.percentBuyBackStep < t.config.stopLoss
    ensures Some(Decide(w, t).side) == PositionSide(w.first, Sides(w.orders))
    ensures Required(Decide(w, t).side, Decide(w, t).amount, t.lastPrice)
         <= if Decide(w, t).side == Sell then t.base else t.quote
  {
    var side := PositionSide(w.first, Sides(w.orders)).value;
    var entries := OnSide(w.orders, side);
    AveragingStopsAtLoss(side, AverageEntry(entries, w.price), t.lastPrice, Amount(entries),
                         t.config.percentBuyBackStep, w.drawdownStep, t.config.stopLoss);
  }

  // ---------------------------------------------------------------- the branches in money

  lemma Scaled(amount: real, average: real, perUnit: real, share: real)
    requires amount > 0.0 && average > 0.0
    ensures perUnit / average <= share <==> perUnit * amount <= share * (average * amount)
    ensures perUnit / average >= share <==> perUnit * amount >= share * (average * amount)
  {
    RatioTimesAverage(perUnit, average);
    var ratio := perUnit / average;
    assert perUnit * amount == ratio * (average * amount);
    var scale := average * amount;
    if ratio < share {
      assert ratio * scale < share * scale;
    } else if ratio > share {
      assert ratio * scale > share * scale;
    }
  }

  /** What the entries would gain now, and what they cost. */
  function GainNow(w: Watch, t: Tick, side: Side): real {
    SessionProfit.Gain(OnSide(w.orders, side), side, t.lastPrice)
  }

  function Invested(w: Watch, side: Side): real {
    Value(OnSide(w.orders, side))
  }

  lemma GainFromAverage(entries: seq<Order>, side: Side, last: real)
    requires Amount(entries) > 0.0
    ensures var average := Value(entries) / Amount(entries);
      && average * Amount(entries) == Value(entries)
      && SessionProfit.Gain(entries, side, last) ==
         (if side == Buy then last - average else average - last) * Amount(entries)
  {
    hide Amount, Value, SessionProfit.Gain;
    RatioTimesAverage(Value(entries), Amount(entries));
    SessionProfit.GainIsAggregate(entries, side, last);
    SessionProfit.Distribute(Amount(entries), last, Value(entries) / Amount(entries));
  }

  lemma PositiveQuotient(value: real, amount: real)
    requires value > 0.0 && amount > 0.0
    ensures value / amount > 0.0
  {
  }

  lemma MetricsInMoney(entries: seq<Order>, side: Side, last: real, share: real)
    requires Amount(entries) > 0.0 && Value(entries) > 0.0 && last > 0.0
    ensures var m := PositionMetrics(side, Value(entries) / Amount(entries), last, Amount(entries));
      && m.Some?
      && (m.value.ratio <= share <==> SessionProfit.Gain(entries, side, last) <= share * Value(entries))
      && (m.value.ratio >= share <==> SessionProfit.Gain(entries, side, last) >= share * Value(entries))
  {
    hide Amount, Value, SessionProfit.Gain;
    var average := Value(entries) / Amount(entries);
    PositiveQuotient(Value(entries), Amount(entries));
    GainFromAverage(entries, side, last);
    Scaled(Amount(entries), average, if side == Buy then last - average else average - last, share);
  }

  /** The tracker of a long position sells after a fall of one indent from the highest price, at the latest of
      two; that of a short position buys after a rise from the lowest. */
  lemma TrackerFollowsPosition(t: Tick, side: Side, d: real)
    requires d == t.trackStart * t.config.percentTarget > 0.0
    ensures TrackerCloses(t, side) ==> RanBack(t, side, d)
    ensures RanBack(t, side, 2.0 * d) ==> TrackerCloses(t, side)
  {
    hide TrackerCloses, RanBack;
    TrackerInPrices(t, side, TrailingStop.Indent(t.trackStart, t.config.percentTarget));
  }

  lemma TrackerInPrices(t: Tick, side: Side, d: real)
    requires d == TrailingStop.Indent(t.trackStart, t.config.percentTarget) && d > 0.0
    ensures TrackerCloses(t, side) ==> RanBack(t, side, d)
    ensures RanBack(t, side, 2.0 * d) ==> TrackerCloses(t, side)
  {
    hide TrailingStop.ClosedAt, TrailingStop.Seen, TrailingStop.Highest, TrailingStop.Lowest, TrailingStop.Indent;
    var closedAt := TrailingStop.ClosedAt(TrailingStop.Seen(Opposite(side), t.trackStart, t.tracked), d);
    TrailingStop.InRealPrices(Opposite(side), t.trackStart, t.tracked, d, closedAt);
    if closedAt.Some? {
      assert RunsBack(t, side, d, closedAt.value);
    }
    var twice := 2.0 * d;
    if RanBack(t, side, twice) {
      var i: nat :| i < |t.tracked| && RunsBack(t, side, twice, i);
      assert TrailingStop.ClosedBy(closedAt, i);
    }
  }

  ghost predicate RanBack(t: Tick, side: Side, d: real) {
    exists i: nat :: i < |t.tracked| && RunsBack(t, side, d, i)
  }

  /** Price `i` has run back by `d`: down from the highest for a long position, up from the lowest for a short. */
  predicate RunsBack(t: Tick, side: Side, d: real, i: nat)
    requires i < |t.tracked|
  {
    if side == Buy then t.tracked[i] <= TrailingStop.Highest(t.trackStart, t.tracked[..i]) - d
    else t.tracked[i] >= TrailingStop.Lowest(t.trackStart, t.tracked[..i]) + d
  }

  /** A profit is there to be taken, and taking it works out: the close makes an order, and the tracker,
      where one is used, hits its stop. */
  ghost predicate ProfitCloses(t: Tick, side: Side) {
    t.closing == ClosingOrder && (t.config.trailing ==> TrackerCloses(t, side))
  }

  /** A profit was there to be taken, and was not: nothing was closed. */
  ghost predicate ProfitRefused(t: Tick, side: Side) {
    if t.config.trailing then TrackerCloses(t, side) && t.closing != ClosingOrder else t.closing == NoExposure
  }

  /** The averaging order that would come next, paid from the currency the side spends. */
  function NextSize(w: Watch, t: Tick, side: Side): real {
    BuyBackOrderAmount(side, if side == Sell then t.base else t.quote, t.lastPrice, t.config.percentFromBalance,
                       t.config.positionSize, w.drawdownStep, t.config.fibonacci)
  }

  /** The threshold per unit, as a share of the investment. */
  lemma ThresholdInMoney(entries: seq<Order>, side: Side, last: real, n: int, step: real)
    requires Amount(entries) > 0.0 && Value(entries) > 0.0 && last > 0.0 && n >= 1 && step >= 0.0
    ensures var average := Value(entries) / Amount(entries);
      var m := PositionMetrics(side, average, last, Amount(entries)); var b := BuyBackAmount(average, step, n);
      && average > 0.0 && m.Some? && b.Some? && (b.value > 0.0 <==> step > 0.0)
      && (m.value.perUnit <= -b.value <==>
          SessionProfit.Gain(entries, side, last) <= -(n as real * step) * Value(entries))
  {
    hide Amount, Value, SessionProfit.Gain;
    var average := Value(entries) / Amount(entries);
    PositiveQuotient(Value(entries), Amount(entries));
    GainFromAverage(entries, side, last);
    var perUnit := if side == Buy then last - average else average - last;
    ThresholdScaled(Amount(entries), average, perUnit, n as real, step);
  }

  lemma ThresholdScaled(amount: real, average: real, perUnit: real, n: real, step: real)
    requires amount > 0.0 && average > 0.0 && n > 0.0 && step >= 0.0
    ensures average * step * n > 0.0 <==> step > 0.0
    ensures perUnit <= -(average * step * n) <==> perUnit * amount <= -(n * step) * (average * amount)
  {
    Reorder(average, step, n);
    var threshold := -(n * step) * average;
    assert -(n * step) * (average * amount) == threshold * amount;
    if perUnit > threshold {
      assert perUnit * amount > threshold * amount;
    } else {
      assert perUnit * amount <= threshold * amount;
    }
    if step > 0.0 {
      assert average * step > 0.0;
    }
  }

  /** For a position with something invested: an emergency stop always closes it; otherwise the stop-loss
      closes it exactly when it has lost that share of the investment, and otherwise its profit is taken
      exactly when it has gained the profit share and the close works out. */
  lemma ClosesByShareOfInvestment(w: Watch, t: Tick, side: Side)
    requires w.first == Some(side) || (w.first == None && w.orders != [] && w.orders[0].side == side)
    requires Amount(OnSide(w.orders, side)) > 0.0 && Invested(w, side) > 0.0
    requires t.lastPrice > 0.0 && t.config.percentBuyBackStep >= 0.0 && w.drawdownStep >= 1
    ensures var lost := t.config.stopLoss != 0.0 && GainNow(w, t, side) <= -t.config.stopLoss * Invested(w, side);
      var won := GainNow(w, t, side) >= t.config.percentProfit * Invested(w, side);
      && (Decide(w, t) == EmergencyClose <==> t.config.emergencyStop)
      && (Decide(w, t) == StopLoss <==> !t.config.emergencyStop && lost)
      && (Decide(w, t) == TakeProfit <==> !t.config.emergencyStop && !lost && won && ProfitCloses(t, side))
      && (Decide(w, t) == KeepTracking <==>
          !t.config.emergencyStop && !lost && won && t.config.trailing && !TrackerCloses(t, side))
      && (Decide(w, t) == Throw <==>
          !t.config.emergencyStop && !lost && won && !t.config.trailing && t.closing == ClosingFailed)
      && (Decide(w, t).BuyBack? <==>
          && !t.config.emergencyStop && !lost && (won ==> ProfitRefused(t, side))
          && t.config.percentBuyBackStep > 0.0
          && GainNow(w, t, side) <= -(w.drawdownStep as real * t.config.percentBuyBackStep) * Invested(w, side)
          && NextSize(w, t, side) > 0.0)
      && (Decide(w, t).BuyBack? ==> Decide(w, t) == BuyBack(side, NextSize(w, t, side)))
  {
    hide PositionMetrics, BuyBackAmount, BuyBackOrderAmount, Amount, Value, SessionProfit.Gain, TrackerCloses;
    var entries := OnSide(w.orders, side);
    MetricsInMoney(entries, side, t.lastPrice, -t.config.stopLoss);
    MetricsInMoney(entries, side, t.lastPrice, t.config.percentProfit);
    ThresholdInMoney(entries, side, t.lastPrice, w.drawdownStep, t.config.percentBuyBackStep);
    PositiveQuotient(Value(entries), Amount(entries));
    hide OnSide;
  }

  // ---------------------------------------------------------------- sessions over rounds and restarts

  /** What a process has to do with a session. Between sessions it may still hold orders: `held`.
      In a session: the position's side, the loop's variables, how its loop last came out, the stored rows,
      and how many orders were held when it began. Throughout: how many entries were executed since the list
      was last empty or settled, and how many of their rows were lost. */
  datatype Life =
    | Between(held: seq<Order>, executed: nat, lost: nat)
    | Running(side: Side, watch: Watch, phase: Outcome, rows: seq<Order>, carried: nat, executed: nat, lost: nat)

  const Idle := Between([], 0, 0)

  /** `Round` is the worker's next call of `startAlgorithms` in the same process, `Restart` the death of
      the process, perhaps while it closes the position, and the start of another. */
  datatype Event =
    | Enter(entry: Entry, saved: bool)
    | Pass(tick: Tick, saved: bool)
    | Round
    | Restart(closingRow: Option<Order>)

  /** `checkingExistingOrders`: the loop begins again with the stored rows. */
  function Resumed(rows: seq<Order>): Watch
    requires rows != []
  {
    Watch(Some(rows[0].side), rows[0].price, rows, Amount(rows), |rows|)
  }

  predicate Settled(rows: seq<Order>) {
    PositionClosing.SessionExposureClosed(PositionClosing.Fills(rows))
  }

  /** The first entry of a session goes to the end of whatever list the process holds. */
  function Entered(s: Life, entry: Entry, saved: bool): Life
    requires s.Between?
  {
    var o, orders := entry.order, s.held + [entry.order];
    Running(o.side, Watch(Some(o.side), o.price, orders, o.amount, |orders|), Watching,
            if saved then [entry.row] else [], |s.held|,
            s.executed + 1, s.lost + (if saved then 0 else 1))
  }

  /** A pass, and the row of the entry it opened. */
  ghost function AfterPass(s: Life, t: Tick, saved: bool): Life
    requires s.Running?
  {
    var (w, outcome) := Passed(s.watch, t);
    if outcome == Ended then Idle
    else
      var opens := Decide(s.watch, t).BuyBack? && t.entry.Some?;
      s.(watch := w, phase := outcome,
         rows := if opens && saved then s.rows + [t.entry.value.row] else s.rows,
         executed := s.executed + if opens then 1 else 0,
         lost := s.lost + if opens && !saved then 1 else 0)
  }

  /** A session with stored rows that do not look closed goes on with them alone. */
  function Continued(s: Life, rows: seq<Order>): Life
    requires s.Running? && rows != []
  {
    s.(side := rows[0].side, watch := Resumed(rows), phase := Watching, rows := rows, carried := 0)
  }

  /** After a close that found nothing the worker starts over. Without stored rows the session is given up,
      with settled rows it is completed; either way the list stays as it is. */
  function AfterRound(s: Life): Life
    requires s.Running?
  {
    if s.rows == [] then Between(s.watch.orders, s.executed, s.lost)
    else if Settled(s.rows) then Between(s.watch.orders, 0, 0)
    else Continued(s, s.rows)
  }

  function AfterRestart(s: Life, closingRow: Option<Order>): Life
    requires s.Running?
  {
    var rows := if closingRow.Some? then s.rows + [closingRow.value] else s.rows;
    if rows == [] || Settled(rows) then Idle else Continued(s, rows)
  }

  ghost function Next(s: Life, e: Event): Life {
    match e
    case Enter(entry, saved) =>
      if s.Between? then Entered(s, entry, saved) else s
    case Pass(tick, saved) =>
      if s.Running? && s.phase == Watching && s.watch.orders != [] then AfterPass(s, tick, saved) else s
    case Round =>
      if s.Running? && s.phase == Abandoned then AfterRound(s) else s
    case Restart(closingRow) =>
      if s.Running? then AfterRestart(s, closingRow) else Idle
  }

  /** What a start finds in the rows: nothing or settled ones are left behind, others are gone on with, on the
      side and at the price of the first, with all their amount and as many steps as there are rows. */
  lemma RestartSpelledOut(s: Life, closingRow: Option<Order>)
    requires s.Running?
    ensures var rows := s.rows + if closingRow.Some? then [closingRow.value] else [];
      var next := Next(s, Restart(closingRow));
      if rows == [] || Settled(rows) then next == Idle
      else
        && next.Running? && next.rows == rows && next.phase == Watching && next.carried == 0
        && next.executed == s.executed && next.lost == s.lost
        && next.watch == Watch(Some(rows[0].side), rows[0].price, rows, Amount(rows), |rows|)
  {
    hide Settled;
    assert s.rows + [] == s.rows;
  }

  /** An entry's order and row carry the side it was opened on, a closing row the opposite one, and the
      stop-loss and the step stay what they are. */
  ghost predicate Regular(s: Life, e: Event, stopLoss: real, step: real) {
    match e
    case Enter(entry, _) => entry.order.side == entry.row.side
    case Pass(tick, _) =>
      && tick.config.stopLoss == stopLoss && tick.config.percentBuyBackStep == step
      && (s.Running? && tick.entry.Some? ==>
            tick.entry.value.order.side == s.side && tick.entry.value.row.side == s.side)
    case Round => true
    case Restart(closingRow) => s.Running? && closingRow.Some? ==> closingRow.value.side != s.side
  }

  ghost function After(events: seq<Event>): Life {
    if events == [] then Idle else Next(After(events[..|events| - 1]), events[|events| - 1])
  }

  ghost predicate RegularRun(events: seq<Event>, stopLoss: real, step: real) {
    forall i :: 0 <= i < |events| ==> Regular(After(events[..i]), events[i], stopLoss, step)
  }

  /** `n` entries are within the stop-loss: all but the last were opened above it. */
  predicate Within(n: int, stopLoss: real, step: real) {
    (n - 1) as real * step < stopLoss
  }

  function Entries(orders: seq<Order>, side: Side): nat {
    |OnSide(orders, side)|
  }

  /** Every stored row belongs to a held order. */
  predicate Holds(orders: seq<Order>, rows: seq<Order>) {
    Entries(rows, Buy) <= Entries(orders, Buy) && Entries(rows, Sell) <= Entries(orders, Sell)
  }

  /** Lost rows apart, there is room within the stop-loss for one more entry on either side. */
  predicate Spare(orders: seq<Order>, lost: nat, stopLoss: real, step: real) {
    && Within(Entries(orders, Buy) - lost + 1, stopLoss, step)
    && Within(Entries(orders, Sell) - lost + 1, stopLoss, step)
  }

  /** What every reachable state keeps. Rows that look closed were completed by an averaging entry, which
      leaves the whole list within the stop-loss. */
  ghost predicate Bounded(s: Life, stopLoss: real, step: real) {
    match s
    case Between(held, executed, lost) =>
      Spare(held, lost, stopLoss, step) && executed <= lost
    case Running(side, watch, _, rows, carried, executed, lost) =>
      var n := Entries(watch.orders, side);
      && (rows != [] ==> rows[0].side == side) && watch.first == Some(side)
      && watch.drawdownStep == |watch.orders|
      && Holds(watch.orders, rows)
      && executed <= Entries(rows, side) + lost
      && Within(Entries(rows, side), stopLoss, step)
      && (Within(|watch.orders|, stopLoss, step) || !Settled(rows))
      && (rows == [] ==> Spare(watch.orders, lost, stopLoss, step))
      && Within(n - lost, stopLoss, step)
      && (Within(n, stopLoss, step) || (carried > 0 && n <= carried + 1))
  }

  lemma WithinDown(m: int, n: int, stopLoss: real, step: real)
    requires m <= n && step > 0.0 && Within(n, stopLoss, step)
    ensures Within(m, stopLoss, step)
  {
    assert (m - 1) as real <= (n - 1) as real;
    assert (m - 1) as real * step <= (n - 1) as real * step;
  }

  lemma OneMoreWithin(n: int, stopLoss: real, step: real)
    requires n as real * step < stopLoss
    ensures Within(n + 1, stopLoss, step)
  {
  }

  lemma EntriesAppend(orders: seq<Order>, o: Order, side: Side)
    ensures Entries(orders + [o], side) == Entries(orders, side) + if o.side == side then 1 else 0
  {
    OnSideAppend(orders, o, side);
  }

  lemma NoEntries(side: Side)
    ensures Entries([], side) == 0
  {
  }

  lemma OneEntry(o: Order, side: Side)
    ensures Entries([o], side) == if o.side == side then 1 else 0
  {
    NoEntries(side);
    EntriesAppend([], o, side);
    assert [] + [o] == [o];
  }

  lemma EntriesAtMost(orders: seq<Order>, side: Side)
    ensures Entries(orders, side) <= |orders|
  {
    SidesAddUp(orders);
  }

  lemma {:induction false} EntryAt(orders: seq<Order>, i: nat)
    requires i < |orders|
    ensures Entries(orders, orders[i].side) >= 1
  {
    if i > 0 {
      EntryAt(orders[1..], i - 1);
    }
  }

  /** Rows that look closed show both sides. */
  lemma SettledIsTwoSided(rows: seq<Order>)
    requires Settled(rows)
    ensures Entries(rows, Buy) >= 1 && Entries(rows, Sell) >= 1
  {
    var fs := PositionClosing.Fills(rows);
    var i :| 0 <= i < |fs| && fs[i].side != fs[0].side;
    EntryAt(rows, i);
    EntryAt(rows, 0);
  }

  lemma FewAreNotSettled(rows: seq<Order>)
    requires |rows| <= 1
    ensures !Settled(rows)
  {
  }

  lemma HoldsAppend(orders: seq<Order>, rows: seq<Order>, o: Order, row: Order)
    requires Holds(orders, rows) && o.side == row.side
    ensures Holds(orders + [o], rows + [row]) && Holds(orders + [o], rows)
  {
    EntriesAppend(orders, o, Buy);
    EntriesAppend(orders, o, Sell);
    EntriesAppend(rows, row, Buy);
    EntriesAppend(rows, row, Sell);
  }

  lemma HoldsItself(orders: seq<Order>)
    ensures Holds(orders, orders) && Holds(orders, [])
  {
  }

  lemma SpareOf(orders: seq<Order>, lost: nat, side: Side, stopLoss: real, step: real)
    requires Spare(orders, lost, stopLoss, step)
    ensures Within(Entries(orders, side) - lost + 1, stopLoss, step)
  {
  }

  /** A lost row takes up no room. */
  lemma SpareAppend(orders: seq<Order>, o: Order, lost: nat, stopLoss: real, step: real)
    requires Spare(orders, lost, stopLoss, step) && step > 0.0
    ensures Spare(orders + [o], lost + 1, stopLoss, step)
  {
    hide Within, Entries;
    EntriesAppend(orders, o, Buy);
    EntriesAppend(orders, o, Sell);
    WithinDown(Entries(orders + [o], Buy) - (lost + 1) + 1, Entries(orders, Buy) - lost + 1, stopLoss, step);
    WithinDown(Entries(orders + [o], Sell) - (lost + 1) + 1, Entries(orders, Sell) - lost + 1, stopLoss, step);
  }

  lemma PassStaysBounded(s: Life, t: Tick, saved: bool, stopLoss: real, step: real)
    requires Bounded(s, stopLoss, step) && s.Running? && stopLoss > 0.0 && step > 0.0
    requires Regular(s, Pass(t, saved), stopLoss, step)
    ensures Bounded(AfterPass(s, t, saved), stopLoss, step)
  {
    hide Within, Entries, Decide, Holds, Spare, Settled;
    IdleIsBounded(stopLoss, step);
    if Decide(s.watch, t).BuyBack? && t.entry.Some? {
      var n, m := |s.watch.orders|, Entries(s.watch.orders, s.side);
      OpensOnlyAboveStopLoss(s.watch, t);
      EntriesAppend(s.watch.orders, t.entry.value.order, s.side);
      EntriesAppend(s.rows, t.entry.value.row, s.side);
      HoldsAppend(s.watch.orders, s.rows, t.entry.value.order, t.entry.value.row);
      EntriesAtMost(s.watch.orders, s.side);
      HoldsOf(s.watch.orders, s.rows, s.side);
      OneMoreWithin(n, stopLoss, step);
      WithinDown(m + 1, n + 1, stopLoss, step);
      WithinDown(Entries(s.rows, s.side) + 1, n + 1, stopLoss, step);
      WithinDown(m + 1 - s.lost, m + 1, stopLoss, step);
      if s.rows == [] {
        SpareAppend(s.watch.orders, t.entry.value.order, s.lost, stopLoss, step);
      }
    }
  }

  lemma HoldsOf(orders: seq<Order>, rows: seq<Order>, side: Side)
    requires Holds(orders, rows)
    ensures Entries(rows, side) <= Entries(orders, side)
  {
  }

  lemma IdleIsBounded(stopLoss: real, step: real)
    requires stopLoss > 0.0
    ensures Bounded(Idle, stopLoss, step)
  {
  }

  lemma EnterStaysBounded(s: Life, entry: Entry, saved: bool, stopLoss: real, step: real)
    requires Bounded(s, stopLoss, step) && s.Between? && stopLoss > 0.0 && step > 0.0
    requires entry.order.side == entry.row.side
    ensures Bounded(Entered(s, entry, saved), stopLoss, step)
  {
    hide Within, Entries, Holds, Spare, Settled;
    var o := entry.order;
    var m := Entries(s.held, o.side);
    NoEntries(o.side);
    OneEntry(entry.row, o.side);
    EntriesAppend(s.held, o, o.side);
    EntriesAtMost(s.held, o.side);
    HoldsItself(s.held);
    HoldsAppend(s.held, [], o, entry.row);
    assert [] + [entry.row] == [entry.row];
    FewAreNotSettled(if saved then [entry.row] else []);
    OneMoreWithin(0, stopLoss, step);
    WithinDown(0, 1, stopLoss, step);
    SpareOf(s.held, s.lost, o.side, stopLoss, step);
    WithinDown(m - s.lost, m - s.lost + 1, stopLoss, step);
    SpareAppend(s.held, o, s.lost, stopLoss, step);
  }

  /** Going on with rows that are the session's, with perhaps a closing row behind them. */
  lemma ContinuedIsBounded(s: Life, closingRow: Option<Order>, stopLoss: real, step: real)
    requires Bounded(s, stopLoss, step) && s.Running? && stopLoss > 0.0 && step > 0.0
    requires closingRow.Some? ==> closingRow.value.side != s.side
    ensures var rows := if closingRow.Some? then s.rows + [closingRow.value] else s.rows;
      rows != [] && !Settled(rows) ==> Bounded(Continued(s, rows), stopLoss, step)
  {
    hide Within, Entries, Holds, Spare, Settled;
    var rows := if closingRow.Some? then s.rows + [closingRow.value] else s.rows;
    if closingRow.Some? {
      EntriesAppend(s.rows, closingRow.value, s.side);
      OneEntry(closingRow.value, closingRow.value.side);
    }
    HoldsItself(rows);
    NoEntries(s.side);
    OneMoreWithin(0, stopLoss, step);
    WithinDown(1 - s.lost, 1, stopLoss, step);
    WithinDown(Entries(s.rows, s.side) - s.lost, Entries(s.rows, s.side), stopLoss, step);
    if s.rows == [] && closingRow.Some? {
      assert rows == [closingRow.value];
    }
  }

  /** A list within the stop-loss that shows both sides has room for one more on either. */
  lemma TwoSidedHasSpare(orders: seq<Order>, rows: seq<Order>, stopLoss: real, step: real)
    requires Holds(orders, rows) && Settled(rows) && Within(|orders|, stopLoss, step) && step > 0.0
    ensures Spare(orders, 0, stopLoss, step)
  {
    hide Within, Entries, Settled;
    SettledIsTwoSided(rows);
    BothSides(orders);
    WithinDown(Entries(orders, Buy) + 1, |orders|, stopLoss, step);
    WithinDown(Entries(orders, Sell) + 1, |orders|, stopLoss, step);
  }

  lemma BothSides(orders: seq<Order>)
    ensures |orders| == Entries(orders, Buy) + Entries(orders, Sell)
  {
    SidesAddUp(orders);
  }

  lemma RoundStaysBounded(s: Life, stopLoss: real, step: real)
    requires Bounded(s, stopLoss, step) && s.Running? && stopLoss > 0.0 && step > 0.0
    ensures Bounded(AfterRound(s), stopLoss, step)
  {
    hide Within, Entries, Holds, Spare, Settled;
    NoEntries(s.side);
    if s.rows != [] && Settled(s.rows) {
      TwoSidedHasSpare(s.watch.orders, s.rows, stopLoss, step);
    }
    ContinuedIsBounded(s, None, stopLoss, step);
  }

  lemma StepStaysBounded(s: Life, e: Event, stopLoss: real, step: real)
    requires stopLoss > 0.0 && step > 0.0 && Bounded(s, stopLoss, step) && Regular(s, e, stopLoss, step)
    ensures Bounded(Next(s, e), stopLoss, step)
  {
    hide Bounded, AfterPass, Settled, Continued;
    IdleIsBounded(stopLoss, step);
    match e
    case Enter(entry, saved) =>
      if s.Between? {
        EnterStaysBounded(s, entry, saved, stopLoss, step);
      }
    case Pass(tick, saved) =>
      if s.Running? {
        PassStaysBounded(s, tick, saved, stopLoss, step);
      }
    case Round =>
      if s.Running? {
        RoundStaysBounded(s, stopLoss, step);
      }
    case Restart(closingRow) =>
      if s.Running? {
        ContinuedIsBounded(s, closingRow, stopLoss, step);
      }
  }

  lemma {:induction false} RunStaysBounded(events: seq<Event>, stopLoss: real, step: real)
    requires stopLoss > 0.0 && step > 0.0 && RegularRun(events, stopLoss, step)
    ensures Bounded(After(events), stopLoss, step)
  {
    hide Next, Bounded, Regular;
    if events == [] {
      IdleIsBounded(stopLoss, step);
    } else {
      var before, e := events[..|events| - 1], events[|events| - 1];
      forall i | 0 <= i < |before|
        ensures Regular(After(before[..i]), before[i], stopLoss, step)
      {
        assert before[..i] == events[..i];
      }
      RunStaysBounded(before, stopLoss, step);
      StepStaysBounded(After(before), e, stopLoss, step);
    }
  }

  function Ceiling(x: real): int {
    -(-x).Floor
  }

  lemma WithinMeansCeiling(n: int, stopLoss: real, step: real)
    requires step > 0.0 && Within(n, stopLoss, step)
    ensures n <= Ceiling(stopLoss / step)
  {
    RatioTimesAverage(stopLoss, step);
    StrictCancel(step, (n - 1) as real, stopLoss / step);
  }

  lemma StrictCancel(step: real, x: real, y: real)
    requires step > 0.0 && x * step < y * step
    ensures x < y
  {
  }

  /** For every sequence of prices, balances, executions, lost rows, rounds, crashes and restarts: the step
      counter of a session is the length of its order list; the entries it holds are at most
      stop-loss / step, rounded up, or else one more than the orders it began with; and what it holds and
      what it has executed are at most stop-loss / step, rounded up, plus the entries whose rows were lost. */
  lemma EntriesAreBounded(events: seq<Event>, stopLoss: real, step: real)
    requires stopLoss > 0.0 && step > 0.0 && RegularRun(events, stopLoss, step)
    requires After(events).Running?
    ensures var s := After(events); var n := Entries(s.watch.orders, s.side);
      && s.watch.drawdownStep == |s.watch.orders|
      && (n <= Ceiling(stopLoss / step) || (s.carried > 0 && n <= s.carried + 1))
      && n <= Ceiling(stopLoss / step) + s.lost
      && s.executed <= Ceiling(stopLoss / step) + s.lost
  {
    hide Next, After, Ceiling, Within, Entries, Settled, Spare, Holds;
    RunStaysBounded(events, stopLoss, step);
    var s := After(events);
    var n := Entries(s.watch.orders, s.side);
    WithinMeansCeiling(Entries(s.rows, s.side), stopLoss, step);
    WithinMeansCeiling(n - s.lost, stopLoss, step);
    if Within(n, stopLoss, step) {
      WithinMeansCeiling(n, stopLoss, step);
    }
  }

  lemma {:induction false} CarriedOnlyByRounds(events: seq<Event>)
    requires forall i :: 0 <= i < |events| ==> !events[i].Round?
    ensures After(events) == Idle || (After(events).Running? && After(events).carried == 0)
  {
    hide Decide, Settled;
    if events != [] {
      CarriedOnlyByRounds(events[..|events| - 1]);
    }
  }

  /** Without a further round in the same process, a session never holds more than stop-loss / step entries,
      rounded up, whatever rows are lost and however often the process dies. */
  lemma HeldWithinStopLoss(events: seq<Event>, stopLoss: real, step: real)
    requires stopLoss > 0.0 && step > 0.0 && RegularRun(events, stopLoss, step)
    requires forall i :: 0 <= i < |events| ==> !events[i].Round?
    requires After(events).Running?
    ensures Entries(After(events).watch.orders, After(events).side) <= Ceiling(stopLoss / step)
  {
    hide After;
    EntriesAreBounded(events, stopLoss, step);
    CarriedOnlyByRounds(events);
  }

  const BOUGHT := Order(0, Buy, 100.0, 1.0)
  const AVERAGED := Order(1, Buy, 90.0, 1.0)

  /** The price has fallen to 90, and no close finds anything. */
  function Fallen(stopLoss: real): Tick {
    Tick(Config(false, stopLoss, 0.05, false, 0.0, 0.1, 0.5, 1.0, true), 90.0, 0.0, 1000.0, 0.0, [], NoExposure,
         Some(Entry(AVERAGED, AVERAGED)))
  }

  lemma AfterStep(events: seq<Event>, e: Event)
    ensures After(events + [e]) == Next(After(events), e)
  {
    assert (events + [e])[..|events|] == events;
  }

  lemma RegularStep(events: seq<Event>, e: Event, stopLoss: real, step: real)
    requires RegularRun(events, stopLoss, step) && Regular(After(events), e, stopLoss, step)
    ensures RegularRun(events + [e], stopLoss, step)
  {
    forall i | 0 <= i < |events + [e]|
      ensures Regular(After((events + [e])[..i]), (events + [e])[i], stopLoss, step)
    {
      assert (events + [e])[..i] == if i < |events| then events[..i] else events;
    }
  }

  /** The bound on what was executed is met with equality: stop-loss 20%, step 10%, so two entries; the
      second is executed, its row is lost, and after the restart the same price opens another. */
  lemma LostRowIsPaidFor()
    ensures var events :=
        [Enter(Entry(BOUGHT, BOUGHT), true)] + [Pass(Fallen(0.2), false)] + [Restart(None)] + [Pass(Fallen(0.2), true)];
      && RegularRun(events, 0.2, 0.1)
      && After(events).Running? && After(events).executed == Ceiling(0.2 / 0.1) + 1 && After(events).lost == 1
  {
    hide After, RegularRun, Decide;
    var t, w := Fallen(0.2), Watch(Some(Buy), 100.0, [BOUGHT], 1.0, 1);
    FirstBuyBack(t);
    EmptyRun(0.2, 0.1);
    var e1 := [Enter(Entry(BOUGHT, BOUGHT), true)];
    Extend([], Enter(Entry(BOUGHT, BOUGHT), true), 0.2, 0.1);
    assert [] + e1 == e1;
    assert After(e1) == Running(Buy, w, Watching, [BOUGHT], 0, 1, 0);
    Extend(e1, Pass(t, false), 0.2, 0.1);
    var s2 := After(e1 + [Pass(t, false)]);
    assert s2.Running? && s2.side == Buy && s2.rows == [BOUGHT] && s2.executed == 2 && s2.lost == 1;
    Extend(e1 + [Pass(t, false)], Restart(None), 0.2, 0.1);
    assert After(e1 + [Pass(t, false)] + [Restart(None)]) == Running(Buy, w, Watching, [BOUGHT], 0, 2, 1);
    Extend(e1 + [Pass(t, false)] + [Restart(None)], Pass(t, true), 0.2, 0.1);
  }

  lemma EmptyRun(stopLoss: real, step: real)
    ensures RegularRun([], stopLoss, step) && After([]) == Idle
  {
  }

  lemma Extend(events: seq<Event>, e: Event, stopLoss: real, step: real)
    requires RegularRun(events, stopLoss, step) && Regular(After(events), e, stopLoss, step)
    ensures RegularRun(events + [e], stopLoss, step) && After(events + [e]) == Next(After(events), e)
  {
    RegularStep(events, e, stopLoss, step);
    AfterStep(events, e);
  }

  /** The bound on what is held is met with equality by a round: stop-loss and step 10%, so one entry. Its
      row is lost, the price falls to the stop-loss while the exchange does not answer for it, and the next
      round enters again on top of the list that was never closed. */
  lemma AbandonedEntryStaysHeld()
    ensures var events := [Enter(Entry(BOUGHT, BOUGHT), false)] + [Pass(Fallen(0.1), true)] + [Round]
                          + [Enter(Entry(AVERAGED, AVERAGED), true)];
      && RegularRun(events, 0.1, 0.1)
      && var s := After(events);
      && s.Running? && s.lost == 1
      && Ceiling(0.1 / 0.1) == 1 && Entries(s.watch.orders, s.side) == 2
  {
    hide After, RegularRun, Decide;
    var t, w := Fallen(0.1), Watch(Some(Buy), 100.0, [BOUGHT], 1.0, 1);
    FallsToStopLoss(t);
    EmptyRun(0.1, 0.1);
    var e1 := [Enter(Entry(BOUGHT, BOUGHT), false)];
    Extend([], Enter(Entry(BOUGHT, BOUGHT), false), 0.1, 0.1);
    assert [] + e1 == e1;
    assert After(e1) == Running(Buy, w, Watching, [], 0, 1, 1);
    Extend(e1, Pass(t, true), 0.1, 0.1);
    assert After(e1 + [Pass(t, true)]) == Running(Buy, w, Abandoned, [], 0, 1, 1);
    Extend(e1 + [Pass(t, true)], Round, 0.1, 0.1);
    assert After(e1 + [Pass(t, true)] + [Round]) == Between([BOUGHT], 1, 1);
    Extend(e1 + [Pass(t, true)] + [Round], Enter(Entry(AVERAGED, AVERAGED), true), 0.1, 0.1);
    OneEntry(BOUGHT, Buy);
    EntriesAppend([BOUGHT], AVERAGED, Buy);
  }

  lemma FirstMetrics()
    ensures Amount([BOUGHT]) == 1.0 && OnSide([BOUGHT], Buy) == [BOUGHT] && AverageEntry([BOUGHT], 100.0) == 100.0
  {
    assert [BOUGHT][1..] == [] && Amount([BOUGHT][1..]) == 0.0 && Value([BOUGHT][1..]) == 0.0;
    assert Cost(BOUGHT) == 100.0;
    assert Amount([BOUGHT]) == 1.0 && Value([BOUGHT]) == 100.0;
  }

  lemma FirstBuyBack(t: Tick)
    requires t == Fallen(0.2)
    ensures Decide(Watch(Some(Buy), 100.0, [BOUGHT], 1.0, 1), t) == BuyBack(Buy, 1.0) && Amount([BOUGHT]) == 1.0
  {
    FirstMetrics();
  }

  lemma FallsToStopLoss(t: Tick)
    requires t == Fallen(0.1)
    ensures Decide(Watch(Some(Buy), 100.0, [BOUGHT], 1.0, 1), t) == StopLoss
  {
    FirstMetrics();
  }
}
