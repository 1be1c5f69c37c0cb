/**
 Closing a position: `closeFilledPosition` sums what the session's orders really executed, submits one
 reverse order for the difference, waits for its execution and records it; on restart the stored rows
 decide whether the session was closed.
 */
module PositionClosing {
  import opened Options
  import opened Positions

  /** An executed amount on one side. */
  datatype Fill = Fill(side: Side, filled: real)

  function Signed(f: Fill): real {
    if f.side == Buy then f.filled else -f.filled
  }

  function Abs(x: real): real {
    if x < 0.0 then -x else x
  }

  function Max(x: real, y: real): real {
    if x < y then y else x
  }

  // ---------------------------------------------------------------- position-exposure.ts

  /** Number.EPSILON */
  const EPSILON: real := 1.0 / 4503599627370496.0

  function NetFilled(fs: seq<Fill>): real {
    if fs == [] then 0.0
    else
      var last := fs[|fs| - 1];
      NetFilled(fs[..|fs| - 1]) + if last.filled <= 0.0 then 0.0 else Signed(last)
  }

  /** The reverse order that closes the position; None when nothing is left to close. */
  function ClosingExposure(fs: seq<Fill>): Option<Fill> {
    var net := NetFilled(fs);
    if Abs(net) <= EPSILON then None else Some(Fill(if net > 0.0 then Sell else Buy, Abs(net)))
  }

  // ---------------------------------------------------------------- session-reconciliation.ts

  function NetAmount(fs: seq<Fill>): real {
    if fs == [] then 0.0 else NetAmount(fs[..|fs| - 1]) + Signed(fs[|fs| - 1])
  }

  function GrossAmount(fs: seq<Fill>): real {
    if fs == [] then 0.0 else GrossAmount(fs[..|fs| - 1]) + Abs(fs[|fs| - 1].filled)
  }

  function Tolerance(gross: real): real {
    Max(0.000000000001, gross * 0.00000001)
  }

  predicate AllPositive(fs: seq<Fill>) {
    forall i :: 0 <= i < |fs| ==> fs[i].filled > 0.0
  }

  predicate TwoSided(fs: seq<Fill>) {
    |fs| >= 2 && exists i :: 0 <= i < |fs| && fs[i].side != fs[0].side
  }

  predicate SessionExposureClosed(fs: seq<Fill>) {
    TwoSided(fs) && AllPositive(fs) && Abs(NetAmount(fs)) <= Tolerance(GrossAmount(fs))
  }

  function Fills(orders: seq<Order>): seq<Fill> {
    seq(|orders|, i requires 0 <= i < |orders| => Fill(orders[i].side, orders[i].amount))
  }

  lemma FillsAppend(orders: seq<Order>, o: Order)
    ensures Fills(orders + [o]) == Fills(orders) + [Fill(o.side, o.amount)]
  {
  }

  // ---------------------------------------------------------------- agreement of the two

  lemma {:induction false} NetsAgree(fs: seq<Fill>)
    requires AllPositive(fs)
    ensures NetFilled(fs) == NetAmount(fs)
    ensures Abs(NetAmount(fs)) <= GrossAmount(fs)
  {
    if fs != [] {
      NetsAgree(fs[..|fs| - 1]);
    }
  }

  lemma {:induction false} OneSidedNet(fs: seq<Fill>, side: Side)
    requires AllPositive(fs) && fs != []
    requires forall i :: 0 <= i < |fs| ==> fs[i].side == side
    ensures if side == Buy then NetFilled(fs) > 0.0 else NetFilled(fs) < 0.0
  {
    if |fs| > 1 {
      OneSidedNet(fs[..|fs| - 1], side);
    }
  }

  /** An open position and the order that closes it always show both sides. */
  lemma ClosingIsTwoSided(fs: seq<Fill>, f: real)
    requires AllPositive(fs) && ClosingExposure(fs).Some?
    ensures TwoSided(fs + [Fill(ClosingExposure(fs).value.side, f)])
  {
    var after := fs + [Fill(ClosingExposure(fs).value.side, f)];
    if forall i :: 0 <= i < |fs| ==> fs[i].side == fs[0].side {
      OneSidedNet(fs, fs[0].side);
      assert after[|fs|].side != after[0].side;
    } else {
      var i :| 0 <= i < |fs| && fs[i].side != fs[0].side;
      assert after[i].side != after[0].side;
    }
  }

  /** One more executed amount, in each of the sums. */
  lemma SumsAfter(fs: seq<Fill>, f: Fill)
    requires f.filled > 0.0
    ensures NetFilled(fs + [f]) == NetFilled(fs) + Signed(f)
    ensures NetAmount(fs + [f]) == NetAmount(fs) + Signed(f)
    ensures GrossAmount(fs + [f]) == GrossAmount(fs) + f.filled
  {
    assert (fs + [f])[..|fs|] == fs;
  }

  /** The close is for what the exchange reports, restart looks at the stored rows. After a closing order
      that executes `f`, the rows count as closed exactly when they show both sides and the difference
      between the rows and the exchange, together with what the close left, is within the tolerance. */
  lemma RecognisedExactlyWhen(rows: seq<Fill>, reported: seq<Fill>, f: real)
    requires AllPositive(rows) && ClosingExposure(reported).Some? && f > 0.0
    ensures var closing := Fill(ClosingExposure(reported).value.side, f);
      var left := NetFilled(reported + [closing]);
      SessionExposureClosed(rows + [closing]) <==>
        && TwoSided(rows + [closing])
        && Abs(NetAmount(rows) - NetFilled(reported) + left) <= Tolerance(GrossAmount(rows) + f)
  {
    var closing := Fill(ClosingExposure(reported).value.side, f);
    SumsAfter(rows, closing);
    SumsAfter(reported, closing);
    assert AllPositive(rows + [closing]);
  }

  /** In full: when rows and exchange differ by no more than the tolerance. */
  lemma FullFillRecognisedExactlyWhen(rows: seq<Fill>, reported: seq<Fill>)
    requires AllPositive(rows) && ClosingExposure(reported).Some?
    ensures var c := ClosingExposure(reported).value;
      SessionExposureClosed(rows + [c]) <==>
        && TwoSided(rows + [c])
        && Abs(NetAmount(rows) - NetFilled(reported)) <= Tolerance(GrossAmount(rows) + c.filled)
  {
    var c := ClosingExposure(reported).value;
    RecognisedExactlyWhen(rows, reported, c.filled);
    SumsAfter(reported, c);
  }

  /** They can differ by more: an entry that was still open at the last poll is stored with the 0.5 it had
      executed, the exchange later reports 0.8, the close sells 0.8 in full, and restart takes the flat
      session for an open one. */
  lemma LateFillIsNotRecognised()
    ensures var rows, reported := [Fill(Buy, 0.5)], [Fill(Buy, 0.8)];
      && ClosingExposure(reported) == Some(Fill(Sell, 0.8)) && NetFilled(reported + [Fill(Sell, 0.8)]) == 0.0
      && !SessionExposureClosed(rows + [Fill(Sell, 0.8)])
  {
    var rows, reported := [Fill(Buy, 0.5)], [Fill(Buy, 0.8)];
    assert rows[..0] == [] && reported[..0] == [];
    assert NetFilled(reported) == 0.8 && NetAmount(rows) == 0.5 && GrossAmount(rows) == 0.5;
    FullFillRecognisedExactlyWhen(rows, reported);
    SumsAfter(reported, Fill(Sell, 0.8));
  }

  /** Where rows and exchange agree: a closing order that executes `f` of the amount `c` leaves nothing for
      a second close exactly when f is within EPSILON of c, and the session counts as closed on restart
      exactly when f is within the tolerance of c. */
  lemma ClosedExactlyWhen(fs: seq<Fill>, f: real)
    requires AllPositive(fs) && ClosingExposure(fs).Some? && f > 0.0
    ensures var c := ClosingExposure(fs).value;
      ClosingExposure(fs + [Fill(c.side, f)]) == None <==> Abs(c.filled - f) <= 1.0 / 4503599627370496.0
    ensures var c := ClosingExposure(fs).value;
      SessionExposureClosed(fs + [Fill(c.side, f)]) <==>
        Abs(c.filled - f) <= 0.000000000001 || Abs(c.filled - f) <= (GrossAmount(fs) + f) * 0.00000001
  {
    SumsAfter(fs, Fill(ClosingExposure(fs).value.side, f));
    ClosingIsTwoSided(fs, f);
    NetsAgree(fs);
    RecognisedExactlyWhen(fs, fs, f);
  }

  /** One side alone, or an amount that is not positive, never counts as closed. */
  lemma NeverClosed(fs: seq<Fill>)
    requires (forall i, j :: 0 <= i < |fs| && 0 <= j < |fs| ==> fs[i].side == fs[j].side)
          || exists i :: 0 <= i < |fs| && fs[i].filled <= 0.0
    ensures !SessionExposureClosed(fs)
  {
  }

  /** A full execution closes for good: no exposure, nothing more to submit, recognised on restart. */
  lemma FullFillCloses(fs: seq<Fill>)
    requires AllPositive(fs) && ClosingExposure(fs).Some?
    ensures var after := fs + [ClosingExposure(fs).value];
      NetFilled(after) == 0.0 && ClosingExposure(after) == None && SessionExposureClosed(after)
  {
    var c := ClosingExposure(fs).value;
    SumsAfter(fs, c);
    ClosedExactlyWhen(fs, c.filled);
  }

  /** Whatever a second close would leave alone, restart recognises; the converse fails, as the tolerance
      grows with the amounts. */
  lemma SilentCloseIsRecognised(fs: seq<Fill>)
    requires AllPositive(fs) && TwoSided(fs) && ClosingExposure(fs) == None
    ensures SessionExposureClosed(fs)
  {
    NetsAgree(fs);
  }

  lemma RecognisedThoughExposed()
    ensures var fs := [Fill(Buy, 1000.0), Fill(Sell, 999.99999)];
      SessionExposureClosed(fs) && ClosingExposure(fs) == Some(Fill(Sell, 0.00001))
  {
    var fs := [Fill(Buy, 1000.0), Fill(Sell, 999.99999)];
    assert fs[..1] == [Fill(Buy, 1000.0)] && fs[..1][..0] == [];
    assert fs[1].side != fs[0].side;
    assert NetFilled(fs[..1]) == 1000.0 && Signed(fs[1]) == -999.99999;
    assert NetFilled(fs) == NetFilled(fs[..1]) + Signed(fs[1]);
    NetsAgree(fs);
    assert GrossAmount(fs[..1]) == 1000.0;
  }

  // ---------------------------------------------------------------- executed amounts

  datatype Status = Open | Closed | Canceled | Rejected | Expired

  /** An order as the exchange reports it; numbers that are missing or not finite are None. */
  datatype Report = Report(id: nat, status: Status, filled: Option<real>, amount: Option<real>,
                           average: Option<real>, price: Option<real>)

  /** An order of the session in memory: loaded from the database, with the report saved in its row, or
      as the exchange returned it. */
  datatype Held = Held(id: nat, side: Side, amount: Option<real>, loaded: bool, savedFilled: Option<real>)

  predicate Positive(x: Option<real>) {
    x.Some? && x.value > 0.0
  }

  function ResolveExecutedAmount(order: Held, latest: Option<Report>): (r: real)
    ensures r >= 0.0
  {
    if latest.Some? && Positive(latest.value.filled) then latest.value.filled.value
    else if latest.Some? && latest.value.status == Closed && Positive(latest.value.amount)
    then latest.value.amount.value
    else if Positive(order.savedFilled) then order.savedFilled.value
    else if order.loaded && Positive(order.amount) then order.amount.value
    else 0.0
  }

  /** Everything the session knows about the order agrees on the amount `e`. */
  predicate Knows(order: Held, latest: Option<Report>, e: real) {
    && (latest.Some? ==> latest.value.filled == Some(e))
    && (order.savedFilled.Some? ==> order.savedFilled == Some(e))
    && (order.loaded ==> order.amount == Some(e))
  }

  /** Somebody can say what the order executed: the exchange, or its row. */
  predicate Vouched(order: Held, latest: Option<Report>) {
    latest.Some? || order.savedFilled.Some? || order.loaded
  }

  lemma ExecutedAmountFound(order: Held, latest: Option<Report>, e: real)
    requires e > 0.0 && Knows(order, latest, e)
    ensures ResolveExecutedAmount(order, latest) == if Vouched(order, latest) then e else 0.0
  {
  }

  function Resolved(orders: seq<Held>, reports: seq<Option<Report>>): seq<Fill>
    requires |orders| == |reports|
  {
    seq(|orders|, i requires 0 <= i < |orders| =>
      Fill(orders[i].side, ResolveExecutedAmount(orders[i], reports[i])))
  }

  /** The amounts `es` that the orders really executed. */
  function Actual(orders: seq<Held>, es: seq<real>): seq<Fill>
    requires |orders| == |es|
  {
    seq(|orders|, i requires 0 <= i < |orders| => Fill(orders[i].side, es[i]))
  }

  /** Of these, what nobody can vouch for. */
  function Overlooked(orders: seq<Held>, reports: seq<Option<Report>>, es: seq<real>): seq<Fill>
    requires |orders| == |reports| == |es|
  {
    seq(|orders|, i requires 0 <= i < |orders| =>
      Fill(orders[i].side, if Vouched(orders[i], reports[i]) then 0.0 else es[i]))
  }

  predicate AllKnown(orders: seq<Held>, reports: seq<Option<Report>>, es: seq<real>) {
    && |orders| == |reports| == |es|
    && forall i :: 0 <= i < |orders| ==> es[i] > 0.0 && Knows(orders[i], reports[i], es[i])
  }

  /** What is known of an executed amount, in the order in which it is trusted: the fill that the exchange
      reports now, the amount of an order it reports closed, the fill stored with the row, the row's own
      amount. */
  function Sources(order: Held, latest: Option<Report>): seq<Option<real>> {
    [if latest.Some? then latest.value.filled else None,
     if latest.Some? && latest.value.status == Closed then latest.value.amount else None,
     order.savedFilled,
     if order.loaded then order.amount else None]
  }

  /** Source `j` is the first that names a positive amount. */
  predicate Decides(order: Held, latest: Option<Report>, j: nat) {
    && j < |Sources(order, latest)| && Positive(Sources(order, latest)[j])
    && forall i :: 0 <= i < j ==> !Positive(Sources(order, latest)[i])
  }

  /** The deciding source says `e`. */
  ghost predicate Says(order: Held, latest: Option<Report>, e: real) {
    exists j: nat :: Decides(order, latest, j) && Sources(order, latest)[j] == Some(e)
  }

  predicate SaysNothing(order: Held, latest: Option<Report>) {
    forall j :: 0 <= j < |Sources(order, latest)| ==> !Positive(Sources(order, latest)[j])
  }

  /** Where the sources disagree the first that names a positive amount is taken, however stale it is. So an
      order that executed `e` is counted right exactly when that source says `e`. */
  lemma FirstSourceDecides(order: Held, latest: Option<Report>, e: real)
    requires e > 0.0
    ensures ResolveExecutedAmount(order, latest) == e <==> Says(order, latest, e)
    ensures ResolveExecutedAmount(order, latest) == 0.0 <==> SaysNothing(order, latest)
  {
    var sources := Sources(order, latest);
    if Positive(sources[0]) {
      assert Decides(order, latest, 0);
    } else if Positive(sources[1]) {
      assert Decides(order, latest, 1);
    } else if Positive(sources[2]) {
      assert Decides(order, latest, 2);
    } else if Positive(sources[3]) {
      assert Decides(order, latest, 3);
    }
  }

  /** The close acts on the actual fills exactly when for every order the deciding source is right. */
  lemma CloseIsExactWhen(orders: seq<Held>, reports: seq<Option<Report>>, es: seq<real>)
    requires |orders| == |reports| == |es| && forall i :: 0 <= i < |es| ==> es[i] > 0.0
    ensures Resolved(orders, reports) == Actual(orders, es) <==>
      forall i :: 0 <= i < |orders| ==> Says(orders[i], reports[i], es[i])
  {
    hide Says, ResolveExecutedAmount;
    forall i | 0 <= i < |orders|
      ensures Resolved(orders, reports)[i] == Actual(orders, es)[i] <==> Says(orders[i], reports[i], es[i])
    {
      FirstSourceDecides(orders[i], reports[i], es[i]);
    }
  }

  /** The close misses exactly what nobody can vouch for: the exposure it acts on is the actual one less
      the overlooked, and its fills are the actual ones exactly when every order is vouched for. */
  lemma {:induction false} CloseMissesOverlooked(orders: seq<Held>, reports: seq<Option<Report>>, es: seq<real>)
    requires AllKnown(orders, reports, es)
    ensures NetFilled(Resolved(orders, reports))
         == NetFilled(Actual(orders, es)) - NetFilled(Overlooked(orders, reports, es))
    ensures Resolved(orders, reports) == Actual(orders, es) <==>
      forall i :: 0 <= i < |orders| ==> Vouched(orders[i], reports[i])
  {
    if orders != [] {
      var n := |orders| - 1;
      CloseMissesOverlooked(orders[..n], reports[..n], es[..n]);
      ExecutedAmountFound(orders[n], reports[n], es[n]);
      assert Resolved(orders, reports)[..n] == Resolved(orders[..n], reports[..n]);
      assert Actual(orders, es)[..n] == Actual(orders[..n], es[..n]);
      assert Overlooked(orders, reports, es)[..n] == Overlooked(orders[..n], reports[..n], es[..n]);
    }
    forall i | 0 <= i < |orders|
      ensures Resolved(orders, reports)[i] == Actual(orders, es)[i] <==> Vouched(orders[i], reports[i])
    {
      ExecutedAmountFound(orders[i], reports[i], es[i]);
    }
  }

  /** While the exchange does not answer for a fresh entry, a close finds nothing to close. */
  lemma FreshEntryIsOverlooked(id: nat, side: Side, amount: Option<real>, e: real)
    requires e > EPSILON
    ensures var entry := [Held(id, side, amount, false, None)];
      && ClosingExposure(Resolved(entry, [None])) == None
      && ClosingExposure(Actual(entry, [e])) == Some(Fill(Opposite(side), e))
  {
    var entry := [Held(id, side, amount, false, None)];
    assert Resolved(entry, [None]) == [Fill(side, 0.0)] && Actual(entry, [e]) == [Fill(side, e)];
    assert [Fill(side, 0.0)][..0] == [] && [Fill(side, e)][..0] == [];
    assert NetFilled([]) == 0.0;
  }

  // ---------------------------------------------------------------- waiting for execution

  const ATTEMPTS := 60

  /** The answers of the exchange to one order: a poll that throws is None. */
  type Polls = ps: seq<Option<Report>> | |ps| == ATTEMPTS + 1 witness seq(ATTEMPTS + 1, _ => None)

  /** The first report that settles the order, from poll `k` on; the last poll follows a cancellation. */
  function Settled(polls: Polls, k: nat): Option<Report>
    requires k <= ATTEMPTS
    decreases ATTEMPTS - k
  {
    if polls[k].None? then None
    else
      var report := polls[k].value;
      if k == ATTEMPTS || report.status !in {Open, Closed} then
        if Positive(report.filled) then Some(report) else None
      else if report.status == Closed && Positive(report.filled) then Some(report)
      else Settled(polls, k + 1)
  }

  function Executed(submitted: Report, polls: Polls): Option<Report> {
    if Positive(submitted.filled) && submitted.status == Closed then Some(submitted) else Settled(polls, 0)
  }

  method WaitForExecution(order: Report, polls: Polls) returns (r: Option<Report>)
    ensures r == Executed(order, polls)
    ensures r == if order.status == Closed && order.filled.Some? && order.filled.value > 0.0 then Some(order)
                 else Settled(polls, 0)
  {
    if Positive(order.filled) && order.status == Closed {
      return Some(order);
    }
    var attempt := 0;
    while attempt < ATTEMPTS
      invariant 0 <= attempt <= ATTEMPTS
      invariant Settled(polls, 0) == Settled(polls, attempt)
    {
      if polls[attempt].None? {
        return None;
      }
      var latest := polls[attempt].value;
      if latest.status == Closed && Positive(latest.filled) {
        return Some(latest);
      }
      if latest.status == Canceled || latest.status == Rejected || latest.status == Expired {
        return if Positive(latest.filled) then Some(latest) else None;
      }
      attempt := attempt + 1;
    }
    if polls[ATTEMPTS].None? {
      return None;
    }
    var latest := polls[ATTEMPTS].value;
    r := if Positive(latest.filled) then Some(latest) else None;
  }

  /** A poll that leaves the order undecided: it is open, or closed with nothing executed. */
  predicate Undecided(poll: Option<Report>) {
    poll.Some? && (poll.value.status == Open || (poll.value.status == Closed && !Positive(poll.value.filled)))
  }

  /** The first poll that decides, or the last one, is what counts: an error ends the wait without an order,
      and so does a report without a fill; a report with one is returned, be it of a closed, canceled,
      rejected or expired order, or after the last attempt of an open one. */
  lemma {:induction false} DecidedByFirst(polls: Polls, from: nat, k: nat)
    requires from <= k <= ATTEMPTS && forall j :: from <= j < k ==> Undecided(polls[j])
    requires k == ATTEMPTS || !Undecided(polls[k])
    ensures Settled(polls, from) ==
      if polls[k].Some? && polls[k].value.filled.Some? && polls[k].value.filled.value > 0.0 then polls[k] else None
    decreases k - from
  {
    if from < k {
      assert Undecided(polls[from]);
      DecidedByFirst(polls, from + 1, k);
    }
  }

  /** Only an order with a positive fill is ever returned, and one that is still open only after the
      last attempt. */
  lemma {:induction false} SettledHasFill(polls: Polls, k: nat)
    requires k <= ATTEMPTS
    ensures Settled(polls, k).Some? ==>
      && Positive(Settled(polls, k).value.filled)
      && (Settled(polls, k).value.status == Open ==> Settled(polls, k) == polls[ATTEMPTS])
    decreases ATTEMPTS - k
  {
    if k < ATTEMPTS {
      SettledHasFill(polls, k + 1);
    }
  }

  lemma ExecutedHasFill(submitted: Report, polls: Polls)
    ensures Executed(submitted, polls).Some? ==> Positive(Executed(submitted, polls).value.filled)
  {
    SettledHasFill(polls, 0);
  }

  // ---------------------------------------------------------------- the service

  datatype Outcome = Done(order: Report) | NothingToClose | Failed

  /** Price and amount of the row saved for an executed order. */
  function RowOf(report: Report, side: Side, price: real, amount: real): Order {
    Order(report.id, side, report.average.GetOr(report.price.GetOr(price)),
          report.filled.GetOr(report.amount.GetOr(amount)))
  }

  /** The price is the average if the exchange gives one, else its price, else the one asked for; the amount is
      what was executed. */
  lemma RowSpelledOut(report: Report, side: Side, price: real, amount: real)
    requires Positive(report.filled)
    ensures var row := RowOf(report, side, price, amount);
      && row.id == report.id && row.side == side && row.amount == report.filled.value
      && (report.average.Some? ==> row.price == report.average.value)
      && (report.average.None? && report.price.Some? ==> row.price == report.price.value)
      && (report.average.None? && report.price.None? ==> row.price == price)
  {
  }

  function HeldOf(report: Report, side: Side): Held {
    Held(report.id, side, report.amount, false, None)
  }

  class OrdersService {
    /** The orders of the running session. */
    var orders: seq<Held>
    /** The rows stored for it. */
    var rows: seq<Order>
    /** Everything submitted to the exchange. */
    var submitted: seq<Fill>

    constructor ()
      ensures orders == [] && rows == [] && submitted == []
    {
      orders, rows, submitted := [], [], [];
    }

    /** An entry: nothing is recorded unless something was executed. `stored` says whether the row could be
        inserted; an error there is swallowed. */
    method OpenPosition(side: Side, price: real, amount: real, answer: Report, polls: Polls, stored: bool)
      returns (r: Outcome)
      modifies this
      ensures submitted == old(submitted) + [Fill(side, amount)]
      ensures r.Done? <==> Executed(answer, polls).Some?
      ensures r.Done? ==>
        && Some(r.order) == Executed(answer, polls) && Positive(r.order.filled)
        && rows == (if stored then old(rows) + [RowOf(r.order, side, price, amount)] else old(rows))
        && orders == old(orders) + [HeldOf(r.order, side)]
      ensures !r.Done? ==> rows == old(rows) && orders == old(orders)
      ensures AllPositive(Fills(old(rows))) ==> AllPositive(Fills(rows))
    {
      submitted := submitted + [Fill(side, amount)];
      var done := WaitForExecution(answer, polls);
      if done.None? {
        return Failed;
      }
      ExecutedHasFill(answer, polls);
      if stored {
        FillsAppend(rows, RowOf(done.value, side, price, amount));
        rows := rows + [RowOf(done.value, side, price, amount)];
      }
      orders := orders + [HeldOf(done.value, side)];
      r := Done(done.value);
    }

    /** The close: one reverse order for the whole exposure that the orders resolve to. */
    method CloseFilledPosition(reports: seq<Option<Report>>, price: real, answer: Report, polls: Polls, stored: bool)
      returns (r: Outcome)
      requires |reports| == |orders|
      modifies this
      ensures var c := ClosingExposure(Resolved(old(orders), reports));
        && (c == None ==> r == NothingToClose && submitted == old(submitted))
        && (c.Some? ==> submitted == old(submitted) + [c.value] && (r.Done? <==> Executed(answer, polls).Some?))
        && (r.Done? ==>
          && c.Some? && Some(r.order) == Executed(answer, polls) && Positive(r.order.filled)
          && rows == (if stored then old(rows) + [RowOf(r.order, c.value.side, price, c.value.filled)] else old(rows))
          && orders == old(orders) + [HeldOf(r.order, c.value.side)])
      ensures !r.Done? ==> rows == old(rows) && orders == old(orders)
      ensures AllPositive(Fills(old(rows))) ==> AllPositive(Fills(rows))
    {
      var filledOrders: seq<Fill> := [];
      var i := 0;
      while i < |orders|
        invariant 0 <= i <= |orders|
        invariant filledOrders == Resolved(orders, reports)[..i]
      {
        filledOrders := filledOrders + [Fill(orders[i].side, ResolveExecutedAmount(orders[i], reports[i]))];
        i := i + 1;
      }
      assert filledOrders == Resolved(orders, reports);
      var exposure := ClosingExposure(filledOrders);
      if exposure.None? {
        return NothingToClose;
      }
      var side, amount := exposure.value.side, exposure.value.filled;
      submitted := submitted + [Fill(side, amount)];
      var done := WaitForExecution(answer, polls);
      if done.None? {
        return Failed;
      }
      ExecutedHasFill(answer, polls);
      if stored {
        FillsAppend(rows, RowOf(done.value, side, price, amount));
        rows := rows + [RowOf(done.value, side, price, amount)];
      }
      orders := orders + [HeldOf(done.value, side)];
      r := Done(done.value);
    }
  }

  /** A second close in the same process after a full execution, with the same answers for the earlier
      orders, submits nothing if the exchange answers for the closing order, and otherwise the whole amount
      again. */
  lemma SecondClose(orders: seq<Held>, reports: seq<Option<Report>>, closing: Report, again: seq<Option<Report>>)
    requires |reports| == |orders| && |again| == |orders| + 1
    requires ClosingExposure(Resolved(orders, reports)).Some?
    requires closing.filled == Some(ClosingExposure(Resolved(orders, reports)).value.filled)
    requires Resolved(orders, again[..|orders|]) == Resolved(orders, reports)
    requires again[|orders|].Some? ==> again[|orders|].value.filled == closing.filled
    ensures var c := ClosingExposure(Resolved(orders, reports)).value;
      ClosingExposure(Resolved(orders + [HeldOf(closing, c.side)], again)) ==
        if again[|orders|].Some? then None else Some(c)
  {
    var fs, n := Resolved(orders, reports), |orders|;
    var c := ClosingExposure(fs).value;
    var held := orders + [HeldOf(closing, c.side)];
    var last := Fill(c.side, if again[n].Some? then c.filled else 0.0);
    forall i | 0 <= i < n
      ensures Resolved(held, again)[i] == fs[i]
    {
      assert Resolved(orders, again[..n])[i] == fs[i];
    }
    assert Resolved(held, again) == fs + [last];
    if again[n].Some? {
      SumsAfter(fs, c);
    } else {
      assert (fs + [last])[..n] == fs;
    }
  }

  /** The orders of a session as restart loads them; a row keeps the report it was stored with. */
  function Loaded(rows: seq<Order>): seq<Held> {
    seq(|rows|, i requires 0 <= i < |rows| =>
      Held(rows[i].id, rows[i].side, Some(rows[i].amount), true, Some(rows[i].amount)))
  }

  /** After a close that executed in full and a restart, when the exchange still says what it said of the
      earlier orders and nothing new of the closing one, a second close submits nothing exactly when the
      closing row was stored; otherwise it submits the whole amount again. */
  lemma SecondCloseAfterRestart(orders: seq<Held>, before: seq<Option<Report>>, rows: seq<Order>, closing: Order,
                                stored: bool, reports: seq<Option<Report>>)
    requires |before| == |orders| && |reports| == |rows| + 1
    requires ClosingExposure(Resolved(orders, before)) == Some(Fill(closing.side, closing.amount))
    requires Resolved(Loaded(rows), reports[..|rows|]) == Resolved(orders, before)
    requires reports[|rows|].Some? ==> reports[|rows|].value.filled == Some(closing.amount)
    ensures var found := if stored then rows + [closing] else rows;
      ClosingExposure(Resolved(Loaded(found), reports[..|found|])) ==
        if stored then None else Some(Fill(closing.side, closing.amount))
  {
    var n, c := |rows|, Fill(closing.side, closing.amount);
    var fs := Resolved(Loaded(rows), reports[..n]);
    assert reports[..n + 1] == reports;
    assert Resolved(Loaded(rows + [closing]), reports) == fs + [c];
    SumsAfter(fs, c);
  }
}
