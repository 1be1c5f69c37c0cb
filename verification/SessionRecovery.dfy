/**
 Ending a trading session and recovering after a crash. `_endTradeSession` writes three things, one after
 the other; `initTradeSession` decides on restart whether the stored session goes on or is completed.
 */
module SessionRecovery {
  import opened Options
  import opened Positions
  import opened PositionClosing
  import opened SessionProfit
  import opened Reals

  datatype Row = Row(order: Order, active: bool)

  datatype Session = Session(active: bool, profit: Option<real>, rows: seq<Row>)

  /** Sessions of one configuration, by index, and the newest `profitUsdt` of the balance table. */
  datatype Db = Db(sessions: seq<Session>, profitUsdt: Option<real>)

  datatype Start = NewTrade(index: nat) | OldTrade(index: nat) | Thrown

  // ---------------------------------------------------------------- queries

  function Orders(rows: seq<Row>): seq<Order> {
    seq(|rows|, i requires 0 <= i < |rows| => rows[i].order)
  }

  function ActiveOrders(rows: seq<Row>): seq<Order> {
    if rows == [] then []
    else if rows[0].active then [rows[0].order] + ActiveOrders(rows[1..])
    else ActiveOrders(rows[1..])
  }

  function PriceOf(rows: seq<Row>, id: nat): Option<real> {
    if rows == [] then None
    else if rows[0].order.id == id then Some(rows[0].order.price)
    else PriceOf(rows[1..], id)
  }

  /** None: the closing order has no row, an error. */
  function CalculateProfit(rows: seq<Row>, closingSide: Side, closingId: nat): Option<real> {
    var price := PriceOf(rows, closingId);
    if price.None? then None else Some(SqlProfit(ActiveOrders(rows), closingSide, price.value))
  }

  function ActiveSession(sessions: seq<Session>, from: nat): (r: Option<nat>)
    requires from <= |sessions|
    ensures r.None? ==> forall j :: from <= j < |sessions| ==> !sessions[j].active
    ensures r.Some? ==> from <= r.value < |sessions| && sessions[r.value].active
    decreases |sessions| - from
  {
    if from == |sessions| then None
    else if sessions[from].active then Some(from)
    else ActiveSession(sessions, from + 1)
  }

  // ---------------------------------------------------------------- writes

  function BalanceSaved(db: Db, profit: real, long: bool): Db {
    db.(profitUsdt := Some(if db.profitUsdt.None? then 0.0 else db.profitUsdt.value + if long then profit else 0.0))
  }

  function SessionEnded(db: Db, i: nat, profit: real): Db
    requires i < |db.sessions|
  {
    db.(sessions := db.sessions[i := db.sessions[i].(active := false, profit := Some(profit))])
  }

  function Inactive(rows: seq<Row>): seq<Row> {
    seq(|rows|, i requires 0 <= i < |rows| => rows[i].(active := false))
  }

  function RowsReverted(db: Db, i: nat): Db
    requires i < |db.sessions|
  {
    db.(sessions := db.sessions[i := db.sessions[i].(rows := Inactive(db.sessions[i].rows))])
  }

  function Started(db: Db): Db {
    db.(sessions := db.sessions + [Session(true, None, [])])
  }

  /** The database after the first `k` of the three writes that end session `i`. */
  function EndSteps(db: Db, i: nat, profit: real, long: bool, k: nat): Db
    requires i < |db.sessions|
  {
    var saved := if k >= 1 then BalanceSaved(db, profit, long) else db;
    var ended := if k >= 2 then SessionEnded(saved, i, profit) else saved;
    if k >= 3 then RowsReverted(ended, i) else ended
  }

  function Initialised(db: Db): (Db, Start) {
    var found := ActiveSession(db.sessions, 0);
    if found.None? then (Started(db), NewTrade(|db.sessions|))
    else
      var i := found.value;
      var rows := db.sessions[i].rows;
      if rows == [] then (Started(SessionEnded(db, i, 0.0)), NewTrade(|db.sessions|))
      else if !SessionExposureClosed(Fills(Orders(rows))) then (db, OldTrade(i))
      else
        var last := rows[|rows| - 1].order;
        var profit := CalculateProfit(rows, last.side, last.id);
        if profit.None? then (db, Thrown)
        else (Started(EndSteps(db, i, profit.value, rows[0].order.side == Buy, 3)), NewTrade(|db.sessions|))
  }

  /** A start that is interrupted after the first `k` of the writes it would make to complete an earlier
      session, before it begins a new one. */
  function Interrupted(db: Db, k: nat): Db {
    var found := ActiveSession(db.sessions, 0);
    if found.None? then db
    else
      var i := found.value;
      var rows := db.sessions[i].rows;
      if rows == [] then (if k >= 2 then SessionEnded(db, i, 0.0) else db)
      else if !SessionExposureClosed(Fills(Orders(rows))) then db
      else
        var last := rows[|rows| - 1].order;
        var profit := CalculateProfit(rows, last.side, last.id);
        if profit.None? then db else EndSteps(db, i, profit.value, rows[0].order.side == Buy, k)
  }

  /** An undisturbed start that begins a new session makes all of these writes first. */
  lemma UninterruptedStart(db: Db)
    requires Initialised(db).1.NewTrade?
    ensures Initialised(db).0 == Started(Interrupted(db, 3))
  {
  }

  // ---------------------------------------------------------------- the tables

  class SessionTables {
    var sessions: seq<Session>
    var profitUsdt: Option<real>

    ghost function State(): Db
      reads this
    {
      Db(sessions, profitUsdt)
    }

    constructor ()
      ensures State() == Db([], None)
    {
      sessions, profitUsdt := [], None;
    }

    method SaveBalanceState(profit: real, long: bool)
      modifies this
      ensures State() == BalanceSaved(old(State()), profit, long)
    {
      if profitUsdt.None? {
        profitUsdt := Some(0.0);
        return;
      }
      profitUsdt := Some(profitUsdt.value + if long then profit else 0.0);
    }

    method EndSessionRow(i: nat, profit: real)
      requires i < |sessions|
      modifies this
      ensures State() == SessionEnded(old(State()), i, profit)
    {
      sessions := sessions[i := sessions[i].(active := false, profit := Some(profit))];
    }

    method RevertOrderActiveStatus(i: nat)
      requires i < |sessions|
      modifies this
      ensures State() == RowsReverted(old(State()), i)
    {
      sessions := sessions[i := sessions[i].(rows := Inactive(sessions[i].rows))];
    }

    /** `_endTradeSession`, for the closing order `closing` of a position first entered long or short. */
    method EndTradeSession(i: nat, closing: Order, long: bool, delta: real) returns (thrown: bool)
      requires i < |sessions|
      modifies this
      ensures var p := CalculateProfit(old(sessions)[i].rows, closing.side, closing.id);
        && (thrown <==> p.None?)
        && State() == if p.None? then old(State()) else EndSteps(old(State()), i, p.value + delta, long, 3)
      ensures |sessions| == |old(sessions)|
      ensures forall j :: 0 <= j < |sessions| && j != i ==> sessions[j] == old(sessions)[j]
      ensures !thrown ==>
        && !sessions[i].active && sessions[i].profit.Some? && |sessions[i].rows| == |old(sessions)[i].rows|
        && forall r :: 0 <= r < |sessions[i].rows| ==>
             sessions[i].rows[r].order == old(sessions)[i].rows[r].order && !sessions[i].rows[r].active
    {
      var profit := CalculateProfit(sessions[i].rows, closing.side, closing.id);
      if profit.None? {
        return true;
      }
      SaveBalanceState(profit.value + delta, long);
      EndSessionRow(i, profit.value + delta);
      RevertOrderActiveStatus(i);
      thrown := false;
    }

    method InitTradeSession() returns (start: Start)
      modifies this
      ensures (State(), start) == Initialised(old(State()))
    {
      var found := ActiveSession(sessions, 0);
      if found.None? {
        start := NewTrade(|sessions|);
        sessions := sessions + [Session(true, None, [])];
        return;
      }
      var i := found.value;
      var rows := sessions[i].rows;
      if rows == [] {
        EndSessionRow(i, 0.0);
      } else if !SessionExposureClosed(Fills(Orders(rows))) {
        return OldTrade(i);
      } else {
        var last := rows[|rows| - 1].order;
        var thrown := EndTradeSession(i, last, rows[0].order.side == Buy, 0.0);
        if thrown {
          return Thrown;
        }
      }
      start := NewTrade(|sessions|);
      sessions := sessions + [Session(true, None, [])];
    }
  }

  // ---------------------------------------------------------------- recovery

  ghost predicate OnlyRunning(db: Db, i: nat) {
    i < |db.sessions| && forall j :: 0 <= j < |db.sessions| ==> (db.sessions[j].active <==> j == i)
  }

  /** Session `i` is the only one running, and its stored rows end with the closing order. */
  ghost predicate AboutToEnd(db: Db, i: nat, closing: Order) {
    && OnlyRunning(db, i)
    && var rows := db.sessions[i].rows;
    && rows != [] && rows[|rows| - 1].order == closing
    && (forall r :: 0 <= r < |rows| ==> rows[r].active)
    && (forall r :: 0 <= r < |rows| - 1 ==> rows[r].order.id != closing.id)
    && SessionExposureClosed(Fills(Orders(rows)))
  }

  lemma HasRows(db: Db, i: nat, closing: Order)
    requires AboutToEnd(db, i, closing)
    ensures i < |db.sessions| && db.sessions[i].rows != []
  {
  }

  function Long(db: Db, i: nat): bool
    requires i < |db.sessions| && db.sessions[i].rows != []
  {
    db.sessions[i].rows[0].order.side == Buy
  }

  lemma {:induction false} AllActive(rows: seq<Row>)
    requires forall r :: 0 <= r < |rows| ==> rows[r].active
    ensures ActiveOrders(rows) == Orders(rows)
  {
    if rows != [] {
      AllActive(rows[1..]);
      assert Orders(rows) == [rows[0].order] + Orders(rows[1..]);
    }
  }

  /** Only active rows count towards the profit. */
  lemma {:induction false} OnlyActiveCount(rows: seq<Row>, r: Row)
    ensures ActiveOrders(rows + [r]) == ActiveOrders(rows) + if r.active then [r.order] else []
  {
    if rows != [] {
      assert (rows + [r])[1..] == rows[1..] + [r];
      OnlyActiveCount(rows[1..], r);
    } else {
      assert ActiveOrders([r][1..]) == [];
    }
  }

  lemma {:induction false} PriceOfLast(rows: seq<Row>, closing: Order)
    requires rows != [] && rows[|rows| - 1].order == closing
    requires forall r :: 0 <= r < |rows| - 1 ==> rows[r].order.id != closing.id
    ensures PriceOf(rows, closing.id) == Some(closing.price)
  {
    if |rows| > 1 {
      PriceOfLast(rows[1..], closing);
    }
  }

  /** The profit is computed from the rows alone, so the run that crashed and the one that recovers
      compute the same. */
  lemma ProfitAtEnd(db: Db, i: nat, closing: Order)
    requires AboutToEnd(db, i, closing)
    ensures CalculateProfit(db.sessions[i].rows, closing.side, closing.id)
         == Some(SqlProfit(Orders(db.sessions[i].rows), closing.side, closing.price))
  {
    AllActive(db.sessions[i].rows);
    PriceOfLast(db.sessions[i].rows, closing);
  }

  lemma OnlyActive(sessions: seq<Session>, i: nat, from: nat)
    requires from <= i < |sessions|
    requires forall j :: 0 <= j < |sessions| ==> (sessions[j].active <==> j == i)
    ensures ActiveSession(sessions, from) == Some(i)
    decreases i - from
  {
    if from < i {
      OnlyActive(sessions, i, from + 1);
    }
  }

  function RecordedProfit(db: Db, i: nat, closing: Order): real
    requires i < |db.sessions|
  {
    SqlProfit(Orders(db.sessions[i].rows), closing.side, closing.price)
  }

  /** Before the session row is ended, a start completes the session. */
  lemma RestartCompletes(db: Db, i: nat, closing: Order, k: nat)
    requires AboutToEnd(db, i, closing)
    ensures Initialised(db).1 == NewTrade(|db.sessions|)
    ensures Interrupted(db, k) == EndSteps(db, i, RecordedProfit(db, i, closing), Long(db, i), k)
  {
    OnlyActive(db.sessions, i, 0);
    ProfitAtEnd(db, i, closing);
  }

  /** Afterwards it leaves everything as it is and begins a new one. */
  lemma RestartLeaves(db: Db, k: nat)
    requires forall j :: 0 <= j < |db.sessions| ==> !db.sessions[j].active
    ensures Initialised(db).1 == NewTrade(|db.sessions|) && Interrupted(db, k) == db
  {
  }

  /** An active session without rows is ended with profit zero, and a new one begun. */
  lemma EmptySessionEnds(db: Db, i: nat)
    requires OnlyRunning(db, i) && db.sessions[i].rows == []
    ensures var (after, start) := Initialised(db);
      && start == NewTrade(|db.sessions|) && after.profitUsdt == db.profitUsdt
      && after.sessions == db.sessions[i := Session(false, Some(0.0), [])] + [Session(true, None, [])]
  {
    OnlyActive(db.sessions, i, 0);
  }

  // ---------------------------------------------------------------- any number of crashes

  /** The run that ends the session crashes after `ks[0]` of its writes, and each start after it after the
      next number of writes. */
  function Crashes(db: Db, i: nat, closing: Order, delta: real, ks: seq<nat>): Db
    requires i < |db.sessions| && db.sessions[i].rows != []
    decreases |ks|
  {
    if ks == [] then db
    else if |ks| == 1 then EndSteps(db, i, RecordedProfit(db, i, closing) + delta, Long(db, i), ks[0])
    else Interrupted(Crashes(db, i, closing, delta, ks[..|ks| - 1]), ks[|ks| - 1])
  }

  /** One of the runs got as far as the session row. */
  predicate RowEnded(ks: seq<nat>) {
    ks != [] && (RowEnded(ks[..|ks| - 1]) || ks[|ks| - 1] >= 2)
  }

  /** How many starts saved the balance, before or while the session row was ended. */
  function BalanceWrites(ks: seq<nat>): nat {
    if |ks| <= 1 then 0
    else BalanceWrites(ks[..|ks| - 1]) + if !RowEnded(ks[..|ks| - 1]) && ks[|ks| - 1] >= 1 then 1 else 0
  }

  /** How many starts in all saved the balance. */
  function Saves(ks: seq<nat>): nat {
    BalanceWrites(ks) + if RowEnded(ks) then 0 else 1
  }

  /** The running total after the ending run saved the balance, if `wrote`, with profit `first`, and `n`
      starts saved it with profit `p`: the very first balance row of all starts at zero. */
  function Total(was: Option<real>, long: bool, wrote: bool, first: real, p: real, n: nat): Option<real> {
    if !wrote && n == 0 then was
    else if !long then Some(was.GetOr(0.0))
    else if wrote then Some((if was.None? then 0.0 else was.value + first) + Times(n, p))
    else if was.None? then Some(Times(n - 1, p))
    else Some(was.value + Times(n, p))
  }

  lemma OneMoreBalance(db: Db, was: Option<real>, long: bool, wrote: bool, first: real, p: real, n: nat)
    requires db.profitUsdt == Total(was, long, wrote, first, p, n)
    ensures BalanceSaved(db, p, long).profitUsdt == Total(was, long, wrote, first, p, n + 1)
  {
    hide Times;
    OneMoreTime(n, p);
    if n > 0 {
      OneMoreTime(n - 1, p);
    }
  }

  ghost predicate EndedWith(db: Db, m: Db, i: nat, profit: real)
    requires i < |db.sessions|
  {
    && |m.sessions| == |db.sessions|
    && (forall j :: 0 <= j < |db.sessions| && j != i ==> m.sessions[j] == db.sessions[j])
    && !m.sessions[i].active && m.sessions[i].profit == Some(profit)
  }

  /** What the crashes `ks` have left: how often the balance was saved, and whether and with which profit
      the session row was ended. */
  ghost predicate Left(db: Db, m: Db, i: nat, first: real, p: real, long: bool, ks: seq<nat>)
    requires i < |db.sessions| && ks != []
  {
    && m.profitUsdt == Total(db.profitUsdt, long, ks[0] >= 1, first, p, BalanceWrites(ks))
    && if RowEnded(ks) then EndedWith(db, m, i, if ks[0] >= 2 then first else p) else m.sessions == db.sessions
  }

  lemma FirstCrash(db: Db, i: nat, closing: Order, delta: real, k: nat)
    requires AboutToEnd(db, i, closing)
    ensures var p := RecordedProfit(db, i, closing);
      Left(db, Crashes(db, i, closing, delta, [k]), i, p + delta, p, Long(db, i), [k])
  {
    var p := RecordedProfit(db, i, closing);
    hide RecordedProfit, Long, Times, SessionExposureClosed;
    OneMoreTime(0, p);
    assert !RowEnded([k][..0]);
    assert RowEnded([k]) <==> k >= 2;
    assert Crashes(db, i, closing, delta, [k]) == EndSteps(db, i, p + delta, Long(db, i), k);
  }

  /** A start that is interrupted after `k` writes while the session row is not ended yet. */
  lemma NextCrash(db: Db, m: Db, i: nat, closing: Order, k: nat)
    requires AboutToEnd(db, i, closing) && m.sessions == db.sessions
    ensures var p := RecordedProfit(db, i, closing); var next := Interrupted(m, k);
      && next.profitUsdt == (if k >= 1 then BalanceSaved(m, p, Long(db, i)).profitUsdt else m.profitUsdt)
      && (if k >= 2 then EndedWith(db, next, i, p) else next.sessions == db.sessions)
      && Initialised(m).1 == NewTrade(|db.sessions|)
  {
    hide SqlProfit, SessionExposureClosed;
    assert AboutToEnd(m, i, closing);
    RestartCompletes(m, i, closing, k);
  }

  lemma LeftTotal(db: Db, m: Db, i: nat, first: real, p: real, long: bool, ks: seq<nat>)
    requires i < |db.sessions| && ks != [] && Left(db, m, i, first, p, long, ks)
    ensures m.profitUsdt == Total(db.profitUsdt, long, ks[0] >= 1, first, p, BalanceWrites(ks))
  {
  }

  /** One more crash. */
  lemma CrashStep(db: Db, m: Db, i: nat, closing: Order, first: real, ks: seq<nat>, k: nat)
    requires AboutToEnd(db, i, closing) && ks != []
    requires Left(db, m, i, first, RecordedProfit(db, i, closing), Long(db, i), ks)
    ensures Left(db, Interrupted(m, k), i, first, RecordedProfit(db, i, closing), Long(db, i), ks + [k])
    ensures Initialised(m).1 == NewTrade(|db.sessions|)
  {
    assert i < |db.sessions| && db.sessions[i].rows != [];
    assert (ks + [k])[..|ks|] == ks;
    var p, long := RecordedProfit(db, i, closing), Long(db, i);
    hide RecordedProfit, Long, Interrupted, Initialised, AboutToEnd, Total, EndedWith, BalanceSaved;
    if RowEnded(ks) {
      OthersAreInactive(db, m, i, closing, if ks[0] >= 2 then first else p);
      RestartLeaves(m, k);
    } else {
      NextCrash(db, m, i, closing, k);
      NotEndedAtFirst(ks);
      OneMoreBalance(m, db.profitUsdt, long, ks[0] >= 1, first, p, BalanceWrites(ks));
    }
  }

  lemma CrashesUnfold(db: Db, i: nat, closing: Order, delta: real, ks: seq<nat>, k: nat)
    requires i < |db.sessions| && db.sessions[i].rows != [] && ks != []
    ensures Crashes(db, i, closing, delta, ks + [k]) == Interrupted(Crashes(db, i, closing, delta, ks), k)
  {
    assert (ks + [k])[..|ks|] == ks;
    hide Interrupted, EndSteps, RecordedProfit;
  }

  lemma {:induction false} CrashesLeave(db: Db, i: nat, closing: Order, delta: real, ks: seq<nat>)
    requires AboutToEnd(db, i, closing) && ks != []
    ensures var p := RecordedProfit(db, i, closing);
      Left(db, Crashes(db, i, closing, delta, ks), i, p + delta, p, Long(db, i), ks)
    decreases |ks|
  {
    hide RecordedProfit, Long, Interrupted, AboutToEnd, Left, Crashes, EndSteps, Initialised;
    HasRows(db, i, closing);
    if |ks| == 1 {
      assert ks == [ks[0]];
      FirstCrash(db, i, closing, delta, ks[0]);
    } else {
      var before, k := ks[..|ks| - 1], ks[|ks| - 1];
      CrashesLeave(db, i, closing, delta, before);
      assert before + [k] == ks;
      CrashStep(db, Crashes(db, i, closing, delta, before), i, closing, RecordedProfit(db, i, closing) + delta,
                before, k);
      CrashesUnfold(db, i, closing, delta, before, k);
    }
  }

  lemma OthersAreInactive(db: Db, m: Db, i: nat, closing: Order, profit: real)
    requires AboutToEnd(db, i, closing) && EndedWith(db, m, i, profit)
    ensures |m.sessions| == |db.sessions| && forall j :: 0 <= j < |m.sessions| ==> !m.sessions[j].active
  {
  }

  lemma {:induction false} NotEndedAtFirst(ks: seq<nat>)
    requires ks != [] && !RowEnded(ks)
    ensures ks[0] < 2
  {
    if |ks| > 1 {
      NotEndedAtFirst(ks[..|ks| - 1]);
    }
  }

  /** The start that is not interrupted, whatever came before it, is one that makes all three writes. */
  lemma LastStart(db: Db, i: nat, closing: Order, delta: real, ks: seq<nat>)
    requires AboutToEnd(db, i, closing) && ks != []
    ensures var p := RecordedProfit(db, i, closing);
      var m := Interrupted(Crashes(db, i, closing, delta, ks), 3);
      && Initialised(Crashes(db, i, closing, delta, ks)) == (Started(m), NewTrade(|db.sessions|))
      && Left(db, m, i, p + delta, p, Long(db, i), ks + [3])
  {
    hide RecordedProfit, Long, Interrupted, Initialised, AboutToEnd, Left, Crashes;
    HasRows(db, i, closing);
    CrashesLeave(db, i, closing, delta, ks);
    CrashStep(db, Crashes(db, i, closing, delta, ks), i, closing, RecordedProfit(db, i, closing) + delta, ks, 3);
    UninterruptedStart(Crashes(db, i, closing, delta, ks));
  }

  lemma ThenUndisturbed(ks: seq<nat>)
    requires ks != []
    ensures RowEnded(ks + [3]) && BalanceWrites(ks + [3]) == Saves(ks)
  {
    assert (ks + [3])[..|ks|] == ks;
  }

  /** Whatever crashes interrupt the ending of a closed session and the starts after it, the first start
      that is not interrupted begins a new session and leaves the old one ended, touching no other. Its
      profit is the one an undisturbed run records exactly when that run itself wrote the session row or
      there was no sale delta. */
  lemma RecoveryEndsSession(db: Db, i: nat, closing: Order, delta: real, ks: seq<nat>)
    requires AboutToEnd(db, i, closing) && ks != []
    ensures var (after, start) := Initialised(Crashes(db, i, closing, delta, ks));
      var undisturbed := Crashes(db, i, closing, delta, [3]);
      && start == NewTrade(|db.sessions|)
      && |after.sessions| == |db.sessions| + 1 && after.sessions[|db.sessions|] == Session(true, None, [])
      && !after.sessions[i].active
      && (forall j :: 0 <= j < |db.sessions| && j != i ==> after.sessions[j] == db.sessions[j])
      && |undisturbed.sessions| == |db.sessions|
      && (after.sessions[i].profit == undisturbed.sessions[i].profit <==> (ks[0] >= 2 || delta == 0.0))
  {
    hide RecordedProfit, Crashes, Initialised, AboutToEnd, Interrupted, Total, Long;
    HasRows(db, i, closing);
    LastStart(db, i, closing, delta, ks);
    ThenUndisturbed(ks);
    FirstCrash(db, i, closing, delta, 3);
    assert RowEnded([3]);
  }

  /** What `_endTradeSession` adds to the profit: the proceeds of the sales beyond those at the first price,
      in the base currency, for a position entered by selling. */
  function SaleDelta(entry: Side, capitalize: bool, orders: seq<Order>, sold: real, price: real, last: real): real
    requires last > 0.0
  {
    if entry == Sell && capitalize then (Value(orders) - sold * price) / last else 0.0
  }

  /** How many runs saved the balance, the ending run included. */
  function AllSaves(ks: seq<nat>): nat
    requires ks != []
  {
    Saves(ks) + if ks[0] >= 1 then 1 else 0
  }

  lemma TotalsAgree(was: Option<real>, long: bool, wrote: bool, first: real, p: real, n: nat)
    requires (wrote || n >= 1) && (long ==> first == p)
    ensures Total(was, long, wrote, first, p, n) == Total(was, long, true, first, p, 0) <==>
      !long || p == 0.0 || n + (if wrote then 1 else 0) == 1
  {
    hide Times;
    NoneTimes(n, p);
    OneMoreTime(0, p);
    if n > 0 {
      NoneTimes(n - 1, p);
      OneMoreTime(n - 1, p);
    }
  }

  /** The running total counts the profit once for every run that saved the balance. A long session has no
      sale delta; so the total is that of an undisturbed run exactly when the session was short, its profit
      is zero, or exactly one run saved the balance. */
  lemma RecoveryCountsProfitOnce(db: Db, i: nat, closing: Order, delta: real, ks: seq<nat>)
    requires AboutToEnd(db, i, closing) && ks != []
    requires Long(db, i) ==> delta == 0.0
    ensures var after := Initialised(Crashes(db, i, closing, delta, ks)).0;
      var p := RecordedProfit(db, i, closing);
      && after.profitUsdt == Total(db.profitUsdt, Long(db, i), ks[0] >= 1, p + delta, p, Saves(ks))
      && (after.profitUsdt == Crashes(db, i, closing, delta, [3]).profitUsdt <==>
          !Long(db, i) || p == 0.0 || AllSaves(ks) == 1)
  {
    hide RecordedProfit, Crashes, Initialised, AboutToEnd, Long, Total, Interrupted, Left;
    HasRows(db, i, closing);
    var p, m := RecordedProfit(db, i, closing), Interrupted(Crashes(db, i, closing, delta, ks), 3);
    LastStart(db, i, closing, delta, ks);
    ThenUndisturbed(ks);
    LeftTotal(db, m, i, p + delta, p, Long(db, i), ks + [3]);
    FirstCrash(db, i, closing, delta, 3);
    LeftTotal(db, Crashes(db, i, closing, delta, [3]), i, p + delta, p, Long(db, i), [3]);
    if ks[0] == 0 {
      FirstOrSaved(ks);
    }
    hide BalanceWrites, RowEnded, Saves;
    TotalsAgree(db.profitUsdt, Long(db, i), ks[0] >= 1, p + delta, p, Saves(ks));
  }

  /** If the ending run did not save the balance, some start did. */
  lemma {:induction false} FirstOrSaved(ks: seq<nat>)
    requires ks != [] && ks[0] == 0
    ensures Saves(ks) >= 1 && (RowEnded(ks) ==> BalanceWrites(ks) >= 1)
  {
    if |ks| > 1 {
      FirstOrSaved(ks[..|ks| - 1]);
    } else {
      assert !RowEnded(ks[..0]);
    }
  }

  // ---------------------------------------------------------------- such crashes

  const BOUGHT := Order(0, Buy, 10.0, 1.0)
  const SOLD := Order(1, Sell, 12.0, 1.0)

  /** A session that bought at 10 and sold at 12. */
  const OneTrade := Db([Session(true, None, [Row(BOUGHT, true), Row(SOLD, true)])], Some(0.0))

  lemma OneTradeIsAboutToEnd()
    ensures AboutToEnd(OneTrade, 0, SOLD) && Long(OneTrade, 0) && RecordedProfit(OneTrade, 0, SOLD) == 2.0
  {
    var fs := [Fill(Buy, 1.0)];
    assert fs[..0] == [];
    FullFillCloses(fs);
    assert NetFilled(fs) == 1.0 && ClosingExposure(fs) == Some(Fill(Sell, 1.0));
    assert Orders(OneTrade.sessions[0].rows) == [BOUGHT, SOLD];
    assert Fills([BOUGHT, SOLD]) == fs + [Fill(Sell, 1.0)];
    OneOrder(BOUGHT);
    assert [BOUGHT, SOLD] == [BOUGHT] + [SOLD];
    SumsAppend([BOUGHT], SOLD);
  }

  const SOLD_FIRST := Order(0, Sell, 12.0, 1.0)
  const SOLD_MORE := Order(1, Sell, 13.0, 1.0)
  const BOUGHT_BACK := Order(2, Buy, 10.0, 2.0)

  /** A session that sold at 12, averaged once at 13, and bought everything back at 10. */
  const ShortTrade := Db(
    [Session(true, None, [Row(SOLD_FIRST, true), Row(SOLD_MORE, true), Row(BOUGHT_BACK, true)])], Some(0.0))

  lemma ShortTradeIsAboutToEnd()
    ensures AboutToEnd(ShortTrade, 0, BOUGHT_BACK) && RecordedProfit(ShortTrade, 0, BOUGHT_BACK) == 5.0
    ensures SaleDelta(Sell, true, [SOLD_FIRST, SOLD_MORE], 2.0, 12.0, 10.0) == 0.1
  {
    var sold, all := [SOLD_FIRST, SOLD_MORE], [SOLD_FIRST, SOLD_MORE, BOUGHT_BACK];
    ShortFills();
    assert Orders(ShortTrade.sessions[0].rows) == all;
    OneOrder(SOLD_FIRST);
    assert sold == [SOLD_FIRST] + [SOLD_MORE] && all == sold + [BOUGHT_BACK];
    SumsAppend([SOLD_FIRST], SOLD_MORE);
    SumsAppend(sold, BOUGHT_BACK);
  }

  lemma ShortFills()
    ensures SessionExposureClosed(Fills([SOLD_FIRST, SOLD_MORE, BOUGHT_BACK]))
  {
    var one, fs := [Fill(Sell, 1.0)], [Fill(Sell, 1.0), Fill(Sell, 1.0)];
    assert one[..0] == [] && fs[..1] == one;
    assert NetFilled(one) == -1.0 && NetFilled(fs) == -2.0;
    FullFillCloses(fs);
    assert Fills([SOLD_FIRST, SOLD_MORE, BOUGHT_BACK]) == fs + [Fill(Buy, 2.0)];
  }

  /** A crash before the session row loses the sale delta: 5 is recorded instead of 5.1. */
  lemma CrashLosesDelta()
    ensures var delta := SaleDelta(Sell, true, [SOLD_FIRST, SOLD_MORE], 2.0, 12.0, 10.0);
      && Initialised(Crashes(ShortTrade, 0, BOUGHT_BACK, delta, [0])).0.sessions[0].profit == Some(5.0)
      && Crashes(ShortTrade, 0, BOUGHT_BACK, delta, [3]).sessions[0].profit == Some(5.1)
  {
    hide Crashes, Initialised, AboutToEnd, Interrupted, Total, RecordedProfit, Long, SaleDelta;
    ShortTradeIsAboutToEnd();
    var delta := SaleDelta(Sell, true, [SOLD_FIRST, SOLD_MORE], 2.0, 12.0, 10.0);
    LastStart(ShortTrade, 0, BOUGHT_BACK, delta, [0]);
    ThenUndisturbed([0]);
    FirstCrash(ShortTrade, 0, BOUGHT_BACK, delta, 3);
    assert RowEnded([3]);
  }

  /** After `n` crashes right behind the balance write, the profit of 2 is in the total n + 1 times. */
  lemma CrashesRepeatProfit(ks: seq<nat>)
    requires ks != [] && forall j :: 0 <= j < |ks| ==> ks[j] == 1
    ensures Initialised(Crashes(OneTrade, 0, SOLD, 0.0, ks)).0.profitUsdt == Some(Times(|ks| + 1, 2.0))
  {
    OneTradeIsAboutToEnd();
    hide Crashes, Initialised, AboutToEnd, Times, RecordedProfit, Long;
    RecoveryCountsProfitOnce(OneTrade, 0, SOLD, 0.0, ks);
    AllSaved(ks);
    OneMoreTime(|ks|, 2.0);
  }

  lemma {:induction false} AllSaved(ks: seq<nat>)
    requires ks != [] && forall j :: 0 <= j < |ks| ==> ks[j] == 1
    ensures !RowEnded(ks) && BalanceWrites(ks) == |ks| - 1
  {
    if |ks| > 1 {
      AllSaved(ks[..|ks| - 1]);
    }
  }

  // ---------------------------------------------------------------- from the close to the restart

  /** The stored rows after a close, whose own row may have been lost. */
  function WithRow(db: Db, i: nat, row: Order, stored: bool): Db
    requires i < |db.sessions|
  {
    if stored then
      var session := db.sessions[i].(rows := db.sessions[i].rows + [Row(row, true)]);
      db.(sessions := db.sessions[i := session])
    else db
  }

  lemma {:induction false} PriceFound(rows: seq<Row>, r: nat)
    requires r < |rows|
    ensures PriceOf(rows, rows[r].order.id).Some?
  {
    if r > 0 {
      PriceFound(rows[1..], r - 1);
    }
  }

  lemma StartOf(db: Db, i: nat)
    requires OnlyRunning(db, i)
    ensures var rows := db.sessions[i].rows;
      Initialised(db).1 ==
        if rows == [] || SessionExposureClosed(Fills(Orders(rows))) then NewTrade(|db.sessions|) else OldTrade(i)
  {
    hide SessionExposureClosed;
    OnlyActive(db.sessions, i, 0);
    if db.sessions[i].rows != [] {
      PriceFound(db.sessions[i].rows, |db.sessions[i].rows| - 1);
    }
  }

  /** What the close submitted and what was executed decide the restart. The orders in memory resolve to
      the exposure that is closed; the stored rows are what restart sees. With the closing row stored it
      begins a new session exactly when the rows show both sides and their difference from the exchange,
      together with what the close left, is within the tolerance. With that row lost it does so only if
      the rows looked closed, or were empty, before. */
  lemma RestartAfterClose(db: Db, i: nat, orders: seq<Held>, reports: seq<Option<Report>>, price: real,
                          answer: Report, polls: Polls, stored: bool)
    requires OnlyRunning(db, i) && |reports| == |orders|
    requires AllPositive(Fills(Orders(db.sessions[i].rows)))
    requires ClosingExposure(Resolved(orders, reports)).Some? && Executed(answer, polls).Some?
    ensures var reported := Resolved(orders, reports);
      var c := ClosingExposure(reported).value;
      var row := RowOf(Executed(answer, polls).value, c.side, price, c.filled);
      var fs, closing := Fills(Orders(db.sessions[i].rows)), Fill(c.side, row.amount);
      var left := NetFilled(reported + [closing]);
      var completes :=
        if stored then
          && TwoSided(fs + [closing])
          && Abs(NetAmount(fs) - NetFilled(reported) + left) <= Tolerance(GrossAmount(fs) + row.amount)
        else fs == [] || SessionExposureClosed(fs);
      Initialised(WithRow(db, i, row, stored)).1 == if completes then NewTrade(|db.sessions|) else OldTrade(i)
  {
    hide SessionExposureClosed, Initialised, Tolerance, ClosingExposure;
    var reported := Resolved(orders, reports);
    var c := ClosingExposure(reported).value;
    var row := RowOf(Executed(answer, polls).value, c.side, price, c.filled);
    ExecutedHasFill(answer, polls);
    StoredFills(db, i, row, stored);
    StartOf(WithRow(db, i, row, stored), i);
    RecognisedExactlyWhen(Fills(Orders(db.sessions[i].rows)), reported, row.amount);
  }

  lemma StoredFills(db: Db, i: nat, row: Order, stored: bool)
    requires OnlyRunning(db, i)
    ensures var after := WithRow(db, i, row, stored); var fs := Fills(Orders(db.sessions[i].rows));
      && OnlyRunning(after, i) && |after.sessions| == |db.sessions|
      && Fills(Orders(after.sessions[i].rows)) == if stored then fs + [Fill(row.side, row.amount)] else fs
  {
    var rows := db.sessions[i].rows;
    assert Orders(rows + [Row(row, true)]) == Orders(rows) + [row];
    FillsAppend(Orders(rows), row);
  }

  /** A session whose stored rows are recognised after the close is what the recovery above completes. */
  lemma RecognisedIsAboutToEnd(db: Db, i: nat, closing: Order)
    requires OnlyRunning(db, i)
    requires forall r :: 0 <= r < |db.sessions[i].rows| ==>
      db.sessions[i].rows[r].active && db.sessions[i].rows[r].order.id != closing.id
    ensures AboutToEnd(WithRow(db, i, closing, true), i, closing) <==>
      SessionExposureClosed(Fills(Orders(db.sessions[i].rows)) + [Fill(closing.side, closing.amount)])
  {
    hide SessionExposureClosed;
    StoredFills(db, i, closing, true);
  }
}
