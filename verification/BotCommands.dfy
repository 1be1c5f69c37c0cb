/**
 The bot command queue: idempotent and metered enqueueing, the leader that claims and executes
 commands, crashes and failovers of that leader, and the child processes it stops.
 */
module BotCommands {
  import opened Options
  import opened Plans

  datatype Kind = Start | Stop | Restart | EmergencyStop | Delete

  datatype Desired = Running | Stopped

  datatype Actual = StartingUp | Up | ShuttingDown | Down | Crashed

  datatype CommandStatus = Pending | Processing | Succeeded | Failed

  /** A row of `trading_bots`. */
  datatype Bot = Bot(org: string, desired: Desired, actual: Actual)

  /** A row of `bot_commands`; its key is its place in the order of creation. */
  datatype Command = Command(org: string, bot: string, kind: Kind, key: string, status: CommandStatus)

  /** The tables. `usage` counts BOT_COMMANDS per organization and month. */
  datatype Tables = Tables(
    bots: map<string, Bot>,
    commands: map<nat, Command>,
    nextId: nat,
    usage: map<(string, int), nat>)

  /** A child process: `stopSent` once the supervisor told it to close its position, `stopping` once its
      latch is set, `closings` counts its calls of `endAlgorithms`. */
  datatype Child = Child(bot: string, stopSent: bool, stopping: bool, closings: nat)

  /** The command that the leader is executing, and whether it has written the desired state. */
  datatype Work = Work(id: nat, command: Command, written: bool)

  /** Tables, supervisor, and what has happened: metered commands accepted, commands claimed, commands
      whose desired state was written, bots whose emergency stop was claimed. */
  datatype State = State(
    t: Tables,
    current: Option<Work>,
    children: map<string, Child>,
    accepted: seq<(string, int)>,
    claims: seq<nat>,
    written: set<nat>,
    emergencies: set<string>)

  datatype Decision = NotFound | Accepted | Replayed | Conflict | EntitlementRequired | QuotaExceeded

  datatype Step =
    | Enqueue(org: string, bot: string, kind: Kind, key: string, plan: Plan, month: int)
    | RequestDelete(org: string, bot: string, key: string, flat: bool)
    | ReportActual(bot: string, actual: Actual)
    | Claim(id: nat)
    | WriteDesired
    | Finish(ok: bool)
    | Crash
    | StartChild(child: string, bot: string)
    | SendStop(child: string)
    | DeliverStop(child: string)
    | Suspend(child: string)

  predicate Metered(kind: Kind) {
    kind == Start || kind == Restart
  }

  function Target(kind: Kind): Desired {
    if kind == Start || kind == Restart then Running else Stopped
  }

  function Used(t: Tables, org: string, month: int): nat {
    if (org, month) in t.usage then t.usage[(org, month)] else 0
  }

  predicate Known(t: Tables, org: string, key: string) {
    exists id :: id in t.commands && t.commands[id].org == org && t.commands[id].key == key
  }

  predicate Repeats(t: Tables, org: string, bot: string, kind: Kind, key: string) {
    exists id :: id in t.commands && t.commands[id].org == org && t.commands[id].key == key
                 && t.commands[id].bot == bot && t.commands[id].kind == kind
  }

  lemma RepeatedIsKnown(t: Tables, org: string, bot: string, kind: Kind, key: string)
    ensures Repeats(t, org, bot, kind, key) ==> Known(t, org, key)
  {
  }

  predicate Owns(t: Tables, org: string, bot: string) {
    bot in t.bots && t.bots[bot].org == org
  }

  // ---------------------------------------------------------------- transactions

  /** What the enqueue route answers. */
  function Decide(t: Tables, org: string, bot: string, kind: Kind, key: string, plan: Plan, month: int): Decision {
    if !Owns(t, org, bot) then NotFound
    else if Repeats(t, org, bot, kind, key) then Replayed
    else if Known(t, org, key) then Conflict
    else if Metered(kind) && !Catalog(plan).liveTrading then EntitlementRequired
    else if Metered(kind) && Used(t, org, month) + 1 > Catalog(plan).monthlyBotCommands then QuotaExceeded
    else Accepted
  }

  /** The tables after a command was accepted. */
  function Inserted(t: Tables, org: string, bot: string, kind: Kind, key: string, month: int): Tables
    requires Owns(t, org, bot)
  {
    Tables(
      t.bots[bot := Bot(org, Target(kind), if Target(kind) == Stopped then ShuttingDown else StartingUp)],
      t.commands[t.nextId := Command(org, bot, kind, key, Pending)],
      t.nextId + 1,
      if Metered(kind) then t.usage[(org, month) := Used(t, org, month) + 1] else t.usage)
  }

  /** The answers, one by one. The bot must be the organization's; a known key answers the same command again
      and refuses another; starting and restarting need PRO and a month with fewer than 10000 of them. */
  lemma DecisionsSpelledOut(t: Tables, org: string, bot: string, kind: Kind, key: string, plan: Plan, month: int)
    ensures var d := Decide(t, org, bot, kind, key, plan, month);
      var owned := bot in t.bots && t.bots[bot].org == org;
      var known := exists id :: id in t.commands && t.commands[id].org == org && t.commands[id].key == key;
      var same := exists id :: id in t.commands && t.commands[id].org == org && t.commands[id].key == key
                               && t.commands[id].bot == bot && t.commands[id].kind == kind;
      var metered := kind == Start || kind == Restart;
      var full := (org, month) in t.usage && t.usage[(org, month)] >= 10_000;
      && (d == NotFound <==> !owned)
      && (d == Replayed <==> owned && same)
      && (d == Conflict <==> owned && known && !same)
      && (d == EntitlementRequired <==> owned && !known && metered && plan == Free)
      && (d == QuotaExceeded <==> owned && !known && metered && plan == Pro && full)
      && (d == Accepted <==> owned && !known && (metered ==> plan == Pro && !full))
  {
  }

  predicate MayDelete(t: Tables, org: string, bot: string, key: string, flat: bool) {
    Owns(t, org, bot) && (t.bots[bot].actual == Down || t.bots[bot].actual == Crashed) && flat && !Known(t, org, key)
  }

  /** `ORDER BY created_at ... LIMIT 1` among the pending commands. */
  predicate OldestPending(t: Tables, id: nat) {
    && id in t.commands && t.commands[id].status == Pending
    && forall j :: j in t.commands && t.commands[j].status == Pending ==> id <= j
  }

  function WithStatus(t: Tables, id: nat, status: CommandStatus): Tables {
    if id in t.commands then t.(commands := t.commands[id := t.commands[id].(status := status)]) else t
  }

  function WithDesired(t: Tables, bot: string, desired: Desired): Tables {
    if bot in t.bots then t.(bots := t.bots[bot := t.bots[bot].(desired := desired)]) else t
  }

  /** Deleting a bot deletes its commands. */
  function Without(t: Tables, bot: string): Tables {
    t.(bots := t.bots - {bot}, commands := map id | id in t.commands && t.commands[id].bot != bot :: t.commands[id])
  }

  /** The API handlers, as they update the tables inside one transaction. */
  class CommandTables {
    var bots: map<string, Bot>
    var commands: map<nat, Command>
    var nextId: nat
    var usage: map<(string, int), nat>

    ghost function View(): Tables
      reads this
    {
      Tables(bots, commands, nextId, usage)
    }

    /** A command route: insert the command, meter it, set the bot's state. When the plan or the quota
        refuses it, the transaction rolls back. */
    method Submit(org: string, bot: string, kind: Kind, key: string, plan: Plan, month: int) returns (d: Decision)
      requires kind != Delete
      modifies this
      ensures d == Decide(old(View()), org, bot, kind, key, plan, month)
      ensures View() == if d == Accepted then Inserted(old(View()), org, bot, kind, key, month) else old(View())
      ensures d == Accepted ==> bots == old(bots)[bot :=
        if kind == Stop || kind == EmergencyStop then Bot(org, Stopped, ShuttingDown)
        else Bot(org, Running, StartingUp)]
      ensures d == Accepted ==>
        commands == old(commands)[old(nextId) := Command(org, bot, kind, key, Pending)] && nextId == old(nextId) + 1
      ensures d == Accepted && (kind == Stop || kind == EmergencyStop) ==> usage == old(usage)
      ensures d == Accepted && (kind == Start || kind == Restart) ==> usage == old(usage)[(org, month) :=
        (if (org, month) in old(usage) then old(usage)[(org, month)] else 0) + 1]
    {
      if bot !in bots || bots[bot].org != org {
        return NotFound;
      }
      var was := Tables(bots, commands, nextId, usage);
      RepeatedIsKnown(was, org, bot, kind, key);
      hide Known, Repeats;
      if Known(was, org, key) {
        return if Repeats(was, org, bot, kind, key) then Replayed else Conflict;
      }
      var savedCommands, savedId := commands, nextId;
      commands := commands[nextId := Command(org, bot, kind, key, Pending)];
      nextId := nextId + 1;
      if kind != Stop && kind != EmergencyStop {
        d := ConsumeBotCommand(org, plan, month);
        if d != Accepted {
          commands, nextId := savedCommands, savedId;
          return;
        }
      }
      var stopping := kind == Stop || kind == EmergencyStop;
      bots := bots[bot := if stopping then Bot(org, Stopped, ShuttingDown) else Bot(org, Running, StartingUp)];
      d := Accepted;
    }

    /** `consumeBotCommand`: count first, then compare with the plan's limit. */
    method ConsumeBotCommand(org: string, plan: Plan, month: int) returns (d: Decision)
      modifies this`usage
      ensures d == (if !Catalog(plan).liveTrading then EntitlementRequired
                    else if Used(old(View()), org, month) + 1 > Catalog(plan).monthlyBotCommands then QuotaExceeded
                    else Accepted)
      ensures usage ==
        if d == Accepted then old(usage)[(org, month) := Used(old(View()), org, month) + 1] else old(usage)
    {
      if !Catalog(plan).liveTrading {
        return EntitlementRequired;
      }
      var saved := usage;
      var quantity := (if (org, month) in usage then usage[(org, month)] else 0) + 1;
      usage := usage[(org, month) := quantity];
      if quantity > Catalog(plan).monthlyBotCommands {
        usage := saved;
        return QuotaExceeded;
      }
      d := Accepted;
    }
  }

  // ---------------------------------------------------------------- the whole system

  function Next(s: State, step: Step): State {
    match step
    case Enqueue(org, bot, kind, key, plan, month) =>
      if kind != Delete && Decide(s.t, org, bot, kind, key, plan, month) == Accepted then
        s.(t := Inserted(s.t, org, bot, kind, key, month),
           accepted := if Metered(kind) then s.accepted + [(org, month)] else s.accepted)
      else s
    case RequestDelete(org, bot, key, flat) =>
      if MayDelete(s.t, org, bot, key, flat) then s.(t := Inserted(s.t, org, bot, Delete, key, 0)) else s
    case ReportActual(bot, actual) =>
      if bot in s.t.bots then s.(t := s.t.(bots := s.t.bots[bot := s.t.bots[bot].(actual := actual)])) else s
    case Claim(id) =>
      if s.current.None? && OldestPending(s.t, id) then
        var c := s.t.commands[id];
        s.(t := WithStatus(s.t, id, Processing), current := Some(Work(id, c, false)), claims := s.claims + [id],
           emergencies := if c.kind == EmergencyStop then s.emergencies + {c.bot} else s.emergencies)
      else s
    case WriteDesired =>
      if s.current.Some? then
        s.(t := WithDesired(s.t, s.current.value.command.bot, Target(s.current.value.command.kind)),
           current := Some(s.current.value.(written := true)), written := s.written + {s.current.value.id})
      else s
    case Finish(ok) =>
      if s.current.Some? && (ok ==> s.current.value.written) then
        var w := s.current.value;
        s.(t := if ok && w.command.kind == Delete then Without(s.t, w.command.bot)
                else WithStatus(s.t, w.id, if ok then Succeeded else Failed),
           current := None)
      else s
    case Crash => s.(current := None)
    case StartChild(child, bot) =>
      if child !in s.children then s.(children := s.children[child := Child(bot, false, false, 0)]) else s
    case SendStop(child) =>
      if child in s.children && s.current.Some? && s.current.value.command.kind == EmergencyStop
         && s.current.value.command.bot == s.children[child].bot
      then s.(children := s.children[child := s.children[child].(stopSent := true)]) else s
    case DeliverStop(child) =>
      if child in s.children && s.children[child].stopSent
      then s.(children := s.children[child := StopWorker(s.children[child], true)]) else s
    case Suspend(child) =>
      if child in s.children then s.(children := s.children[child := StopWorker(s.children[child], false)]) else s
  }

  /** The child's `stopWorker`: its latch lets only the first request through. */
  function StopWorker(c: Child, closePosition: bool): Child {
    if c.stopping then c
    else c.(stopping := true, closings := if closePosition then c.closings + 1 else c.closings)
  }

  const Empty := State(Tables(map[], map[], 0, map[]), None, map[], [], [], {}, {})

  /** Any set of bots, and no commands yet. */
  function Initially(bots: map<string, Bot>): State {
    Empty.(t := Empty.t.(bots := bots))
  }

  function After(s: State, run: seq<Step>): State {
    if run == [] then s else Next(After(s, run[..|run| - 1]), run[|run| - 1])
  }

  // ---------------------------------------------------------------- metering

  function Count(log: seq<(string, int)>, org: string, month: int): nat {
    if log == [] then 0
    else Count(log[..|log| - 1], org, month) + if log[|log| - 1] == (org, month) then 1 else 0
  }

  predicate MeterExact(s: State, org: string, month: int) {
    Used(s.t, org, month) == Count(s.accepted, org, month) <= 10_000
  }

  lemma EnqueueKeepsMeter(s: State, step: Step, org: string, month: int)
    requires MeterExact(s, org, month) && step.Enqueue?
    ensures MeterExact(Next(s, step), org, month)
  {
    hide Repeats, Known, Owns;
    var s' := Next(s, step);
    assert s'.accepted != s.accepted ==> s'.accepted[..|s.accepted|] == s.accepted;
  }

  lemma OthersKeepMeter(s: State, step: Step)
    requires !step.Enqueue?
    ensures Next(s, step).t.usage == s.t.usage && Next(s, step).accepted == s.accepted
  {
    hide MayDelete, OldestPending;
  }

  lemma StepKeepsMeter(s: State, step: Step, org: string, month: int)
    requires MeterExact(s, org, month)
    ensures MeterExact(Next(s, step), org, month)
  {
    if step.Enqueue? {
      EnqueueKeepsMeter(s, step, org, month);
    } else {
      OthersKeepMeter(s, step);
      hide Next;
    }
  }

  /** Metering is exact: in every reachable state the counter of an organization and month equals the
      number of START and RESTART commands ever accepted then, and stays within the PRO limit. */
  lemma {:induction false} MeteringIsExact(bots: map<string, Bot>, run: seq<Step>, org: string, month: int)
    ensures MeterExact(After(Initially(bots), run), org, month)
  {
    hide Next;
    if run != [] {
      MeteringIsExact(bots, run[..|run| - 1], org, month);
      StepKeepsMeter(After(Initially(bots), run[..|run| - 1]), run[|run| - 1], org, month);
    }
  }

  // ---------------------------------------------------------------- the leader's steps

  /** A deletion is accepted for a bot of the organization that is stopped or failed, without exposure, under a
      new key, and then wants it stopped. */
  lemma DeletionAccepted(s: State, org: string, bot: string, key: string, flat: bool)
    ensures var next := Next(s, RequestDelete(org, bot, key, flat));
      if bot in s.t.bots && s.t.bots[bot].org == org && flat
         && (s.t.bots[bot].actual == Down || s.t.bots[bot].actual == Crashed)
         && forall id :: id in s.t.commands ==> s.t.commands[id].org != org || s.t.commands[id].key != key
      then
        && next.t.commands == s.t.commands[s.t.nextId := Command(org, bot, Delete, key, Pending)]
        && next.t.nextId == s.t.nextId + 1 && next.t.usage == s.t.usage
        && next.t.bots == s.t.bots[bot := Bot(org, Stopped, ShuttingDown)]
      else next == s
  {
  }

  /** A free leader claims the oldest pending command and no other. */
  lemma ClaimsOldest(s: State, id: nat)
    ensures var next := Next(s, Claim(id));
      if s.current.None? && id in s.t.commands && s.t.commands[id].status == Pending
         && forall j :: j in s.t.commands && s.t.commands[j].status == Pending ==> id <= j
      then
        && next.current == Some(Work(id, s.t.commands[id], false)) && next.claims == s.claims + [id]
        && next.t == s.t.(commands := s.t.commands[id := s.t.commands[id].(status := Processing)])
      else next == s
  {
  }

  /** It writes RUNNING for a start or restart and STOPPED for the others, and then reports how it went; a
      deletion that went well takes the bot and its commands with it. */
  lemma LeaderWrites(s: State, ok: bool)
    requires s.current.Some?
    ensures var w := s.current.value; var written := Next(s, WriteDesired); var done := Next(s, Finish(ok));
      && written.t.commands == s.t.commands && w.id in written.written
      && (w.command.bot in s.t.bots ==> written.t.bots == s.t.bots[w.command.bot := s.t.bots[w.command.bot].(
            desired := if w.command.kind == Start || w.command.kind == Restart then Running else Stopped)])
      && (w.written && w.id in s.t.commands && !(ok && w.command.kind == Delete) ==>
            && done.current == None && done.t.bots == s.t.bots
            && done.t.commands == s.t.commands[w.id := s.t.commands[w.id].(status := if ok then Succeeded else Failed)])
      && (w.written && ok && w.command.kind == Delete ==>
            && done.t.bots == s.t.bots - {w.command.bot}
            && forall id :: id in done.t.commands <==> id in s.t.commands && s.t.commands[id].bot != w.command.bot)
  {
  }

  /** A child closes its position at the first stop it is sent, and at nothing else. */
  lemma ChildStops(s: State, child: string)
    requires child in s.children
    ensures var c := s.children[child];
      && (c.stopSent && !c.stopping ==>
            Next(s, DeliverStop(child)).children[child] == c.(stopping := true, closings := c.closings + 1))
      && (c.stopSent && c.stopping ==> Next(s, DeliverStop(child)) == s)
      && Next(s, Suspend(child)).children[child] == c.(stopping := true)
  {
  }

  // ---------------------------------------------------------------- claims

  /** Claimed commands are the oldest ones: whatever is still pending is younger than all of them. */
  predicate InOrder(s: State) {
    && (forall id :: id in s.t.commands ==> id < s.t.nextId)
    && (forall i :: 0 <= i < |s.claims| ==> s.claims[i] < s.t.nextId)
    && (forall i, j :: 0 <= i < j < |s.claims| ==> s.claims[i] < s.claims[j])
    && (forall i, id :: 0 <= i < |s.claims| && id in s.t.commands && s.t.commands[id].status == Pending ==>
          s.claims[i] < id)
    && (forall id :: id in s.written ==> id in s.claims)
    && (s.current.Some? ==> s.claims != [] && s.claims[|s.claims| - 1] == s.current.value.id)
  }

  lemma ClaimKeepsOrder(s: State, id: nat)
    requires InOrder(s)
    ensures InOrder(Next(s, Claim(id)))
  {
  }

  lemma InsertKeepsOrder(s: State, step: Step)
    requires InOrder(s) && (step.Enqueue? || step.RequestDelete?)
    ensures InOrder(Next(s, step))
  {
    hide Decide, MayDelete;
  }

  lemma WorkKeepsOrder(s: State, step: Step)
    requires InOrder(s) && (step.WriteDesired? || step.Finish?)
    ensures InOrder(Next(s, step))
  {
  }

  lemma OthersKeepOrder(s: State, step: Step)
    requires InOrder(s)
    requires !step.Claim? && !step.Enqueue? && !step.RequestDelete? && !step.WriteDesired? && !step.Finish?
    ensures InOrder(Next(s, step))
  {
  }

  lemma StepKeepsOrder(s: State, step: Step)
    requires InOrder(s)
    ensures InOrder(Next(s, step))
  {
    hide Next, InOrder;
    match step
    case Claim(id) => ClaimKeepsOrder(s, id);
    case Enqueue(_, _, _, _, _, _) => InsertKeepsOrder(s, step);
    case RequestDelete(_, _, _, _) => InsertKeepsOrder(s, step);
    case WriteDesired => WorkKeepsOrder(s, step);
    case Finish(_) => WorkKeepsOrder(s, step);
    case _ => OthersKeepOrder(s, step);
  }

  lemma {:induction false} ReachableInOrder(bots: map<string, Bot>, run: seq<Step>)
    ensures InOrder(After(Initially(bots), run))
  {
    hide Next;
    if run != [] {
      ReachableInOrder(bots, run[..|run| - 1]);
      StepKeepsOrder(After(Initially(bots), run[..|run| - 1]), run[|run| - 1]);
    }
  }

  /** Across any crashes and failovers no command is claimed, and hence executed, twice, and commands
      are claimed in the order they were created. */
  lemma ClaimedAtMostOnce(bots: map<string, Bot>, run: seq<Step>, i: nat, j: nat)
    requires i < j < |After(Initially(bots), run).claims|
    ensures After(Initially(bots), run).claims[i] < After(Initially(bots), run).claims[j]
  {
    ReachableInOrder(bots, run);
  }
}
