/**
 What the leader's executions guarantee: the desired state follows the newest command that was carried
 out, and positions are closed only by an emergency stop.
 */
module BotSupervision {
  import opened Options
  import opened Plans
  import opened BotCommands

  // ---------------------------------------------------------------- desired state

  /** The newest command of its bot. */
  predicate Newest(t: Tables, id: nat) {
    id in t.commands && forall j :: j in t.commands && t.commands[j].bot == t.commands[id].bot ==> j <= id
  }

  /** The command that last set the desired state of `bot`: by being accepted, or by being carried out. */
  function Setter(bots: map<string, Bot>, run: seq<Step>, bot: string): Option<nat> {
    if run == [] then None
    else
      var before := run[..|run| - 1];
      NextSetter(After(Initially(bots), before), run[|run| - 1], bot, Setter(bots, before, bot))
  }

  function NextSetter(s: State, step: Step, bot: string, setter: Option<nat>): Option<nat> {
    if (step.Enqueue? || step.RequestDelete?) && step.bot == bot && Next(s, step).t.nextId > s.t.nextId
    then Some(s.t.nextId)
    else if step.WriteDesired? && s.current.Some? && s.current.value.command.bot == bot then Some(s.current.value.id)
    else setter
  }

  /** The desired state of `bot` is the target of `setter`, which is its newest command, or else an older
      one that was carried out while the newest was not. */
  predicate Tracks(s: State, bot: string, setter: Option<nat>) {
    bot in s.t.bots ==>
      match setter
      case None => forall id :: id in s.t.commands ==> s.t.commands[id].bot != bot
      case Some(j) =>
        && j in s.t.commands && s.t.commands[j].bot == bot
        && s.t.bots[bot].desired == Target(s.t.commands[j].kind)
        && (Newest(s.t, j) || (j in s.written && NewestUnwritten(s, bot)))
  }

  predicate NewestUnwritten(s: State, bot: string) {
    forall id :: Newest(s.t, id) && s.t.commands[id].bot == bot ==> id !in s.written
  }

  /** The leader works on the row it claimed, and success implies that the desired state was written. */
  predicate Faithful(s: State) {
    && (s.current.Some? ==>
          var w := s.current.value;
          && w.id in s.t.commands && s.t.commands[w.id].status == Processing
          && s.t.commands[w.id] == w.command.(status := Processing)
          && (w.written ==> w.id in s.written))
    && forall id :: id in s.t.commands && s.t.commands[id].status == Succeeded ==> id in s.written
  }

  lemma StepKeepsFaithful(s: State, step: Step)
    requires InOrder(s) && Faithful(s)
    ensures Faithful(Next(s, step))
  {
  }

  /** A command is the newest of its bot in both of two tables that have the same commands of that bot. */
  lemma NewestAgrees(t: Tables, t': Tables, bot: string)
    requires forall j :: j in t.commands && t.commands[j].bot == bot ==> j in t'.commands && t'.commands[j].bot == bot
    requires forall j :: j in t'.commands && t'.commands[j].bot == bot ==> j in t.commands && t.commands[j].bot == bot
    ensures forall j :: j in t.commands && t.commands[j].bot == bot ==> (Newest(t, j) <==> Newest(t', j))
  {
  }

  lemma WrittenIsNoYounger(s: State, id: nat)
    requires InOrder(s) && s.current.Some? && id in s.written
    ensures id <= s.current.value.id
  {
    assert id in s.claims;
  }

  lemma OwnWriteTracks(s: State, bot: string)
    requires InOrder(s) && Faithful(s) && s.current.Some? && s.current.value.command.bot == bot && bot in s.t.bots
    ensures Tracks(Next(s, WriteDesired), bot, Some(s.current.value.id))
  {
    hide InOrder;
    var s' := Next(s, WriteDesired);
    if !Newest(s'.t, s.current.value.id) {
      forall id: nat | Newest(s'.t, id) && s'.t.commands[id].bot == bot
        ensures id !in s'.written
      {
        if id in s.written {
          WrittenIsNoYounger(s, id);
        }
      }
    }
  }

  lemma OtherWriteTracks(s: State, bot: string, setter: Option<nat>)
    requires Faithful(s) && Tracks(s, bot, setter)
    requires s.current.Some? && s.current.value.command.bot != bot
    ensures Tracks(Next(s, WriteDesired), bot, setter)
  {
    NewestAgrees(s.t, Next(s, WriteDesired).t, bot);
  }

  lemma WriteTracks(s: State, bot: string, setter: Option<nat>)
    requires InOrder(s) && Faithful(s) && Tracks(s, bot, setter)
    ensures Tracks(Next(s, WriteDesired), bot, NextSetter(s, WriteDesired, bot, setter))
  {
    hide InOrder, Faithful;
    if s.current.Some? {
      if s.current.value.command.bot != bot {
        OtherWriteTracks(s, bot, setter);
      } else if bot in s.t.bots {
        OwnWriteTracks(s, bot);
      }
    }
  }

  lemma InsertTracks(s: State, step: Step, bot: string, setter: Option<nat>)
    requires InOrder(s) && Tracks(s, bot, setter) && (step.Enqueue? || step.RequestDelete?)
    ensures Tracks(Next(s, step), bot, NextSetter(s, step, bot, setter))
  {
    var s' := Next(s, step);
    if s' != s && step.bot != bot {
      NewestAgrees(s.t, s'.t, bot);
    }
  }

  /** `s'` has the commands and desired states of `s`, except those of bots that are gone. */
  predicate SameDesires(s: State, s': State) {
    && s'.written == s.written
    && (forall bot :: bot in s'.t.bots ==> bot in s.t.bots && s'.t.bots[bot].desired == s.t.bots[bot].desired)
    && (forall id :: id in s'.t.commands ==>
          id in s.t.commands && s'.t.commands[id].bot == s.t.commands[id].bot
          && s'.t.commands[id].kind == s.t.commands[id].kind)
    && forall id :: id in s.t.commands && s.t.commands[id].bot in s'.t.bots ==> id in s'.t.commands
  }

  lemma SameDesiresTrack(s: State, s': State, bot: string, setter: Option<nat>)
    requires Tracks(s, bot, setter) && SameDesires(s, s')
    ensures Tracks(s', bot, setter)
  {
    if bot in s'.t.bots {
      NewestAgrees(s.t, s'.t, bot);
    }
  }

  lemma OthersKeepDesires(s: State, step: Step)
    requires !step.WriteDesired? && !step.Enqueue? && !step.RequestDelete?
    ensures SameDesires(s, Next(s, step))
  {
    hide OldestPending, StopWorker;
  }

  lemma StepTracks(s: State, step: Step, bot: string, setter: Option<nat>)
    requires InOrder(s) && Faithful(s) && Tracks(s, bot, setter)
    ensures Tracks(Next(s, step), bot, NextSetter(s, step, bot, setter))
  {
    hide Next, InOrder, Faithful, Tracks, SameDesires;
    if step.WriteDesired? {
      WriteTracks(s, bot, setter);
    } else if step.Enqueue? || step.RequestDelete? {
      InsertTracks(s, step, bot, setter);
    } else {
      OthersKeepDesires(s, step);
      SameDesiresTrack(s, Next(s, step), bot, setter);
    }
  }

  lemma {:induction false} ReachableTracks(bots: map<string, Bot>, run: seq<Step>, bot: string)
    ensures Faithful(After(Initially(bots), run)) && Tracks(After(Initially(bots), run), bot, Setter(bots, run, bot))
  {
    hide Next, InOrder, NextSetter;
    if run != [] {
      var before := run[..|run| - 1];
      ReachableTracks(bots, before, bot);
      ReachableInOrder(bots, before);
      StepKeepsFaithful(After(Initially(bots), before), run[|run| - 1]);
      StepTracks(After(Initially(bots), before), run[|run| - 1], bot, Setter(bots, before, bot));
    }
  }

  /** In every reachable state, if the newest command of a bot succeeded, or failed after writing the
      desired state, then the bot's desired state is that command's target. */
  lemma DesiredIsNewestTarget(bots: map<string, Bot>, run: seq<Step>, id: nat)
    requires var s := After(Initially(bots), run);
      && Newest(s.t, id) && s.t.commands[id].bot in s.t.bots
      && (s.t.commands[id].status == Succeeded || id in s.written)
    ensures var s := After(Initially(bots), run);
      s.t.bots[s.t.commands[id].bot].desired == Target(s.t.commands[id].kind)
  {
    hide Next, NextSetter;
    ReachableTracks(bots, run, After(Initially(bots), run).t.commands[id].bot);
  }

  /** In terms of the commands: it is STOPPED exactly after a stop, an emergency stop or a deletion. */
  lemma DesiredByKind(bots: map<string, Bot>, run: seq<Step>, id: nat)
    requires var s := After(Initially(bots), run);
      && Newest(s.t, id) && s.t.commands[id].bot in s.t.bots
      && (s.t.commands[id].status == Succeeded || id in s.written)
    ensures var s := After(Initially(bots), run); var kind := s.t.commands[id].kind;
      s.t.bots[s.t.commands[id].bot].desired == Stopped <==> kind == Stop || kind == EmergencyStop || kind == Delete
  {
    hide Next, After;
    DesiredIsNewestTarget(bots, run, id);
  }

  /** An older command was carried out after the newest was accepted, the newest was not, and the two
      want different things. */
  predicate Overtaken(s: State, id: nat, setter: Option<nat>)
    requires id in s.t.commands
  {
    && setter.Some? && setter.value < id && setter.value in s.t.commands
    && setter.value in s.written && id !in s.written
    && Target(s.t.commands[setter.value].kind) != Target(s.t.commands[id].kind)
  }

  /** And in general it is exactly unless the newest command was overtaken. */
  lemma DesiredExactlyUnlessOvertaken(bots: map<string, Bot>, run: seq<Step>, id: nat)
    requires var s := After(Initially(bots), run); Newest(s.t, id) && s.t.commands[id].bot in s.t.bots
    ensures var s := After(Initially(bots), run); var bot := s.t.commands[id].bot;
      s.t.bots[bot].desired == Target(s.t.commands[id].kind) <==> !Overtaken(s, id, Setter(bots, run, bot))
  {
    hide Next, NextSetter;
    ReachableTracks(bots, run, After(Initially(bots), run).t.commands[id].bot);
  }

  predicate NoneOutstanding(t: Tables, bot: string) {
    forall id :: id in t.commands && t.commands[id].bot == bot ==>
      t.commands[id].status != Pending && t.commands[id].status != Processing
  }

  /** What the tables alone show: when no command of a bot is pending or in execution, its desired state
      differs from its newest command's target only if that command is FAILED. */
  lemma DesiredDiffersOnlyOnFailure(bots: map<string, Bot>, run: seq<Step>, id: nat)
    requires var s := After(Initially(bots), run);
      Newest(s.t, id) && s.t.commands[id].bot in s.t.bots && NoneOutstanding(s.t, s.t.commands[id].bot)
    ensures var s := After(Initially(bots), run);
      s.t.bots[s.t.commands[id].bot].desired != Target(s.t.commands[id].kind) ==> s.t.commands[id].status == Failed
  {
    hide Next;
    if After(Initially(bots), run).t.commands[id].status == Succeeded {
      DesiredIsNewestTarget(bots, run, id);
    }
  }

  const START := Command("org", "bot", Start, "a", Pending)
  const STOP := Command("org", "bot", Stop, "b", Pending)

  /** A bot with a START and a STOP, in the given states; the leader has written the desired states of
      the commands in `written`. */
  function TwoCommands(start: CommandStatus, stop: CommandStatus, desired: Desired, current: Option<Work>,
                       claims: seq<nat>, written: set<nat>): State {
    State(Tables(map["bot" := Bot("org", desired, ShuttingDown)],
                 map[0 := START.(status := start), 1 := STOP.(status := stop)], 2, map[("org", 0) := 1]),
          current, map[], [("org", 0)], claims, written, {})
  }

  const StartThenStop := [Enqueue("org", "bot", Start, "a", Pro, 0), Enqueue("org", "bot", Stop, "b", Pro, 0)]

  lemma AfterStep(s: State, run: seq<Step>, step: Step)
    ensures After(s, run + [step]) == Next(After(s, run), step)
  {
    assert (run + [step])[..|run|] == run;
  }

  lemma AfterStartThenStop()
    ensures After(Initially(map["bot" := Bot("org", Stopped, Down)]), StartThenStop)
         == TwoCommands(Pending, Pending, Stopped, None, [], {})
  {
    var s0 := Initially(map["bot" := Bot("org", Stopped, Down)]);
    AfterStep(s0, [], StartThenStop[0]);
    AfterStep(s0, [StartThenStop[0]], StartThenStop[1]);
    assert [] + [StartThenStop[0]] == [StartThenStop[0]] && [StartThenStop[0]] + [StartThenStop[1]] == StartThenStop;
    assert s0.t.commands == map[];
    assert Next(s0, StartThenStop[0]).t.commands == map[0 := START];
    assert "a"[0] != "b"[0];
  }

  /** Without that write it may not be: a START is carried out, and the STOP that was accepted after it
      fails at its first query; it is reported FAILED and the bot is still wanted running. */
  lemma LostWrite()
    ensures var run := StartThenStop + [Claim(0)] + [WriteDesired] + [Finish(true)] + [Claim(1)] + [Finish(false)];
      var s := After(Initially(map["bot" := Bot("org", Stopped, Down)]), run);
      && Newest(s.t, 1) && s.t.commands[1].kind == Stop && s.t.commands[1].status == Failed
      && NoneOutstanding(s.t, "bot")
      && "bot" in s.t.bots && s.t.bots["bot"].desired == Running
  {
    hide After, Next, Initially, TwoCommands, Newest, NoneOutstanding;
    var s0 := Initially(map["bot" := Bot("org", Stopped, Down)]);
    AfterStartThenStop();
    AfterStep(s0, StartThenStop, Claim(0));
    AfterStep(s0, StartThenStop + [Claim(0)], WriteDesired);
    AfterStep(s0, StartThenStop + [Claim(0)] + [WriteDesired], Finish(true));
    AfterStep(s0, StartThenStop + [Claim(0)] + [WriteDesired] + [Finish(true)], Claim(1));
    AfterStep(s0, StartThenStop + [Claim(0)] + [WriteDesired] + [Finish(true)] + [Claim(1)], Finish(false));
    ClaimStart();
    WriteStart();
    FinishStart();
    FailStop();
    StopIsLost();
  }

  lemma StopIsLost()
    ensures var s := TwoCommands(Succeeded, Failed, Running, None, [0, 1], {0});
      && Newest(s.t, 1) && s.t.commands[1].kind == Stop && s.t.commands[1].status == Failed
      && NoneOutstanding(s.t, "bot")
      && "bot" in s.t.bots && s.t.bots["bot"].desired == Running
  {
  }

  lemma ClaimStart()
    ensures Next(TwoCommands(Pending, Pending, Stopped, None, [], {}), Claim(0)) ==
            TwoCommands(Processing, Pending, Stopped, Some(Work(0, START, false)), [0], {})
  {
    assert OldestPending(TwoCommands(Pending, Pending, Stopped, None, [], {}).t, 0);
  }

  lemma WriteStart()
    ensures Next(TwoCommands(Processing, Pending, Stopped, Some(Work(0, START, false)), [0], {}), WriteDesired) ==
            TwoCommands(Processing, Pending, Running, Some(Work(0, START, true)), [0], {0})
  {
  }

  lemma FinishStart()
    ensures Next(TwoCommands(Processing, Pending, Running, Some(Work(0, START, true)), [0], {0}), Finish(true)) ==
            TwoCommands(Succeeded, Pending, Running, None, [0], {0})
  {
  }

  lemma FailStop()
    ensures Next(Next(TwoCommands(Succeeded, Pending, Running, None, [0], {0}), Claim(1)), Finish(false)) ==
            TwoCommands(Succeeded, Failed, Running, None, [0, 1], {0})
  {
    assert OldestPending(TwoCommands(Succeeded, Pending, Running, None, [0], {0}).t, 1);
    assert Next(TwoCommands(Succeeded, Pending, Running, None, [0], {0}), Claim(1)) ==
           TwoCommands(Succeeded, Processing, Running, Some(Work(1, STOP, false)), [0, 1], {0});
  }

  // ---------------------------------------------------------------- closing positions

  /** A child closed its position at most once, and only after it was told to by an emergency stop of
      its own bot. */
  predicate ClosesOnlyInEmergency(s: State) {
    && (s.current.Some? && s.current.value.command.kind == EmergencyStop ==>
          s.current.value.command.bot in s.emergencies)
    && forall c :: c in s.children ==>
         && s.children[c].closings <= 1
         && (s.children[c].closings > 0 ==> s.children[c].stopping && s.children[c].stopSent)
         && (s.children[c].stopSent ==> s.children[c].bot in s.emergencies)
  }

  lemma StepKeepsClosings(s: State, step: Step)
    requires ClosesOnlyInEmergency(s)
    ensures ClosesOnlyInEmergency(Next(s, step))
  {
  }

  /** In every reachable state a child has run `endAlgorithms` at most once, and only if an
      EMERGENCY_STOP for its bot was claimed: suspensions, signals and leader changes never do it. */
  lemma {:induction false} PositionsCloseOnlyInEmergency(bots: map<string, Bot>, run: seq<Step>)
    ensures ClosesOnlyInEmergency(After(Initially(bots), run))
  {
    hide Next;
    if run != [] {
      PositionsCloseOnlyInEmergency(bots, run[..|run| - 1]);
      StepKeepsClosings(After(Initially(bots), run[..|run| - 1]), run[|run| - 1]);
    }
  }
}
