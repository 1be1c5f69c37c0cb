/**
 Refresh-token rotation. A login opens a family; each refresh revokes the presented token and replaces
 it by a new one of the same family; presenting a revoked token revokes the whole family.
 */
module RefreshTokens {
  import opened Options

  /** A row of `refresh_tokens`, keyed by the token. `serial` is its place in the order of issue. */
  datatype Token = Token(
    user: string,
    org: string,
    family: string,
    expiresAt: int,
    revokedAt: Option<int>,
    replacedBy: Option<string>,
    serial: nat)

  /** The table, with the tokens and families that were ever issued: random identifiers are fresh. */
  datatype State = State(tokens: map<string, Token>, issued: set<string>, families: set<string>, counter: nat)

  datatype Outcome = Unknown | Reused | Expired | AccessUnavailable | Rotated

  datatype Step =
    | Login(user: string, org: string, token: string, family: string)
    | Refresh(presented: string, next: string, member: bool)
    | Logout(presented: string)
    | RevokeUser(user: string)
    | RevokeMember(user: string, org: string)
    | RevokeOrganization(org: string)
    | Purge(gone: set<string>)

  // ---------------------------------------------------------------- the table

  class TokenTable {
    var tokens: map<string, Token>
    ghost var issued: set<string>
    ghost var families: set<string>
    var counter: nat

    ghost function View(): State
      reads this
    {
      State(tokens, issued, families, counter)
    }

    constructor ()
      ensures View() == Empty
    {
      tokens, issued, families, counter := map[], {}, {}, 0;
    }

    /** `saveRefresh` under a new family. */
    method SaveRefresh(user: string, org: string, token: string, family: string, now: int, ttl: int)
      requires token !in issued && family !in families
      modifies this
      ensures View() == Next(old(View()), Login(user, org, token, family), now, ttl)
      ensures tokens == old(tokens)[token := Token(user, org, family, now + ttl, None, None, old(counter))]
    {
      tokens := tokens[token := Token(user, org, family, now + ttl, None, None, counter)];
      issued, families, counter := issued + {token}, families + {family}, counter + 1;
    }

    /** The refresh transaction; `member` says whether user, organization and membership are active. */
    method Rotate(presented: string, next: string, member: bool, now: int, ttl: int) returns (outcome: Outcome)
      requires next !in issued
      modifies this
      ensures View() == Next(old(View()), Refresh(presented, next, member), now, ttl)
      ensures outcome == Answer(old(View()), presented, member, now)
      ensures outcome == Rotated <==>
        && presented in old(tokens) && old(tokens)[presented].revokedAt == None
        && now < old(tokens)[presented].expiresAt && member
      ensures outcome == Reused <==> presented in old(tokens) && old(tokens)[presented].revokedAt != None
      ensures outcome == Expired <==>
        && presented in old(tokens) && old(tokens)[presented].revokedAt == None
        && old(tokens)[presented].expiresAt <= now
      ensures outcome != Rotated && outcome != Reused ==> tokens == old(tokens)
      ensures outcome == Rotated ==> var was := old(tokens)[presented];
        tokens == old(tokens)[next := Token(was.user, was.org, was.family, now + ttl, None, None, old(counter))]
                             [presented := was.(revokedAt := Some(now), replacedBy := Some(next))]
      ensures outcome == Reused ==> tokens.Keys == old(tokens).Keys && forall t :: t in tokens ==>
        tokens[t] == if old(tokens)[t].family == old(tokens)[presented].family && old(tokens)[t].revokedAt == None
                     then old(tokens)[t].(revokedAt := Some(now)) else old(tokens)[t]
    {
      if presented !in tokens {
        return Unknown;
      }
      var stored := tokens[presented];
      if stored.revokedAt.Some? {
        tokens := map t | t in tokens ::
          if tokens[t].family == stored.family then RevokedAt(tokens[t], now) else tokens[t];
        return Reused;
      }
      if stored.expiresAt <= now {
        return Expired;
      }
      if !member {
        return AccessUnavailable;
      }
      tokens := tokens[next := Token(stored.user, stored.org, stored.family, now + ttl, None, None, counter)];
      tokens := tokens[presented := stored.(revokedAt := Some(now), replacedBy := Some(next))];
      issued, counter := issued + {next}, counter + 1;
      outcome := Rotated;
    }

    method LogOut(presented: string, now: int, ttl: int)
      modifies this
      ensures View() == Next(old(View()), Logout(presented), now, ttl)
      ensures tokens.Keys == old(tokens).Keys && forall t :: t in tokens ==>
        tokens[t] == if t == presented && old(tokens)[t].revokedAt == None
                     then old(tokens)[t].(revokedAt := Some(now)) else old(tokens)[t]
    {
      tokens := map t | t in tokens :: if t == presented then RevokedAt(tokens[t], now) else tokens[t];
    }
  }

  // ---------------------------------------------------------------- specification

  const Empty := State(map[], {}, {}, 0)

  /** `revoked_at = COALESCE(revoked_at, now())` */
  function RevokedAt(t: Token, now: int): Token {
    if t.revokedAt.Some? then t else t.(revokedAt := Some(now))
  }

  predicate Usable(t: Token, now: int) {
    t.revokedAt.None? && now < t.expiresAt
  }

  function Answer(s: State, presented: string, member: bool, now: int): Outcome {
    if presented !in s.tokens then Unknown
    else if s.tokens[presented].revokedAt.Some? then Reused
    else if s.tokens[presented].expiresAt <= now then Expired
    else if !member then AccessUnavailable
    else Rotated
  }

  /** Which tokens a revoking step revokes. */
  predicate Revokes(s: State, step: Step, token: string)
    requires token in s.tokens
  {
    match step
    case Refresh(presented, _, _) =>
      && presented in s.tokens && s.tokens[presented].revokedAt.Some?
      && s.tokens[token].family == s.tokens[presented].family
    case Logout(presented) => token == presented
    case RevokeUser(user) => s.tokens[token].user == user
    case RevokeMember(user, org) => s.tokens[token].user == user && s.tokens[token].org == org
    case RevokeOrganization(org) => s.tokens[token].org == org
    case _ => false
  }

  function Opened(s: State, user: string, org: string, token: string, family: string, expiresAt: int): State {
    State(s.tokens[token := Token(user, org, family, expiresAt, None, None, s.counter)],
          s.issued + {token}, s.families + {family}, s.counter + 1)
  }

  function Replaced(s: State, presented: string, next: string, now: int, expiresAt: int): State
    requires presented in s.tokens
  {
    var stored := s.tokens[presented];
    State(s.tokens[next := Token(stored.user, stored.org, stored.family, expiresAt, None, None, s.counter)]
                  [presented := stored.(revokedAt := Some(now), replacedBy := Some(next))],
          s.issued + {next}, s.families, s.counter + 1)
  }

  function Next(s: State, step: Step, now: int, ttl: int): State {
    match step
    case Login(user, org, token, family) => Opened(s, user, org, token, family, now + ttl)
    case Purge(gone) => s.(tokens := s.tokens - gone)
    case Refresh(presented, next, member) =>
      if Answer(s, presented, member, now) == Rotated then Replaced(s, presented, next, now, now + ttl)
      else Swept(s, step, now)
    case _ => Swept(s, step, now)
  }

  function Swept(s: State, step: Step, now: int): State {
    s.(tokens := map t | t in s.tokens :: if Revokes(s, step, t) then RevokedAt(s.tokens[t], now) else s.tokens[t])
  }

  /** Random tokens and family identifiers never repeat. */
  predicate Fresh(s: State, step: Step) {
    match step
    case Login(_, _, token, family) => token !in s.issued && family !in s.families
    case Refresh(_, next, _) => next !in s.issued
    case _ => true
  }

  datatype Event = Event(step: Step, now: int)

  function After(s: State, run: seq<Event>, ttl: int): State {
    if run == [] then s
    else Next(After(s, run[..|run| - 1], ttl), run[|run| - 1].step, run[|run| - 1].now, ttl)
  }

  predicate FreshRun(s: State, run: seq<Event>, ttl: int) {
    if run == [] then true
    else FreshRun(s, run[..|run| - 1], ttl) && Fresh(After(s, run[..|run| - 1], ttl), run[|run| - 1].step)
  }

  // ---------------------------------------------------------------- linear families

  predicate Recorded(s: State) {
    forall t :: t in s.tokens ==>
      && t in s.issued && s.tokens[t].family in s.families && s.tokens[t].serial < s.counter
      && (s.tokens[t].replacedBy.Some? ==> s.tokens[t].replacedBy.value in s.issued)
  }

  /** A family has at most one unrevoked token, and it is the newest. */
  predicate OneLive(s: State) {
    forall t, u :: t in s.tokens && u in s.tokens && t != u && s.tokens[t].family == s.tokens[u].family ==>
      && s.tokens[t].serial != s.tokens[u].serial
      && (s.tokens[t].revokedAt.None? ==> s.tokens[u].revokedAt.Some? && s.tokens[u].serial < s.tokens[t].serial)
  }

  /** Only revoked tokens are replaced, and every token but its family's newest is. */
  predicate Superseded(s: State) {
    && (forall t :: t in s.tokens && s.tokens[t].replacedBy.Some? ==> s.tokens[t].revokedAt.Some?)
    && forall t, u ::
         && t in s.tokens && u in s.tokens
         && s.tokens[t].family == s.tokens[u].family && s.tokens[t].serial < s.tokens[u].serial
         ==> s.tokens[t].replacedBy.Some?
  }

  /** A replacement link leads to a younger token of the same family, and no two links lead to the same
      token: the links form a chain without forks or cycles. */
  predicate Chained(s: State) {
    && (forall t :: t in s.tokens && s.tokens[t].replacedBy.Some? ==> Forward(s, t, s.tokens[t].replacedBy.value))
    && forall t, u ::
         && t in s.tokens && u in s.tokens
         && s.tokens[t].replacedBy.Some? && s.tokens[t].replacedBy == s.tokens[u].replacedBy
         ==> t == u
  }

  predicate Forward(s: State, t: string, next: string)
    requires t in s.tokens
  {
    next in s.tokens ==>
      s.tokens[next].family == s.tokens[t].family && s.tokens[t].serial < s.tokens[next].serial
  }

  predicate Linear(s: State) {
    Recorded(s) && OneLive(s) && Superseded(s) && Chained(s)
  }

  lemma OpenedIsLinear(s: State, user: string, org: string, token: string, family: string, expiresAt: int)
    requires Linear(s) && token !in s.issued && family !in s.families
    ensures Linear(Opened(s, user, org, token, family, expiresAt))
  {
    OpenedIsRecorded(s, user, org, token, family, expiresAt);
    OpenedHasOneLive(s, user, org, token, family, expiresAt);
    OpenedIsChained(s, user, org, token, family, expiresAt);
    hide Opened, Recorded, OneLive, Superseded, Chained;
  }

  lemma OpenedIsRecorded(s: State, user: string, org: string, token: string, family: string, expiresAt: int)
    requires Linear(s) && token !in s.issued && family !in s.families
    ensures Recorded(Opened(s, user, org, token, family, expiresAt))
  {
    hide OneLive, Superseded, Chained;
  }

  lemma OpenedHasOneLive(s: State, user: string, org: string, token: string, family: string, expiresAt: int)
    requires Linear(s) && token !in s.issued && family !in s.families
    ensures OneLive(Opened(s, user, org, token, family, expiresAt))
    ensures Superseded(Opened(s, user, org, token, family, expiresAt))
  {
    hide Chained;
  }

  lemma OpenedIsChained(s: State, user: string, org: string, token: string, family: string, expiresAt: int)
    requires Linear(s) && token !in s.issued && family !in s.families
    ensures Chained(Opened(s, user, org, token, family, expiresAt))
  {
    hide OneLive, Superseded;
  }

  lemma ReplacedHasOneLive(s: State, presented: string, next: string, now: int, expiresAt: int)
    requires Linear(s) && presented in s.tokens && s.tokens[presented].revokedAt.None? && next !in s.issued
    ensures Recorded(Replaced(s, presented, next, now, expiresAt))
    ensures OneLive(Replaced(s, presented, next, now, expiresAt))
  {
    hide Superseded, Chained;
  }

  lemma ReplacedSupersedes(s: State, presented: string, next: string, now: int, expiresAt: int)
    requires Linear(s) && presented in s.tokens && s.tokens[presented].revokedAt.None? && next !in s.issued
    ensures Superseded(Replaced(s, presented, next, now, expiresAt))
  {
    hide Chained;
    var s' := Replaced(s, presented, next, now, expiresAt);
    forall t, u | t in s'.tokens && u in s'.tokens && s'.tokens[t].family == s'.tokens[u].family
                  && s'.tokens[t].serial < s'.tokens[u].serial
      ensures s'.tokens[t].replacedBy.Some?
    {
      if t != presented && u == next {
        assert s.tokens[t].serial < s.tokens[presented].serial;
      }
    }
  }

  lemma ReplacedIsChained(s: State, presented: string, next: string, now: int, expiresAt: int)
    requires Linear(s) && presented in s.tokens && s.tokens[presented].revokedAt.None? && next !in s.issued
    ensures Chained(Replaced(s, presented, next, now, expiresAt))
  {
    hide OneLive, Superseded;
    var s' := Replaced(s, presented, next, now, expiresAt);
    forall t | t in s'.tokens && s'.tokens[t].replacedBy.Some?
      ensures Forward(s', t, s'.tokens[t].replacedBy.value)
    {
      if t != presented {
        assert Forward(s, t, s.tokens[t].replacedBy.value);
      }
    }
  }

  /** `s'` has the tokens of `s`, some of them newly revoked. */
  predicate MoreRevoked(s: State, s': State) {
    && s' == s.(tokens := s'.tokens) && s'.tokens.Keys == s.tokens.Keys
    && forall t :: t in s.tokens ==>
         s'.tokens[t] == s.tokens[t] ||
         (s'.tokens[t].revokedAt.Some? && s'.tokens[t] == s.tokens[t].(revokedAt := s'.tokens[t].revokedAt))
  }

  lemma SweptIsMoreRevoked(s: State, step: Step, now: int)
    ensures MoreRevoked(s, Swept(s, step, now))
  {
    hide Revokes;
  }

  lemma MoreRevokedHasOneLive(s: State, s': State)
    requires OneLive(s) && MoreRevoked(s, s')
    ensures OneLive(s')
  {
  }

  lemma MoreRevokedSupersedes(s: State, s': State)
    requires Superseded(s) && MoreRevoked(s, s')
    ensures Superseded(s')
  {
  }

  lemma MoreRevokedIsChained(s: State, s': State)
    requires Chained(s) && MoreRevoked(s, s')
    ensures Chained(s')
  {
    forall t | t in s'.tokens && s'.tokens[t].replacedBy.Some?
      ensures Forward(s', t, s'.tokens[t].replacedBy.value)
    {
      assert Forward(s, t, s.tokens[t].replacedBy.value);
    }
  }

  lemma MoreRevokedIsLinear(s: State, s': State)
    requires Linear(s) && MoreRevoked(s, s')
    ensures Linear(s')
  {
    hide OneLive, Superseded, Chained;
    MoreRevokedHasOneLive(s, s');
    MoreRevokedSupersedes(s, s');
    MoreRevokedIsChained(s, s');
  }

  lemma PurgedIsLinear(s: State, gone: set<string>)
    requires Linear(s)
    ensures Linear(s.(tokens := s.tokens - gone))
  {
  }

  lemma StepKeepsLinear(s: State, e: Event, ttl: int)
    requires Linear(s) && Fresh(s, e.step)
    ensures Linear(Next(s, e.step, e.now, ttl))
  {
    hide Recorded, OneLive, Superseded, Chained, Opened, Replaced, Swept, MoreRevoked;
    match e.step
    case Login(user, org, token, family) => OpenedIsLinear(s, user, org, token, family, e.now + ttl);
    case Refresh(presented, next, member) =>
      if Answer(s, presented, member, e.now) == Rotated {
        ReplacedHasOneLive(s, presented, next, e.now, e.now + ttl);
        ReplacedSupersedes(s, presented, next, e.now, e.now + ttl);
        ReplacedIsChained(s, presented, next, e.now, e.now + ttl);
      } else {
        SweptIsMoreRevoked(s, e.step, e.now);
        MoreRevokedIsLinear(s, Swept(s, e.step, e.now));
      }
    case Purge(gone) => PurgedIsLinear(s, gone);
    case _ =>
      SweptIsMoreRevoked(s, e.step, e.now);
      MoreRevokedIsLinear(s, Swept(s, e.step, e.now));
  }

  lemma EmptyIsLinear()
    ensures Linear(Empty)
  {
  }

  /** In every reachable state refresh families are linear. */
  lemma {:induction false} FamiliesAreLinear(run: seq<Event>, ttl: int)
    requires FreshRun(Empty, run, ttl)
    ensures Linear(After(Empty, run, ttl))
  {
    hide Next, Fresh, Linear;
    if run == [] {
      EmptyIsLinear();
    } else {
      var before, last := run[..|run| - 1], run[|run| - 1];
      FamiliesAreLinear(before, ttl);
      StepKeepsLinear(After(Empty, before, ttl), last, ttl);
    }
  }

  // ---------------------------------------------------------------- where tokens come from

  /** A token joins a family only when a refresh presents a token of that family that is unrevoked and not
      expired, by an active member; it belongs to the same user and organization and lives one lifetime. */
  lemma FamiliesGrowByUse(s: State, e: Event, ttl: int, token: string)
    requires Fresh(s, e.step) && token !in s.tokens
    requires var next := Next(s, e.step, e.now, ttl); token in next.tokens && next.tokens[token].family in s.families
    ensures e.step.Refresh? && e.step.next == token && e.step.member && e.step.presented in s.tokens
    ensures var used, made := s.tokens[e.step.presented], Next(s, e.step, e.now, ttl).tokens[token];
      && used.revokedAt == None && e.now < used.expiresAt
      && made.user == used.user && made.org == used.org && made.family == used.family
      && made.revokedAt == None && made.replacedBy == None && made.expiresAt == e.now + ttl
  {
  }

  /** So in every reachable state: no token of a known family appears in any other way. */
  lemma ReachableFamiliesGrowByUse(run: seq<Event>, e: Event, ttl: int, token: string)
    requires FreshRun(Empty, run, ttl) && Fresh(After(Empty, run, ttl), e.step)
    requires var s := After(Empty, run, ttl); var next := Next(s, e.step, e.now, ttl);
      token !in s.tokens && token in next.tokens && next.tokens[token].family in s.families
    ensures var s := After(Empty, run, ttl);
      && e.step.Refresh? && e.step.next == token && e.step.presented in s.tokens
      && Usable(s.tokens[e.step.presented], e.now)
  {
    FamiliesGrowByUse(After(Empty, run, ttl), e, ttl, token);
  }

  /** Administrative revocations reach exactly the tokens of the user, the membership or the organization, and
      keep earlier revocation times. */
  lemma RevocationsReach(s: State, user: string, org: string, now: int, ttl: int, t: string)
    requires t in s.tokens
    ensures var revoked := if s.tokens[t].revokedAt == None then s.tokens[t].(revokedAt := Some(now)) else s.tokens[t];
      && Next(s, RevokeUser(user), now, ttl).tokens[t] == (if s.tokens[t].user == user then revoked else s.tokens[t])
      && Next(s, RevokeMember(user, org), now, ttl).tokens[t] ==
         (if s.tokens[t].user == user && s.tokens[t].org == org then revoked else s.tokens[t])
      && Next(s, RevokeOrganization(org), now, ttl).tokens[t] ==
         (if s.tokens[t].org == org then revoked else s.tokens[t])
  {
  }

  // ---------------------------------------------------------------- reuse

  /** The family was issued and holds no token that could be exchanged. */
  predicate Dead(s: State, family: string) {
    && family in s.families
    && forall t :: t in s.tokens && s.tokens[t].family == family ==> s.tokens[t].revokedAt.Some?
  }

  lemma StepKeepsDead(s: State, e: Event, ttl: int, family: string)
    requires Dead(s, family) && Fresh(s, e.step)
    ensures Dead(Next(s, e.step, e.now, ttl), family)
  {
  }

  /** Presenting a revoked token kills its family. */
  lemma ReuseKills(s: State, presented: string, next: string, member: bool, now: int, ttl: int)
    requires Recorded(s) && presented in s.tokens && s.tokens[presented].revokedAt.Some?
    ensures Answer(s, presented, member, now) == Reused
    ensures Dead(Next(s, Refresh(presented, next, member), now, ttl), s.tokens[presented].family)
  {
  }

  /** Once a revoked token was presented, no later step makes any token of its family usable. */
  lemma {:induction false} ReuseIsFinal(s: State, presented: string, next: string, member: bool, now: int,
                                        run: seq<Event>, ttl: int, token: string, later: int)
    requires Recorded(s) && presented in s.tokens && s.tokens[presented].revokedAt.Some?
    requires FreshRun(Next(s, Refresh(presented, next, member), now, ttl), run, ttl)
    ensures var end := After(Next(s, Refresh(presented, next, member), now, ttl), run, ttl);
      token in end.tokens && end.tokens[token].family == s.tokens[presented].family ==>
        !Usable(end.tokens[token], later)
  {
    ReuseKills(s, presented, next, member, now, ttl);
    DeadStaysDead(Next(s, Refresh(presented, next, member), now, ttl), run, ttl, s.tokens[presented].family);
  }

  lemma {:induction false} DeadStaysDead(s: State, run: seq<Event>, ttl: int, family: string)
    requires Dead(s, family) && FreshRun(s, run, ttl)
    ensures Dead(After(s, run, ttl), family)
  {
    hide Next, Fresh, Dead;
    if run != [] {
      DeadStaysDead(s, run[..|run| - 1], ttl, family);
      StepKeepsDead(After(s, run[..|run| - 1], ttl), run[|run| - 1], ttl, family);
    }
  }
}
