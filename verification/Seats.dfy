/**
 Seats of an organization: members and live invitations share the member quota of its plan.
 */
module Seats {
  import opened Plans

  datatype Invitation = Invitation(token: string, expiresAt: Time, accepted: bool, revoked: bool)

  /** One organization. Accounts are identified by their email address. */
  datatype Organization = Organization(owner: string, members: set<string>, invitations: map<string, Invitation>)

  datatype Step =
    | Invite(email: string, token: string, plan: Plan)
    | Accept(email: string, token: string)
    | Revoke(email: string)
    | Remove(email: string)

  const INVITATION_LIFETIME: Time := 7 * DAY

  predicate LiveInvitation(i: Invitation, now: Time) {
    !i.accepted && !i.revoked && now < i.expiresAt
  }

  function LiveEmails(o: Organization, now: Time): set<string> {
    set e | e in o.invitations && LiveInvitation(o.invitations[e], now)
  }

  /** The quota's count: memberships plus live invitations. */
  function Taken(o: Organization, now: Time): nat {
    |o.members| + |LiveEmails(o, now)|
  }

  /** An invitation is refused to members, and for want of a seat unless one is already live. */
  predicate MayInvite(o: Organization, email: string, plan: Plan, now: Time) {
    email !in o.members && (email in LiveEmails(o, now) || Taken(o, now) < Catalog(plan).maxMembers)
  }

  function Next(o: Organization, step: Step, now: Time): Organization {
    match step
    case Invite(email, token, plan) =>
      if MayInvite(o, email, plan, now) then
        o.(invitations := o.invitations[email := Invitation(token, now + INVITATION_LIFETIME, false, false)])
      else o
    case Accept(email, token) =>
      if email in LiveEmails(o, now) && o.invitations[email].token == token then
        o.(members := o.members + {email},
           invitations := o.invitations[email := o.invitations[email].(accepted := true)])
      else o
    case Revoke(email) =>
      if email in o.invitations && !o.invitations[email].accepted then
        o.(invitations := o.invitations[email := o.invitations[email].(revoked := true)])
      else o
    case Remove(email) =>
      if email != o.owner then o.(members := o.members - {email}) else o
  }

  // ---------------------------------------------------------------- the handlers

  class Workspace {
    const owner: string
    var members: set<string>
    var invitations: map<string, Invitation>

    ghost function View(): Organization
      reads this
    {
      Organization(owner, members, invitations)
    }

    constructor (owner: string)
      ensures View() == New(owner)
    {
      this.owner := owner;
      members, invitations := {owner}, map[];
    }

    /** `enforceMemberQuota` */
    method SeatFree(plan: Plan, now: Time) returns (free: bool)
      ensures free <==> Taken(View(), now) < Catalog(plan).maxMembers
      ensures var live := set e | e in invitations && !invitations[e].accepted && !invitations[e].revoked
                                  && now < invitations[e].expiresAt;
        free <==> |members| + |live| < if plan == Pro then 10 else 1
    {
      var live := set e | e in invitations && LiveInvitation(invitations[e], now);
      assert live == LiveEmails(View(), now);
      assert live == set e | e in invitations && !invitations[e].accepted && !invitations[e].revoked
                              && now < invitations[e].expiresAt;
      free := |members| + |live| < Catalog(plan).maxMembers;
    }

    method InviteMember(email: string, token: string, plan: Plan, now: Time) returns (ok: bool)
      modifies this`invitations
      ensures View() == Next(old(View()), Invite(email, token, plan), now)
      ensures ok <==> MayInvite(old(View()), email, plan, now)
      ensures var live := set e | e in old(invitations) && !old(invitations)[e].accepted
                                  && !old(invitations)[e].revoked && now < old(invitations)[e].expiresAt;
        ok <==> email !in members && (email in live || |members| + |live| < if plan == Pro then 10 else 1)
      ensures invitations ==
        if ok then old(invitations)[email := Invitation(token, now + 7 * 24 * 60 * 60_000, false, false)]
        else old(invitations)
    {
      assert LiveEmails(View(), now) == set e | e in invitations && !invitations[e].accepted
                                                && !invitations[e].revoked && now < invitations[e].expiresAt;
      if email in members {
        return false;
      }
      if email !in invitations || !LiveInvitation(invitations[email], now) {
        var free := SeatFree(plan, now);
        if !free {
          return false;
        }
      }
      invitations := invitations[email := Invitation(token, now + INVITATION_LIFETIME, false, false)];
      ok := true;
    }

    method AcceptInvitation(email: string, token: string, now: Time) returns (ok: bool)
      modifies this`members, this`invitations
      ensures View() == Next(old(View()), Accept(email, token), now)
      ensures ok <==> email in LiveEmails(old(View()), now) && old(invitations)[email].token == token
      ensures ok <==>
        && email in old(invitations) && old(invitations)[email].token == token
        && !old(invitations)[email].accepted && !old(invitations)[email].revoked
        && now < old(invitations)[email].expiresAt
      ensures members == (if ok then old(members) + {email} else old(members))
      ensures invitations ==
        if ok then old(invitations)[email := old(invitations)[email].(accepted := true)] else old(invitations)
    {
      ok := email in invitations && invitations[email].token == token && LiveInvitation(invitations[email], now);
      if ok {
        members := members + {email};
        invitations := invitations[email := invitations[email].(accepted := true)];
      }
    }
  }

  // ---------------------------------------------------------------- theorems

  function New(owner: string): Organization {
    Organization(owner, {owner}, map[])
  }

  /** Seats only become free with time. */
  lemma SeatsExpire(o: Organization, now: Time, later: Time)
    requires now <= later
    ensures Taken(o, later) <= Taken(o, now)
  {
    var kept, had := LiveEmails(o, later), LiveEmails(o, now);
    assert had == kept + (had - kept);
  }

  lemma InviteTakesOneSeat(o: Organization, email: string, token: string, plan: Plan, now: Time)
    requires MayInvite(o, email, plan, now)
    ensures Taken(Next(o, Invite(email, token, plan), now), now) ==
            Taken(o, now) + if email in LiveEmails(o, now) then 0 else 1
  {
    var live := LiveEmails(o, now);
    assert LiveEmails(Next(o, Invite(email, token, plan), now), now) == live + {email};
    if email in live {
      assert live + {email} == live;
    }
  }

  /** Accepting an invitation never raises the number of seats taken. */
  lemma AcceptTakesNoSeat(o: Organization, email: string, token: string, now: Time)
    ensures Taken(Next(o, Accept(email, token), now), now) <= Taken(o, now)
  {
    if email in LiveEmails(o, now) && o.invitations[email].token == token {
      assert LiveEmails(Next(o, Accept(email, token), now), now) == LiveEmails(o, now) - {email};
    }
  }

  lemma LeavingFreesSeats(o: Organization, step: Step, now: Time)
    requires step.Revoke? || step.Remove?
    ensures Taken(Next(o, step, now), now) <= Taken(o, now)
  {
    var o' := Next(o, step, now);
    assert LiveEmails(o', now) <= LiveEmails(o, now) && o'.members <= o.members;
    assert LiveEmails(o, now) == LiveEmails(o', now) + (LiveEmails(o, now) - LiveEmails(o', now));
    assert o.members == o'.members + (o.members - o'.members);
  }

  /** Revoking ends an invitation that was not accepted, removal a membership other than the owner's. */
  lemma LeavingRows(o: Organization, email: string, now: Time)
    ensures var revoked, removed := Next(o, Revoke(email), now), Next(o, Remove(email), now);
      && revoked.members == o.members && removed.invitations == o.invitations
      && revoked.invitations == (if email in o.invitations && !o.invitations[email].accepted
                                 then o.invitations[email := o.invitations[email].(revoked := true)] else o.invitations)
      && removed.members == if email == o.owner then o.members else o.members - {email}
  {
  }

  /** A step that raises the number of seats taken is an invitation, and leaves it within the quota of
      the plan at hand. */
  lemma RaisesOnlyWithinQuota(o: Organization, step: Step, now: Time)
    ensures Taken(Next(o, step, now), now) > Taken(o, now) ==>
      step.Invite? && Taken(Next(o, step, now), now) <= Catalog(step.plan).maxMembers
  {
    hide Taken;
    match step
    case Invite(email, token, plan) =>
      if MayInvite(o, email, plan, now) {
        InviteTakesOneSeat(o, email, token, plan, now);
      }
    case Accept(email, token) => AcceptTakesNoSeat(o, email, token, now);
    case _ => LeavingFreesSeats(o, step, now);
  }

  datatype Event = Event(step: Step, now: Time)

  function After(o: Organization, run: seq<Event>): Organization {
    if run == [] then o else Next(After(o, run[..|run| - 1]), run[|run| - 1].step, run[|run| - 1].now)
  }

  predicate Ordered(run: seq<Event>) {
    forall i, j :: 0 <= i < j < |run| ==> run[i].now <= run[j].now
  }

  /** Seats are conserved: whatever is invited, accepted, revoked and removed, and however the plan
      changes in between, an organization never holds more seats than the largest plan allows. */
  lemma {:induction false} SeatsAreBounded(owner: string, run: seq<Event>, now: Time)
    requires Ordered(run) && (run != [] ==> run[|run| - 1].now <= now)
    ensures Taken(After(New(owner), run), now) <= Catalog(Pro).maxMembers == 10
  {
    if run != [] {
      var before, last := run[..|run| - 1], run[|run| - 1];
      assert before != [] ==> before[|before| - 1].now <= last.now;
      SeatsAreBounded(owner, before, last.now);
      RaisesOnlyWithinQuota(After(New(owner), before), last.step, last.now);
      SeatsExpire(After(New(owner), run), last.now, now);
    } else {
      assert LiveEmails(New(owner), now) == {};
    }
  }
}
