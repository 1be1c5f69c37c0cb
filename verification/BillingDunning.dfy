/**
 The retry schedule at work: refusals that leave another attempt in time are followed by that attempt, under
 the next key, until the schedule is used up.
 */
module BillingDunning {
  import opened Options
  import opened Plans
  import opened BillingModel
  import opened BillingLedger
  import opened BillingInvariants
  import opened BillingRows

  /** A renewal of the period ending at `end`, refused again and again: `ids[a]` is the payment of attempt
      a + 1, `reasons[a]` why it was refused, `times[a]` when it was claimed and answered. */
  datatype Story = Story(org: string, end: Time, ids: seq<string>, reasons: seq<Option<string>>, times: seq<Time>)

  function Refusal(y: Story, a: nat): ProviderPayment
    requires a < |y.ids| && a < |y.reasons|
  {
    ProviderPayment(y.ids[a], Canceled, false, None, y.reasons[a])
  }

  /** The first `n` attempts: each is claimed and its refusal committed. */
  function Attempted(y: Story, n: nat): seq<Event>
    requires n <= |y.ids| && n <= |y.reasons| && n <= |y.times|
  {
    if n == 0 then []
    else
      Attempted(y, n - 1)
      + [Event(ClaimRenewal(y.org), y.times[n - 1])]
      + [Event(CommitRenewal(RenewalItem(y.org, y.end, n - 1), Refusal(y, n - 1)), y.times[n - 1])]
  }

  /** Every refusal but the last claim leaves the next attempt in time, and that attempt is not claimed before
      it is due. */
  ghost predicate Timely(y: Story, config: Config) {
    && |y.reasons| == |y.ids| <= |config.retryScheduleHours| && |y.times| == |y.ids| + 1
    && forall a :: 0 <= a < |y.ids| ==>
         && y.reasons[a] != Some("permission_revoked")
         && y.times[a] + config.retryScheduleHours[a] * HOUR <= y.times[a + 1]
         && y.times[a] + config.retryScheduleHours[a] * HOUR < y.end + config.gracePeriodDays * DAY
  }

  predicate LaterKey(key: IdempotencyKey, y: Story, from: nat) {
    key.RenewalKey? && key.org == y.org && key.periodEnd == y.end && key.attempt > from
  }

  /** The payments are new to the tables, and so are their keys. */
  ghost predicate Unknown(db: Db, y: Story, from: nat) {
    && (forall a, b :: 0 <= a < b < |y.ids| ==> y.ids[a] != y.ids[b])
    && (forall a :: from <= a < |y.ids| ==> y.ids[a] !in db.payments)
    && forall id :: id in db.payments ==> !LaterKey(db.payments[id].key, y, from)
  }

  /** The row after `a` refusals: it can be claimed at `times[a]`. */
  ghost predicate Due(db: Db, y: Story, a: nat, config: Config) {
    && a < |y.times| && y.org in db.subscriptions
    && var s := db.subscriptions[y.org];
    && WellFormed(s, config) && s.periodEnd == Some(y.end) && s.retryCount == a
    && (s.status == Active || s.status == PastDue)
    && s.autoRenew && s.paymentMethod.Some? && s.nextBilling.Some? && s.nextBilling.value <= y.times[a]
  }

  lemma AfterStep(db: Db, run: seq<Event>, e: Event, config: Config)
    ensures After(db, run + [e], config) == Next(After(db, run, config), e.step, e.now, config)
  {
    assert (run + [e])[..|run|] == run;
  }

  lemma KeysStep(db: Db, run: seq<Event>, e: Event, config: Config, org: string)
    ensures var key := ClaimedKey(After(db, run, config), e, org);
      ClaimedKeys(db, run + [e], config, org) ==
      ClaimedKeys(db, run, config, org) + if key.Some? then {key.value} else {}
  {
    assert (run + [e])[..|run|] == run;
  }

  /** A claim of the due row takes the next key and leaves it open for the refusal. */
  lemma ClaimStep(db: Db, y: Story, a: nat, config: Config)
    requires Due(db, y, a, config)
    ensures var e := Event(ClaimRenewal(y.org), y.times[a]); var next := Next(db, e.step, e.now, config);
      && ClaimedKey(db, e, y.org) == Some(RenewalKey(y.org, y.end, a + 1))
      && next.payments == db.payments && y.org in next.subscriptions
      && next.subscriptions[y.org] == db.subscriptions[y.org].(nextBilling := Some(y.times[a] + 15 * MINUTE))
  {
    ClaimRow(db, y.org, y.times[a], config);
  }

  lemma RefusalStep(db: Db, y: Story, a: nat, config: Config)
    requires Timely(y, config) && a < |y.ids| && Unknown(db, y, a)
    requires y.org in db.subscriptions
    requires var s := db.subscriptions[y.org];
      && WellFormed(s, config) && s.periodEnd == Some(y.end) && s.retryCount == a
      && (s.status == Active || s.status == PastDue) && s.autoRenew && s.paymentMethod.Some?
    ensures var step := CommitRenewal(RenewalItem(y.org, y.end, a), Refusal(y, a));
      var next := Next(db, step, y.times[a], config);
      Due(next, y, a + 1, config) && Unknown(next, y, a + 1)
  {
    hide Next, WellFormed;
    var item, p := RenewalItem(y.org, y.end, a), Refusal(y, a);
    var s := db.subscriptions[y.org];
    assert LaterKey(RenewalKey(y.org, y.end, a + 1), y, a);
    assert Delivers(db, CommitRenewal(item, p), p, y.org, Renewal, a + 1);
    RefusalRow(db, CommitRenewal(item, p), p, y.org, a + 1, y.times[a], config);
    RenewalRow(db, item, p, y.times[a], config);
    CommitKeepsOthers(db, item, p, y.times[a], config);
    hide Delivers;
    GraceOfRow(s, config);
    assert InTime(s, a + 1, p.reason, y.times[a], config);
    var next := Next(db, CommitRenewal(item, p), y.times[a], config);
    PastDueIsWellFormed(s, next.subscriptions[y.org], config);
    forall id | id in next.payments
      ensures !LaterKey(next.payments[id].key, y, a + 1)
    {
      assert id != p.id ==> !LaterKey(db.payments[id].key, y, a);
    }
  }

  lemma GraceOfRow(s: Subscription, config: Config)
    requires WellFormed(s, config)
    ensures s.periodEnd.Some? && GraceEnd(s, config) == s.periodEnd.value + config.gracePeriodDays * DAY
  {
  }

  lemma PastDueIsWellFormed(s: Subscription, t: Subscription, config: Config)
    requires WellFormed(s, config) && t.status == PastDue && t.periodEnd == s.periodEnd
    requires t.graceEnd == Some(GraceEnd(s, config))
    ensures WellFormed(t, config)
  {
  }

  lemma CommitKeepsOthers(db: Db, item: RenewalItem, p: ProviderPayment, now: Time, config: Config)
    ensures var next := Next(db, CommitRenewal(item, p), now, config);
      forall id :: id in next.payments && id != p.id ==> id in db.payments && next.payments[id] == db.payments[id]
  {
    hide AppliedPayment, KeyTaken;
    var d := InsertedRenewal(db, item, p, config);
    if d.Some? {
      LifecycleKeepsOthers(d.value, LocalPayment(item.org, Renewal, item.retryCount + 1), p, now, config);
    }
  }

  lemma LifecycleKeepsOthers(db: Db, local: LocalPayment, p: ProviderPayment, now: Time, config: Config)
    ensures var next := AppliedPayment(db, local, p, now, config);
      forall id :: id in next.payments && id != p.id ==> id in db.payments && next.payments[id] == db.payments[id]
  {
    hide Failed, Extended;
  }

  /** The keys of attempts 1 to n. */
  function FirstKeys(org: string, end: Time, n: nat): set<IdempotencyKey> {
    set a | 1 <= a <= n :: RenewalKey(org, end, a)
  }

  lemma {:induction false} Followed(db: Db, y: Story, n: nat, config: Config)
    requires Timely(y, config) && n <= |y.ids| && Due(db, y, 0, config) && Unknown(db, y, 0)
    ensures var after := After(db, Attempted(y, n), config);
      && Due(after, y, n, config) && Unknown(after, y, n)
      && ClaimedKeys(db, Attempted(y, n), config, y.org) == FirstKeys(y.org, y.end, n)
    decreases n
  {
    hide Next, Due, Unknown, ClaimedKey, FirstKeys;
    NoKeys(y.org, y.end);
    if n > 0 {
      Followed(db, y, n - 1, config);
      OneMoreAttempt(db, y, n - 1, config);
    }
  }

  lemma NoKeys(org: string, end: Time)
    ensures FirstKeys(org, end, 0) == {}
  {
  }

  lemma OneMoreKey(org: string, end: Time, n: nat)
    ensures FirstKeys(org, end, n + 1) == FirstKeys(org, end, n) + {RenewalKey(org, end, n + 1)}
  {
  }

  lemma OneMoreAttempt(db: Db, y: Story, a: nat, config: Config)
    requires Timely(y, config) && a < |y.ids|
    requires var mid := After(db, Attempted(y, a), config); Due(mid, y, a, config) && Unknown(mid, y, a)
    requires ClaimedKeys(db, Attempted(y, a), config, y.org) == FirstKeys(y.org, y.end, a)
    ensures var after := After(db, Attempted(y, a + 1), config);
      && Due(after, y, a + 1, config) && Unknown(after, y, a + 1)
      && ClaimedKeys(db, Attempted(y, a + 1), config, y.org) == FirstKeys(y.org, y.end, a + 1)
  {
    hide Next, Due, Unknown, ClaimedKey, FirstKeys, After, ClaimedKeys;
    var before := Attempted(y, a);
    var claim := Event(ClaimRenewal(y.org), y.times[a]);
    var commit := Event(CommitRenewal(RenewalItem(y.org, y.end, a), Refusal(y, a)), y.times[a]);
    AfterStep(db, before, claim, config);
    AfterStep(db, before + [claim], commit, config);
    KeysStep(db, before, claim, config, y.org);
    KeysStep(db, before + [claim], commit, config, y.org);
    ClaimStep(After(db, before, config), y, a, config);
    Claimed(After(db, before, config), After(db, before + [claim], config), y, a, config);
    RefusalStep(After(db, before + [claim], config), y, a, config);
    NoClaim(After(db, before + [claim], config), commit, y.org);
    OneMoreKey(y.org, y.end, a);
  }

  lemma NoClaim(db: Db, e: Event, org: string)
    requires !e.step.ClaimRenewal?
    ensures ClaimedKey(db, e, org) == None
  {
  }

  lemma Claimed(db: Db, next: Db, y: Story, a: nat, config: Config)
    requires Due(db, y, a, config) && Unknown(db, y, a)
    requires next.payments == db.payments && y.org in next.subscriptions
    requires next.subscriptions[y.org] == db.subscriptions[y.org].(nextBilling := Some(y.times[a] + 15 * MINUTE))
    ensures Unknown(next, y, a)
    ensures var s := next.subscriptions[y.org];
      && WellFormed(s, config) && s.periodEnd == Some(y.end) && s.retryCount == a
      && (s.status == Active || s.status == PastDue) && s.autoRenew && s.paymentMethod.Some?
  {
  }

  /** Of an ACTIVE subscription that is due, n refusals that leave another attempt in time are followed by n + 1
      claims, under the keys 1 to n + 1, for every n up to the length of the schedule. */
  lemma ScheduleIsUsed(db: Db, y: Story, config: Config)
    requires Timely(y, config) && Due(db, y, 0, config) && Unknown(db, y, 0)
    ensures var run := Attempted(y, |y.ids|) + [Event(ClaimRenewal(y.org), y.times[|y.ids|])];
      ClaimedKeys(db, run, config, y.org) == FirstKeys(y.org, y.end, |y.ids| + 1)
  {
    hide Next, Due, Unknown, ClaimedKey, FirstKeys, After, ClaimedKeys;
    var n := |y.ids|;
    Followed(db, y, n, config);
    KeysStep(db, Attempted(y, n), Event(ClaimRenewal(y.org), y.times[n]), config, y.org);
    ClaimStep(After(db, Attempted(y, n), config), y, n, config);
    OneMoreKey(y.org, y.end, n);
  }
}
