/**
 When a subscription is charged before the period it has paid for is over: only after a renewal was
 abandoned, or a failure was recorded, within that period.
 */
module BillingCharges {
  import opened Options
  import opened Plans
  import opened BillingModel
  import opened BillingLedger
  import opened BillingInvariants

  /** The next attempt is due before the paid period ends. */
  predicate Early(s: Subscription) {
    s.periodEnd.Some? && s.nextBilling.Some? && s.nextBilling.value < s.periodEnd.value
  }

  predicate EarlyRow(db: Db, org: string) {
    org in db.subscriptions && Early(db.subscriptions[org])
  }

  predicate Concerns(effect: Option<Effect>, org: string) {
    effect.Some? && effect.value.org == org
  }

  /** A failure at `now` leaves a retry that falls both into the paid period and into the grace period: the
      card was not revoked, the schedule has another attempt, and its delay is short enough. */
  predicate RetryWithinPeriod(s: Subscription, attempt: nat, reason: Option<string>, now: Time, config: Config) {
    && s.periodEnd.Some? && reason != Some("permission_revoked")
    && 1 <= attempt <= |config.retryScheduleHours|
    && var retry := now + config.retryScheduleHours[attempt - 1] * HOUR;
       retry < s.periodEnd.value && retry < GraceDeadline(s, now, config)
  }

  lemma EarlyAfterFailure(s: Subscription, attempt: nat, reason: Option<string>, now: Time, config: Config)
    ensures Early(Failed(s, attempt, reason, now, config)) <==> RetryWithinPeriod(s, attempt, reason, now, config)
  {
  }

  /** The step records a failure for `org` whose retry falls into the paid period. */
  predicate FailureHastens(db: Db, e: Event, config: Config, org: string)
    requires org in db.subscriptions
  {
    var call := PaymentCall(db, e.step, config);
    && Concerns(Failure(db, e.step, config), org)
    && RetryWithinPeriod(db.subscriptions[org], call.value.local.attempt, call.value.p.reason, e.now, config)
  }

  predicate AbandonHastens(db: Db, e: Event, org: string)
    requires org in db.subscriptions
  {
    && e.step == AbandonRenewal(org) && db.subscriptions[org].periodEnd.Some?
    && e.now + HOUR < db.subscriptions[org].periodEnd.value
  }

  /** The step moves the next attempt of `org` into the period it has already paid for. */
  predicate Hastens(db: Db, e: Event, config: Config, org: string) {
    org in db.subscriptions && (FailureHastens(db, e, config, org) || AbandonHastens(db, e, org))
  }

  /** The step applies a refund that repays the last payment of `org` in full. */
  predicate RefundEnds(db: Db, step: Step, org: string)
    requires org in db.subscriptions
  {
    var call := RefundCall(db, step);
    && call.Some? && call.value.1.status == RefundSucceeded
    && db.subscriptions[org].lastPayment == Some(call.value.1.payment)
    && (exists k :: k in call.value.0.refunds && Unapplied(call.value.0.refunds[k], call.value.1))
    && exists k :: k in call.value.0.refunds && call.value.0.refunds[k].providerId == Some(call.value.1.id)
                   && IsFull(call.value.0, call.value.0.refunds[k])
  }

  /** The step sets the next attempt of `org` anew, or removes it. */
  predicate Restores(db: Db, e: Event, config: Config, org: string)
    requires org in db.subscriptions
  {
    var s := db.subscriptions[org];
    || Concerns(Extension(db, e.step, config), org)
    || Concerns(Failure(db, e.step, config), org)
    || e.step == AbandonRenewal(org) || e.step == CancelRenewals(org) || e.step == CloseWorkspace(org)
    || (e.step == ResumeRenewals(org) && s.paymentMethod.Some? && s.periodEnd.Some? && s.periodEnd.value > e.now)
    || (e.step == ClaimRenewal(org) && Claimable(s, e.now) && e.now + 15 * MINUTE >= s.periodEnd.value)
    || (e.step == ExpireGracePeriods && s.status == PastDue && s.graceEnd.Some? && s.graceEnd.value <= e.now)
    || RefundEnds(db, e.step, org)
  }

  /** The next attempt of `org` has been moved into its paid period and not been moved out again. */
  predicate Hastened(run: seq<Event>, config: Config, org: string) {
    run != [] &&
    var db, e := After(Empty, run[..|run| - 1], config), run[|run| - 1];
    org in db.subscriptions &&
    (Hastens(db, e, config, org) || (Hastened(run[..|run| - 1], config, org) && !Restores(db, e, config, org)))
  }

  // ---------------------------------------------------------------- one step

  predicate NowEarly(db: Db, e: Event, config: Config, org: string) {
    org in db.subscriptions && (Hastens(db, e, config, org) || (EarlyRow(db, org) && !Restores(db, e, config, org)))
  }

  lemma LifecycleEarly(db: Db, local: LocalPayment, p: ProviderPayment, now: Time, config: Config, org: string)
    ensures var next := AppliedPayment(db, local, p, now, config);
      EarlyRow(next, org) <==>
        && org in db.subscriptions
        && !(WillExtend(db, p) && local.org == org)
        && if WillFail(db, local, p) && local.org == org
           then RetryWithinPeriod(db.subscriptions[org], local.attempt, p.reason, now, config)
           else EarlyRow(db, org)
  {
    hide RetryWithinPeriod;
    if org in db.subscriptions {
      EarlyAfterFailure(db.subscriptions[org], local.attempt, p.reason, now, config);
    }
  }

  lemma PaymentEarly(db: Db, e: Event, config: Config, org: string)
    requires IsPaymentStep(e.step)
    ensures EarlyRow(Next(db, e.step, e.now, config), org) <==> NowEarly(db, e, config, org)
  {
    hide AppliedPayment, Failed;
    var call := PaymentCall(db, e.step, config);
    if call.Some? {
      CallSetsNothing(db, e.step, config, "");
      LifecycleEarly(call.value.db, call.value.local, call.value.p, e.now, config, org);
    }
  }

  lemma RefundEarly(db: Db, e: Event, config: Config, org: string)
    requires IsRefundStep(e.step)
    ensures EarlyRow(Next(db, e.step, e.now, config), org) <==> NowEarly(db, e, config, org)
  {
    hide RefundCall, Failed;
    var call := RefundCall(db, e.step);
    if call.Some? {
      RefundCallKeepsRows(db, e.step);
    }
  }

  lemma RefundCallKeepsRows(db: Db, step: Step)
    requires RefundCall(db, step).Some?
    ensures RefundCall(db, step).value.0.subscriptions == db.subscriptions
  {
  }

  lemma HousekeepingEarly(db: Db, e: Event, config: Config, org: string)
    requires !IsPaymentStep(e.step) && !IsRefundStep(e.step)
    ensures EarlyRow(Next(db, e.step, e.now, config), org) <==> NowEarly(db, e, config, org)
  {
  }

  /** After any step the next attempt is early exactly when the step made it so, or it was and the step
      left it alone. */
  lemma StepEarly(db: Db, e: Event, config: Config, org: string)
    ensures EarlyRow(Next(db, e.step, e.now, config), org) <==> NowEarly(db, e, config, org)
  {
    hide Next, NowEarly;
    if IsPaymentStep(e.step) {
      PaymentEarly(db, e, config, org);
    } else if IsRefundStep(e.step) {
      RefundEarly(db, e, config, org);
    } else {
      HousekeepingEarly(db, e, config, org);
    }
  }

  // ---------------------------------------------------------------- whole runs

  lemma {:induction false} EarlyIffHastened(run: seq<Event>, config: Config, org: string)
    ensures EarlyRow(After(Empty, run, config), org) <==> Hastened(run, config, org)
  {
    hide Next, Hastens, Restores;
    if run != [] {
      EarlyIffHastened(run[..|run| - 1], config, org);
      StepEarly(After(Empty, run[..|run| - 1], config), run[|run| - 1], config, org);
    }
  }

  /** The row renews itself. */
  predicate Renewing(s: Subscription) {
    s.autoRenew && s.paymentMethod.Some? && (s.status == Active || s.status == PastDue)
  }

  ghost predicate ChargeableWithinPeriod(s: Subscription) {
    exists t :: Claimable(s, t) && s.periodEnd.Some? && t < s.periodEnd.value
  }

  /** In every reachable state a subscription can be charged before its paid period ends exactly when it
      renews itself and its next attempt was moved into that period. */
  lemma ChargedEarlyExactlyWhen(run: seq<Event>, config: Config, org: string)
    requires org in After(Empty, run, config).subscriptions
    ensures var s := After(Empty, run, config).subscriptions[org];
      ChargeableWithinPeriod(s) <==> Renewing(s) && Hastened(run, config, org)
  {
    hide Next, Hastened;
    EarlyIffHastened(run, config, org);
    var s := After(Empty, run, config).subscriptions[org];
    if Renewing(s) && Early(s) {
      assert Claimable(s, s.nextBilling.value);
    }
  }

  /** Otherwise no claim comes before the end. */
  lemma NoEarlyCharge(run: seq<Event>, config: Config, org: string, t: Time)
    requires org in After(Empty, run, config).subscriptions && !Hastened(run, config, org)
    requires Claimable(After(Empty, run, config).subscriptions[org], t)
    ensures After(Empty, run, config).subscriptions[org].periodEnd.value <= t
  {
    hide Next, Hastened;
    EarlyIffHastened(run, config, org);
  }

  /** Step `i` of the run moved the next attempt of `org` into its paid period, and no period was granted
      since. */
  predicate HastenedAt(run: seq<Event>, config: Config, org: string, i: nat) {
    && i < |run| && Hastens(After(Empty, run[..i], config), run[i], config, org)
    && forall j :: i < j < |run| ==> !Concerns(Extension(After(Empty, run[..j], config), run[j].step, config), org)
  }

  lemma {:induction false} HastenedSince(run: seq<Event>, config: Config, org: string) returns (i: nat)
    requires Hastened(run, config, org)
    ensures HastenedAt(run, config, org, i)
    ensures StillActive(run, config, org) ==> run[i].step == AbandonRenewal(org)
  {
    hide Next, Hastens, Restores;
    var before, e := run[..|run| - 1], run[|run| - 1];
    var db := After(Empty, before, config);
    if Hastens(db, e, config, org) {
      i := |run| - 1;
      HastenedActive(db, e, config, org);
    } else {
      i := HastenedSince(before, config, org);
      assert before[..i] == run[..i];
      RestoredByExtension(db, e, config, org);
      forall j | i < j < |run|
        ensures !Concerns(Extension(After(Empty, run[..j], config), run[j].step, config), org)
      {
        if j < |before| {
          assert before[..j] == run[..j];
        } else {
          assert run[..j] == before;
        }
      }
      OnlyExtensionsActivate(db, e, config, org);
    }
  }

  predicate StillActive(run: seq<Event>, config: Config, org: string) {
    ActiveRow(After(Empty, run, config), org)
  }

  predicate ActiveRow(db: Db, org: string) {
    org in db.subscriptions && db.subscriptions[org].status == Active
  }

  lemma RestoredByExtension(db: Db, e: Event, config: Config, org: string)
    requires org in db.subscriptions && !Restores(db, e, config, org)
    ensures !Concerns(Extension(db, e.step, config), org)
  {
  }

  lemma LifecycleActivates(db: Db, local: LocalPayment, p: ProviderPayment, now: Time, config: Config, org: string)
    requires ActiveRow(AppliedPayment(db, local, p, now, config), org) && !(WillExtend(db, p) && local.org == org)
    ensures ActiveRow(db, org) && !(WillFail(db, local, p) && local.org == org)
  {
  }

  /** Only a paid period makes a row active, and a recorded failure makes it anything else. */
  lemma OnlyExtensionsActivate(db: Db, e: Event, config: Config, org: string)
    requires !Concerns(Extension(db, e.step, config), org)
    ensures ActiveRow(Next(db, e.step, e.now, config), org) ==>
      ActiveRow(db, org) && !Concerns(Failure(db, e.step, config), org)
  {
    hide AppliedPayment, WillExtend, WillFail;
    var call := PaymentCall(db, e.step, config);
    if call.Some? {
      CallSetsNothing(db, e.step, config, "");
      if ActiveRow(AppliedPayment(call.value.db, call.value.local, call.value.p, e.now, config), org) {
        LifecycleActivates(call.value.db, call.value.local, call.value.p, e.now, config, org);
      }
    }
  }

  lemma HastenedActive(db: Db, e: Event, config: Config, org: string)
    requires Hastens(db, e, config, org)
    ensures ActiveRow(Next(db, e.step, e.now, config), org) ==> e.step == AbandonRenewal(org)
  {
    if Concerns(Failure(db, e.step, config), org) {
      assert !Concerns(Extension(db, e.step, config), org);
      hide Next;
      OnlyExtensionsActivate(db, e, config, org);
    }
  }

  /** An early charge goes back to an abandoned renewal or a recorded failure after the last paid period;
      of an ACTIVE subscription, to an abandoned renewal. */
  lemma EarlyChargeHasCause(run: seq<Event>, config: Config, org: string)
    requires org in After(Empty, run, config).subscriptions
    requires ChargeableWithinPeriod(After(Empty, run, config).subscriptions[org])
    ensures exists i: nat ::
      HastenedAt(run, config, org, i) && (StillActive(run, config, org) ==> run[i].step == AbandonRenewal(org))
  {
    ChargedEarlyExactlyWhen(run, config, org);
    var i := HastenedSince(run, config, org);
  }

  // ---------------------------------------------------------------- both causes occur

  lemma AfterStep(db: Db, run: seq<Event>, e: Event, config: Config)
    ensures After(db, run + [e], config) == Next(After(db, run, config), e.step, e.now, config)
  {
    assert (run + [e])[..|run|] == run;
  }

  const FIRST := ProviderPayment("p0", Succeeded, true, Some("card"), None)
  const PENDING := ProviderPayment("p1", Pending, false, None, None)
  const SECOND := ProviderPayment("p2", Succeeded, true, None, None)
  const REFUSED := ProviderPayment("p1", Canceled, false, None, None)

  /** A first payment, with its method saved. */
  const FirstPaid := [Event(Checkout("org", "k0", "p0", Pending), 0), Event(Webhook(FIRST), 0)]

  function FirstRow(config: Config): Subscription {
    Subscription(Pro, Active, Some(config.month), None, 0, true, Some(config.month), Some("card"), Some("p0"),
                 false, None)
  }

  lemma AfterFirstPaid(config: Config)
    ensures var db := After(Empty, FirstPaid, config);
      && db.subscriptions == map["org" := FirstRow(config)] && db.payments.Keys == {"p0"}
      && db.payments["p0"].key == CheckoutKey("k0") && db.events == {(Succeeded, "p0")}
  {
    AfterStep(Empty, [], FirstPaid[0], config);
    AfterStep(Empty, [FirstPaid[0]], FirstPaid[1], config);
    assert [] + [FirstPaid[0]] == [FirstPaid[0]] && [FirstPaid[0]] + [FirstPaid[1]] == FirstPaid;
    var db := After(Empty, [FirstPaid[0]], config);
    assert db.payments == map["p0" := Payment("org", CheckoutKey("k0"), Initial, Pending, config.price, 1, None, None)];
  }

  function FirstClaimed(config: Config): seq<Event> {
    FirstPaid + [Event(ClaimRenewal("org"), config.month)]
  }

  /** A renewal of the second period is pending at the provider. */
  function RenewalPending(config: Config): seq<Event> {
    FirstClaimed(config) + [Event(CommitRenewal(RenewalItem("org", config.month, 0), PENDING), config.month)]
  }

  function RenewalRow(config: Config): Payment {
    Payment("org", RenewalKey("org", config.month, 1), Renewal, Pending, config.price, 1, None, None)
  }

  lemma AfterClaim(config: Config)
    ensures var db := After(Empty, FirstClaimed(config), config); var before := After(Empty, FirstPaid, config);
      && db.subscriptions == map["org" := FirstRow(config).(nextBilling := Some(config.month + 15 * MINUTE))]
      && db.payments == before.payments && db.events == before.events
  {
    AfterFirstPaid(config);
    AfterStep(Empty, FirstPaid, Event(ClaimRenewal("org"), config.month), config);
    hide After;
  }

  lemma AfterRenewalPending(config: Config)
    ensures var db := After(Empty, RenewalPending(config), config);
      && db.subscriptions == map["org" := FirstRow(config).(nextBilling := Some(config.month + 15 * MINUTE))]
      && db.payments.Keys == {"p0", "p1"} && db.payments["p0"].key == CheckoutKey("k0")
      && db.payments["p1"] == RenewalRow(config)
      && db.events == {(Succeeded, "p0")}
  {
    AfterFirstPaid(config);
    AfterClaim(config);
    var commit := Event(CommitRenewal(RenewalItem("org", config.month, 0), PENDING), config.month);
    AfterStep(Empty, FirstClaimed(config), commit, config);
    hide After;
    assert "p0"[1] != "p1"[1];
  }

  /** The customer pays for the second period by hand, after the run `before`. */
  function ByHand(before: seq<Event>, config: Config): seq<Event> {
    before + [Event(Checkout("org", "k2", "p2", Pending), config.month)] + [Event(Webhook(SECOND), config.month)]
  }

  function SecondRow(config: Config): Subscription {
    FirstRow(config).(periodEnd := Some(2 * config.month), nextBilling := Some(2 * config.month),
                      lastPayment := Some("p2"))
  }

  /** The first period is over and its renewal claimed; no second payment by hand is known yet. */
  ghost predicate Claimed(db: Db, config: Config) {
    && db.subscriptions == map["org" := FirstRow(config).(nextBilling := Some(config.month + 15 * MINUTE))]
    && "p2" !in db.payments && db.events == {(Succeeded, "p0")}
    && !KeyTaken(db, "org", CheckoutKey("k2"))
  }

  lemma CheckoutByHand(db: Db, config: Config)
    requires Claimed(db, config)
    ensures var next := Next(db, Checkout("org", "k2", "p2", Pending), config.month, config);
      && next.subscriptions == db.subscriptions && next.events == db.events
      && next.payments == db.payments[
           "p2" := Payment("org", CheckoutKey("k2"), Initial, Pending, config.price, 1, None, None)]
  {
  }

  lemma AfterByHand(before: seq<Event>, config: Config)
    requires 0 < config.month && Claimed(After(Empty, before, config), config)
    ensures var was, db := After(Empty, before, config), After(Empty, ByHand(before, config), config);
      && db.subscriptions == map["org" := SecondRow(config)]
      && ("p1" in was.payments ==> "p1" in db.payments && db.payments["p1"] == was.payments["p1"])
  {
    hide After;
    var checkout := Event(Checkout("org", "k2", "p2", Pending), config.month);
    AfterStep(Empty, before, checkout, config);
    AfterStep(Empty, before + [checkout], Event(Webhook(SECOND), config.month), config);
    CheckoutByHand(After(Empty, before, config), config);
    assert "p2"[1] != "p0"[1] && "p2"[1] != "p1"[1];
  }

  /** A claimed renewal whose provider call fails only after the customer has paid by hand: abandoning it
      makes the ACTIVE subscription due again one hour later, at the beginning of a paid period. */
  lemma AbandonedIsChargedEarly(config: Config)
    requires 1 + HOUR < config.month
    ensures var run := ByHand(FirstClaimed(config), config) + [Event(AbandonRenewal("org"), config.month + 1)];
      var s := Row(After(Empty, run, config), "org");
      && s.Some? && s.value.status == Active && s.value.periodEnd == Some(2 * config.month)
      && Claimable(s.value, config.month + 1 + HOUR)
  {
    hide After;
    AfterFirstPaid(config);
    AfterClaim(config);
    assert "p2"[1] != "p0"[1] && "k2"[1] != "k0"[1];
    AfterByHand(FirstClaimed(config), config);
    AfterStep(Empty, ByHand(FirstClaimed(config), config), Event(AbandonRenewal("org"), config.month + 1), config);
  }

  /** A renewal that is still pending when the customer pays by hand: its late refusal makes the paid
      subscription PAST_DUE and due again at the first retry, within the period that was just paid. */
  lemma LateFailureIsChargedEarly(config: Config)
    requires config.Valid() && config.retryScheduleHours[0] * HOUR < config.month
    ensures var run := ByHand(RenewalPending(config), config) + [Event(Reconcile(REFUSED), config.month)];
      var s := Row(After(Empty, run, config), "org");
      var retry := config.month + config.retryScheduleHours[0] * HOUR;
      && s.Some? && s.value.status == PastDue && s.value.periodEnd == Some(2 * config.month)
      && Claimable(s.value, retry) && retry < 2 * config.month
  {
    hide After;
    AfterRenewalPending(config);
    assert "p2"[1] != "p0"[1] && "p2"[1] != "p1"[1] && "k2"[1] != "k0"[1];
    AfterByHand(RenewalPending(config), config);
    AfterStep(Empty, ByHand(RenewalPending(config), config), Event(Reconcile(REFUSED), config.month), config);
  }
}
