/**
 What every reachable billing state satisfies: the shape of subscription rows, the neutrality of the
 expiry sweep, bounded dunning under stable idempotency keys, and one live refund per payment.
 */
module BillingInvariants {
  import opened Options
  import opened Sets
  import opened BillingModel
  import opened Plans
  import opened BillingLedger

  // ---------------------------------------------------------------- subscriptions

  predicate WellFormed(s: Subscription, config: Config) {
    && s.periodEnd.Some?
    && (s.status == Active ==> s.plan == Pro && s.retryCount == 0 && s.graceEnd.None?)
    && (s.plan == Pro ==> s.status == Active || s.status == PastDue)
    && (s.status == PastDue ==> s.graceEnd.Some?)
    && (s.graceEnd.Some? ==> s.graceEnd.value == s.periodEnd.value + config.Grace())
  }

  predicate AllWellFormed(db: Db, config: Config) {
    forall org :: org in db.subscriptions ==> WellFormed(db.subscriptions[org], config)
  }

  lemma StepKeepsWellFormed(db: Db, e: Event, config: Config)
    requires AllWellFormed(db, config)
    ensures AllWellFormed(Next(db, e.step, e.now, config), config)
  {
    var call := PaymentCall(db, e.step, config);
    if call.Some? {
      CallSetsNothing(db, e.step, config, "");
      LifecycleKeepsWellFormed(call.value.db, call.value.local, call.value.p, e.now, config);
    } else if RefundCall(db, e.step).Some? {
      RefundKeepsWellFormed(RefundCall(db, e.step).value.0, RefundCall(db, e.step).value.1, e.now, config);
    }
  }

  lemma LifecycleKeepsWellFormed(db: Db, local: LocalPayment, p: ProviderPayment, now: Time, config: Config)
    requires AllWellFormed(db, config)
    ensures AllWellFormed(AppliedPayment(db, local, p, now, config), config)
  {
  }

  lemma RefundKeepsWellFormed(db: Db, r: ProviderRefund, now: Time, config: Config)
    requires AllWellFormed(db, config)
    ensures AllWellFormed(AppliedRefund(db, r, now), config)
  {
  }

  /** Every state that any run reaches from empty tables has well-formed subscriptions. */
  lemma {:induction false} ReachableWellFormed(run: seq<Event>, config: Config)
    ensures AllWellFormed(After(Empty, run, config), config)
  {
    hide Next;
    if run != [] {
      ReachableWellFormed(run[..|run| - 1], config);
      StepKeepsWellFormed(After(Empty, run[..|run| - 1], config), run[|run| - 1], config);
    }
  }

  lemma RowProUntil(s: Subscription, config: Config, now: Time)
    requires WellFormed(s, config) && 1 <= config.gracePeriodDays
    ensures EntitledPlan(s, now) == Pro <==> s.plan == Pro && now < s.graceEnd.GetOr(s.periodEnd.value)
  {
  }

  /** In a reachable state an organization has PRO exactly until its grace end, or its period end when
      no grace period runs. */
  lemma ProUntil(run: seq<Event>, config: Config, org: string, now: Time)
    requires 1 <= config.gracePeriodDays
    ensures var s := Row(After(Empty, run, config), org);
      ActivePlan(After(Empty, run, config), org, now) == Pro <==>
        && s.Some? && s.value.plan == Pro && s.value.periodEnd.Some?
        && now < s.value.graceEnd.GetOr(s.value.periodEnd.value)
  {
    hide Next;
    ReachableWellFormed(run, config);
    var db := After(Empty, run, config);
    if org in db.subscriptions {
      RowProUntil(db.subscriptions[org], config, now);
    }
  }

  lemma RowSweepIsNeutral(s: Subscription, config: Config, now: Time, later: Time)
    requires WellFormed(s, config) && 1 <= config.gracePeriodDays && now <= later
    ensures EntitledPlan(Expired(s, now), later) == EntitledPlan(s, later)
  {
  }

  /** Running the expiry sweep never changes the plan that `activePlan` reports, then or later. */
  lemma SweepIsNeutral(run: seq<Event>, config: Config, now: Time, org: string, later: Time)
    requires 1 <= config.gracePeriodDays && now <= later
    ensures var db := After(Empty, run, config);
      ActivePlan(Next(db, ExpireGracePeriods, now, config), org, later) == ActivePlan(db, org, later)
  {
    ReachableWellFormed(run, config);
    var db := After(Empty, run, config);
    SweepWritesExpired(db, now, config);
    hide Next, After;
    if org in db.subscriptions {
      RowSweepIsNeutral(db.subscriptions[org], config, now, later);
    }
  }

  lemma SweepWritesExpired(db: Db, now: Time, config: Config)
    ensures Next(db, ExpireGracePeriods, now, config).subscriptions ==
            map org | org in db.subscriptions :: Expired(db.subscriptions[org], now)
  {
  }

  // ---------------------------------------------------------------- dunning

  predicate Renewable(db: Db, org: string) {
    org in db.subscriptions && (db.subscriptions[org].status == Active || db.subscriptions[org].status == PastDue)
  }

  /** One step without a success for `org` that leaves its subscription neither cancelled nor refunded. */
  predicate Unsettled(db: Db, e: Event, config: Config, org: string) {
    && (Extension(db, e.step, config).Some? ==> Extension(db, e.step, config).value.org != org)
    && Renewable(Next(db, e.step, e.now, config), org)
  }

  /** The run neither settles nor cancels the renewal of `org`. */
  predicate DunningGoesOn(db: Db, run: seq<Event>, config: Config, org: string) {
    if run == [] then Renewable(db, org)
    else
      && DunningGoesOn(db, run[..|run| - 1], config, org)
      && Unsettled(After(db, run[..|run| - 1], config), run[|run| - 1], config, org)
  }

  /** The idempotency key under which a step claims a charge for `org`, if it claims one. */
  function ClaimedKey(db: Db, e: Event, org: string): Option<IdempotencyKey> {
    if e.step == ClaimRenewal(org) && org in db.subscriptions && Claimable(db.subscriptions[org], e.now) then
      var s := db.subscriptions[org];
      Some(KeyOf(RenewalItem(org, s.periodEnd.value, s.retryCount)))
    else None
  }

  function ClaimedKeys(db: Db, run: seq<Event>, config: Config, org: string): set<IdempotencyKey> {
    if run == [] then {}
    else
      var before := run[..|run| - 1];
      var key := ClaimedKey(After(db, before, config), run[|run| - 1], org);
      ClaimedKeys(db, before, config, org) + if key.Some? then {key.value} else {}
  }

  /** How many dunning failures a run records against `org`. */
  function FailuresOf(db: Db, run: seq<Event>, config: Config, org: string): nat {
    if run == [] then 0
    else
      var before := run[..|run| - 1];
      var failure := Failure(After(db, before, config), run[|run| - 1].step, config);
      FailuresOf(db, before, config, org) + Bit(failure.Some? && failure.value.org == org)
  }

  function Attempts(org: string, periodEnd: Time, n: nat): (keys: set<IdempotencyKey>)
    ensures |keys| <= n
    ensures forall a :: 1 <= a <= n ==> RenewalKey(org, periodEnd, a) in keys
  {
    if n == 0 then {} else Attempts(org, periodEnd, n - 1) + {RenewalKey(org, periodEnd, n)}
  }

  /** While dunning goes on, the period end stands still, and the retry count moves only when a
      failure is recorded, never beyond the retry schedule. */
  lemma DunningStep(db: Db, e: Event, config: Config, org: string)
    requires Renewable(db, org) && Unsettled(db, e, config, org)
    ensures var s, t := db.subscriptions[org], Next(db, e.step, e.now, config).subscriptions[org];
      && t.periodEnd == s.periodEnd
      && s.retryCount <= t.retryCount
      && (s.retryCount < t.retryCount ==>
            && Failure(db, e.step, config).Some? && Failure(db, e.step, config).value.org == org
            && t.retryCount <= |config.retryScheduleHours|)
  {
    var call := PaymentCall(db, e.step, config);
    if call.Some? {
      CallSetsNothing(db, e.step, config, "");
      DunningLifecycle(call.value.db, call.value.local, call.value.p, e.now, config, org);
    } else if RefundCall(db, e.step).Some? {
      DunningRefund(db, RefundCall(db, e.step).value.0, RefundCall(db, e.step).value.1, e.now, org);
    }
  }

  lemma DunningLifecycle(db: Db, local: LocalPayment, p: ProviderPayment, now: Time, config: Config, org: string)
    requires Renewable(db, org) && Renewable(AppliedPayment(db, local, p, now, config), org)
    requires !(WillExtend(db, p) && local.org == org)
    ensures var s, t := db.subscriptions[org], AppliedPayment(db, local, p, now, config).subscriptions[org];
      && t.periodEnd == s.periodEnd
      && s.retryCount <= t.retryCount
      && (s.retryCount < t.retryCount ==>
            WillFail(db, local, p) && local.org == org && t.retryCount <= |config.retryScheduleHours|)
  {
  }

  lemma DunningRefund(db: Db, mid: Db, r: ProviderRefund, now: Time, org: string)
    requires mid.subscriptions == db.subscriptions
    requires Renewable(db, org) && Renewable(AppliedRefund(mid, r, now), org)
    ensures AppliedRefund(mid, r, now).subscriptions[org] == db.subscriptions[org]
  {
  }

  /** What a run of unsettled dunning can have done to the row of `org`, and the keys it used. */
  lemma {:induction false} DunningRun(db: Db, run: seq<Event>, config: Config, org: string)
    requires DunningGoesOn(db, run, config, org)
    requires Renewable(db, org) && db.subscriptions[org].periodEnd.Some?
    requires db.subscriptions[org].retryCount <= |config.retryScheduleHours|
    ensures Renewable(After(db, run, config), org)
    ensures var s, t := db.subscriptions[org], After(db, run, config).subscriptions[org];
      && t.periodEnd == s.periodEnd
      && s.retryCount <= t.retryCount <= |config.retryScheduleHours|
      && (FailuresOf(db, run, config, org) == 0 ==> t.retryCount == s.retryCount)
  {
    hide Next, Failure, Extension;
    if run != [] {
      var before := run[..|run| - 1];
      DunningRun(db, before, config, org);
      DunningStep(After(db, before, config), run[|run| - 1], config, org);
    }
  }

  /** From an active subscription, dunning uses at most one charge key per scheduled retry and one
      more, however often the renewal is claimed, until it is paid or cancelled. */
  lemma {:induction false} DunningIsBounded(db: Db, run: seq<Event>, config: Config, org: string)
    requires DunningGoesOn(db, run, config, org)
    requires Renewable(db, org) && WellFormed(db.subscriptions[org], config) && db.subscriptions[org].status == Active
    ensures ClaimedKeys(db, run, config, org) <=
            Attempts(org, db.subscriptions[org].periodEnd.value, |config.retryScheduleHours| + 1)
    ensures |ClaimedKeys(db, run, config, org)| <= |config.retryScheduleHours| + 1
  {
    var keys := ClaimedKeys(db, run, config, org);
    var allowed := Attempts(org, db.subscriptions[org].periodEnd.value, |config.retryScheduleHours| + 1);
    if run != [] {
      var before := run[..|run| - 1];
      DunningIsBounded(db, before, config, org);
      DunningRun(db, before, config, org);
    }
    SubsetSize(keys, allowed);
  }

  /** Without a recorded failure, dunning leaves period end and retry count as they are. */
  lemma {:induction false} RunWithoutFailure(db: Db, run: seq<Event>, config: Config, org: string)
    requires DunningGoesOn(db, run, config, org) && Renewable(db, org) && FailuresOf(db, run, config, org) == 0
    ensures Renewable(After(db, run, config), org)
    ensures var s, t := db.subscriptions[org], After(db, run, config).subscriptions[org];
      t.periodEnd == s.periodEnd && t.retryCount == s.retryCount
  {
    hide Next, Failure, Extension;
    if run != [] {
      var before := run[..|run| - 1];
      RunWithoutFailure(db, before, config, org);
      DunningStep(After(db, before, config), run[|run| - 1], config, org);
    }
  }

  /** Until a failure is recorded, every claim of a renewal reuses the same key, whatever errors,
      re-claims, cancellations and resumptions come between. */
  lemma {:induction false} KeyIsStable(db: Db, run: seq<Event>, config: Config, org: string)
    requires DunningGoesOn(db, run, config, org)
    requires Renewable(db, org) && db.subscriptions[org].periodEnd.Some?
    requires FailuresOf(db, run, config, org) == 0
    ensures ClaimedKeys(db, run, config, org) <=
      {RenewalKey(org, db.subscriptions[org].periodEnd.value, db.subscriptions[org].retryCount + 1)}
  {
    hide Next, Failure, Extension;
    if run != [] {
      var before := run[..|run| - 1];
      KeyIsStable(db, before, config, org);
      RunWithoutFailure(db, before, config, org);
    }
  }

  // ---------------------------------------------------------------- what the customer sees

  /** A failed renewal of a PRO subscription either ends PRO at once, with no further attempt, or keeps it
      until after the next attempt, which becomes due later than now and within the grace period. */
  lemma FailureKeepsProUntilRetry(s: Subscription, attempt: nat, reason: Option<string>, now: Time, config: Config,
                                  t: Time)
    requires config.Valid() && WellFormed(s, config) && s.plan == Pro
    ensures var f := Failed(s, attempt, reason, now, config);
      if f.status == PastDue then
        && f.nextBilling.Some? && now < f.nextBilling.value < f.graceEnd.value
        && (t <= f.nextBilling.value ==> EntitledPlan(f, t) == Pro)
      else
        !Claimable(f, t) && EntitledPlan(f, t) == Free
  {
    if 1 <= attempt <= |config.retryScheduleHours| {
      assert 1 <= config.retryScheduleHours[attempt - 1];
    }
  }

  predicate NotRenewing(db: Db, org: string) {
    org in db.subscriptions ==> !db.subscriptions[org].autoRenew
  }

  /** The step neither resumes the renewals of `org` nor grants it a paid period. */
  predicate Quiet(db: Db, step: Step, config: Config, org: string) {
    step != ResumeRenewals(org) && (Extension(db, step, config).Some? ==> Extension(db, step, config).value.org != org)
  }

  predicate QuietRun(db: Db, run: seq<Event>, config: Config, org: string) {
    if run == [] then true
    else
      && QuietRun(db, run[..|run| - 1], config, org)
      && Quiet(After(db, run[..|run| - 1], config), run[|run| - 1].step, config, org)
  }

  lemma LifecycleStaysOff(db: Db, local: LocalPayment, p: ProviderPayment, now: Time, config: Config, org: string)
    requires NotRenewing(db, org) && !(WillExtend(db, p) && local.org == org)
    ensures NotRenewing(AppliedPayment(db, local, p, now, config), org)
  {
  }

  lemma StepStaysOff(db: Db, e: Event, config: Config, org: string)
    requires NotRenewing(db, org) && Quiet(db, e.step, config, org)
    ensures NotRenewing(Next(db, e.step, e.now, config), org)
  {
    var call := PaymentCall(db, e.step, config);
    if call.Some? {
      CallSetsNothing(db, e.step, config, "");
      LifecycleStaysOff(call.value.db, call.value.local, call.value.p, e.now, config, org);
    }
  }

  lemma {:induction false} RunStaysOff(db: Db, run: seq<Event>, config: Config, org: string)
    requires NotRenewing(db, org) && QuietRun(db, run, config, org)
    ensures NotRenewing(After(db, run, config), org) && ClaimedKeys(db, run, config, org) == {}
  {
    hide Next, Quiet;
    if run != [] {
      var before := run[..|run| - 1];
      RunStaysOff(db, before, config, org);
      StepStaysOff(After(db, before, config), run[|run| - 1], config, org);
    }
  }

  /** After a cancellation no charge is ever claimed again, whatever webhooks, failures and sweeps follow,
      until the customer resumes or pays. */
  lemma CancelStopsCharges(db: Db, now: Time, run: seq<Event>, config: Config, org: string)
    requires QuietRun(Next(db, CancelRenewals(org), now, config), run, config, org)
    ensures ClaimedKeys(Next(db, CancelRenewals(org), now, config), run, config, org) == {}
  {
    RunStaysOff(Next(db, CancelRenewals(org), now, config), run, config, org);
  }

  // ---------------------------------------------------------------- refunds

  /** At most one refund of a payment is reserved, pending or completed. */
  predicate OneLiveRefund(db: Db) {
    forall j, k ::
      && j in db.refunds && k in db.refunds
      && db.refunds[j].payment == db.refunds[k].payment
      && Live(db.refunds[j].status) && Live(db.refunds[k].status)
      ==> j == k
  }

  /** The provider never reports a refund as anything else once it reported it as canceled. */
  predicate CanceledIsFinal(db: Db, step: Step) {
    match step
    case CommitRefund(id, r) =>
      id in db.refunds && db.refunds[id].status == RefundCanceled ==> r.status == RefundCanceled
    case RefundWebhook(r) => RefundStaysCanceled(db, r)
    case ReconcileRefund(r) => RefundStaysCanceled(db, r)
    case _ => true
  }

  predicate RefundStaysCanceled(db: Db, r: ProviderRefund) {
    forall k :: k in db.refunds && db.refunds[k].providerId == Some(r.id) && db.refunds[k].status == RefundCanceled ==>
      r.status == RefundCanceled
  }

  predicate HonestProvider(db: Db, run: seq<Event>, config: Config) {
    if run == [] then true
    else
      && HonestProvider(db, run[..|run| - 1], config)
      && CanceledIsFinal(After(db, run[..|run| - 1], config), run[|run| - 1].step)
  }

  lemma RefundCallKeepsOneLive(db: Db, step: Step)
    requires OneLiveRefund(db) && CanceledIsFinal(db, step) && RefundCall(db, step).Some?
    ensures OneLiveRefund(RefundCall(db, step).value.0)
  {
  }

  lemma RefundKeepsOneLive(db: Db, r: ProviderRefund, now: Time)
    requires OneLiveRefund(db)
    ensures OneLiveRefund(AppliedRefund(db, r, now))
  {
  }

  lemma ReservationKeepsOneLive(db: Db, payment: string, key: string)
    requires OneLiveRefund(db)
    ensures OneLiveRefund(Reserved(db, payment, key))
  {
  }

  lemma StepKeepsOneLiveRefund(db: Db, e: Event, config: Config)
    requires OneLiveRefund(db) && CanceledIsFinal(db, e.step)
    ensures OneLiveRefund(Next(db, e.step, e.now, config))
  {
    hide OneLiveRefund, CanceledIsFinal, AppliedRefund, RefundCall, Reserved, PaymentCall;
    if IsPaymentStep(e.step) {
      PaymentsKeepRefunds(db, e, config);
      SameRefunds(db, Next(db, e.step, e.now, config));
    } else if IsRefundStep(e.step) {
      if RefundCall(db, e.step).Some? {
        RefundCallKeepsOneLive(db, e.step);
        RefundKeepsOneLive(RefundCall(db, e.step).value.0, RefundCall(db, e.step).value.1, e.now);
      }
    } else if e.step.ReserveRefund? {
      ReservationKeepsOneLive(db, e.step.payment, e.step.key);
    } else {
      SameRefunds(db, Next(db, e.step, e.now, config));
    }
  }

  lemma SameRefunds(db: Db, next: Db)
    requires OneLiveRefund(db) && next.refunds == db.refunds
    ensures OneLiveRefund(next)
  {
  }

  /** In every reachable state each payment has at most one live refund. */
  lemma {:induction false} ReachableOneLiveRefund(run: seq<Event>, config: Config)
    requires HonestProvider(Empty, run, config)
    ensures OneLiveRefund(After(Empty, run, config))
  {
    hide Next;
    if run != [] {
      ReachableOneLiveRefund(run[..|run| - 1], config);
      StepKeepsOneLiveRefund(After(Empty, run[..|run| - 1], config), run[|run| - 1], config);
    }
  }

  function RefundIn(step: Step): ProviderRefund
    requires IsRefundStep(step)
  {
    step.r
  }

  /** Refunding any payment but the last one leaves a subscription unchanged. */
  lemma OlderRefundKeepsPeriod(db: Db, e: Event, config: Config, org: string)
    requires IsRefundStep(e.step) && org in db.subscriptions
    requires db.subscriptions[org].lastPayment != Some(RefundIn(e.step).payment)
    ensures var next := Next(db, e.step, e.now, config);
      org in next.subscriptions && next.subscriptions[org] == db.subscriptions[org]
  {
  }

  /** The run grants `org` no paid period. */
  predicate UnpaidRun(db: Db, run: seq<Event>, config: Config, org: string) {
    if run == [] then true
    else
      && UnpaidRun(db, run[..|run| - 1], config, org)
      && Unpaid(After(db, run[..|run| - 1], config), run[|run| - 1].step, config, org)
  }

  predicate Unpaid(db: Db, step: Step, config: Config, org: string) {
    Extension(db, step, config).Some? ==> Extension(db, step, config).value.org != org
  }

  predicate FreePlan(db: Db, org: string) {
    org in db.subscriptions ==> db.subscriptions[org].plan == Free
  }

  lemma LifecycleStaysFree(db: Db, local: LocalPayment, p: ProviderPayment, now: Time, config: Config, org: string)
    requires FreePlan(db, org) && !(WillExtend(db, p) && local.org == org)
    ensures FreePlan(AppliedPayment(db, local, p, now, config), org)
  {
  }

  lemma StepStaysFree(db: Db, e: Event, config: Config, org: string)
    requires FreePlan(db, org) && Unpaid(db, e.step, config, org)
    ensures FreePlan(Next(db, e.step, e.now, config), org)
  {
    var call := PaymentCall(db, e.step, config);
    if call.Some? {
      CallSetsNothing(db, e.step, config, "");
      LifecycleStaysFree(call.value.db, call.value.local, call.value.p, e.now, config, org);
    }
  }

  lemma {:induction false} RunStaysFree(db: Db, run: seq<Event>, config: Config, org: string)
    requires FreePlan(db, org) && UnpaidRun(db, run, config, org)
    ensures FreePlan(After(db, run, config), org)
  {
    hide Next, Unpaid;
    if run != [] {
      RunStaysFree(db, run[..|run| - 1], config, org);
      StepStaysFree(After(db, run[..|run| - 1], config), run[|run| - 1], config, org);
    }
  }

  lemma RefundMakesFree(db: Db, e: Event, config: Config, org: string, id: RefundId)
    requires IsRefundStep(e.step) && AppliesRefund(db, e.step, id) && IsFull(db, db.refunds[id])
    requires org in db.subscriptions && db.subscriptions[org].lastPayment == Some(RefundIn(e.step).payment)
    ensures FreePlan(Next(db, e.step, e.now, config), org)
  {
  }

  /** A refund that acts on the last payment, in full, ends PRO at once, and nothing but another paid
      period brings it back: no late failure, sweep, resumption or repeated notification. */
  lemma FullRefundEndsPro(db: Db, e: Event, run: seq<Event>, config: Config, org: string, id: RefundId, later: Time)
    requires IsRefundStep(e.step) && AppliesRefund(db, e.step, id) && IsFull(db, db.refunds[id])
    requires org in db.subscriptions && db.subscriptions[org].lastPayment == Some(RefundIn(e.step).payment)
    requires UnpaidRun(Next(db, e.step, e.now, config), run, config, org)
    ensures ActivePlan(After(Next(db, e.step, e.now, config), run, config), org, later) == Free
  {
    RefundMakesFree(db, e, config, org, id);
    RunStaysFree(Next(db, e.step, e.now, config), run, config, org);
  }
}
