/**
 What each billing transaction leaves in the rows it touches, spelled out field by field.
 */
module BillingRows {
  import opened Options
  import opened Plans
  import opened BillingModel
  import opened BillingLedger
  import opened BillingInvariants

  /** The step delivers the snapshot `p` of a payment of `org`, by one of the three routes: a notification that
      was not seen before, a reconciliation, or the answer to a renewal whose payment is known or whose
      idempotency key is free. */
  predicate Delivers(db: Db, step: Step, p: ProviderPayment, org: string, kind: PaymentKind, attempt: nat) {
    match step
    case Webhook(q) =>
      && q == p && p.status != Pending && (p.status, p.id) !in db.events
      && p.id in db.payments && db.payments[p.id].org == org
      && db.payments[p.id].kind == kind && db.payments[p.id].attempt == attempt
    case Reconcile(q) =>
      && q == p && p.id in db.payments && db.payments[p.id].org == org
      && db.payments[p.id].kind == kind && db.payments[p.id].attempt == attempt
    case CommitRenewal(item, q) =>
      && q == p && org == item.org && kind == Renewal && attempt == item.retryCount + 1
      && (p.id in db.payments ||
          forall id :: id in db.payments && db.payments[id].org == org ==>
            db.payments[id].key != RenewalKey(org, item.periodEnd, attempt))
    case _ => false
  }

  /** Each route ends in the same lifecycle call. */
  lemma DeliveryCalls(db: Db, step: Step, p: ProviderPayment, org: string, kind: PaymentKind, attempt: nat, now: Time,
                      config: Config)
    requires Delivers(db, step, p, org, kind, attempt)
    ensures var call := PaymentCall(db, step, config);
      && call.Some? && call.value.p == p && call.value.local == LocalPayment(org, kind, attempt)
      && call.value.db.subscriptions == db.subscriptions && p.id in call.value.db.payments
      && (p.id in db.payments ==>
            && call.value.db.payments[p.id].entitlementAppliedAt == db.payments[p.id].entitlementAppliedAt
            && call.value.db.payments[p.id].failureAppliedAt == db.payments[p.id].failureAppliedAt)
      && (p.id !in db.payments ==>
            && call.value.db.payments[p.id].entitlementAppliedAt == None
            && call.value.db.payments[p.id].failureAppliedAt == None)
      && Next(db, step, now, config) == AppliedPayment(call.value.db, call.value.local, p, now, config)
  {
    hide AppliedPayment;
  }

  // ---------------------------------------------------------------- successes

  /** A success that was not applied before. */
  predicate NewSuccess(db: Db, p: ProviderPayment) {
    p.status == Succeeded && p.paid && (p.id in db.payments ==> db.payments[p.id].entitlementAppliedAt.None?)
  }

  /** By whatever route a success arrives, the first time it makes the subscription PRO and ACTIVE for one more
      month from the later of now and its period end, ends dunning, keeps or takes over the payment method, and
      schedules the next charge for the end of the period if there is a method. */
  lemma SuccessRow(db: Db, step: Step, p: ProviderPayment, org: string, kind: PaymentKind, attempt: nat, now: Time,
                   config: Config)
    requires Delivers(db, step, p, org, kind, attempt) && NewSuccess(db, p)
    ensures var db' := Next(db, step, now, config);
      var was := if org in db.subscriptions then Some(db.subscriptions[org]) else None;
      && org in db'.subscriptions && p.id in db'.payments
      && db'.payments[p.id].entitlementAppliedAt == Some(now) && db'.payments[p.id].status == Succeeded
      && var s := db'.subscriptions[org];
      && s.plan == Pro && s.status == Active && s.graceEnd == None && s.retryCount == 0 && s.errorCode == None
      && s.lastPayment == Some(p.id) && !s.cancelAtPeriodEnd
      && s.periodEnd == Some((if was.Some? && was.value.periodEnd.Some? && was.value.periodEnd.value > now
                              then was.value.periodEnd.value else now) + config.month)
      && s.paymentMethod == (if p.savedMethod.Some? then p.savedMethod
                             else if was.Some? then was.value.paymentMethod else None)
      && (s.autoRenew <==> p.savedMethod.Some? || (was.Some? && was.value.autoRenew))
      && s.nextBilling == if s.paymentMethod.Some? then s.periodEnd else None
  {
    hide Next, PaymentCall;
    DeliveryCalls(db, step, p, org, kind, attempt, now, config);
  }

  // ---------------------------------------------------------------- refusals

  /** A refusal that was not recorded before. */
  predicate NewRefusal(db: Db, p: ProviderPayment) {
    p.status == Canceled && (p.id in db.payments ==> db.payments[p.id].failureAppliedAt.None?)
  }

  function GraceEnd(s: Subscription, config: Config): Time
    requires s.periodEnd.Some?
  {
    if s.graceEnd.Some? then s.graceEnd.value else s.periodEnd.value + config.gracePeriodDays * DAY
  }

  /** There is another attempt, and it comes before the grace period ends. */
  predicate InTime(s: Subscription, attempt: nat, reason: Option<string>, now: Time, config: Config)
    requires s.periodEnd.Some?
  {
    && reason != Some("permission_revoked") && 1 <= attempt <= |config.retryScheduleHours|
    && now + config.retryScheduleHours[attempt - 1] * HOUR < GraceEnd(s, config)
  }

  /** By whatever route a refused renewal arrives, the first time it is recorded it makes the subscription
      PAST_DUE with the next attempt as the schedule says, everything else kept, exactly if that attempt is in
      time; otherwise the subscription is CANCELLED and FREE, and renews no more. */
  lemma RefusalRow(db: Db, step: Step, p: ProviderPayment, org: string, attempt: nat, now: Time, config: Config)
    requires Delivers(db, step, p, org, Renewal, attempt) && NewRefusal(db, p)
    requires org in db.subscriptions && WellFormed(db.subscriptions[org], config)
    ensures var db' := Next(db, step, now, config);
      && org in db'.subscriptions && p.id in db'.payments
      && db'.payments[p.id].failureAppliedAt == Some(now) && db'.payments[p.id].status == Canceled
      && var s, t := db.subscriptions[org], db'.subscriptions[org];
      && t.periodEnd == s.periodEnd && t.lastPayment == s.lastPayment && t.cancelAtPeriodEnd == s.cancelAtPeriodEnd
      && t.graceEnd == Some(GraceEnd(s, config))
      && t.retryCount == (if attempt > s.retryCount then attempt else s.retryCount)
      && t.errorCode == Some(if p.reason.Some? then p.reason.value else "payment_canceled")
      && t.paymentMethod == (if p.reason == Some("permission_revoked") then None else s.paymentMethod)
      && if InTime(s, attempt, p.reason, now, config) then
           && t.status == PastDue && t.plan == s.plan && t.autoRenew == s.autoRenew
           && t.nextBilling == Some(now + config.retryScheduleHours[attempt - 1] * HOUR)
         else
           t.status == Cancelled && t.plan == Free && !t.autoRenew && t.nextBilling == None
  {
    hide Next, PaymentCall, Failed, WellFormed;
    DeliveryCalls(db, step, p, org, Renewal, attempt, now, config);
    FailedRow(db.subscriptions[org], attempt, p.reason, now, config);
  }

  /** The failure update, spelled out. */
  lemma FailedRow(s: Subscription, attempt: nat, reason: Option<string>, now: Time, config: Config)
    requires WellFormed(s, config)
    ensures s.periodEnd.Some?
    ensures var t := Failed(s, attempt, reason, now, config);
      && t.periodEnd == s.periodEnd && t.lastPayment == s.lastPayment && t.cancelAtPeriodEnd == s.cancelAtPeriodEnd
      && t.graceEnd == Some(GraceEnd(s, config))
      && t.retryCount == (if attempt > s.retryCount then attempt else s.retryCount)
      && t.errorCode == Some(if reason.Some? then reason.value else "payment_canceled")
      && t.paymentMethod == (if reason == Some("permission_revoked") then None else s.paymentMethod)
      && if InTime(s, attempt, reason, now, config) then
           && t.status == PastDue && t.plan == s.plan && t.autoRenew == s.autoRenew
           && t.nextBilling == Some(now + config.retryScheduleHours[attempt - 1] * HOUR)
         else
           t.status == Cancelled && t.plan == Free && !t.autoRenew && t.nextBilling == None
  {
  }

  // ---------------------------------------------------------------- the other transactions

  /** A claim puts the next attempt off by 15 minutes and changes nothing else, if the subscription renews
      itself, has a method and a period, and is due. */
  lemma ClaimRow(db: Db, org: string, now: Time, config: Config)
    requires org in db.subscriptions
    ensures var s, t := db.subscriptions[org], Next(db, ClaimRenewal(org), now, config).subscriptions[org];
      if s.autoRenew && s.paymentMethod.Some? && s.periodEnd.Some? && s.nextBilling.Some? && s.nextBilling.value <= now
         && (s.status == Active || s.status == PastDue)
      then t == s.(nextBilling := Some(now + 15 * MINUTE)) else t == s
  {
  }

  /** Cancelling and closing end the renewals; resuming sets them to the period end, while it lies ahead and a
      method is known; an abandoned renewal is tried again in an hour. */
  lemma CancelRow(db: Db, org: string, now: Time, config: Config)
    requires org in db.subscriptions
    ensures Next(db, CancelRenewals(org), now, config).subscriptions[org] ==
      db.subscriptions[org].(autoRenew := false, cancelAtPeriodEnd := true, nextBilling := None)
  {
  }

  lemma CloseRow(db: Db, org: string, now: Time, config: Config)
    requires org in db.subscriptions
    ensures Next(db, CloseWorkspace(org), now, config).subscriptions[org] ==
      db.subscriptions[org].(paymentMethod := None, autoRenew := false, nextBilling := None, cancelAtPeriodEnd := true)
  {
  }

  lemma ResumeRow(db: Db, org: string, now: Time, config: Config)
    requires org in db.subscriptions
    ensures var s, t := db.subscriptions[org], Next(db, ResumeRenewals(org), now, config).subscriptions[org];
      if s.paymentMethod.Some? && s.periodEnd.Some? && s.periodEnd.value > now
      then t == s.(autoRenew := true, cancelAtPeriodEnd := false, nextBilling := s.periodEnd) else t == s
  {
  }

  lemma AbandonRow(db: Db, org: string, now: Time, config: Config)
    requires org in db.subscriptions
    ensures Next(db, AbandonRenewal(org), now, config).subscriptions[org] ==
      db.subscriptions[org].(nextBilling := Some(now + 60 * MINUTE))
  {
  }

  /** The sweep cancels the past-due rows whose grace period is over. */
  lemma SweepRow(db: Db, org: string, now: Time, config: Config)
    requires org in db.subscriptions
    ensures var s, t := db.subscriptions[org], Next(db, ExpireGracePeriods, now, config).subscriptions[org];
      if s.status == PastDue && s.graceEnd.Some? && s.graceEnd.value <= now
      then t == s.(plan := Free, status := Cancelled, autoRenew := false, nextBilling := None) else t == s
  {
  }

  /** A checkout stores a first payment under its key, unless key or payment is known. */
  lemma CheckoutRow(db: Db, org: string, key: string, id: string, status: PaymentStatus, now: Time, config: Config)
    ensures var db' := Next(db, Checkout(org, key, id, status), now, config);
      && db'.subscriptions == db.subscriptions && db'.refunds == db.refunds
      && if id in db.payments || exists other :: other in db.payments && db.payments[other].org == org
                                                 && db.payments[other].key == CheckoutKey(key)
         then db'.payments == db.payments
         else db'.payments == db.payments[id :=
                Payment(org, CheckoutKey(key), Initial, status, config.price, 1, None, None)]
  {
  }

  /** A renewal's payment is stored with its key, attempt and price the first time it is answered. */
  lemma RenewalRow(db: Db, item: RenewalItem, p: ProviderPayment, now: Time, config: Config)
    requires Delivers(db, CommitRenewal(item, p), p, item.org, Renewal, item.retryCount + 1) && p.id !in db.payments
    ensures var db' := Next(db, CommitRenewal(item, p), now, config);
      && db'.payments.Keys == db.payments.Keys + {p.id}
      && var row := db'.payments[p.id];
      && row.org == item.org && row.key == RenewalKey(item.org, item.periodEnd, item.retryCount + 1)
      && row.kind == Renewal && row.attempt == item.retryCount + 1 && row.amount == config.price
      && row.status == p.status
  {
  }

  /** A full refund of the last payment ends the subscription at that moment. */
  lemma RefundRow(db: Db, e: Event, config: Config, org: string, id: RefundId)
    requires IsRefundStep(e.step) && AppliesRefund(db, e.step, id)
    requires db.refunds[id].payment in db.payments
    requires db.refunds[id].amount == db.payments[db.refunds[id].payment].amount
    requires org in db.subscriptions && db.subscriptions[org].lastPayment == Some(RefundIn(e.step).payment)
    ensures var db' := Next(db, e.step, e.now, config);
      && org in db'.subscriptions
      && db'.subscriptions[org] == db.subscriptions[org].(plan := Free, status := Cancelled, periodEnd := Some(e.now),
           graceEnd := None, autoRenew := false, nextBilling := None, cancelAtPeriodEnd := true)
      && id in db'.refunds && db'.refunds[id].appliedAt == Some(e.now) && db'.refunds[id].status == RefundSucceeded
  {
  }

  /** A refund is reserved in full for a succeeded payment under a free key while none of it is live. */
  lemma ReservationRow(db: Db, payment: string, key: string, now: Time, config: Config)
    requires payment in db.payments
    ensures var db' := Next(db, ReserveRefund(payment, key), now, config);
      var id := (db.payments[payment].org, key);
      && db'.subscriptions == db.subscriptions && db'.payments == db.payments
      && if db.payments[payment].status == Succeeded && id !in db.refunds
            && forall k :: k in db.refunds && db.refunds[k].payment == payment ==>
                 db.refunds[k].status == RefundCanceled
         then db'.refunds == db.refunds[id := Refund(None, payment, Requested, db.payments[payment].amount, None)]
         else db'.refunds == db.refunds
  {
  }

  // ---------------------------------------------------------------- what changes nothing

  /** A notification that is unknown, repeated or of a pending payment, a reconciliation of an unknown payment,
      a renewal whose key another payment holds, and a refund notification that is unknown, repeated, of another
      payment or not a success change nothing at all. */
  lemma IgnoredSteps(db: Db, step: Step, now: Time, config: Config)
    requires match step
      case Webhook(p) => p.id !in db.payments || p.status == Pending || (p.status, p.id) in db.events
      case Reconcile(p) => p.id !in db.payments
      case CommitRenewal(item, p) =>
        && p.id !in db.payments
        && exists id :: id in db.payments && db.payments[id].org == item.org
                        && db.payments[id].key == RenewalKey(item.org, item.periodEnd, item.retryCount + 1)
      case RefundWebhook(r) =>
        || r.status != RefundSucceeded || r.id in db.refundEvents
        || forall k :: k in db.refunds ==> db.refunds[k].providerId != Some(r.id) || db.refunds[k].payment != r.payment
      case _ => false
    ensures Next(db, step, now, config) == db
  {
  }

  /** A snapshot that is neither a paid success nor the refusal of a renewal is only stored. */
  lemma StoredSnapshot(db: Db, step: Step, p: ProviderPayment, org: string, kind: PaymentKind, attempt: nat, now: Time,
                       config: Config)
    requires Delivers(db, step, p, org, kind, attempt)
    requires !(p.status == Succeeded && p.paid) && !(p.status == Canceled && kind == Renewal)
    ensures var db' := Next(db, step, now, config);
      && db'.subscriptions == db.subscriptions && p.id in db'.payments && db'.payments[p.id].status == p.status
      && (p.id in db.payments ==> db'.payments[p.id] == db.payments[p.id].(status := p.status))
  {
    hide Next, PaymentCall;
    DeliveryCalls(db, step, p, org, kind, attempt, now, config);
    if p.id in db.payments {
      KnownPaymentIsKept(db, step, p, config);
    }
  }

  lemma KnownPaymentIsKept(db: Db, step: Step, p: ProviderPayment, config: Config)
    requires PaymentCall(db, step, config).Some? && PaymentCall(db, step, config).value.p == p && p.id in db.payments
    ensures var d := PaymentCall(db, step, config).value.db;
      p.id in d.payments && d.payments[p.id].(status := p.status) == db.payments[p.id].(status := p.status)
  {
  }

  /** A refund notification is remembered, so that it acts once. */
  lemma RefundRemembered(db: Db, r: ProviderRefund, k: RefundId, now: Time, config: Config)
    requires r.status == RefundSucceeded && r.id !in db.refundEvents
    requires k in db.refunds && db.refunds[k].providerId == Some(r.id) && db.refunds[k].payment == r.payment
    ensures var db' := Next(db, RefundWebhook(r), now, config);
      && db'.refundEvents == db.refundEvents + {r.id}
      && k in db'.refunds && db'.refunds[k].status == RefundSucceeded && db'.refunds[k].appliedAt.Some?
  {
  }

  /** A refund that is not of a whole payment leaves every subscription as it is. */
  lemma PartialRefundKeepsPlan(db: Db, e: Event, config: Config)
    requires IsRefundStep(e.step)
    requires forall k :: k in db.refunds && db.refunds[k].payment in db.payments ==>
      db.refunds[k].amount != db.payments[db.refunds[k].payment].amount
    ensures Next(db, e.step, e.now, config).subscriptions == db.subscriptions
  {
    assert forall k :: k in db.refunds ==> !IsFull(db, db.refunds[k]);
    hide IsFull;
    var call := RefundCall(db, e.step);
    if call.Some? {
      RefundCallKeepsAmounts(db, e.step);
    }
  }

  lemma RefundCallKeepsAmounts(db: Db, step: Step)
    requires RefundCall(db, step).Some?
    ensures var d := RefundCall(db, step).value.0;
      && d.subscriptions == db.subscriptions && d.refunds.Keys == db.refunds.Keys
      && forall k :: k in db.refunds ==> (IsFull(d, d.refunds[k]) <==> IsFull(db, db.refunds[k]))
  {
  }

  /** The provider's answer to a refund is stored: under the reservation it answers, or, later, under the
      provider's own id. */
  lemma RefundAnswerStored(db: Db, id: RefundId, r: ProviderRefund, now: Time, config: Config)
    requires id in db.refunds
    ensures var committed := Next(db, CommitRefund(id, r), now, config);
      var reconciled := Next(db, ReconcileRefund(r), now, config);
      && ((forall k :: k in db.refunds && k != id ==> db.refunds[k].providerId != Some(r.id)) ==>
            && id in committed.refunds && committed.refunds[id].providerId == Some(r.id)
            && committed.refunds[id].status == r.status)
      && id in reconciled.refunds
      && (db.refunds[id].providerId == Some(r.id) ==> reconciled.refunds[id].status == r.status)
      && (db.refunds[id].providerId != Some(r.id) ==> reconciled.refunds[id] == db.refunds[id])
  {
  }
}
