/**
 The billing tables and what each transaction of the billing service does to them. Webhooks, the
 renewal worker, the reconcilers, the expiry sweep, user requests and refunds all write the same rows;
 every transaction is one atomic step at the database clock's `now()`.
 */
module BillingModel {
  import opened Options
  import opened Plans

  datatype SubscriptionStatus = Inactive | Active | PastDue | Cancelled

  /** A row of `subscriptions`; its key is the organization. */
  datatype Subscription = Subscription(
    plan: Plan,
    status: SubscriptionStatus,
    periodEnd: Option<Time>,
    graceEnd: Option<Time>,
    retryCount: nat,
    autoRenew: bool,
    nextBilling: Option<Time>,
    paymentMethod: Option<string>,
    lastPayment: Option<string>,
    cancelAtPeriodEnd: bool,
    errorCode: Option<string>)

  datatype PaymentStatus = Pending | WaitingForCapture | Succeeded | Canceled

  datatype PaymentKind = Initial | Renewal

  /** `sha256("renewal:org:period:attempt")` is treated as injective; a checkout key is the client's. */
  datatype IdempotencyKey =
    | CheckoutKey(key: string)
    | RenewalKey(org: string, periodEnd: Time, attempt: nat)

  /** A row of `billing_payments`; its key is the provider's payment id. */
  datatype Payment = Payment(
    org: string,
    key: IdempotencyKey,
    kind: PaymentKind,
    status: PaymentStatus,
    amount: nat,
    attempt: nat,
    entitlementAppliedAt: Option<Time>,
    failureAppliedAt: Option<Time>)

  datatype RefundStatus = Requested | RefundPending | RefundSucceeded | RefundCanceled

  /** A row of `billing_refunds`; its key is the organization and the idempotency key. */
  datatype Refund = Refund(
    providerId: Option<string>,
    payment: string,
    status: RefundStatus,
    amount: nat,
    appliedAt: Option<Time>)

  type RefundId = (string, string)

  /** What the provider says about a payment at some moment; it may be stale when it is applied. */
  datatype ProviderPayment = ProviderPayment(
    id: string,
    status: PaymentStatus,
    paid: bool,
    savedMethod: Option<string>,
    reason: Option<string>)

  datatype ProviderRefund = ProviderRefund(id: string, payment: string, status: RefundStatus)

  datatype LocalPayment = LocalPayment(org: string, kind: PaymentKind, attempt: nat)

  /** A claimed renewal, as the worker remembers it. */
  datatype RenewalItem = RenewalItem(org: string, periodEnd: Time, retryCount: nat)

  /** `month` stands for the calendar month, taken as a fixed length. */
  datatype Config = Config(month: Time, gracePeriodDays: nat, retryScheduleHours: seq<nat>, price: nat) {
    predicate Valid() {
      && 0 < month && 0 < price
      && 1 <= gracePeriodDays <= 30
      && 1 <= |retryScheduleHours| <= 10
      && (forall i :: 0 <= i < |retryScheduleHours| ==> 1 <= retryScheduleHours[i] <= gracePeriodDays * 24)
      && (forall i, j :: 0 <= i < j < |retryScheduleHours| ==> retryScheduleHours[i] < retryScheduleHours[j])
    }

    function Grace(): Time { gracePeriodDays * DAY }
  }

  datatype Db = Db(
    subscriptions: map<string, Subscription>,
    payments: map<string, Payment>,
    events: set<(PaymentStatus, string)>,
    refundEvents: set<string>,
    refunds: map<RefundId, Refund>)

  function Max(a: Time, b: Time): Time {
    if a < b then b else a
  }

  // ---------------------------------------------------------------- row transitions

  /** `schedule[attempt - 1]` */
  function RetryDelayHours(attempt: nat, schedule: seq<nat>): Option<nat> {
    if 1 <= attempt <= |schedule| then Some(schedule[attempt - 1]) else None
  }

  /** The upsert of a paid period. */
  function Extended(row: Option<Subscription>, p: ProviderPayment, now: Time, config: Config): Subscription {
    match row
    case None =>
      var end := now + config.month;
      Subscription(Pro, Active, Some(end), None, 0, p.savedMethod.Some?,
                   if p.savedMethod.Some? then Some(end) else None,
                   p.savedMethod, Some(p.id), false, None)
    case Some(s) =>
      var end := Max(s.periodEnd.GetOr(now), now) + config.month;
      var paymentMethod := if p.savedMethod.Some? then p.savedMethod else s.paymentMethod;
      Subscription(Pro, Active, Some(end), None, 0, p.savedMethod.Some? || s.autoRenew,
                   if paymentMethod.Some? then Some(end) else None,
                   paymentMethod, Some(p.id), false, None)
  }

  /** `COALESCE(grace_period_end, current_period_end + grace, now)` with the given last resort. */
  function GraceDeadline(s: Subscription, fallback: Time, config: Config): Time {
    if s.graceEnd.Some? then s.graceEnd.value
    else if s.periodEnd.Some? then s.periodEnd.value + config.Grace()
    else fallback
  }

  /** The dunning update after a canceled renewal. */
  function Failed(s: Subscription, attempt: nat, reason: Option<string>, now: Time, config: Config): Subscription {
    var code := reason.GetOr("payment_canceled");
    var revoked := code == "permission_revoked";
    var delay := if revoked then None else RetryDelayHours(attempt, config.retryScheduleHours);
    var exhausted := delay.None? || now + delay.value * HOUR >= GraceDeadline(s, now, config);
    s.(status := if exhausted then Cancelled else PastDue,
       plan := if exhausted then Free else s.plan,
       graceEnd := Some(GraceDeadline(s, now + config.Grace(), config)),
       retryCount := if s.retryCount < attempt then attempt else s.retryCount,
       nextBilling := if exhausted then None else Some(now + delay.value * HOUR),
       autoRenew := !exhausted && s.autoRenew,
       paymentMethod := if revoked then None else s.paymentMethod,
       errorCode := Some(code))
  }

  function Refunded(s: Subscription, now: Time): Subscription {
    s.(plan := Free, status := Cancelled, periodEnd := Some(now), graceEnd := None, autoRenew := false,
       nextBilling := None, cancelAtPeriodEnd := true)
  }

  function Expired(s: Subscription, now: Time): Subscription {
    if s.status == PastDue && s.graceEnd.Some? && s.graceEnd.value <= now then
      s.(plan := Free, status := Cancelled, autoRenew := false, nextBilling := None)
    else s
  }

  /** The plan that a subscription row entitles to at `now`. */
  function EntitledPlan(s: Subscription, now: Time): Plan {
    if (s.status == Active || s.status == PastDue)
       && ((s.periodEnd.Some? && s.periodEnd.value > now) || (s.graceEnd.Some? && s.graceEnd.value > now))
    then s.plan else Free
  }

  /** `activePlan` */
  function ActivePlan(db: Db, org: string, now: Time): Plan {
    if org in db.subscriptions then EntitledPlan(db.subscriptions[org], now) else Free
  }

  // ---------------------------------------------------------------- applyPaymentLifecycle

  function Row(db: Db, org: string): Option<Subscription> {
    if org in db.subscriptions then Some(db.subscriptions[org]) else None
  }

  predicate WillExtend(db: Db, p: ProviderPayment) {
    && p.status == Succeeded && p.paid
    && p.id in db.payments && db.payments[p.id].entitlementAppliedAt.None?
  }

  predicate WillFail(db: Db, local: LocalPayment, p: ProviderPayment) {
    && p.status == Canceled && local.kind == Renewal
    && p.id in db.payments && db.payments[p.id].failureAppliedAt.None?
  }

  function WithStatus(db: Db, id: string, status: PaymentStatus): Db {
    if id in db.payments then db.(payments := db.payments[id := db.payments[id].(status := status)]) else db
  }

  function AppliedPayment(db: Db, local: LocalPayment, p: ProviderPayment, now: Time, config: Config): Db {
    var d := WithStatus(db, p.id, p.status);
    if WillExtend(db, p) then
      d.(payments := d.payments[p.id := d.payments[p.id].(entitlementAppliedAt := Some(now))],
         subscriptions := d.subscriptions[local.org := Extended(Row(d, local.org), p, now, config)])
    else if WillFail(db, local, p) then
      d.(payments := d.payments[p.id := d.payments[p.id].(failureAppliedAt := Some(now))],
         subscriptions := if local.org in d.subscriptions then
             d.subscriptions[local.org := Failed(d.subscriptions[local.org], local.attempt, p.reason, now, config)]
           else d.subscriptions)
    else d
  }

  // ---------------------------------------------------------------- applyRefundLifecycle

  predicate Unapplied(row: Refund, r: ProviderRefund) {
    row.providerId == Some(r.id) && row.appliedAt.None?
  }

  /** The refunded amount is the whole amount of the refund's own payment. */
  predicate IsFull(db: Db, row: Refund) {
    row.payment in db.payments && row.amount == db.payments[row.payment].amount
  }

  function AppliedRefund(db: Db, r: ProviderRefund, now: Time): Db {
    if r.status == RefundSucceeded && exists k :: k in db.refunds && Unapplied(db.refunds[k], r) then
      var full := exists k :: k in db.refunds && db.refunds[k].providerId == Some(r.id) && IsFull(db, db.refunds[k]);
      db.(refunds := map k | k in db.refunds ::
            if Unapplied(db.refunds[k], r) then db.refunds[k].(appliedAt := Some(now)) else db.refunds[k],
          subscriptions := map org | org in db.subscriptions ::
            if full && db.subscriptions[org].lastPayment == Some(r.payment)
            then Refunded(db.subscriptions[org], now) else db.subscriptions[org])
    else db
  }

  // ---------------------------------------------------------------- the transactions

  datatype Step =
    | Checkout(org: string, key: string, id: string, status: PaymentStatus)
    | Webhook(p: ProviderPayment)
    | Reconcile(p: ProviderPayment)
    | ClaimRenewal(org: string)
    | CommitRenewal(item: RenewalItem, p: ProviderPayment)
    | AbandonRenewal(org: string)
    | ExpireGracePeriods
    | CancelRenewals(org: string)
    | ResumeRenewals(org: string)
    | CloseWorkspace(org: string)
    | ReserveRefund(payment: string, key: string)
    | CommitRefund(refund: RefundId, r: ProviderRefund)
    | RefundWebhook(r: ProviderRefund)
    | ReconcileRefund(r: ProviderRefund)

  predicate KeyTaken(db: Db, org: string, key: IdempotencyKey) {
    exists id :: id in db.payments && db.payments[id].org == org && db.payments[id].key == key
  }

  /** `claimRenewal` picks only subscriptions that are due, renewable and not cancelled. */
  predicate Claimable(s: Subscription, now: Time) {
    && s.autoRenew && s.paymentMethod.Some? && s.periodEnd.Some?
    && s.nextBilling.Some? && s.nextBilling.value <= now
    && (s.status == Active || s.status == PastDue)
  }

  function KeyOf(item: RenewalItem): IdempotencyKey {
    RenewalKey(item.org, item.periodEnd, item.retryCount + 1)
  }

  /** The renewal transaction's upsert of its payment row; a clash with another payment's idempotency
      key aborts the transaction. */
  function InsertedRenewal(db: Db, item: RenewalItem, p: ProviderPayment, config: Config): Option<Db> {
    if p.id in db.payments then Some(WithStatus(db, p.id, p.status))
    else if KeyTaken(db, item.org, KeyOf(item)) then None
    else Some(db.(payments := db.payments[p.id :=
      Payment(item.org, KeyOf(item), Renewal, p.status, config.price, item.retryCount + 1, None, None)]))
  }

  function Local(row: Payment): LocalPayment {
    LocalPayment(row.org, row.kind, row.attempt)
  }

  /** A call of `applyPaymentLifecycle` inside a transaction: the tables it finds, and its arguments. */
  datatype Call = Call(db: Db, local: LocalPayment, p: ProviderPayment)

  /** The payment lifecycle call that a step makes, if it makes one. */
  function PaymentCall(db: Db, step: Step, config: Config): Option<Call> {
    match step
    case Webhook(p) =>
      if p.id in db.payments && p.status != Pending && (p.status, p.id) !in db.events then
        Some(Call(db.(events := db.events + {(p.status, p.id)}), Local(db.payments[p.id]), p))
      else None
    case Reconcile(p) =>
      if p.id in db.payments then Some(Call(db, Local(db.payments[p.id]), p)) else None
    case CommitRenewal(item, p) =>
      var d := InsertedRenewal(db, item, p, config);
      if d.Some? then Some(Call(d.value, LocalPayment(item.org, Renewal, item.retryCount + 1), p)) else None
    case _ => None
  }

  predicate Live(status: RefundStatus) {
    status != RefundCanceled
  }

  function Reserved(db: Db, payment: string, key: string): Db {
    if payment in db.payments && db.payments[payment].status == Succeeded then
      var id := (db.payments[payment].org, key);
      if id in db.refunds
         || exists k :: k in db.refunds && db.refunds[k].payment == payment && Live(db.refunds[k].status)
      then db
      else db.(refunds := db.refunds[id := Refund(None, payment, Requested, db.payments[payment].amount, None)])
    else db
  }

  /** `UPDATE billing_refunds SET status WHERE provider_refund_id = r.id` */
  function WithRefundStatus(db: Db, r: ProviderRefund): Db {
    db.(refunds := map k | k in db.refunds ::
      if db.refunds[k].providerId == Some(r.id) then db.refunds[k].(status := r.status) else db.refunds[k])
  }

  /** The refund lifecycle call that a step makes, if it makes one: the tables it finds, and the
      provider's refund. */
  function RefundCall(db: Db, step: Step): Option<(Db, ProviderRefund)> {
    match step
    case CommitRefund(id, r) =>
      if id in db.refunds && !(exists k :: k in db.refunds && k != id && db.refunds[k].providerId == Some(r.id))
      then Some((db.(refunds := db.refunds[id := db.refunds[id].(providerId := Some(r.id), status := r.status)]), r))
      else None
    case RefundWebhook(r) =>
      if r.status == RefundSucceeded && r.id !in db.refundEvents
         && exists k :: k in db.refunds && db.refunds[k].providerId == Some(r.id) && db.refunds[k].payment == r.payment
      then Some((WithRefundStatus(db.(refundEvents := db.refundEvents + {r.id}), r), r))
      else None
    case ReconcileRefund(r) => Some((WithRefundStatus(db, r), r))
    case _ => None
  }

  /** The transactions that call neither lifecycle. */
  function Housekeeping(db: Db, step: Step, now: Time, config: Config): Db {
    match step
    case Checkout(org, key, id, status) =>
      if id in db.payments || KeyTaken(db, org, CheckoutKey(key)) then db
      else
        var payment := Payment(org, CheckoutKey(key), Initial, status, config.price, 1, None, None);
        db.(payments := db.payments[id := payment])
    case ReserveRefund(payment, key) => Reserved(db, payment, key)
    case _ => db.(subscriptions := map org | org in db.subscriptions :: Adjusted(db.subscriptions[org], org, step, now))
  }

  /** What a housekeeping step writes into the subscription of `org`. */
  function Adjusted(s: Subscription, org: string, step: Step, now: Time): Subscription {
    match step
    case ClaimRenewal(o) =>
      if o == org && Claimable(s, now) then s.(nextBilling := Some(now + 15 * MINUTE)) else s
    case AbandonRenewal(o) =>
      if o == org then s.(nextBilling := Some(now + HOUR)) else s
    case ExpireGracePeriods => Expired(s, now)
    case CancelRenewals(o) =>
      if o == org then s.(autoRenew := false, cancelAtPeriodEnd := true, nextBilling := None) else s
    case ResumeRenewals(o) =>
      if o == org && s.paymentMethod.Some? && s.periodEnd.Some? && s.periodEnd.value > now
      then s.(autoRenew := true, cancelAtPeriodEnd := false, nextBilling := s.periodEnd) else s
    case CloseWorkspace(o) =>
      if o == org then
        s.(paymentMethod := None, autoRenew := false, nextBilling := None, cancelAtPeriodEnd := true)
      else s
    case _ => s
  }

  predicate IsPaymentStep(step: Step) {
    step.Webhook? || step.Reconcile? || step.CommitRenewal?
  }

  predicate IsRefundStep(step: Step) {
    step.CommitRefund? || step.RefundWebhook? || step.ReconcileRefund?
  }

  /** The tables after one transaction. A transaction that fails changes nothing. */
  function Next(db: Db, step: Step, now: Time, config: Config): Db {
    if IsPaymentStep(step) then
      var call := PaymentCall(db, step, config);
      if call.Some? then AppliedPayment(call.value.db, call.value.local, call.value.p, now, config) else db
    else if IsRefundStep(step) then
      var call := RefundCall(db, step);
      if call.Some? then AppliedRefund(call.value.0, call.value.1, now) else db
    else Housekeeping(db, step, now, config)
  }

  // ---------------------------------------------------------------- runs

  datatype Event = Event(step: Step, now: Time)

  /** The tables after a whole run of transactions. */
  function After(db: Db, run: seq<Event>, config: Config): Db {
    if run == [] then db
    else Next(After(db, run[..|run| - 1], config), run[|run| - 1].step, run[|run| - 1].now, config)
  }

  const Empty := Db(map[], map[], {}, {}, map[])
}
