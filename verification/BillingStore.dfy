/**
 The billing transactions as the service performs them: statement by statement, on tables that are
 updated in place. Each is proved to have the effect that `BillingModel.Next` describes.
 */
module BillingStore {
  import opened Options
  import opened BillingModel
  import opened Plans

  class Store {
    var subscriptions: map<string, Subscription>
    var payments: map<string, Payment>
    var events: set<(PaymentStatus, string)>
    var refundEvents: set<string>
    var refunds: map<RefundId, Refund>

    ghost function View(): Db
      reads this
    {
      Db(subscriptions, payments, events, refundEvents, refunds)
    }

    constructor ()
      ensures View() == Empty
    {
      subscriptions, payments, events, refundEvents, refunds := map[], map[], {}, {}, map[];
    }

    /** `applyPaymentLifecycle`: store the snapshot, then grant the period or record the failure, each
        guarded by its own marker. */
    method ApplyPaymentLifecycle(local: LocalPayment, p: ProviderPayment, now: Time, config: Config)
      modifies this
      ensures View() == AppliedPayment(old(View()), local, p, now, config)
    {
      if p.id in payments {
        payments := payments[p.id := payments[p.id].(status := p.status)];
      }
      if p.status == Succeeded && p.paid {
        if p.id !in payments || payments[p.id].entitlementAppliedAt.Some? {
          return;
        }
        payments := payments[p.id := payments[p.id].(entitlementAppliedAt := Some(now))];
        var existing := if local.org in subscriptions then Some(subscriptions[local.org]) else None;
        subscriptions := subscriptions[local.org := Extended(existing, p, now, config)];
        return;
      }
      if p.status != Canceled || local.kind != Renewal {
        return;
      }
      if p.id !in payments || payments[p.id].failureAppliedAt.Some? {
        return;
      }
      payments := payments[p.id := payments[p.id].(failureAppliedAt := Some(now))];
      if local.org in subscriptions {
        subscriptions := subscriptions[local.org :=
          Failed(subscriptions[local.org], local.attempt, p.reason, now, config)];
      }
    }

    /** `applyRefundLifecycle` */
    method ApplyRefundLifecycle(r: ProviderRefund, now: Time)
      modifies this
      ensures View() == AppliedRefund(old(View()), r, now)
    {
      if r.status != RefundSucceeded {
        return;
      }
      if !exists k :: k in refunds && Unapplied(refunds[k], r) {
        return;
      }
      refunds := map k | k in refunds ::
        if Unapplied(refunds[k], r) then refunds[k].(appliedAt := Some(now)) else refunds[k];
      var full := exists k :: k in refunds && refunds[k].providerId == Some(r.id)
                              && refunds[k].payment in payments
                              && refunds[k].amount == payments[refunds[k].payment].amount;
      assert full <==> exists k :: k in old(refunds) && old(refunds)[k].providerId == Some(r.id)
                                   && IsFull(old(View()), old(refunds)[k]) by {
        assert forall k :: k in refunds ==>
          refunds[k].payment == old(refunds)[k].payment && refunds[k].amount == old(refunds)[k].amount
          && refunds[k].providerId == old(refunds)[k].providerId;
      }
      subscriptions := map org | org in subscriptions ::
        if full && subscriptions[org].lastPayment == Some(r.payment)
        then Refunded(subscriptions[org], now) else subscriptions[org];
    }

    /** A verified payment notification. A repeated event is recorded once and then ignored. */
    method HandleWebhook(p: ProviderPayment, now: Time, config: Config) returns (known: bool)
      modifies this
      ensures View() == Next(old(View()), Webhook(p), now, config)
      ensures known == (p.status != Pending && p.id in old(payments))
      ensures events == if known then old(events) + {(p.status, p.id)} else old(events)
      ensures known && (p.status, p.id) !in old(events) ==> payments[p.id].status == p.status
    {
      known := p.status != Pending && p.id in payments;
      if !known || (p.status, p.id) in events {
        return;
      }
      events := events + {(p.status, p.id)};
      var row := payments[p.id];
      ApplyPaymentLifecycle(LocalPayment(row.org, row.kind, row.attempt), p, now, config);
    }

    /** `reconcile`, after the provider answered. */
    method ReconcilePayment(p: ProviderPayment, now: Time, config: Config)
      modifies this
      ensures View() == Next(old(View()), Reconcile(p), now, config)
    {
      if p.id in payments {
        var row := payments[p.id];
        ApplyPaymentLifecycle(LocalPayment(row.org, row.kind, row.attempt), p, now, config);
      }
    }

    /** `claimRenewal`, for one organization that is due. */
    method TakeRenewal(org: string, now: Time, config: Config) returns (item: Option<RenewalItem>)
      modifies this
      ensures View() == Next(old(View()), ClaimRenewal(org), now, config)
      ensures item.Some? <==> org in old(subscriptions) && Claimable(old(subscriptions)[org], now)
      ensures item.Some? ==> var s := old(subscriptions)[org];
        item.value == RenewalItem(org, s.periodEnd.value, s.retryCount)
    {
      item := None;
      if org in subscriptions && Claimable(subscriptions[org], now) {
        var s := subscriptions[org];
        item := Some(RenewalItem(org, s.periodEnd.value, s.retryCount));
        subscriptions := subscriptions[org := s.(nextBilling := Some(now + 15 * MINUTE))];
      }
      assert subscriptions == Next(old(View()), ClaimRenewal(org), now, config).subscriptions;
    }

    /** The transaction of `renew`. It fails, and changes nothing, when another payment already holds
        the renewal's idempotency key. */
    method CommitRenewalPayment(item: RenewalItem, p: ProviderPayment, now: Time, config: Config) returns (ok: bool)
      modifies this
      ensures View() == Next(old(View()), CommitRenewal(item, p), now, config)
      ensures ok <==> p.id in old(payments) || !KeyTaken(old(View()), item.org, KeyOf(item))
    {
      var key := KeyOf(item);
      ok := true;
      if p.id in payments {
        payments := payments[p.id := payments[p.id].(status := p.status)];
      } else if exists id :: id in payments && payments[id].org == item.org && payments[id].key == key {
        ok := false;
        return;
      } else {
        payments := payments[p.id :=
          Payment(item.org, key, Renewal, p.status, config.price, item.retryCount + 1, None, None)];
      }
      ApplyPaymentLifecycle(LocalPayment(item.org, Renewal, item.retryCount + 1), p, now, config);
    }

    method ExpireGrace(now: Time, config: Config)
      modifies this
      ensures View() == Next(old(View()), ExpireGracePeriods, now, config)
    {
      subscriptions := map org | org in subscriptions :: Expired(subscriptions[org], now);
    }

    /** The refund reservation: one live refund per payment. */
    method ReserveFullRefund(payment: string, key: string, now: Time, config: Config)
      returns (reserved: Option<RefundId>)
      modifies this
      ensures View() == Next(old(View()), ReserveRefund(payment, key), now, config)
      ensures reserved.Some? <==>
        && payment in old(payments) && old(payments)[payment].status == Succeeded
        && var id := (old(payments)[payment].org, key);
           if id in old(refunds) then old(refunds)[id].payment == payment
           else !exists k :: k in old(refunds) && old(refunds)[k].payment == payment && Live(old(refunds)[k].status)
      ensures reserved.Some? ==>
        && reserved.value == (old(payments)[payment].org, key)
        && reserved.value in refunds && refunds[reserved.value].payment == payment
    {
      reserved := None;
      if payment !in payments || payments[payment].status != Succeeded {
        return;
      }
      var id := (payments[payment].org, key);
      if id in refunds {
        if refunds[id].payment == payment {
          reserved := Some(id);
        }
        return;
      }
      if exists k :: k in refunds && refunds[k].payment == payment && Live(refunds[k].status) {
        return;
      }
      refunds := refunds[id := Refund(None, payment, Requested, payments[payment].amount, None)];
      reserved := Some(id);
    }

    /** Storing the provider's answer to a refund request. */
    method CommitRefundAnswer(id: RefundId, r: ProviderRefund, now: Time, config: Config)
      modifies this
      ensures View() == Next(old(View()), CommitRefund(id, r), now, config)
    {
      if id !in refunds || exists k :: k in refunds && k != id && refunds[k].providerId == Some(r.id) {
        return;
      }
      refunds := refunds[id := refunds[id].(providerId := Some(r.id), status := r.status)];
      ApplyRefundLifecycle(r, now);
    }

    /** `reconcileRefund`, after the provider answered. */
    method ReconcileRefundStatus(r: ProviderRefund, now: Time, config: Config)
      modifies this
      ensures View() == Next(old(View()), ReconcileRefund(r), now, config)
    {
      refunds := map k | k in refunds ::
        if refunds[k].providerId == Some(r.id) then refunds[k].(status := r.status) else refunds[k];
      ApplyRefundLifecycle(r, now);
    }
  }
}
