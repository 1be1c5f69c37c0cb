/**
 Exactly-once billing effects. Provider snapshots reach the tables through webhooks, renewal commits
 and reconciliation, in any order, any number of times and possibly stale; nothing is assumed about
 them here. The "applied" markers still count every effect exactly.
 */
module BillingLedger {
  import opened Options
  import opened BillingModel
  import opened Plans

  function Bit(b: bool): nat {
    if b then 1 else 0
  }

  // ---------------------------------------------------------------- effects and markers

  datatype Effect = Effect(payment: string, org: string)

  /** The paid period that a step grants: which payment, to which organization. */
  function Extension(db: Db, step: Step, config: Config): Option<Effect> {
    var call := PaymentCall(db, step, config);
    if call.Some? && WillExtend(call.value.db, call.value.p)
    then Some(Effect(call.value.p.id, call.value.local.org)) else None
  }

  /** The dunning failure that a step records. */
  function Failure(db: Db, step: Step, config: Config): Option<Effect> {
    var call := PaymentCall(db, step, config);
    if call.Some? && WillFail(call.value.db, call.value.local, call.value.p)
    then Some(Effect(call.value.p.id, call.value.local.org)) else None
  }

  /** A step applies the refund in row `id`. */
  predicate AppliesRefund(db: Db, step: Step, id: RefundId) {
    var call := RefundCall(db, step);
    && call.Some? && call.value.1.status == RefundSucceeded
    && id in call.value.0.refunds && Unapplied(call.value.0.refunds[id], call.value.1)
  }

  predicate PeriodMarked(db: Db, id: string) {
    id in db.payments && db.payments[id].entitlementAppliedAt.Some?
  }

  predicate FailureMarked(db: Db, id: string) {
    id in db.payments && db.payments[id].failureAppliedAt.Some?
  }

  predicate RefundMarked(db: Db, id: RefundId) {
    id in db.refunds && db.refunds[id].appliedAt.Some?
  }

  predicate Hits(effect: Option<Effect>, id: string) {
    effect.Some? && effect.value.payment == id
  }

  // ---------------------------------------------------------------- one step

  /** Preparing a lifecycle call sets no marker and touches no subscription. */
  lemma CallSetsNothing(db: Db, step: Step, config: Config, id: string)
    requires PaymentCall(db, step, config).Some?
    ensures var call := PaymentCall(db, step, config).value;
      && call.db.subscriptions == db.subscriptions
      && PeriodMarked(call.db, id) == PeriodMarked(db, id)
      && FailureMarked(call.db, id) == FailureMarked(db, id)
  {
  }

  lemma LifecycleCounts(db: Db, local: LocalPayment, p: ProviderPayment, now: Time, config: Config, id: string)
    ensures var next := AppliedPayment(db, local, p, now, config);
      && Bit(PeriodMarked(db, id)) + Bit(WillExtend(db, p) && p.id == id) == Bit(PeriodMarked(next, id))
      && Bit(FailureMarked(db, id)) + Bit(WillFail(db, local, p) && p.id == id) == Bit(FailureMarked(next, id))
  {
  }

  lemma OthersSetNothing(db: Db, step: Step, now: Time, config: Config, id: string)
    requires !IsPaymentStep(step)
    ensures PeriodMarked(Next(db, step, now, config), id) == PeriodMarked(db, id)
    ensures FailureMarked(Next(db, step, now, config), id) == FailureMarked(db, id)
  {
  }

  lemma StepCounts(db: Db, e: Event, config: Config, id: string)
    ensures Bit(PeriodMarked(db, id)) + Bit(Hits(Extension(db, e.step, config), id)) ==
            Bit(PeriodMarked(Next(db, e.step, e.now, config), id))
    ensures Bit(FailureMarked(db, id)) + Bit(Hits(Failure(db, e.step, config), id)) ==
            Bit(FailureMarked(Next(db, e.step, e.now, config), id))
  {
    var call := PaymentCall(db, e.step, config);
    if call.Some? {
      CallSetsNothing(db, e.step, config, id);
      LifecycleCounts(call.value.db, call.value.local, call.value.p, e.now, config, id);
    } else if !IsPaymentStep(e.step) {
      OthersSetNothing(db, e.step, e.now, config, id);
    }
  }

  lemma StepCountsRefunds(db: Db, e: Event, config: Config, id: RefundId)
    ensures Bit(RefundMarked(db, id)) + Bit(AppliesRefund(db, e.step, id)) ==
            Bit(RefundMarked(Next(db, e.step, e.now, config), id))
  {
    if IsPaymentStep(e.step) {
      PaymentsKeepRefunds(db, e, config);
    } else if RefundCall(db, e.step).Some? {
      RefundCallSetsNothing(db, e.step, id);
    }
  }

  lemma PaymentsKeepRefunds(db: Db, e: Event, config: Config)
    requires IsPaymentStep(e.step)
    ensures Next(db, e.step, e.now, config).refunds == db.refunds
  {
  }

  lemma RefundCallSetsNothing(db: Db, step: Step, id: RefundId)
    requires RefundCall(db, step).Some?
    ensures RefundMarked(RefundCall(db, step).value.0, id) == RefundMarked(db, id)
  {
  }

  // ---------------------------------------------------------------- whole runs

  /** How often a run extends a period for payment `id`. */
  function Extensions(db: Db, run: seq<Event>, config: Config, id: string): nat {
    if run == [] then 0
    else
      var before := run[..|run| - 1];
      Extensions(db, before, config, id)
      + Bit(Hits(Extension(After(db, before, config), run[|run| - 1].step, config), id))
  }

  /** How often a run applies the dunning failure of payment `id`. */
  function Failures(db: Db, run: seq<Event>, config: Config, id: string): nat {
    if run == [] then 0
    else
      var before := run[..|run| - 1];
      Failures(db, before, config, id)
      + Bit(Hits(Failure(After(db, before, config), run[|run| - 1].step, config), id))
  }

  /** How often a run lets the refund in row `id` act on subscriptions. */
  function RefundApplications(db: Db, run: seq<Event>, config: Config, id: RefundId): nat {
    if run == [] then 0
    else
      var before := run[..|run| - 1];
      RefundApplications(db, before, config, id)
      + Bit(AppliesRefund(After(db, before, config), run[|run| - 1].step, id))
  }

  /** Over every run each payment extends a period at most once and applies its failure at most once,
      and the markers in its row say exactly whether it has. */
  lemma {:induction false} PaymentsCountOnce(db: Db, run: seq<Event>, config: Config, id: string)
    ensures Bit(PeriodMarked(db, id)) + Extensions(db, run, config, id) == Bit(PeriodMarked(After(db, run, config), id))
    ensures Bit(FailureMarked(db, id)) + Failures(db, run, config, id) == Bit(FailureMarked(After(db, run, config), id))
  {
    hide Next, Extension, Failure;
    if run != [] {
      var before := run[..|run| - 1];
      PaymentsCountOnce(db, before, config, id);
      StepCounts(After(db, before, config), run[|run| - 1], config, id);
    }
  }

  /** Each refund acts at most once, and its marker says whether it has. */
  lemma {:induction false} RefundsCountOnce(db: Db, run: seq<Event>, config: Config, id: RefundId)
    ensures Bit(RefundMarked(db, id)) + RefundApplications(db, run, config, id) ==
            Bit(RefundMarked(After(db, run, config), id))
  {
    hide Next, AppliesRefund;
    if run != [] {
      var before := run[..|run| - 1];
      RefundsCountOnce(db, before, config, id);
      StepCountsRefunds(After(db, before, config), run[|run| - 1], config, id);
    }
  }

  // ---------------------------------------------------------------- replays

  /** The provider snapshot that a step delivers, if it delivers one. */
  function Delivered(step: Step): Option<ProviderPayment> {
    match step
    case Webhook(p) => Some(p)
    case Reconcile(p) => Some(p)
    case CommitRenewal(_, p) => Some(p)
    case _ => None
  }

  /** Once a payment's period was granted, delivering its success again, by any route and after
      anything else has happened, leaves every subscription as it is. The same holds for failures. */
  lemma ReplayIsSilent(db: Db, run: seq<Event>, config: Config, step: Step, now: Time)
    requires Delivered(step).Some?
    requires var p := Delivered(step).value;
      || (p.status == Succeeded && PeriodMarked(db, p.id))
      || (p.status == Canceled && FailureMarked(db, p.id))
    ensures Next(After(db, run, config), step, now, config).subscriptions == After(db, run, config).subscriptions
  {
    PaymentsCountOnce(db, run, config, Delivered(step).value.id);
  }

  // ---------------------------------------------------------------- what moves a paid period

  /** Outside refunds, only a granted period moves a period end, and only that organization's. */
  lemma OnlyExtensionsMovePeriods(db: Db, e: Event, config: Config, org: string)
    requires !IsRefundStep(e.step)
    ensures var next := Next(db, e.step, e.now, config); var ext := Extension(db, e.step, config);
      PeriodEnd(next, org) ==
        if ext.Some? && ext.value.org == org then Some(Max(PeriodEnd(db, org).GetOr(e.now), e.now) + config.month)
        else PeriodEnd(db, org)
  {
    var call := PaymentCall(db, e.step, config);
    if call.Some? {
      CallSetsNothing(db, e.step, config, "");
      LifecycleMovesPeriod(call.value.db, call.value.local, call.value.p, e.now, config, org);
    }
  }

  function PeriodEnd(db: Db, org: string): Option<Time> {
    if org in db.subscriptions then db.subscriptions[org].periodEnd else None
  }

  lemma LifecycleMovesPeriod(db: Db, local: LocalPayment, p: ProviderPayment, now: Time, config: Config, org: string)
    ensures PeriodEnd(AppliedPayment(db, local, p, now, config), org) ==
      if WillExtend(db, p) && local.org == org then Some(Max(PeriodEnd(db, org).GetOr(now), now) + config.month)
      else PeriodEnd(db, org)
  {
  }

  /** The payments that a run turned into paid time for `org`, with the moments they were applied. */
  function Granted(db: Db, run: seq<Event>, config: Config, org: string): seq<(string, Time)> {
    if run == [] then []
    else
      var before, last := run[..|run| - 1], run[|run| - 1];
      var ext := Extension(After(db, before, config), last.step, config);
      if ext.Some? && ext.value.org == org
      then Granted(db, before, config, org) + [(ext.value.payment, last.now)]
      else Granted(db, before, config, org)
  }

  lemma {:induction false} GrantedAreMarked(db: Db, run: seq<Event>, config: Config, org: string)
    ensures forall i :: 0 <= i < |Granted(db, run, config, org)| ==>
      PeriodMarked(After(db, run, config), Granted(db, run, config, org)[i].0)
  {
    hide Next, Extension, PeriodMarked;
    if run != [] {
      var before, last := run[..|run| - 1], run[|run| - 1];
      GrantedAreMarked(db, before, config, org);
      var mid := After(db, before, config);
      var old', granted := Granted(db, before, config, org), Granted(db, run, config, org);
      forall i | 0 <= i < |granted|
        ensures PeriodMarked(After(db, run, config), granted[i].0)
      {
        StepCounts(mid, last, config, granted[i].0);
        if i < |old'| {
          assert granted[i] == old'[i] && PeriodMarked(mid, old'[i].0);
        } else {
          assert Hits(Extension(mid, last.step, config), granted[i].0);
        }
      }
    }
  }

  predicate AllDistinct(granted: seq<(string, Time)>) {
    forall i, j :: 0 <= i < j < |granted| ==> granted[i].0 != granted[j].0
  }

  /** Paid time is granted by distinct payments. */
  lemma {:induction false} GrantedAreDistinct(db: Db, run: seq<Event>, config: Config, org: string)
    ensures AllDistinct(Granted(db, run, config, org))
  {
    hide Next, Extension, PeriodMarked;
    if run != [] {
      var before, last := run[..|run| - 1], run[|run| - 1];
      GrantedAreDistinct(db, before, config, org);
      GrantedAreMarked(db, before, config, org);
      var old', granted := Granted(db, before, config, org), Granted(db, run, config, org);
      forall i, j | 0 <= i < j < |granted|
        ensures granted[i].0 != granted[j].0
      {
        assert granted[i] == old'[i];
        if j < |old'| {
          assert granted[j] == old'[j];
        } else {
          assert Hits(Extension(After(db, before, config), last.step, config), granted[j].0);
          StepCounts(After(db, before, config), last, config, granted[j].0);
        }
      }
    }
  }

  /** `end` is the largest of `t_i + (k - i) * month` over the k grants, counted from zero. */
  ghost predicate PaidUntil(granted: seq<(string, Time)>, month: Time, end: Time) {
    && (forall i :: 0 <= i < |granted| ==> granted[i].1 + (|granted| - i) * month <= end)
    && (exists i :: 0 <= i < |granted| && granted[i].1 + (|granted| - i) * month == end)
  }

  lemma OneMoreMonth(granted: seq<(string, Time)>, month: Time, end: Time, id: string, now: Time)
    requires granted != [] ==> PaidUntil(granted, month, end)
    ensures PaidUntil(granted + [(id, now)], month, (if granted == [] then now else Max(end, now)) + month)
  {
    var more := granted + [(id, now)];
    var end' := (if granted == [] then now else Max(end, now)) + month;
    forall i | 0 <= i < |granted|
      ensures more[i].1 + (|more| - i) * month == granted[i].1 + (|granted| - i) * month + month {}
    assert more[|granted|].1 + (|more| - |granted|) * month == now + month;
    if granted != [] && now <= end {
      var i :| 0 <= i < |granted| && granted[i].1 + (|granted| - i) * month == end;
      assert more[i].1 + (|more| - i) * month == end';
    }
  }

  /** Paid time is conserved: whatever failures, cancellations, resumptions and sweeps come between,
      a subscription that has no period when the run starts ends where its paid months, laid end to
      end from the moments they were applied, end. Refunds excepted. */
  lemma {:induction false} PaidTimeConserved(db: Db, run: seq<Event>, config: Config, org: string)
    requires PeriodEnd(db, org).None?
    requires forall i :: 0 <= i < |run| ==> !IsRefundStep(run[i].step)
    ensures var end := PeriodEnd(After(db, run, config), org); var granted := Granted(db, run, config, org);
      if granted == [] then end.None? else end.Some? && PaidUntil(granted, config.month, end.value)
  {
    hide Next, Extension, PeriodEnd, PaidUntil;
    if run != [] {
      var before, last := run[..|run| - 1], run[|run| - 1];
      PaidTimeConserved(db, before, config, org);
      var mid := After(db, before, config);
      OnlyExtensionsMovePeriods(mid, last, config, org);
      var ext := Extension(mid, last.step, config);
      if ext.Some? && ext.value.org == org {
        OneMoreMonth(Granted(db, before, config, org), config.month, PeriodEnd(mid, org).GetOr(0),
                     ext.value.payment, last.now);
      }
    }
  }
}
