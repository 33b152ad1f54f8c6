/** What every run of the billing steps keeps about subscriptions and the organization row. */
module BillingInvariants {
  import opened Common
  import opened Calendar
  import opened BillingModel

  ghost predicate RefsExist(plans: seq<Plan>, orgs: seq<Org>, subs: seq<Subscription>) {
    forall i :: 0 <= i < |subs| ==> subs[i].plan < |plans| && subs[i].tenant < |orgs|
  }

  /** A tenant has at most one subscription that is not soft-deleted. */
  ghost predicate OneLive(subs: seq<Subscription>) {
    forall i, j :: 0 <= i < j < |subs| && !subs[i].deleted && !subs[j].deleted ==> subs[i].tenant != subs[j].tenant
  }

  ghost predicate ProviderIdsUnique(subs: seq<Subscription>) {
    forall i, j :: 0 <= i < j < |subs| && subs[i].providerId.Some? ==> subs[i].providerId != subs[j].providerId
  }

  ghost predicate CodesUnique(plans: seq<Plan>) {
    forall i, j :: 0 <= i < j < |plans| ==> plans[i].code != plans[j].code
  }

  predicate Mirrors(org: Org, sub: Subscription, code: string) {
    org.deleted || (org.status == sub.status && org.tier == code)
  }

  /** The organization row shows the status and plan code of the tenant's live subscription. */
  ghost predicate Mirrored(plans: seq<Plan>, orgs: seq<Org>, subs: seq<Subscription>)
    requires RefsExist(plans, orgs, subs)
  {
    forall i :: 0 <= i < |subs| && !subs[i].deleted ==>
      Mirrors(orgs[subs[i].tenant], subs[i], plans[subs[i].plan].code)
  }

  ghost predicate Sound(plans: seq<Plan>, orgs: seq<Org>, subs: seq<Subscription>) {
    && CodesUnique(plans) && RefsExist(plans, orgs, subs)
    && OneLive(subs) && ProviderIdsUnique(subs) && Mirrored(plans, orgs, subs)
  }

  ghost predicate BillingSound(s: Billing) {
    Sound(s.plans, s.orgs, s.subs)
  }

  lemma ReplaceKeeps(s: Billing, sub: Subscription)
    requires BillingSound(s) && !sub.deleted && (sub.status == Trial || sub.status == Active)
    ensures var r := CreateOrReplaceSubscription(s, sub); r.Some? ==> BillingSound(r.value)
  {
    var r := CreateOrReplaceSubscription(s, sub);
    if r.Some? {
      var t := r.value;
      var n := |s.subs|;
      assert t.subs[n] == sub && t.orgs[sub.tenant].deleted == s.orgs[sub.tenant].deleted;
      forall i | 0 <= i < n
        ensures t.subs[i].providerId == s.subs[i].providerId && t.subs[i].tenant == s.subs[i].tenant
        ensures t.subs[i].plan == s.subs[i].plan
        ensures !t.subs[i].deleted ==> t.subs[i] == s.subs[i] && t.subs[i].tenant != sub.tenant
      {
      }
    }
  }

  lemma UpdateKeeps(s: Billing, id: SubId, row: Subscription, status: Option<Status>, tier: Option<string>)
    requires BillingSound(s) && id < |s.subs| && !s.subs[id].deleted
    requires row.tenant == s.subs[id].tenant && row.providerId == s.subs[id].providerId && !row.deleted
    requires row.plan < |s.plans|
    requires status.GetOr(s.subs[id].status) == row.status
    requires tier.GetOr(s.plans[s.subs[id].plan].code) == s.plans[row.plan].code
    ensures var r := UpdateSubscription(s, id, row, status, tier); r.Some? && BillingSound(r.value)
  {
  }

  lemma RegisterKeeps(s: Billing, now: int)
    requires BillingSound(s)
    ensures BillingSound(Register(s, now).0)
  {
  }

  lemma SubscribeKeeps(s: Billing, tenant: TenantId, code: string, cycle: BillingCycle, checkout: Option<string>, now: int)
    requires BillingSound(s)
    ensures BillingSound(Subscribe(s, tenant, code, cycle, checkout, now).0)
  {
    var plan := FindPlanByCode(s.plans, code);
    if plan.Some? && checkout.Some? {
      var free := AmountForPlan(s.plans[plan.value], cycle) == 0;
      ReplaceKeeps(s, Subscription(
        tenant, plan.value, if free then Active else Trial, cycle, checkout, now, AddBillingPeriod(now, cycle),
        if free then None else Some(now + TRIAL_DAYS * MS_PER_DAY), false, None, false));
    }
  }

  lemma ChangePlanKeeps(s: Billing, tenant: TenantId, code: string, cycle: BillingCycle, checkout: Option<string>, now: int)
    requires BillingSound(s)
    ensures BillingSound(ChangePlan(s, tenant, code, cycle, checkout, now).0)
  {
    var current := CurrentSubscription(s.subs, tenant);
    var plan := FindPlanByCode(s.plans, code);
    if current.None? {
      SubscribeKeeps(s, tenant, code, cycle, checkout, now);
    } else if plan.Some? {
      var row := s.subs[current.value].(
        plan := plan.value, cycle := cycle, periodStart := now, periodEnd := AddBillingPeriod(now, cycle),
        cancelAtPeriodEnd := false, status := Active);
      UpdateKeeps(s, current.value, row, Some(Active), Some(s.plans[plan.value].code));
    }
  }

  lemma CancelKeeps(s: Billing, tenant: TenantId, atPeriodEnd: Option<bool>, now: int)
    requires BillingSound(s)
    ensures BillingSound(Cancel(s, tenant, atPeriodEnd, now).0)
  {
  }

  lemma ApplyWebhookKeeps(s: Billing, d: Delivery)
    requires BillingSound(s)
    ensures BillingSound(ApplyWebhookEvent(s, d).0)
  {
    if d.subscriptionId.Some? {
      var found := SubscriptionByProviderId(s.subs, d.subscriptionId.value);
      if found.Some? {
        var id := found.value;
        match d.event
        case PaymentCaptured => CaptureKeeps(s, id, d);
        case SubscriptionCharged => CaptureKeeps(s, id, d);
        case PaymentFailed => FailureKeeps(s, id, d);
        case SubscriptionRenewed => RenewalKeeps(s, id, d.now);
        case SubscriptionActivated => RenewalKeeps(s, id, d.now);
        case SubscriptionCancelled => CancellationKeeps(s, id, d.now);
        case OtherEvent =>
      }
    }
  }

  lemma RenewalKeeps(s: Billing, id: SubId, now: int)
    requires BillingSound(s) && id < |s.subs| && !s.subs[id].deleted
    ensures BillingSound(UpdateSubscription(s, id, Renewed(s.subs[id], now), Some(Active), None).GetOr(s))
  {
    UpdateKeeps(s, id, Renewed(s.subs[id], now), Some(Active), None);
  }

  lemma CancellationKeeps(s: Billing, id: SubId, now: int)
    requires BillingSound(s) && id < |s.subs| && !s.subs[id].deleted
    ensures var row := s.subs[id].(status := Cancelled, cancelledAt := Some(now), cancelAtPeriodEnd := false);
            BillingSound(UpdateSubscription(s, id, row, Some(Cancelled), None).GetOr(s))
  {
    var row := s.subs[id].(status := Cancelled, cancelledAt := Some(now), cancelAtPeriodEnd := false);
    UpdateKeeps(s, id, row, Some(Cancelled), None);
  }

  lemma FailureKeeps(s: Billing, id: SubId, d: Delivery)
    requires BillingSound(s) && id < |s.subs| && !s.subs[id].deleted
    ensures BillingSound(HandlePaymentFailed(s, id, d).0)
  {
    var sub := s.subs[id];
    var amount := d.paymentAmount.GetOr(AmountForPlan(s.plans[sub.plan], sub.cycle));
    var noted := s.(attempts := s.attempts + [PaymentAttempt(sub.tenant, id, d.paymentId, amount)]);
    UpdateKeeps(noted, id, sub.(status := PastDue), Some(PastDue), None);
  }

  lemma CaptureKeeps(s: Billing, id: SubId, d: Delivery)
    requires BillingSound(s) && id < |s.subs| && !s.subs[id].deleted
    ensures BillingSound(HandlePaymentCaptured(s, id, d).0)
  {
    var sub := s.subs[id];
    var invoice := InvoiceFor(s, id, d.invoiceNumber);
    var payment := Payment(sub.tenant, id, |s.invoices|, d.paymentId, d.paymentAmount.GetOr(invoice.total), Captured);
    var paid := s.(invoices := s.invoices + [invoice], payments := s.payments + [payment]);
    UpdateKeeps(paid, id, Renewed(sub, d.now), Some(Active), None);
  }

  lemma StepKeeps(s: Billing, e: Event)
    requires BillingSound(s)
    ensures BillingSound(Apply(s, e))
  {
    match e
    case RegisterCall(now) => RegisterKeeps(s, now);
    case SubscribeCall(tenant, code, cycle, checkout, now) => SubscribeKeeps(s, tenant, code, cycle, checkout, now);
    case ChangeCall(tenant, code, cycle, checkout, now) => ChangePlanKeeps(s, tenant, code, cycle, checkout, now);
    case CancelCall(tenant, atPeriodEnd, now) => CancelKeeps(s, tenant, atPeriodEnd, now);
    case WebhookCall(d) => ApplyWebhookKeeps(s, d);
    case CreatePlanCall(_) => PlansKept(s, Apply(s, e).plans);
    case UpdatePlanCall(_, _, _) => PlansKept(s, Apply(s, e).plans);
    case UsageCall(_, _) => OrgsKept(s, Apply(s, e).orgs);
    case OrgDeleted(_) => OrgsKept(s, Apply(s, e).orgs);
  }

  lemma PlansKept(s: Billing, plans: seq<Plan>)
    requires BillingSound(s) && CodesUnique(plans) && |s.plans| <= |plans|
    requires forall i :: 0 <= i < |s.plans| ==> plans[i].code == s.plans[i].code
    ensures Sound(plans, s.orgs, s.subs)
  {
  }

  lemma OrgsKept(s: Billing, orgs: seq<Org>)
    requires BillingSound(s) && |s.orgs| == |orgs|
    requires forall i :: 0 <= i < |s.orgs| ==>
               orgs[i].deleted || (!s.orgs[i].deleted && orgs[i].status == s.orgs[i].status && orgs[i].tier == s.orgs[i].tier)
    ensures Sound(s.plans, orgs, s.subs)
  {
  }

  lemma EmptyIsSound()
    ensures BillingSound(EMPTY)
  {
  }

  /**
   * Over every run: at most one live subscription per tenant, provider ids unique, and each organization that is
   * not deleted shows the status and plan code of its tenant's live subscription.
   */
  lemma {:induction false} EveryRunIsMirrored(s: Billing, es: seq<Event>)
    requires BillingSound(s)
    ensures BillingSound(Run(s, es))
    decreases |es|
  {
    if |es| > 0 {
      EveryRunIsMirrored(s, es[..|es| - 1]);
      StepKeeps(Run(s, es[..|es| - 1]), es[|es| - 1]);
    }
  }

  /** A webhook touches the rows of one tenant only, and rows it adds to the ledger are that tenant's. */
  ghost predicate TouchesOnly(s: Billing, t: Billing, tenant: TenantId) {
    && t.plans == s.plans && |t.orgs| == |s.orgs| && |t.subs| == |s.subs|
    && (forall i :: 0 <= i < |s.orgs| && i != tenant ==> t.orgs[i] == s.orgs[i])
    && (forall i :: 0 <= i < |s.orgs| ==> t.orgs[i] == s.orgs[i].(status := t.orgs[i].status, tier := t.orgs[i].tier))
    && (forall i :: 0 <= i < |s.subs| && s.subs[i].tenant != tenant ==> t.subs[i] == s.subs[i])
    && s.invoices <= t.invoices && s.payments <= t.payments && s.attempts <= t.attempts
    && (forall i :: |s.invoices| <= i < |t.invoices| ==> t.invoices[i].tenant == tenant)
    && (forall i :: |s.payments| <= i < |t.payments| ==> t.payments[i].tenant == tenant)
    && (forall i :: |s.attempts| <= i < |t.attempts| ==> t.attempts[i].tenant == tenant)
  }

  /** Writes of one capture, failure or status event, the ledger appends `s` to `noted` included. */
  lemma UpdateTouches(s: Billing, noted: Billing, id: SubId, row: Subscription, status: Option<Status>)
    requires id < |s.subs| && row.tenant == s.subs[id].tenant
    requires TouchesOnly(s, noted, row.tenant) && noted.subs == s.subs && noted.orgs == s.orgs
    ensures TouchesOnly(s, UpdateSubscription(noted, id, row, status, None).GetOr(noted), row.tenant)
  {
  }

  lemma InvoiceTouches(s: Billing, invoice: Invoice)
    ensures TouchesOnly(s, s.(invoices := s.invoices + [invoice]), invoice.tenant)
  {
  }

  lemma PaymentTouches(s: Billing, t: Billing, payment: Payment)
    requires TouchesOnly(s, t, payment.tenant) && t.payments == s.payments
    ensures TouchesOnly(s, t.(payments := t.payments + [payment]), payment.tenant)
  {
  }

  lemma CaptureTouches(s: Billing, id: SubId, d: Delivery)
    requires id < |s.subs|
    ensures TouchesOnly(s, HandlePaymentCaptured(s, id, d).0, s.subs[id].tenant)
  {
    var sub := s.subs[id];
    if sub.plan < |s.plans| {
      var invoice := InvoiceFor(s, id, d.invoiceNumber);
      var payment := Payment(sub.tenant, id, |s.invoices|, d.paymentId, d.paymentAmount.GetOr(invoice.total), Captured);
      var invoiced := s.(invoices := s.invoices + [invoice]);
      InvoiceTouches(s, invoice);
      PaymentTouches(s, invoiced, payment);
      UpdateTouches(s, invoiced.(payments := s.payments + [payment]), id, Renewed(sub, d.now), Some(Active));
    }
  }

  lemma FailureTouches(s: Billing, id: SubId, d: Delivery)
    requires id < |s.subs|
    ensures TouchesOnly(s, HandlePaymentFailed(s, id, d).0, s.subs[id].tenant)
  {
  }

  /** The subscription a delivery is about. */
  function Subject(s: Billing, d: Delivery): Option<SubId> {
    if d.subscriptionId.None? then None else SubscriptionByProviderId(s.subs, d.subscriptionId.value)
  }

  lemma EventTouches(s: Billing, d: Delivery)
    requires Subject(s, d).Some?
    ensures TouchesOnly(s, ApplyWebhookEvent(s, d).0, s.subs[Subject(s, d).value].tenant)
  {
    var id := Subject(s, d).value;
    var sub := s.subs[id];
    match d.event
    case PaymentCaptured => CaptureTouches(s, id, d);
    case SubscriptionCharged => CaptureTouches(s, id, d);
    case PaymentFailed => FailureTouches(s, id, d);
    case SubscriptionRenewed => UpdateTouches(s, s, id, Renewed(sub, d.now), Some(Active));
    case SubscriptionActivated => UpdateTouches(s, s, id, Renewed(sub, d.now), Some(Active));
    case SubscriptionCancelled =>
      var row := sub.(status := Cancelled, cancelledAt := Some(d.now), cancelAtPeriodEnd := false);
      UpdateTouches(s, s, id, row, Some(Cancelled));
    case OtherEvent =>
  }

  /** A webhook changes no other tenant's rows, and nothing but its own event row when it finds no subscription. */
  lemma WebhookTouchesOneTenant(s: Billing, d: Delivery)
    ensures var t := Webhook(s, d).0;
            if Subject(s, d).Some? then TouchesOnly(s, t, s.subs[Subject(s, d).value].tenant)
            else t == s.(webhooks := t.webhooks)
    ensures forall key :: key != d.eventId && key in s.webhooks ==>
              key in Webhook(s, d).0.webhooks && Webhook(s, d).0.webhooks[key] == s.webhooks[key]
  {
    if Subject(s, d).Some? {
      EventTouches(s, d);
    }
  }

  ghost predicate PeriodsOrdered(subs: seq<Subscription>) {
    forall i :: 0 <= i < |subs| ==> subs[i].periodStart < subs[i].periodEnd
  }

  lemma UpdatePeriods(s: Billing, id: SubId, row: Subscription, status: Option<Status>, tier: Option<string>)
    requires PeriodsOrdered(s.subs) && row.periodStart < row.periodEnd
    ensures PeriodsOrdered(UpdateSubscription(s, id, row, status, tier).GetOr(s).subs)
  {
  }

  lemma WebhookPeriods(s: Billing, d: Delivery)
    requires PeriodsOrdered(s.subs)
    ensures PeriodsOrdered(ApplyWebhookEvent(s, d).0.subs)
  {
    if Subject(s, d).Some? {
      var id := Subject(s, d).value;
      var sub := s.subs[id];
      PeriodEndsLater(d.now, sub.cycle);
      match d.event
      case PaymentCaptured => CapturePeriods(s, id, d);
      case SubscriptionCharged => CapturePeriods(s, id, d);
      case PaymentFailed => FailurePeriods(s, id, d);
      case SubscriptionRenewed => UpdatePeriods(s, id, Renewed(sub, d.now), Some(Active), None);
      case SubscriptionActivated => UpdatePeriods(s, id, Renewed(sub, d.now), Some(Active), None);
      case SubscriptionCancelled =>
        var row := sub.(status := Cancelled, cancelledAt := Some(d.now), cancelAtPeriodEnd := false);
        UpdatePeriods(s, id, row, Some(Cancelled), None);
      case OtherEvent =>
    }
  }

  lemma FailurePeriods(s: Billing, id: SubId, d: Delivery)
    requires PeriodsOrdered(s.subs) && id < |s.subs|
    ensures PeriodsOrdered(HandlePaymentFailed(s, id, d).0.subs)
  {
  }

  lemma CapturePeriods(s: Billing, id: SubId, d: Delivery)
    requires PeriodsOrdered(s.subs) && id < |s.subs|
    ensures PeriodsOrdered(HandlePaymentCaptured(s, id, d).0.subs)
  {
    PeriodEndsLater(d.now, s.subs[id].cycle);
  }

  lemma SubscribePeriods(s: Billing, tenant: TenantId, code: string, cycle: BillingCycle, checkout: Option<string>, now: int)
    requires PeriodsOrdered(s.subs)
    ensures PeriodsOrdered(Subscribe(s, tenant, code, cycle, checkout, now).0.subs)
  {
    PeriodEndsLater(now, cycle);
  }

  lemma ChangePeriods(s: Billing, tenant: TenantId, code: string, cycle: BillingCycle, checkout: Option<string>, now: int)
    requires PeriodsOrdered(s.subs)
    ensures PeriodsOrdered(ChangePlan(s, tenant, code, cycle, checkout, now).0.subs)
  {
    SubscribePeriods(s, tenant, code, cycle, checkout, now);
    PeriodEndsLater(now, cycle);
  }

  lemma StepPeriods(s: Billing, e: Event)
    requires PeriodsOrdered(s.subs)
    ensures PeriodsOrdered(Apply(s, e).subs)
  {
    if e.WebhookCall? {
      WebhookPeriods(s, e.delivery);
    } else if e.SubscribeCall? {
      SubscribePeriods(s, e.tenant, e.code, e.cycle, e.checkout, e.now);
    } else if e.ChangeCall? {
      ChangePeriods(s, e.tenant, e.code, e.cycle, e.checkout, e.now);
    }
  }

  /** Over every run, every subscription's period ends after it starts. */
  lemma {:induction false} EveryPeriodEndsLater(s: Billing, es: seq<Event>)
    requires PeriodsOrdered(s.subs)
    ensures PeriodsOrdered(Run(s, es).subs)
    decreases |es|
  {
    if |es| > 0 {
      EveryPeriodEndsLater(s, es[..|es| - 1]);
      StepPeriods(Run(s, es[..|es| - 1]), es[|es| - 1]);
    }
  }
}
