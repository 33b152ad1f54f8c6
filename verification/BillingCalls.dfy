/** What a caller may rely on after each billing call. */
module BillingCalls {
  import opened Common
  import opened Calendar
  import opened BillingModel
  import opened BillingInvariants
  import opened BillingLedger

  /** What holds in every state of the store. */
  ghost predicate StoreSound(s: Billing) {
    BillingSound(s) && LedgerSound(s.invoices, s.payments) && PeriodsOrdered(s.subs)
  }

  lemma StepKeepsLedger(s: Billing, e: Event)
    requires LedgerSound(s.invoices, s.payments)
    ensures LedgerSound(Apply(s, e).invoices, Apply(s, e).payments)
  {
    if e.WebhookCall? {
      WebhookKeepsLedger(s, e.delivery);
    } else {
      OtherStepsLedger(s, e);
    }
  }

  lemma StepKeepsAll(s: Billing, e: Event)
    requires StoreSound(s)
    ensures StoreSound(Apply(s, e))
  {
    BillingInvariants.StepKeeps(s, e);
    StepKeepsLedger(s, e);
    StepPeriods(s, e);
  }

  /** The tenant's one live subscription is `id`, on the plan with this code, and the organization shows it. */
  predicate IsOnPlan(s: Billing, tenant: TenantId, id: SubId, code: string) {
    && CurrentSubscription(s.subs, tenant) == Some(id)
    && tenant < |s.orgs| && s.subs[id].plan < |s.plans| && s.plans[s.subs[id].plan].code == code
    && Mirrors(s.orgs[tenant], s.subs[id], code)
  }

  /** No other tenant's organization or subscriptions, no plan and no ledger row changes. */
  ghost predicate OthersKept(s: Billing, t: Billing, tenant: TenantId) {
    && t.plans == s.plans && t.invoices == s.invoices && t.payments == s.payments && t.webhooks == s.webhooks
    && |t.orgs| == |s.orgs| && |s.subs| <= |t.subs|
    && (forall i :: 0 <= i < |s.orgs| && i != tenant ==> t.orgs[i] == s.orgs[i])
    && (forall i :: 0 <= i < |s.orgs| ==> t.orgs[i] == s.orgs[i].(status := t.orgs[i].status, tier := t.orgs[i].tier))
    && (forall i :: 0 <= i < |s.subs| && s.subs[i].tenant != tenant ==> t.subs[i] == s.subs[i])
    && (forall i :: |s.subs| <= i < |t.subs| ==> t.subs[i].tenant == tenant)
  }

  lemma LiveIsOnPlan(s: Billing, tenant: TenantId, id: SubId)
    requires BillingSound(s) && id < |s.subs| && s.subs[id].tenant == tenant && !s.subs[id].deleted
    ensures IsOnPlan(s, tenant, id, s.plans[s.subs[id].plan].code)
  {
    var current := CurrentSubscription(s.subs, tenant);
    assert current.Some?;
    assert current.value == id;
  }

  /** The new row keeps tenant and provider id, and the organization is told what the row says. */
  predicate IsCoherent(s: Billing, id: SubId, row: Subscription, status: Option<Status>, tier: Option<string>) {
    && id < |s.subs| && s.subs[id].plan < |s.plans| && row.plan < |s.plans|
    && row.tenant == s.subs[id].tenant && row.providerId == s.subs[id].providerId && !row.deleted
    && row.periodStart < row.periodEnd
    && status.GetOr(s.subs[id].status) == row.status
    && tier.GetOr(s.plans[s.subs[id].plan].code) == s.plans[row.plan].code
  }

  lemma UpdateMeans(s: Billing, id: SubId, row: Subscription, status: Option<Status>, tier: Option<string>)
    requires StoreSound(s) && IsCoherent(s, id, row, status, tier)
    ensures var r := UpdateSubscription(s, id, row, status, tier);
            && (r.Some? <==> !s.subs[id].deleted)
            && (r.Some? ==> StoreSound(r.value) && OthersKept(s, r.value, row.tenant) && r.value.subs[id] == row
                            && IsOnPlan(r.value, row.tenant, id, s.plans[row.plan].code))
  {
    if !s.subs[id].deleted {
      UpdateKeeps(s, id, row, status, tier);
      UpdatePeriods(s, id, row, status, tier);
      LiveIsOnPlan(UpdateSubscription(s, id, row, status, tier).value, row.tenant, id);
    }
  }

  /** The plan exists and is offered. */
  predicate IsOffered(s: Billing, code: string) {
    FindPlanByCode(s.plans, code).Some? && s.plans[FindPlanByCode(s.plans, code).value].isActive
  }

  /** Why a subscription is refused, the first reason counting. */
  function Refusal(s: Billing, code: string, checkout: Option<string>): BillingError {
    if !IsOffered(s, code) then PlanNotFound else if checkout.None? then ProviderFailure else ConstraintViolation
  }

  /**
   * A subscription goes through exactly for an offered plan, a checkout under a new provider id and an existing
   * organization. The tenant is then on that plan for one billing period from now, on trial for 14 days unless it is
   * free.
   */
  ghost predicate SubscribeHolds(
    s: Billing, tenant: TenantId, code: string, cycle: BillingCycle, checkout: Option<string>, now: int,
    t: Billing, r: Result<SubId, BillingError>)
  {
    && (r.Ok? <==> IsOffered(s, code) && checkout.Some? && tenant < |s.orgs|
                   && forall i :: 0 <= i < |s.subs| ==> s.subs[i].providerId != checkout)
    && (r.Err? ==> t == s && r.error == Refusal(s, code, checkout))
    && (r.Ok? ==>
          && OthersKept(s, t, tenant) && IsOnPlan(t, tenant, r.value, code)
          && r.value == |s.subs| && |t.subs| == |s.subs| + 1
          && (forall i :: 0 <= i < |s.subs| && s.subs[i].tenant == tenant ==> t.subs[i] == s.subs[i].(deleted := true))
          && var sub := t.subs[r.value];
             && sub.providerId == checkout && sub.cycle == cycle && !sub.cancelAtPeriodEnd && sub.cancelledAt.None?
             && sub.periodStart == now && sub.periodEnd == AddBillingPeriod(now, cycle)
             && (sub.status == Active <==> Costs(t.plans[sub.plan], cycle, 0))
             && (sub.status == Active ==> sub.trialEndsAt.None?)
             && (sub.status != Active ==> sub.status == Trial && sub.trialEndsAt == Some(now + 14 * 86_400_000)))
  }

  lemma SubscribeMeans(s: Billing, tenant: TenantId, code: string, cycle: BillingCycle, checkout: Option<string>, now: int)
    requires StoreSound(s)
    ensures var (t, r) := Subscribe(s, tenant, code, cycle, checkout, now);
            StoreSound(t) && SubscribeHolds(s, tenant, code, cycle, checkout, now, t, r)
  {
    var (t, r) := Subscribe(s, tenant, code, cycle, checkout, now);
    StepKeepsAll(s, SubscribeCall(tenant, code, cycle, checkout, now));
    SubscribeRow(s, tenant, code, cycle, checkout, now);
    if r.Ok? {
      SubscribeKeepsOthers(s, tenant, code, cycle, checkout, now);
      LiveIsOnPlan(t, tenant, r.value);
    }
  }

  /** When a subscription goes through, and the row it inserts. */
  lemma SubscribeRow(s: Billing, tenant: TenantId, code: string, cycle: BillingCycle, checkout: Option<string>, now: int)
    ensures var (t, r) := Subscribe(s, tenant, code, cycle, checkout, now);
            && (r.Ok? <==> IsOffered(s, code) && checkout.Some? && tenant < |s.orgs|
                           && forall i :: 0 <= i < |s.subs| ==> s.subs[i].providerId != checkout)
            && (r.Err? ==> t == s && r.error == Refusal(s, code, checkout))
            && (r.Ok? ==>
                  && r.value == |s.subs| && |t.subs| == |s.subs| + 1 && t.plans == s.plans
                  && var sub := t.subs[r.value];
                     && sub.tenant == tenant && !sub.deleted && sub.plan < |s.plans| && s.plans[sub.plan].code == code
                     && sub.providerId == checkout && sub.cycle == cycle && !sub.cancelAtPeriodEnd && sub.cancelledAt.None?
                     && sub.periodStart == now && sub.periodEnd == AddBillingPeriod(now, cycle)
                     && (sub.status == Active <==> Costs(t.plans[sub.plan], cycle, 0))
                     && (sub.status == Active ==> sub.trialEndsAt.None?)
                     && (sub.status != Active ==> sub.status == Trial && sub.trialEndsAt == Some(now + 14 * 86_400_000)))
  {
  }

  lemma SubscribeKeepsOthers(s: Billing, tenant: TenantId, code: string, cycle: BillingCycle, checkout: Option<string>, now: int)
    requires Subscribe(s, tenant, code, cycle, checkout, now).1.Ok?
    ensures var t := Subscribe(s, tenant, code, cycle, checkout, now).0;
            && OthersKept(s, t, tenant) && |t.subs| == |s.subs| + 1
            && forall i :: 0 <= i < |s.subs| && s.subs[i].tenant == tenant ==> t.subs[i] == s.subs[i].(deleted := true)
  {
  }

  /**
   * A change goes through exactly for an offered plan (without a live subscription it is a new subscription). The
   * tenant is then on that plan for one billing period from now; a live row is kept, made active and keeps its
   * provider id.
   */
  ghost predicate ChangeHolds(
    s: Billing, tenant: TenantId, code: string, cycle: BillingCycle, checkout: Option<string>, now: int,
    t: Billing, r: Result<SubId, BillingError>)
  {
    var current := CurrentSubscription(s.subs, tenant);
    if current.None? then SubscribeHolds(s, tenant, code, cycle, checkout, now, t, r)
    else
      && (r.Ok? <==> IsOffered(s, code))
      && (r.Err? ==> t == s && r.error == PlanNotFound)
      && (r.Ok? ==>
            && OthersKept(s, t, tenant) && r.value == current.value && IsOnPlan(t, tenant, r.value, code)
            && t.subs == s.subs[r.value :=
                 s.subs[r.value].(plan := t.subs[r.value].plan, cycle := cycle, status := Active, periodStart := now,
                                  periodEnd := AddBillingPeriod(now, cycle), cancelAtPeriodEnd := false)])
  }

  lemma SwitchMeans(s: Billing, tenant: TenantId, id: SubId, code: string, cycle: BillingCycle, checkout: Option<string>, now: int)
    requires StoreSound(s) && CurrentSubscription(s.subs, tenant) == Some(id)
    ensures var (t, r) := ChangePlan(s, tenant, code, cycle, checkout, now);
            ChangeHolds(s, tenant, code, cycle, checkout, now, t, r)
  {
    if IsOffered(s, code) {
      var plan := FindPlanByCode(s.plans, code).value;
      var row := s.subs[id].(plan := plan, cycle := cycle, periodStart := now, periodEnd := AddBillingPeriod(now, cycle),
                             cancelAtPeriodEnd := false, status := Active);
      PeriodEndsLater(now, cycle);
      UpdateMeans(s, id, row, Some(Active), Some(s.plans[plan].code));
    }
  }

  lemma ChangeMeans(s: Billing, tenant: TenantId, code: string, cycle: BillingCycle, checkout: Option<string>, now: int)
    requires StoreSound(s)
    ensures StoreSound(ChangePlan(s, tenant, code, cycle, checkout, now).0)
    ensures var (t, r) := ChangePlan(s, tenant, code, cycle, checkout, now);
            ChangeHolds(s, tenant, code, cycle, checkout, now, t, r)
  {
    StepKeepsAll(s, ChangeCall(tenant, code, cycle, checkout, now));
    if CurrentSubscription(s.subs, tenant).None? {
      SubscribeMeans(s, tenant, code, cycle, checkout, now);
    } else {
      SwitchMeans(s, tenant, CurrentSubscription(s.subs, tenant).value, code, cycle, checkout, now);
    }
  }

  /**
   * A cancellation goes through exactly when there is a live subscription, which stays the live one on the same
   * plan. By default it only ends with the period; at once, it and the organization are cancelled.
   */
  ghost predicate CancelHolds(
    s: Billing, tenant: TenantId, atPeriodEnd: Option<bool>, now: int, t: Billing, r: Result<SubId, BillingError>)
  {
    && (r.Ok? <==> CurrentSubscription(s.subs, tenant).Some?)
    && (r.Err? ==> t == s && r.error == SubscriptionNotFound)
    && (r.Ok? ==>
          && OthersKept(s, t, tenant) && CurrentSubscription(s.subs, tenant) == Some(r.value)
          && s.subs[r.value].plan < |s.plans|
          && IsOnPlan(t, tenant, r.value, s.plans[s.subs[r.value].plan].code)
          && t.subs == s.subs[r.value :=
               if atPeriodEnd == Some(false)
               then s.subs[r.value].(status := Cancelled, cancelledAt := Some(now), cancelAtPeriodEnd := false)
               else s.subs[r.value].(cancelAtPeriodEnd := true, cancelledAt := None)])
  }

  lemma CancelMeans(s: Billing, tenant: TenantId, atPeriodEnd: Option<bool>, now: int)
    requires StoreSound(s)
    ensures var (t, r) := Cancel(s, tenant, atPeriodEnd, now);
            StoreSound(t) && CancelHolds(s, tenant, atPeriodEnd, now, t, r)
  {
    CancelKeepsSound(s, tenant, atPeriodEnd, now);
    CancelRow(s, tenant, atPeriodEnd, now);
    if CurrentSubscription(s.subs, tenant).Some? {
      CancelStaysOnPlan(s, tenant, atPeriodEnd, now);
    }
  }

  lemma CancelKeepsSound(s: Billing, tenant: TenantId, atPeriodEnd: Option<bool>, now: int)
    requires StoreSound(s)
    ensures StoreSound(Cancel(s, tenant, atPeriodEnd, now).0)
  {
    StepKeepsAll(s, CancelCall(tenant, atPeriodEnd, now));
  }

  lemma CancelStaysOnPlan(s: Billing, tenant: TenantId, atPeriodEnd: Option<bool>, now: int)
    requires StoreSound(s) && BillingSound(Cancel(s, tenant, atPeriodEnd, now).0)
    requires CurrentSubscription(s.subs, tenant).Some?
    ensures var id := CurrentSubscription(s.subs, tenant).value;
            && s.subs[id].plan < |s.plans|
            && IsOnPlan(Cancel(s, tenant, atPeriodEnd, now).0, tenant, id, s.plans[s.subs[id].plan].code)
  {
    CancelRow(s, tenant, atPeriodEnd, now);
    LiveIsOnPlan(Cancel(s, tenant, atPeriodEnd, now).0, tenant, CurrentSubscription(s.subs, tenant).value);
  }

  /** The row a cancellation rewrites, and that it rewrites no other. */
  lemma CancelRow(s: Billing, tenant: TenantId, atPeriodEnd: Option<bool>, now: int)
    requires StoreSound(s)
    ensures var (t, r) := Cancel(s, tenant, atPeriodEnd, now);
            && (r.Ok? <==> CurrentSubscription(s.subs, tenant).Some?)
            && (r.Err? ==> t == s && r.error == SubscriptionNotFound)
            && (r.Ok? ==>
                  && CurrentSubscription(s.subs, tenant) == Some(r.value) && OthersKept(s, t, tenant)
                  && t.subs == s.subs[r.value :=
                       if atPeriodEnd == Some(false)
                       then s.subs[r.value].(status := Cancelled, cancelledAt := Some(now), cancelAtPeriodEnd := false)
                       else s.subs[r.value].(cancelAtPeriodEnd := true, cancelledAt := None)])
  {
  }

  // ----- Webhooks -----

  /** The delivery's invoice number and payment id are both new. */
  ghost predicate IsNewCapture(s: Billing, id: SubId, d: Delivery)
    requires id < |s.subs|
  {
    && (forall i :: 0 <= i < |s.invoices| ==>
          !(s.invoices[i].tenant == s.subs[id].tenant && s.invoices[i].number == d.invoiceNumber))
    && (d.paymentId.Some? ==> forall k :: 0 <= k < |s.payments| ==> s.payments[k].providerPaymentId != d.paymentId)
  }

  /** The subscription is renewed for one period from the delivery on, as its organization shows. */
  ghost predicate IsRenewed(s: Billing, id: SubId, d: Delivery, t: Billing)
    requires id < |s.subs|
  {
    && id < |t.subs| && s.subs[id].plan < |s.plans| && s.subs[id].tenant < |t.orgs|
    && t.subs == s.subs[id := s.subs[id].(status := Active, periodStart := d.now,
                                          periodEnd := AddBillingPeriod(d.now, s.subs[id].cycle))]
    && Mirrors(t.orgs[s.subs[id].tenant], t.subs[id], s.plans[s.subs[id].plan].code)
  }

  /**
   * A capture goes through exactly when its invoice number and payment id are new. It then pays for the one invoice
   * it writes, for the period's price and tax: revenue grows by the payment, and the subscription is renewed. Else
   * there is no payment, and at most that invoice.
   */
  ghost predicate CaptureHolds(s: Billing, id: SubId, d: Delivery, t: Billing, error: Option<BillingError>)
    requires id < |s.subs|
  {
    && TouchesOnly(s, t, s.subs[id].tenant) && |t.invoices| <= |s.invoices| + 1
    && (|t.invoices| > |s.invoices| ==> IsInvoiceOf(s, id, d.invoiceNumber, t.invoices[|s.invoices|]))
    && (error.None? <==> IsNewCapture(s, id, d))
    && (error.Some? ==>
          error == Some(ConstraintViolation) && t.payments == s.payments && t.subs == s.subs && t.orgs == s.orgs)
    && (error.None? ==>
          && |t.invoices| == |s.invoices| + 1 && |t.payments| == |s.payments| + 1
          && t.payments[|s.payments|] ==
               Payment(s.subs[id].tenant, id, |s.invoices|, d.paymentId,
                       if d.paymentAmount.Some? then d.paymentAmount.value else t.invoices[|s.invoices|].total, Captured)
          && PaidRevenue(t.payments) == PaidRevenue(s.payments) + t.payments[|s.payments|].amount
          && IsRenewed(s, id, d, t))
  }

  lemma CaptureMeans(s: Billing, id: SubId, d: Delivery)
    requires StoreSound(s) && id < |s.subs| && !s.subs[id].deleted
    ensures var (t, error) := HandlePaymentCaptured(s, id, d); StoreSound(t) && CaptureHolds(s, id, d, t, error)
  {
    var (t, error) := HandlePaymentCaptured(s, id, d);
    CaptureKeeps(s, id, d);
    CapturePeriods(s, id, d);
    CaptureTouches(s, id, d);
    CaptureKeepsLedger(s, id, d);
    CapturePays(s, id, d);
    CaptureRenews(s, id, d);
    if error.None? {
      LiveIsOnPlan(t, s.subs[id].tenant, id);
    }
  }

  lemma CapturePays(s: Billing, id: SubId, d: Delivery)
    requires id < |s.subs| && !s.subs[id].deleted && s.subs[id].tenant < |s.orgs| && s.subs[id].plan < |s.plans|
    ensures var (t, error) := HandlePaymentCaptured(s, id, d);
            && |t.invoices| <= |s.invoices| + 1
            && (|t.invoices| > |s.invoices| ==> IsInvoiceOf(s, id, d.invoiceNumber, t.invoices[|s.invoices|]))
            && (error.None? <==> IsNewCapture(s, id, d))
            && (error.None? ==>
                  && |t.invoices| == |s.invoices| + 1 && |t.payments| == |s.payments| + 1
                  && t.payments[|s.payments|] ==
                       Payment(s.subs[id].tenant, id, |s.invoices|, d.paymentId,
                               if d.paymentAmount.Some? then d.paymentAmount.value else t.invoices[|s.invoices|].total,
                               Captured)
                  && PaidRevenue(t.payments) == PaidRevenue(s.payments) + t.payments[|s.payments|].amount)
  {
    CaptureLedger(s, id, d);
    InvoiceForIsPriced(s, id, d.invoiceNumber);
    var (t, error) := HandlePaymentCaptured(s, id, d);
    if error.None? {
      PaidRevenueAppend(s.payments, t.payments[|s.payments|]);
    }
  }

  lemma CaptureRenews(s: Billing, id: SubId, d: Delivery)
    requires id < |s.subs| && !s.subs[id].deleted && s.subs[id].tenant < |s.orgs|
    ensures var (t, error) := HandlePaymentCaptured(s, id, d);
            && t.plans == s.plans && |t.orgs| == |s.orgs| && |t.subs| == |s.subs|
            && (error.Some? ==>
                  error == Some(ConstraintViolation) && t.payments == s.payments && t.subs == s.subs && t.orgs == s.orgs)
            && (error.None? ==>
                  t.subs == s.subs[id := s.subs[id].(status := Active, periodStart := d.now,
                                                     periodEnd := AddBillingPeriod(d.now, s.subs[id].cycle))])
  {
  }

  lemma CaptureKeepsLedger(s: Billing, id: SubId, d: Delivery)
    requires LedgerSound(s.invoices, s.payments) && id < |s.subs|
    ensures var t := HandlePaymentCaptured(s, id, d).0; LedgerSound(t.invoices, t.payments)
  {
    CaptureLedger(s, id, d);
    var (t, error) := HandlePaymentCaptured(s, id, d);
    if |t.invoices| > |s.invoices| {
      var invoice := InvoiceFor(s, id, d.invoiceNumber);
      InvoiceForAddsUp(s, id, d.invoiceNumber);
      InvoiceAppended(s.invoices, s.payments, invoice);
      if error.None? {
        PaymentAppended(s.invoices, s.payments, invoice, t.payments[|s.payments|]);
      }
    }
  }

  /**
   * A failed payment leaves the ledger alone, notes one attempt at the amount given or the period's price, and shows
   * the tenant as past due.
   */
  ghost predicate FailureHolds(s: Billing, id: SubId, d: Delivery, t: Billing, error: Option<BillingError>)
    requires id < |s.subs|
  {
    && TouchesOnly(s, t, s.subs[id].tenant) && t.invoices == s.invoices && t.payments == s.payments
    && error.None? && |t.attempts| == |s.attempts| + 1
    && s.subs[id].plan < |s.plans| && s.subs[id].tenant < |t.orgs|
    && var attempt := t.attempts[|s.attempts|];
       && attempt.tenant == s.subs[id].tenant && attempt.subscription == id && attempt.providerPaymentId == d.paymentId
       && (if d.paymentAmount.Some? then attempt.amount == d.paymentAmount.value
           else Costs(s.plans[s.subs[id].plan], s.subs[id].cycle, attempt.amount))
       && t.subs == s.subs[id := s.subs[id].(status := PastDue)]
       && Mirrors(t.orgs[s.subs[id].tenant], t.subs[id], s.plans[s.subs[id].plan].code)
  }

  lemma FailureMeans(s: Billing, id: SubId, d: Delivery)
    requires StoreSound(s) && id < |s.subs| && !s.subs[id].deleted
    ensures var (t, error) := HandlePaymentFailed(s, id, d); StoreSound(t) && FailureHolds(s, id, d, t, error)
  {
    FailureKeeps(s, id, d);
    FailurePeriods(s, id, d);
    FailureTouches(s, id, d);
    var t := HandlePaymentFailed(s, id, d).0;
    LiveIsOnPlan(t, s.subs[id].tenant, id);
  }

  /** A cancellation by the provider ends the subscription now, on both rows. */
  ghost predicate IsEnded(s: Billing, id: SubId, d: Delivery, t: Billing)
    requires id < |s.subs|
  {
    && id < |t.subs| && s.subs[id].plan < |s.plans| && s.subs[id].tenant < |t.orgs|
    && t.subs == s.subs[id := s.subs[id].(status := Cancelled, cancelledAt := Some(d.now), cancelAtPeriodEnd := false)]
    && Mirrors(t.orgs[s.subs[id].tenant], t.subs[id], s.plans[s.subs[id].plan].code)
  }

  /**
   * An event changes the rows of its subscription's tenant only, and nothing when it finds no subscription; only a
   * capture writes invoices and payments. A renewal or activation renews the subscription, a cancellation ends it,
   * and any other event changes nothing.
   */
  ghost predicate EventHolds(s: Billing, d: Delivery, t: Billing, error: Option<BillingError>) {
    match Subject(s, d)
    case None =>
      t == s && error == Some(if d.subscriptionId.None? then MissingSubscriptionId else SubscriptionNotFound)
    case Some(id) =>
      && id < |s.subs| && TouchesOnly(s, t, s.subs[id].tenant)
      && match d.event
         case PaymentCaptured => CaptureHolds(s, id, d, t, error)
         case SubscriptionCharged => CaptureHolds(s, id, d, t, error)
         case PaymentFailed => FailureHolds(s, id, d, t, error)
         case SubscriptionRenewed => SameRows(s, t) && error.None? && IsRenewed(s, id, d, t)
         case SubscriptionActivated => SameRows(s, t) && error.None? && IsRenewed(s, id, d, t)
         case SubscriptionCancelled => SameRows(s, t) && error.None? && IsEnded(s, id, d, t)
         case OtherEvent => t == s && error.None?
  }

  predicate SameRows(s: Billing, t: Billing) {
    t.invoices == s.invoices && t.payments == s.payments && t.attempts == s.attempts
  }

  lemma EventMeans(s: Billing, d: Delivery)
    requires StoreSound(s)
    ensures var (t, error) := ApplyWebhookEvent(s, d); StoreSound(t) && EventHolds(s, d, t, error)
  {
    ApplyWebhookKeeps(s, d);
    WebhookPeriods(s, d);
    if Subject(s, d).Some? {
      var id := Subject(s, d).value;
      EventTouches(s, d);
      match d.event
      case PaymentCaptured => CaptureMeans(s, id, d);
      case SubscriptionCharged => CaptureMeans(s, id, d);
      case PaymentFailed => FailureMeans(s, id, d);
      case OtherEvent =>
      case _ => StatusEventMeans(s, id, d);
    }
  }

  lemma StatusEventMeans(s: Billing, id: SubId, d: Delivery)
    requires StoreSound(s) && Subject(s, d) == Some(id)
    requires d.event in {SubscriptionRenewed, SubscriptionActivated, SubscriptionCancelled}
    ensures var (t, error) := ApplyWebhookEvent(s, d);
            && LedgerSound(t.invoices, t.payments) && SameRows(s, t) && error.None?
            && (if d.event == SubscriptionCancelled then IsEnded(s, id, d, t) else IsRenewed(s, id, d, t))
  {
    var t := ApplyWebhookEvent(s, d).0;
    ApplyWebhookKeeps(s, d);
    LiveIsOnPlan(t, s.subs[id].tenant, id);
  }

  /**
   * What is remembered of a delivery: an unsigned one and a duplicate leave no trace; another is kept under the event
   * type it first came with, done exactly when it was processed, and else with its error.
   */
  lemma WebhookRemembers(s: Billing, d: Delivery)
    ensures var (t, outcome) := Webhook(s, d);
            var known := d.eventId in s.webhooks;
            && (outcome == FailedWith(InvalidSignature) <==> !d.signed)
            && (outcome == Duplicate <==> d.signed && known && s.webhooks[d.eventId].processed)
            && (!d.signed || outcome == Duplicate ==> t == s)
            && (d.signed && outcome != Duplicate ==>
                  && t.webhooks.Keys == s.webhooks.Keys + {d.eventId}
                  && t.webhooks[d.eventId].event == (if known then s.webhooks[d.eventId].event else d.event)
                  && (t.webhooks[d.eventId].processed <==> outcome == Processed)
                  && (outcome.FailedWith? ==> t.webhooks[d.eventId].error == Some(outcome.error))
                  && (outcome == Processed ==> t.webhooks[d.eventId].error.None?))
  {
    OnlyUnsignedFailSo(s, d);
  }

  lemma WebhookKeepsSound(s: Billing, d: Delivery)
    requires StoreSound(s)
    ensures StoreSound(Webhook(s, d).0)
  {
    StepKeepsAll(s, WebhookCall(d));
  }

  lemma OnlyUnsignedFailSo(s: Billing, d: Delivery)
    ensures ApplyWebhookEvent(s, d).1 != Some(InvalidSignature)
  {
  }

  /** A new organization starts on the starter plan, on trial for 14 days, with one employee and nothing else used. */
  lemma RegisterMeans(s: Billing, now: int)
    requires StoreSound(s)
    ensures var (t, r) := Register(s, now);
            && StoreSound(t) && (r.Ok? <==> IsOffered(s, "starter")) && (r.Err? ==> t == s && r.error == PlanNotFound)
            && (r.Ok? ==>
                  && r.value == |s.orgs| && IsOnPlan(t, r.value, |s.subs|, "starter")
                  && t == s.(orgs := t.orgs, subs := t.subs) && s.subs <= t.subs && |t.subs| == |s.subs| + 1
                  && t.orgs == s.orgs + [Org(Trial, "starter", false, Some(Usage(0, 1, 0, 0)))]
                  && var sub := t.subs[|s.subs|];
                     && sub.status == Trial && sub.cycle == Monthly && sub.providerId.None?
                     && sub.periodStart == now && sub.periodEnd == now + 14 * 86_400_000
                     && sub.trialEndsAt == Some(sub.periodEnd) && !sub.cancelAtPeriodEnd && sub.cancelledAt.None?)
  {
    StepKeepsAll(s, RegisterCall(now));
    var (t, r) := Register(s, now);
    if r.Ok? {
      LiveIsOnPlan(t, r.value, |s.subs|);
    }
  }

  // ----- Plan administration -----

  /** Some live subscription that is not cancelled is on the plan. */
  ghost predicate IsSubscribedTo(s: Billing, id: PlanId) {
    exists i :: 0 <= i < |s.subs| && s.subs[i].plan == id && !s.subs[i].deleted && s.subs[i].status != Cancelled
  }

  /** A plan is created exactly under a new code. */
  lemma CreatePlanMeans(s: Billing, plan: Plan)
    requires StoreSound(s)
    ensures var (t, r) := CreatePlan(s, plan);
            && StoreSound(t) && (r.Ok? <==> forall i :: 0 <= i < |s.plans| ==> s.plans[i].code != plan.code)
            && t == s.(plans := if r.Ok? then s.plans + [plan] else s.plans)
            && r == if r.Ok? then Ok(|s.plans|) else Err(PlanCodeExists)
  {
    StepKeepsAll(s, CreatePlanCall(plan));
  }

  /** A plan's code never changes, and a plan in use cannot be deactivated. */
  lemma UpdatePlanMeans(s: Billing, id: PlanId, plan: Plan, deactivates: bool)
    requires StoreSound(s)
    ensures var (t, r) := UpdatePlan(s, id, plan, deactivates);
            && StoreSound(t) && (r.Ok? <==> id < |s.plans| && !(deactivates && IsSubscribedTo(s, id)))
            && (r.Err? ==> t == s && r.error == if id < |s.plans| then PlanHasSubscriptions else PlanNotFound)
            && (r.Ok? ==>
                  && t == s.(plans := t.plans) && |t.plans| == |s.plans|
                  && (forall i :: 0 <= i < |s.plans| && i != id ==> t.plans[i] == s.plans[i])
                  && t.plans[id] == plan.(code := s.plans[id].code, isActive := t.plans[id].isActive)
                  && (t.plans[id].isActive <==> plan.isActive && !deactivates))
  {
    StepKeepsAll(s, UpdatePlanCall(id, plan, deactivates));
  }
}
