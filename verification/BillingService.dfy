/** The billing service as the source writes it: tables updated step by step, with the repository's transactions. */
module BillingService {
  import opened Common
  import opened Calendar
  import M = BillingModel
  import Ledger = BillingLedger
  import opened BillingCalls

  class Store {
    var plans: seq<M.Plan>
    var orgs: seq<M.Org>
    var subs: seq<M.Subscription>
    var invoices: seq<M.Invoice>
    var payments: seq<M.Payment>
    var attempts: seq<M.PaymentAttempt>
    var webhooks: map<string, M.WebhookRow>

    function State(): M.Billing
      reads this
    {
      M.Billing(plans, orgs, subs, invoices, payments, attempts, webhooks)
    }

    /** One mirrored live subscription per tenant, ordered periods, and a ledger whose rows fit together. */
    ghost predicate Valid()
      reads this
    {
      StoreSound(State())
    }

    constructor (initial: M.Billing)
      requires StoreSound(initial)
      ensures Valid() && State() == initial
    {
      plans, orgs, subs := initial.plans, initial.orgs, initial.subs;
      invoices, payments, attempts := initial.invoices, initial.payments, initial.attempts;
      webhooks := initial.webhooks;
    }

    // ----- billing.repository -----

    method UpdateOrganization(tenant: M.TenantId, status: Option<M.Status>, tier: Option<string>)
      requires tenant < |orgs|
      modifies this`orgs
      ensures orgs == M.SetOrg(old(orgs), tenant, status, tier)
    {
      var org := orgs[tenant];
      if !org.deleted {
        if status.Some? { org := org.(status := status.value); }
        if tier.Some? { org := org.(tier := tier.value); }
        orgs := orgs[tenant := org];
      }
    }

    /** One transaction: a violated constraint leaves the store as it was. */
    method CreateOrReplaceSubscription(sub: M.Subscription) returns (id: Option<M.SubId>)
      modifies this`subs, this`orgs
      ensures var r := M.CreateOrReplaceSubscription(old(State()), sub);
              State() == r.GetOr(old(State())) && id == if r.Some? then Some(|old(subs)|) else None
    {
      if sub.tenant >= |orgs| || sub.plan >= |plans|
         || (sub.providerId.Some? && M.ProviderIdTaken(subs, sub.providerId.value)) {
        return None;
      }
      ghost var before := subs;
      for i := 0 to |subs|
        invariant |subs| == |before| && orgs == old(orgs)
        invariant forall j :: 0 <= j < |before| ==>
          subs[j] == if j < i then M.SoftDeleteOf(before, sub.tenant)[j] else before[j]
      {
        if subs[i].tenant == sub.tenant && !subs[i].deleted {
          subs := subs[i := subs[i].(deleted := true)];
        }
      }
      id := Some(|subs|);
      subs := subs + [sub];
      assert subs == M.SoftDeleteOf(before, sub.tenant) + [sub];
      var status := if sub.status == M.Trial then M.Trial else M.Active;
      UpdateOrganization(sub.tenant, Some(status), Some(plans[sub.plan].code));
    }

    /** `BillingCalls.UpdateMeans` says what a coherent rewrite means. */
    method UpdateSubscription(id: M.SubId, row: M.Subscription, status: Option<M.Status>, tier: Option<string>)
      returns (updated: bool)
      modifies this`subs, this`orgs
      ensures var r := M.UpdateSubscription(old(State()), id, row, status, tier);
              State() == r.GetOr(old(State())) && updated == r.Some?
    {
      if id >= |subs| || subs[id].tenant != row.tenant || subs[id].deleted || row.tenant >= |orgs| {
        return false;
      }
      subs := subs[id := row];
      if status.Some? || tier.Some? {
        UpdateOrganization(row.tenant, status, tier);
      }
      updated := true;
    }

    // ----- billing.service -----

    method Subscribe(tenant: M.TenantId, code: string, cycle: BillingCycle, checkout: Option<string>, now: int)
      returns (r: Result<M.SubId, M.BillingError>)
      requires Valid()
      modifies this`subs, this`orgs
      ensures (State(), r) == M.Subscribe(old(State()), tenant, code, cycle, checkout, now)
      ensures Valid() && SubscribeHolds(old(State()), tenant, code, cycle, checkout, now, State(), r)
    {
      SubscribeMeans(State(), tenant, code, cycle, checkout, now);
      var plan := M.FindPlanByCode(plans, code);
      if plan.None? || !plans[plan.value].isActive {
        return Err(M.PlanNotFound);
      }
      var amount := M.AmountForPlan(plans[plan.value], cycle);
      if checkout.None? {
        return Err(M.ProviderFailure);
      }
      var id := CreateOrReplaceSubscription(M.Subscription(
        tenant, plan.value, if amount == 0 then M.Active else M.Trial, cycle, checkout, now,
        AddBillingPeriod(now, cycle), if amount == 0 then None else Some(now + M.TRIAL_DAYS * MS_PER_DAY),
        false, None, false));
      r := if id.Some? then Ok(id.value) else Err(M.ConstraintViolation);
    }

    method ChangePlan(tenant: M.TenantId, code: string, cycle: BillingCycle, checkout: Option<string>, now: int)
      returns (r: Result<M.SubId, M.BillingError>)
      requires Valid()
      modifies this`subs, this`orgs
      ensures (State(), r) == M.ChangePlan(old(State()), tenant, code, cycle, checkout, now)
      ensures Valid() && ChangeHolds(old(State()), tenant, code, cycle, checkout, now, State(), r)
    {
      ChangeMeans(State(), tenant, code, cycle, checkout, now);
      var current := M.CurrentSubscription(subs, tenant);
      if current.None? {
        r := Subscribe(tenant, code, cycle, checkout, now);
        return;
      }
      var plan := M.FindPlanByCode(plans, code);
      if plan.None? || !plans[plan.value].isActive {
        return Err(M.PlanNotFound);
      }
      var row := subs[current.value].(
        plan := plan.value, cycle := cycle, periodStart := now, periodEnd := AddBillingPeriod(now, cycle),
        cancelAtPeriodEnd := false, status := M.Active);
      var updated := UpdateSubscription(current.value, row, Some(M.Active), Some(plans[plan.value].code));
      r := if updated then Ok(current.value) else Err(M.SubscriptionNotFound);
    }

    method Cancel(tenant: M.TenantId, atPeriodEnd: Option<bool>, now: int)
      returns (r: Result<M.SubId, M.BillingError>)
      requires Valid()
      modifies this`subs, this`orgs
      ensures (State(), r) == M.Cancel(old(State()), tenant, atPeriodEnd, now)
      ensures Valid() && CancelHolds(old(State()), tenant, atPeriodEnd, now, State(), r)
    {
      CancelMeans(State(), tenant, atPeriodEnd, now);
      var current := M.CurrentSubscription(subs, tenant);
      if current.None? {
        return Err(M.SubscriptionNotFound);
      }
      var later := atPeriodEnd.GetOr(true);
      var row := subs[current.value].(cancelAtPeriodEnd := later, cancelledAt := if later then None else Some(now));
      if !later {
        row := row.(status := M.Cancelled);
      }
      var updated := UpdateSubscription(current.value, row, if later then None else Some(M.Cancelled), None);
      r := if updated then Ok(current.value) else Err(M.SubscriptionNotFound);
    }

    /** `BillingCalls.CaptureMeans` says what a capture means; its writes are not one transaction. */
    method HandlePaymentCaptured(id: M.SubId, d: M.Delivery) returns (error: Option<M.BillingError>)
      requires id < |subs|
      modifies this`subs, this`orgs, this`invoices, this`payments
      ensures (State(), error) == M.HandlePaymentCaptured(old(State()), id, d)
    {
      var sub := subs[id];
      if sub.plan >= |plans| || M.InvoiceNumberTaken(State(), sub.tenant, d.invoiceNumber) {
        return Some(M.ConstraintViolation);
      }
      var subtotal := M.AmountForPlan(plans[sub.plan], sub.cycle);
      var tax := M.Gst(subtotal);
      var total := subtotal + tax;
      var invoice := |invoices|;
      invoices := invoices + [M.Invoice(sub.tenant, id, sub.plan, d.invoiceNumber, subtotal, tax, total, M.InvoicePaid)];
      if M.PaymentIdTaken(State(), d.paymentId) {
        return Some(M.ConstraintViolation);
      }
      payments := payments +
        [M.Payment(sub.tenant, id, invoice, d.paymentId, d.paymentAmount.GetOr(total), M.Captured)];
      var _ := UpdateSubscription(id, M.Renewed(sub, d.now), Some(M.Active), None);
      error := None;
    }

    /** `BillingCalls.FailureMeans` says what a failure means. */
    method HandlePaymentFailed(id: M.SubId, d: M.Delivery) returns (error: Option<M.BillingError>)
      requires id < |subs|
      modifies this`subs, this`orgs, this`attempts
      ensures (State(), error) == M.HandlePaymentFailed(old(State()), id, d)
    {
      var sub := subs[id];
      if sub.plan >= |plans| {
        return Some(M.ConstraintViolation);
      }
      var amount := d.paymentAmount.GetOr(M.AmountForPlan(plans[sub.plan], sub.cycle));
      attempts := attempts + [M.PaymentAttempt(sub.tenant, id, d.paymentId, amount)];
      var _ := UpdateSubscription(id, sub.(status := M.PastDue), Some(M.PastDue), None);
      error := None;
    }

    /** `BillingCalls.EventMeans` says what an event means. */
    method ApplyWebhookEvent(d: M.Delivery) returns (error: Option<M.BillingError>)
      modifies this`subs, this`orgs, this`invoices, this`payments, this`attempts
      ensures (State(), error) == M.ApplyWebhookEvent(old(State()), d)
    {
      if d.subscriptionId.None? {
        return Some(M.MissingSubscriptionId);
      }
      var found := M.SubscriptionByProviderId(subs, d.subscriptionId.value);
      if found.None? {
        return Some(M.SubscriptionNotFound);
      }
      var id, sub := found.value, subs[found.value];
      error := None;
      if d.event == M.PaymentCaptured || d.event == M.SubscriptionCharged {
        error := HandlePaymentCaptured(id, d);
      } else if d.event == M.PaymentFailed {
        error := HandlePaymentFailed(id, d);
      } else if d.event == M.SubscriptionRenewed || d.event == M.SubscriptionActivated {
        var _ := UpdateSubscription(id, M.Renewed(sub, d.now), Some(M.Active), None);
      } else if d.event == M.SubscriptionCancelled {
        var row := sub.(status := M.Cancelled, cancelledAt := Some(d.now), cancelAtPeriodEnd := false);
        var _ := UpdateSubscription(id, row, Some(M.Cancelled), None);
      }
    }

    /** The checks and writes of a delivery, in order. */
    method ProcessSteps(d: M.Delivery) returns (outcome: M.WebhookOutcome)
      requires Valid()
      modifies this`subs, this`orgs, this`invoices, this`payments, this`attempts, this`webhooks
      ensures (State(), outcome) == M.Webhook(old(State()), d)
    {
      if !d.signed {
        return M.FailedWith(M.InvalidSignature);
      }
      if d.eventId in webhooks && webhooks[d.eventId].processed {
        return M.Duplicate;
      }
      if d.eventId !in webhooks {
        webhooks := webhooks[d.eventId := M.WebhookRow(d.event, false, None)];
      }
      ghost var created := State();
      EventRowIsIrrelevant(old(State()), created, d);
      var error := ApplyWebhookEvent(d);
      assert webhooks == created.webhooks;
      if error.None? {
        webhooks := webhooks[d.eventId := webhooks[d.eventId].(processed := true, error := None)];
        assert webhooks == old(webhooks)[d.eventId := webhooks[d.eventId]];
        return M.Processed;
      }
      webhooks := webhooks[d.eventId := webhooks[d.eventId].(error := error)];
      assert webhooks == old(webhooks)[d.eventId := webhooks[d.eventId]];
      outcome := M.FailedWith(error.value);
    }

    method ProcessRazorpayWebhook(d: M.Delivery) returns (outcome: M.WebhookOutcome)
      requires Valid()
      modifies this`subs, this`orgs, this`invoices, this`payments, this`attempts, this`webhooks
      ensures (State(), outcome) == M.Webhook(old(State()), d)
      ensures Valid()
      ensures outcome == M.FailedWith(M.InvalidSignature) <==> !d.signed
      ensures outcome == M.Duplicate <==>
                d.signed && d.eventId in old(webhooks) && old(webhooks)[d.eventId].processed
      ensures !d.signed || outcome == M.Duplicate ==> State() == old(State())
      ensures outcome == M.Processed ==> d.eventId in webhooks && webhooks[d.eventId].processed
    {
      WebhookKeepsSound(State(), d);
      WebhookRemembers(State(), d);
      outcome := ProcessSteps(d);
    }

    /** Registration writes the organization and its trial subscription. */
    method Register(now: int) returns (r: Result<M.TenantId, M.BillingError>)
      requires Valid()
      modifies this`orgs, this`subs
      ensures (State(), r) == M.Register(old(State()), now)
      ensures Valid() && (r.Ok? ==> r.value == |old(orgs)| && IsOnPlan(State(), r.value, |old(subs)|, "starter"))
    {
      RegisterMeans(State(), now);
      var plan := M.FindPlanByCode(plans, "starter");
      if plan.None? || !plans[plan.value].isActive {
        return Err(M.PlanNotFound);
      }
      var tenant, trialEndsAt := |orgs|, now + M.TRIAL_DAYS * MS_PER_DAY;
      orgs := orgs + [M.Org(M.Trial, "starter", false, Some(M.Usage(0, 1, 0, 0)))];
      subs := subs + [M.Subscription(tenant, plan.value, M.Trial, Monthly, None, now, trialEndsAt,
                                     Some(trialEndsAt), false, None, false)];
      r := Ok(tenant);
    }

    method CreatePlan(plan: M.Plan) returns (r: Result<M.PlanId, M.BillingError>)
      requires Valid()
      modifies this`plans
      ensures (State(), r) == M.CreatePlan(old(State()), plan)
      ensures Valid() && (r.Ok? <==> forall i :: 0 <= i < |old(plans)| ==> old(plans)[i].code != plan.code)
    {
      CreatePlanMeans(State(), plan);
      if M.FindPlanByCode(plans, plan.code).Some? {
        return Err(M.PlanCodeExists);
      }
      plans := plans + [plan];
      r := Ok(|plans| - 1);
    }

    method UpdatePlan(id: M.PlanId, changed: M.Plan, deactivates: bool) returns (r: Result<M.PlanId, M.BillingError>)
      requires Valid()
      modifies this`plans
      ensures (State(), r) == M.UpdatePlan(old(State()), id, changed, deactivates)
      ensures Valid() && (r.Ok? <==> id < |plans| && !(deactivates && IsSubscribedTo(old(State()), id)))
      ensures r.Ok? ==> plans[id].code == old(plans)[id].code
    {
      UpdatePlanMeans(State(), id, changed, deactivates);
      if id >= |plans| {
        return Err(M.PlanNotFound);
      }
      if deactivates && M.PlanInUse(State(), id) {
        return Err(M.PlanHasSubscriptions);
      }
      plans := plans[id := changed.(code := plans[id].code, isActive := if deactivates then false else changed.isActive)];
      r := Ok(id);
    }

    /** `platformMetrics.paid_revenue`. */
    method PaidRevenue() returns (sum: int)
      ensures sum == Ledger.PaidRevenue(payments)
    {
      sum := 0;
      for i := 0 to |payments|
        invariant sum == Ledger.PaidRevenue(payments[..i])
      {
        if payments[i].status == M.Captured {
          sum := sum + payments[i].amount;
        }
        assert payments[..i + 1][..i] == payments[..i];
      }
      assert payments[..|payments|] == payments;
    }

    // ----- The process -----

    /** Usage and deletion are written by other modules. */
    method Handle(e: M.Event)
      requires Valid()
      modifies this
      ensures State() == M.Apply(old(State()), e) && Valid()
    {
      StepKeepsAll(State(), e);
      match e
      case RegisterCall(now) => var _ := Register(now);
      case SubscribeCall(tenant, code, cycle, checkout, now) => var _ := Subscribe(tenant, code, cycle, checkout, now);
      case ChangeCall(tenant, code, cycle, checkout, now) => var _ := ChangePlan(tenant, code, cycle, checkout, now);
      case CancelCall(tenant, atPeriodEnd, now) => var _ := Cancel(tenant, atPeriodEnd, now);
      case WebhookCall(d) => var _ := ProcessRazorpayWebhook(d);
      case CreatePlanCall(plan) => var _ := CreatePlan(plan);
      case UpdatePlanCall(id, changed, deactivates) => var _ := UpdatePlan(id, changed, deactivates);
      case UsageCall(tenant, usage) =>
        if tenant < |orgs| { orgs := orgs[tenant := orgs[tenant].(usage := Some(usage))]; }
      case OrgDeleted(tenant) =>
        if tenant < |orgs| { orgs := orgs[tenant := orgs[tenant].(deleted := true)]; }
    }

    /**
     * One request after another: the store goes through exactly the states of the run and stays valid, and the
     * payments it gains are the captures it processed.
     */
    method Serve(es: seq<M.Event>)
      requires Valid()
      modifies this
      ensures State() == M.Run(old(State()), es) && Valid()
      ensures Ledger.Amounts(payments) == Ledger.Amounts(old(payments)) + Ledger.CapturedAmounts(old(State()), es)
    {
      ghost var start := State();
      for i := 0 to |es|
        invariant State() == M.Run(start, es[..i]) && Valid()
      {
        M.RunStep(start, es, i);
        Handle(es[i]);
      }
      assert es[..|es|] == es;
      Ledger.EveryRunConserves(start, es);
    }
  }

  /** Applying an event neither reads nor writes the event rows. */
  lemma EventRowIsIrrelevant(s: M.Billing, t: M.Billing, d: M.Delivery)
    requires t == s.(webhooks := t.webhooks)
    ensures M.ApplyWebhookEvent(t, d).1 == M.ApplyWebhookEvent(s, d).1
    ensures M.ApplyWebhookEvent(t, d).0 == M.ApplyWebhookEvent(s, d).0.(webhooks := t.webhooks)
  {
    if d.subscriptionId.Some? && M.SubscriptionByProviderId(s.subs, d.subscriptionId.value).Some? {
      var id := M.SubscriptionByProviderId(s.subs, d.subscriptionId.value).value;
      if d.event == M.PaymentCaptured || d.event == M.SubscriptionCharged {
        CaptureRowIsIrrelevant(s, t, id, d);
      } else if d.event == M.PaymentFailed {
        FailureRowIsIrrelevant(s, t, id, d);
      } else {
        UpdateRowIsIrrelevant(s, t, id, M.Renewed(s.subs[id], d.now), M.Active);
        UpdateRowIsIrrelevant(s, t, id, CancelledRow(s.subs[id], d.now), M.Cancelled);
      }
    }
  }

  function CancelledRow(sub: M.Subscription, now: int): M.Subscription {
    sub.(status := M.Cancelled, cancelledAt := Some(now), cancelAtPeriodEnd := false)
  }

  lemma UpdateRowIsIrrelevant(s: M.Billing, t: M.Billing, id: M.SubId, row: M.Subscription, status: M.Status)
    requires t == s.(webhooks := t.webhooks) && id < |s.subs|
    ensures M.UpdateSubscription(t, id, row, Some(status), None).GetOr(t)
            == M.UpdateSubscription(s, id, row, Some(status), None).GetOr(s).(webhooks := t.webhooks)
  {
  }

  predicate IsRecorded(s: M.Billing, id: M.SubId, d: M.Delivery)
    requires id < |s.subs|
  {
    && s.subs[id].plan < |s.plans| && !M.InvoiceNumberTaken(s, s.subs[id].tenant, d.invoiceNumber)
    && !M.PaymentIdTaken(s, d.paymentId)
  }

  /** The invoice and the payment of a capture, before the subscription is renewed. */
  function Paid(s: M.Billing, id: M.SubId, d: M.Delivery): M.Billing
    requires id < |s.subs| && IsRecorded(s, id, d)
  {
    var sub := s.subs[id];
    var invoice := M.InvoiceFor(s, id, d.invoiceNumber);
    var payment := M.Payment(sub.tenant, id, |s.invoices|, d.paymentId, d.paymentAmount.GetOr(invoice.total), M.Captured);
    s.(invoices := s.invoices + [invoice], payments := s.payments + [payment])
  }

  lemma CaptureIsPaid(s: M.Billing, id: M.SubId, d: M.Delivery)
    requires id < |s.subs| && IsRecorded(s, id, d)
    ensures M.HandlePaymentCaptured(s, id, d) ==
            (M.UpdateSubscription(Paid(s, id, d), id, M.Renewed(s.subs[id], d.now), Some(M.Active), None)
             .GetOr(Paid(s, id, d)), None)
  {
  }

  lemma CaptureRowIsIrrelevant(s: M.Billing, t: M.Billing, id: M.SubId, d: M.Delivery)
    requires t == s.(webhooks := t.webhooks) && id < |s.subs|
    ensures M.HandlePaymentCaptured(t, id, d).1 == M.HandlePaymentCaptured(s, id, d).1
    ensures M.HandlePaymentCaptured(t, id, d).0 == M.HandlePaymentCaptured(s, id, d).0.(webhooks := t.webhooks)
  {
    if IsRecorded(s, id, d) {
      PaidRowIsIrrelevant(s, t, id, d);
      CaptureIsPaid(s, id, d);
      CaptureIsPaid(t, id, d);
    } else {
      UnrecordedRowIsIrrelevant(s, t, id, d);
    }
  }

  lemma PaidRowIsIrrelevant(s: M.Billing, t: M.Billing, id: M.SubId, d: M.Delivery)
    requires t == s.(webhooks := t.webhooks) && id < |s.subs| && IsRecorded(s, id, d)
    ensures IsRecorded(t, id, d)
    ensures var row := M.Renewed(s.subs[id], d.now);
            M.UpdateSubscription(Paid(t, id, d), id, row, Some(M.Active), None).GetOr(Paid(t, id, d))
            == M.UpdateSubscription(Paid(s, id, d), id, row, Some(M.Active), None).GetOr(Paid(s, id, d))
               .(webhooks := t.webhooks)
  {
    UpdateRowIsIrrelevant(Paid(s, id, d), Paid(t, id, d), id, M.Renewed(s.subs[id], d.now), M.Active);
  }

  lemma UnrecordedRowIsIrrelevant(s: M.Billing, t: M.Billing, id: M.SubId, d: M.Delivery)
    requires t == s.(webhooks := t.webhooks) && id < |s.subs| && !IsRecorded(s, id, d)
    ensures M.HandlePaymentCaptured(t, id, d).1 == M.HandlePaymentCaptured(s, id, d).1
    ensures M.HandlePaymentCaptured(t, id, d).0 == M.HandlePaymentCaptured(s, id, d).0.(webhooks := t.webhooks)
  {
  }

  lemma FailureRowIsIrrelevant(s: M.Billing, t: M.Billing, id: M.SubId, d: M.Delivery)
    requires t == s.(webhooks := t.webhooks) && id < |s.subs|
    ensures M.HandlePaymentFailed(t, id, d).1 == M.HandlePaymentFailed(s, id, d).1
    ensures M.HandlePaymentFailed(t, id, d).0 == M.HandlePaymentFailed(s, id, d).0.(webhooks := t.webhooks)
  {
  }
}
