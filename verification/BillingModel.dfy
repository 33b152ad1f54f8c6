/**
 * Subscriptions, the organization row that mirrors them, and the Razorpay webhook ledger, as functions.
 * Tables are sequences in insertion order and an id is a row's position. Unique columns are enforced as the
 * schema does: an insert that would repeat a value fails. The payment provider's answers are parameters.
 */
module BillingModel {
  import opened Common
  import opened Calendar

  type PlanId = nat
  type TenantId = nat
  type SubId = nat

  datatype Status = Trial | Active | PastDue | Cancelled | Expired | Suspended

  datatype Plan = Plan(
    code: string, monthly: int, yearly: Option<int>,
    maxProperties: int, maxEmployees: int, storageLimit: int, maxAiMinutes: int, isActive: bool)

  datatype Usage = Usage(properties: int, employees: int, storageBytes: int, aiMinutes: int)

  datatype Org = Org(status: Status, tier: string, deleted: bool, usage: Option<Usage>)

  datatype Subscription = Subscription(
    tenant: TenantId, plan: PlanId, status: Status, cycle: BillingCycle, providerId: Option<string>,
    periodStart: int, periodEnd: int, trialEndsAt: Option<int>,
    cancelAtPeriodEnd: bool, cancelledAt: Option<int>, deleted: bool)

  datatype InvoiceStatus = InvoiceDraft | InvoiceOpen | InvoicePaid | InvoiceVoid

  datatype Invoice = Invoice(
    tenant: TenantId, subscription: SubId, plan: PlanId, number: string, subtotal: int, tax: int, total: int,
    status: InvoiceStatus)

  datatype PaymentStatus = Created | Captured | Failed | Refunded

  datatype Payment = Payment(
    tenant: TenantId, subscription: SubId, invoice: nat, providerPaymentId: Option<string>,
    amount: int, status: PaymentStatus)

  datatype PaymentAttempt = PaymentAttempt(
    tenant: TenantId, subscription: SubId, providerPaymentId: Option<string>, amount: int)

  datatype WebhookRow = WebhookRow(event: EventKind, processed: bool, error: Option<BillingError>)

  datatype Billing = Billing(
    plans: seq<Plan>, orgs: seq<Org>, subs: seq<Subscription>,
    invoices: seq<Invoice>, payments: seq<Payment>, attempts: seq<PaymentAttempt>,
    webhooks: map<string, WebhookRow>)

  datatype BillingError =
    | PlanNotFound | PlanCodeExists | PlanHasSubscriptions | ProviderFailure | SubscriptionNotFound
    | OrganizationNotFound | ConstraintViolation | InvalidSignature | MissingSubscriptionId

  const TRIAL_DAYS := 14

  // ----- Queries -----

  function FindPlanByCode(plans: seq<Plan>, code: string): (r: Option<PlanId>)
    ensures r.Some? ==> r.value < |plans| && plans[r.value].code == code
    ensures r.None? ==> forall i :: 0 <= i < |plans| ==> plans[i].code != code
  {
    if |plans| == 0 then None
    else if plans[|plans| - 1].code == code then Some(|plans| - 1)
    else FindPlanByCode(plans[..|plans| - 1], code)
  }

  /** The newest row of the tenant that is not soft-deleted. */
  function CurrentSubscription(subs: seq<Subscription>, tenant: TenantId): (r: Option<SubId>)
    ensures r.Some? ==> r.value < |subs| && subs[r.value].tenant == tenant && !subs[r.value].deleted
    ensures r.Some? ==> forall i :: r.value < i < |subs| && subs[i].tenant == tenant ==> subs[i].deleted
    ensures r.None? ==> forall i :: 0 <= i < |subs| && subs[i].tenant == tenant ==> subs[i].deleted
  {
    if |subs| == 0 then None
    else if subs[|subs| - 1].tenant == tenant && !subs[|subs| - 1].deleted then Some(|subs| - 1)
    else CurrentSubscription(subs[..|subs| - 1], tenant)
  }

  function SubscriptionByProviderId(subs: seq<Subscription>, id: string): (r: Option<SubId>)
    ensures r.Some? ==> r.value < |subs| && subs[r.value].providerId == Some(id) && !subs[r.value].deleted
    ensures r.None? ==> forall i :: 0 <= i < |subs| && subs[i].providerId == Some(id) ==> subs[i].deleted
  {
    if |subs| == 0 then None
    else if subs[|subs| - 1].providerId == Some(id) && !subs[|subs| - 1].deleted then Some(|subs| - 1)
    else SubscriptionByProviderId(subs[..|subs| - 1], id)
  }

  predicate ProviderIdTaken(subs: seq<Subscription>, id: string) {
    exists i :: 0 <= i < |subs| && subs[i].providerId == Some(id)
  }

  // ----- Transactions of the repository -----

  function SoftDeleteOf(subs: seq<Subscription>, tenant: TenantId): (r: seq<Subscription>)
    ensures |r| == |subs|
  {
    seq(|subs|, i requires 0 <= i < |subs| =>
      if subs[i].tenant == tenant then subs[i].(deleted := true) else subs[i])
  }

  function SetOrg(orgs: seq<Org>, tenant: TenantId, status: Option<Status>, tier: Option<string>): (r: seq<Org>)
    requires tenant < |orgs|
    ensures |r| == |orgs|
  {
    var org := orgs[tenant];
    if org.deleted then orgs
    else orgs[tenant := org.(status := status.GetOr(org.status), tier := tier.GetOr(org.tier))]
  }

  /** Soft-deletes the tenant's live rows, inserts the new one and mirrors it on the organization. */
  function CreateOrReplaceSubscription(s: Billing, sub: Subscription): Option<Billing> {
    if sub.tenant >= |s.orgs| || sub.plan >= |s.plans|
       || (sub.providerId.Some? && ProviderIdTaken(s.subs, sub.providerId.value)) then None
    else
      var status := if sub.status == Trial then Trial else Active;
      Some(s.(subs := SoftDeleteOf(s.subs, sub.tenant) + [sub],
              orgs := SetOrg(s.orgs, sub.tenant, Some(status), Some(s.plans[sub.plan].code))))
  }

  /** Rewrites one live row of the tenant and, when asked, its organization's status and tier. */
  function UpdateSubscription(s: Billing, id: SubId, row: Subscription, status: Option<Status>, tier: Option<string>)
    : Option<Billing>
  {
    if id >= |s.subs| || s.subs[id].tenant != row.tenant || s.subs[id].deleted || row.tenant >= |s.orgs| then None
    else Some(s.(subs := s.subs[id := row], orgs := SetOrg(s.orgs, row.tenant, status, tier)))
  }

  // ----- Service calls -----

  function AmountForPlan(plan: Plan, cycle: BillingCycle): int {
    match cycle
    case Yearly => plan.yearly.GetOr(plan.monthly * 10)
    case Monthly => plan.monthly
  }

  /** `createRegisteredOrganization` on the active starter plan. */
  function Register(s: Billing, now: int): (Billing, Result<TenantId, BillingError>) {
    var plan := FindPlanByCode(s.plans, "starter");
    if plan.None? || !s.plans[plan.value].isActive then (s, Err(PlanNotFound))
    else
      var tenant := |s.orgs|;
      var trialEndsAt := now + TRIAL_DAYS * MS_PER_DAY;
      (s.(orgs := s.orgs + [Org(Trial, "starter", false, Some(Usage(0, 1, 0, 0)))],
          subs := s.subs + [Subscription(tenant, plan.value, Trial, Monthly, None, now, trialEndsAt,
                                         Some(trialEndsAt), false, None, false)]),
       Ok(tenant))
  }

  /** `checkout` is the provider's subscription id, or None when the provider call fails. */
  function Subscribe(s: Billing, tenant: TenantId, code: string, cycle: BillingCycle, checkout: Option<string>, now: int)
    : (Billing, Result<SubId, BillingError>)
  {
    var plan := FindPlanByCode(s.plans, code);
    if plan.None? || !s.plans[plan.value].isActive then (s, Err(PlanNotFound))
    else if checkout.None? then (s, Err(ProviderFailure))
    else
      var free := AmountForPlan(s.plans[plan.value], cycle) == 0;
      var sub := Subscription(
        tenant, plan.value, if free then Active else Trial, cycle, checkout, now, AddBillingPeriod(now, cycle),
        if free then None else Some(now + TRIAL_DAYS * MS_PER_DAY), false, None, false);
      match CreateOrReplaceSubscription(s, sub)
      case Some(t) => (t, Ok(|s.subs|))
      case None => (s, Err(ConstraintViolation))
  }

  function ChangePlan(s: Billing, tenant: TenantId, code: string, cycle: BillingCycle, checkout: Option<string>, now: int)
    : (Billing, Result<SubId, BillingError>)
  {
    var current := CurrentSubscription(s.subs, tenant);
    if current.None? then Subscribe(s, tenant, code, cycle, checkout, now)
    else
      var plan := FindPlanByCode(s.plans, code);
      if plan.None? || !s.plans[plan.value].isActive then (s, Err(PlanNotFound))
      else
        var row := s.subs[current.value].(
          plan := plan.value, cycle := cycle, periodStart := now, periodEnd := AddBillingPeriod(now, cycle),
          cancelAtPeriodEnd := false, status := Active);
        match UpdateSubscription(s, current.value, row, Some(Active), Some(s.plans[plan.value].code))
        case Some(t) => (t, Ok(current.value))
        case None => (s, Err(SubscriptionNotFound))
  }

  function Cancel(s: Billing, tenant: TenantId, atPeriodEnd: Option<bool>, now: int)
    : (Billing, Result<SubId, BillingError>)
  {
    var current := CurrentSubscription(s.subs, tenant);
    if current.None? then (s, Err(SubscriptionNotFound))
    else
      var later := atPeriodEnd.GetOr(true);
      var sub := s.subs[current.value];
      var row := sub.(cancelAtPeriodEnd := later, cancelledAt := if later then None else Some(now),
                      status := if later then sub.status else Cancelled);
      match UpdateSubscription(s, current.value, row, if later then None else Some(Cancelled), None)
      case Some(t) => (t, Ok(current.value))
      case None => (s, Err(SubscriptionNotFound))
  }

  // ----- Plan administration -----

  function CreatePlan(s: Billing, plan: Plan): (Billing, Result<PlanId, BillingError>) {
    if FindPlanByCode(s.plans, plan.code).Some? then (s, Err(PlanCodeExists))
    else (s.(plans := s.plans + [plan]), Ok(|s.plans|))
  }

  predicate PlanInUse(s: Billing, id: PlanId) {
    exists i :: 0 <= i < |s.subs| && s.subs[i].plan == id && !s.subs[i].deleted && s.subs[i].status != Cancelled
  }

  /** Every column may change except the code; `deactivates` is an explicit `is_active: false`. */
  function UpdatePlan(s: Billing, id: PlanId, changed: Plan, deactivates: bool): (Billing, Result<PlanId, BillingError>) {
    if id >= |s.plans| then (s, Err(PlanNotFound))
    else if deactivates && PlanInUse(s, id) then (s, Err(PlanHasSubscriptions))
    else
      (s.(plans := s.plans[id := changed.(code := s.plans[id].code,
                                          isActive := if deactivates then false else changed.isActive)]),
       Ok(id))
  }

  // ----- Webhooks -----

  datatype EventKind =
    | PaymentCaptured | SubscriptionCharged | PaymentFailed
    | SubscriptionRenewed | SubscriptionActivated | SubscriptionCancelled | OtherEvent

  /** One delivery; `invoiceNumber` is the number drawn should an invoice be written. */
  datatype Delivery = Delivery(
    signed: bool, eventId: string, event: EventKind, subscriptionId: Option<string>,
    paymentId: Option<string>, paymentAmount: Option<int>, invoiceNumber: string, now: int)

  datatype WebhookOutcome = Processed | Duplicate | FailedWith(error: BillingError)

  predicate IsCapture(event: EventKind) {
    event == PaymentCaptured || event == SubscriptionCharged
  }

  /** `Math.round(subtotal * 0.18)`, exactly. */
  function Gst(subtotal: int): int {
    (18 * subtotal + 50) / 100
  }

  predicate InvoiceNumberTaken(s: Billing, tenant: TenantId, number: string) {
    exists i :: 0 <= i < |s.invoices| && s.invoices[i].tenant == tenant && s.invoices[i].number == number
  }

  predicate PaymentIdTaken(s: Billing, id: Option<string>) {
    id.Some? && exists i :: 0 <= i < |s.payments| && s.payments[i].providerPaymentId == id
  }

  function InvoiceFor(s: Billing, id: SubId, number: string): Invoice
    requires id < |s.subs| && s.subs[id].plan < |s.plans|
  {
    var sub := s.subs[id];
    var subtotal := AmountForPlan(s.plans[sub.plan], sub.cycle);
    Invoice(sub.tenant, id, sub.plan, number, subtotal, Gst(subtotal), subtotal + Gst(subtotal), InvoicePaid)
  }

  function Renewed(sub: Subscription, now: int): Subscription {
    sub.(status := Active, periodStart := now, periodEnd := AddBillingPeriod(now, sub.cycle))
  }

  /** Invoice first, then payment, then the subscription: the writes are not one transaction. */
  function HandlePaymentCaptured(s: Billing, id: SubId, d: Delivery): (Billing, Option<BillingError>)
    requires id < |s.subs|
  {
    var sub := s.subs[id];
    if sub.plan >= |s.plans| || InvoiceNumberTaken(s, sub.tenant, d.invoiceNumber) then
      (s, Some(ConstraintViolation))
    else
      var invoice := InvoiceFor(s, id, d.invoiceNumber);
      var invoiced := s.(invoices := s.invoices + [invoice]);
      if PaymentIdTaken(s, d.paymentId) then (invoiced, Some(ConstraintViolation))
      else
        var payment := Payment(sub.tenant, id, |s.invoices|, d.paymentId, d.paymentAmount.GetOr(invoice.total), Captured);
        var paid := invoiced.(payments := s.payments + [payment]);
        (UpdateSubscription(paid, id, Renewed(sub, d.now), Some(Active), None).GetOr(paid), None)
  }

  function HandlePaymentFailed(s: Billing, id: SubId, d: Delivery): (Billing, Option<BillingError>)
    requires id < |s.subs|
  {
    var sub := s.subs[id];
    if sub.plan >= |s.plans| then (s, Some(ConstraintViolation))
    else
      var attempt := PaymentAttempt(
        sub.tenant, id, d.paymentId, d.paymentAmount.GetOr(AmountForPlan(s.plans[sub.plan], sub.cycle)));
      var noted := s.(attempts := s.attempts + [attempt]);
      (UpdateSubscription(noted, id, sub.(status := PastDue), Some(PastDue), None).GetOr(noted), None)
  }

  function ApplyWebhookEvent(s: Billing, d: Delivery): (Billing, Option<BillingError>) {
    if d.subscriptionId.None? then (s, Some(MissingSubscriptionId))
    else
      var found := SubscriptionByProviderId(s.subs, d.subscriptionId.value);
      if found.None? then (s, Some(SubscriptionNotFound))
      else
        var id, sub := found.value, s.subs[found.value];
        match d.event
        case PaymentCaptured => HandlePaymentCaptured(s, id, d)
        case SubscriptionCharged => HandlePaymentCaptured(s, id, d)
        case PaymentFailed => HandlePaymentFailed(s, id, d)
        case SubscriptionRenewed =>
          (UpdateSubscription(s, id, Renewed(sub, d.now), Some(Active), None).GetOr(s), None)
        case SubscriptionActivated =>
          (UpdateSubscription(s, id, Renewed(sub, d.now), Some(Active), None).GetOr(s), None)
        case SubscriptionCancelled =>
          var row := sub.(status := Cancelled, cancelledAt := Some(d.now), cancelAtPeriodEnd := false);
          (UpdateSubscription(s, id, row, Some(Cancelled), None).GetOr(s), None)
        case OtherEvent => (s, None)
  }

  function Webhook(s: Billing, d: Delivery): (Billing, WebhookOutcome) {
    if !d.signed then (s, FailedWith(InvalidSignature))
    else if d.eventId in s.webhooks && s.webhooks[d.eventId].processed then (s, Duplicate)
    else
      var row := if d.eventId in s.webhooks then s.webhooks[d.eventId] else WebhookRow(d.event, false, None);
      var (t, error) := ApplyWebhookEvent(s, d);
      match error
      case None => (t.(webhooks := s.webhooks[d.eventId := row.(processed := true, error := None)]), Processed)
      case Some(e) => (t.(webhooks := s.webhooks[d.eventId := row.(error := Some(e))]), FailedWith(e))
  }

  // ----- Runs -----

  /** `UsageCall` and `OrgDeleted` are steps of other modules that touch the organization row. */
  datatype Event =
    | RegisterCall(now: int)
    | SubscribeCall(tenant: TenantId, code: string, cycle: BillingCycle, checkout: Option<string>, now: int)
    | ChangeCall(tenant: TenantId, code: string, cycle: BillingCycle, checkout: Option<string>, now: int)
    | CancelCall(tenant: TenantId, atPeriodEnd: Option<bool>, now: int)
    | WebhookCall(delivery: Delivery)
    | CreatePlanCall(plan: Plan)
    | UpdatePlanCall(id: PlanId, changed: Plan, deactivates: bool)
    | UsageCall(tenant: TenantId, usage: Usage)
    | OrgDeleted(tenant: TenantId)

  function Apply(s: Billing, e: Event): Billing {
    match e
    case RegisterCall(now) => Register(s, now).0
    case SubscribeCall(tenant, code, cycle, checkout, now) => Subscribe(s, tenant, code, cycle, checkout, now).0
    case ChangeCall(tenant, code, cycle, checkout, now) => ChangePlan(s, tenant, code, cycle, checkout, now).0
    case CancelCall(tenant, atPeriodEnd, now) => Cancel(s, tenant, atPeriodEnd, now).0
    case WebhookCall(delivery) => Webhook(s, delivery).0
    case CreatePlanCall(plan) => CreatePlan(s, plan).0
    case UpdatePlanCall(id, changed, deactivates) => UpdatePlan(s, id, changed, deactivates).0
    case UsageCall(tenant, usage) =>
      if tenant < |s.orgs| then s.(orgs := s.orgs[tenant := s.orgs[tenant].(usage := Some(usage))]) else s
    case OrgDeleted(tenant) =>
      if tenant < |s.orgs| then s.(orgs := s.orgs[tenant := s.orgs[tenant].(deleted := true)]) else s
  }

  function Run(s: Billing, es: seq<Event>): Billing {
    if |es| == 0 then s else Apply(Run(s, es[..|es| - 1]), es[|es| - 1])
  }

  lemma RunStep(s: Billing, es: seq<Event>, i: nat)
    requires i < |es|
    ensures Run(s, es[..i + 1]) == Apply(Run(s, es[..i]), es[i])
  {
    assert es[..i + 1][..i] == es[..i];
  }

  const EMPTY := Billing([], [], [], [], [], [], map[])
}
