/** Webhook deliveries against the ledger: at-most-once processing and conservation of money. */
module BillingLedger {
  import opened Common
  import opened Calendar
  import opened BillingModel
  import opened BillingInvariants

  /** The delivery gets past the signature and duplicate checks. */
  predicate Admitted(s: Billing, d: Delivery) {
    d.signed && !(d.eventId in s.webhooks && s.webhooks[d.eventId].processed)
  }

  /** The delivery is a capture whose subscription is found and whose invoice can be written. */
  predicate WritesInvoice(s: Billing, d: Delivery) {
    && Admitted(s, d) && IsCapture(d.event) && Subject(s, d).Some?
    && var sub := s.subs[Subject(s, d).value];
       sub.plan < |s.plans| && !InvoiceNumberTaken(s, sub.tenant, d.invoiceNumber)
  }

  /** The invoice is written, but its payment id is already in the payments table: the payment insert fails. */
  predicate Collides(s: Billing, d: Delivery) {
    WritesInvoice(s, d) && PaymentIdTaken(s, d.paymentId)
  }

  predicate Captures(s: Billing, d: Delivery) {
    WritesInvoice(s, d) && !PaymentIdTaken(s, d.paymentId)
  }

  function AmountOf(s: Billing, d: Delivery): int
    requires WritesInvoice(s, d)
  {
    d.paymentAmount.GetOr(InvoiceFor(s, Subject(s, d).value, d.invoiceNumber).total)
  }

  function PaymentOf(s: Billing, d: Delivery): Payment
    requires WritesInvoice(s, d)
  {
    var id := Subject(s, d).value;
    Payment(s.subs[id].tenant, id, |s.invoices|, d.paymentId, AmountOf(s, d), Captured)
  }

  /** Exactly which deliveries append to the ledger, and what. */
  lemma WebhookLedger(s: Billing, d: Delivery)
    ensures var (t, outcome) := Webhook(s, d);
            && t.invoices == s.invoices +
                 (if WritesInvoice(s, d) then [InvoiceFor(s, Subject(s, d).value, d.invoiceNumber)] else [])
            && t.payments == s.payments + (if Captures(s, d) then [PaymentOf(s, d)] else [])
            && (outcome == Processed && IsCapture(d.event) <==> Captures(s, d))
            && (Collides(s, d) ==> outcome == FailedWith(ConstraintViolation))
  {
    if Admitted(s, d) && Subject(s, d).Some? {
      var id := Subject(s, d).value;
      if IsCapture(d.event) {
        CaptureLedger(s, id, d);
      } else {
        OtherLedger(s, id, d);
      }
    }
  }

  lemma CaptureLedger(s: Billing, id: SubId, d: Delivery)
    requires id < |s.subs|
    ensures var (t, error) := HandlePaymentCaptured(s, id, d);
            var sub := s.subs[id];
            if sub.plan >= |s.plans| || InvoiceNumberTaken(s, sub.tenant, d.invoiceNumber) then
              t == s && error == Some(ConstraintViolation)
            else
              var invoice := InvoiceFor(s, id, d.invoiceNumber);
              && t.invoices == s.invoices + [invoice]
              && (if PaymentIdTaken(s, d.paymentId) then t.payments == s.payments && error == Some(ConstraintViolation)
                  else t.payments == s.payments +
                         [Payment(sub.tenant, id, |s.invoices|, d.paymentId, d.paymentAmount.GetOr(invoice.total), Captured)]
                       && error == None)
  {
  }

  lemma OtherLedger(s: Billing, id: SubId, d: Delivery)
    requires !IsCapture(d.event)
    ensures var t := ApplyWebhookEvent(s, d).0; t.invoices == s.invoices && t.payments == s.payments
  {
  }

  predicate SameLedger(s: Billing, t: Billing) {
    t.invoices == s.invoices && t.payments == s.payments && t.webhooks == s.webhooks
  }

  lemma SubscribeLedger(s: Billing, tenant: TenantId, code: string, cycle: BillingCycle, checkout: Option<string>, now: int)
    ensures SameLedger(s, Subscribe(s, tenant, code, cycle, checkout, now).0)
  {
  }

  lemma ChangeLedger(s: Billing, tenant: TenantId, code: string, cycle: BillingCycle, checkout: Option<string>, now: int)
    ensures SameLedger(s, ChangePlan(s, tenant, code, cycle, checkout, now).0)
  {
    SubscribeLedger(s, tenant, code, cycle, checkout, now);
  }

  lemma CancelLedger(s: Billing, tenant: TenantId, atPeriodEnd: Option<bool>, now: int)
    ensures SameLedger(s, Cancel(s, tenant, atPeriodEnd, now).0)
  {
  }

  /** No other step writes to the ledger. */
  lemma OtherStepsLedger(s: Billing, e: Event)
    requires !e.WebhookCall?
    ensures SameLedger(s, Apply(s, e))
  {
    match e
    case RegisterCall(_) =>
    case SubscribeCall(tenant, code, cycle, checkout, now) => SubscribeLedger(s, tenant, code, cycle, checkout, now);
    case ChangeCall(tenant, code, cycle, checkout, now) => ChangeLedger(s, tenant, code, cycle, checkout, now);
    case CancelCall(tenant, atPeriodEnd, now) => CancelLedger(s, tenant, atPeriodEnd, now);
    case CreatePlanCall(_) =>
    case UpdatePlanCall(_, _, _) =>
    case UsageCall(_, _) =>
    case OrgDeleted(_) =>
  }

  // ----- At most once -----

  ghost predicate ProcessedAt(s: Billing, es: seq<Event>, i: nat, key: string)
    requires i < |es|
  {
    es[i].WebhookCall? && es[i].delivery.eventId == key
    && Webhook(Run(s, es[..i]), es[i].delivery).1 == Processed
  }

  predicate Done(s: Billing, key: string) {
    key in s.webhooks && s.webhooks[key].processed
  }

  lemma DoneStays(s: Billing, e: Event, key: string)
    requires Done(s, key)
    ensures Done(Apply(s, e), key)
  {
    if e.WebhookCall? {
      WebhookTouchesOneTenant(s, e.delivery);
    } else {
      OtherStepsLedger(s, e);
    }
  }

  lemma DoneNext(s: Billing, es: seq<Event>, i: nat, key: string)
    requires i < |es| && Done(Run(s, es[..i]), key)
    ensures Done(Run(s, es[..i + 1]), key)
  {
    RunStep(s, es, i);
    DoneStays(Run(s, es[..i]), es[i], key);
  }

  lemma {:induction false} DoneForever(s: Billing, es: seq<Event>, i: nat, j: nat, key: string)
    requires i <= j <= |es| && Done(Run(s, es[..i]), key)
    ensures Done(Run(s, es[..j]), key)
    decreases j
  {
    if i < j {
      DoneForever(s, es, i, j - 1, key);
      DoneNext(s, es, j - 1, key);
    }
  }

  /** However often an event is delivered, it is processed at most once. */
  lemma ProcessedAtMostOnce(s: Billing, es: seq<Event>, i: nat, j: nat, key: string)
    requires i < j < |es| && ProcessedAt(s, es, i, key)
    ensures !ProcessedAt(s, es, j, key)
  {
    RunStep(s, es, i);
    assert Done(Run(s, es[..i + 1]), key);
    DoneForever(s, es, i + 1, j, key);
  }

  /** Delivery `i` of the run is a signed one of the event and fails. */
  ghost predicate FailedAt(s: Billing, es: seq<Event>, i: nat, key: string)
    requires i < |es|
  {
    es[i].WebhookCall? && es[i].delivery.eventId == key && es[i].delivery.signed
    && Webhook(Run(s, es[..i]), es[i].delivery).1.FailedWith?
  }

  lemma FailureIsNotDone(s: Billing, d: Delivery)
    requires d.signed && Webhook(s, d).1.FailedWith?
    ensures !Done(Webhook(s, d).0, d.eventId)
  {
  }

  lemma NotDoneStays(s: Billing, e: Event, key: string)
    requires !Done(s, key)
    requires !(e.WebhookCall? && e.delivery.eventId == key && Webhook(s, e.delivery).1 == Processed)
    ensures !Done(Apply(s, e), key)
  {
    if !e.WebhookCall? {
      OtherStepsLedger(s, e);
    }
  }

  lemma NotDoneNext(s: Billing, es: seq<Event>, i: nat, key: string)
    requires i < |es| && !Done(Run(s, es[..i]), key) && !ProcessedAt(s, es, i, key)
    ensures !Done(Run(s, es[..i + 1]), key)
  {
    RunStep(s, es, i);
    NotDoneStays(Run(s, es[..i]), es[i], key);
  }

  lemma {:induction false} NotDoneUntilProcessed(s: Billing, es: seq<Event>, i: nat, j: nat, key: string)
    requires i <= j <= |es| && !Done(Run(s, es[..i]), key)
    requires forall k :: i <= k < j ==> !ProcessedAt(s, es, k, key)
    ensures !Done(Run(s, es[..j]), key)
    decreases j
  {
    if i < j {
      NotDoneUntilProcessed(s, es, i, j - 1, key);
      NotDoneNext(s, es, j - 1, key);
    }
  }

  /**
   * A failed delivery stays retryable, whatever happens in between: an event that failed at step `i` and has not
   * been processed since is processed at its redelivery `j` exactly when it then applies without error.
   */
  lemma FailedIsRetryable(s: Billing, es: seq<Event>, i: nat, j: nat, key: string)
    requires i < j < |es| && FailedAt(s, es, i, key)
    requires forall k :: i < k < j ==> !ProcessedAt(s, es, k, key)
    requires es[j].WebhookCall? && es[j].delivery.eventId == key && es[j].delivery.signed
    ensures ProcessedAt(s, es, j, key) <==> ApplyWebhookEvent(Run(s, es[..j]), es[j].delivery).1 == None
    ensures ProcessedAt(s, es, j, key) ==> Done(Run(s, es[..j + 1]), key)
  {
    RunStep(s, es, i);
    FailureIsNotDone(Run(s, es[..i]), es[i].delivery);
    NotDoneUntilProcessed(s, es, i + 1, j, key);
    RunStep(s, es, j);
  }

  // ----- Conservation over runs -----

  /** The amounts of the capture deliveries a run processes, in order. */
  function CapturedAmounts(s: Billing, es: seq<Event>): seq<int> {
    if |es| == 0 then []
    else
      var prev, e := Run(s, es[..|es| - 1]), es[|es| - 1];
      CapturedAmounts(s, es[..|es| - 1])
      + (if e.WebhookCall? && Captures(prev, e.delivery) then [AmountOf(prev, e.delivery)] else [])
  }

  /** The number of deliveries that write an invoice and then fail on a payment id already recorded. */
  function Collisions(s: Billing, es: seq<Event>): nat {
    if |es| == 0 then 0
    else
      var prev, e := Run(s, es[..|es| - 1]), es[|es| - 1];
      Collisions(s, es[..|es| - 1]) + (if e.WebhookCall? && Collides(prev, e.delivery) then 1 else 0)
  }

  function Amounts(payments: seq<Payment>): seq<int> {
    seq(|payments|, i requires 0 <= i < |payments| => payments[i].amount)
  }

  /** `payments.filter(captured).reduce(sum)` of the platform metrics. */
  function PaidRevenue(payments: seq<Payment>): int {
    if |payments| == 0 then 0
    else
      var p := payments[|payments| - 1];
      PaidRevenue(payments[..|payments| - 1]) + (if p.status == Captured then p.amount else 0)
  }

  /** Links between the two tables, and the arithmetic of every invoice. */
  ghost predicate LedgerSound(invoices: seq<Invoice>, payments: seq<Payment>) {
    && (forall i :: 0 <= i < |invoices| ==> InvoiceAddsUp(invoices[i]))
    && (forall k :: 0 <= k < |payments| ==> PaysFor(payments[k], invoices))
    && (forall k, l :: 0 <= k < l < |payments| ==> payments[k].invoice != payments[l].invoice)
    && (forall k, l :: 0 <= k < l < |payments| && payments[k].providerPaymentId.Some? ==>
          payments[k].providerPaymentId != payments[l].providerPaymentId)
  }

  /** Every invoice is written as paid, and its amounts add up: 18 percent tax, half a unit rounded up. */
  predicate InvoiceAddsUp(i: Invoice) {
    i.status == InvoicePaid && i.total == i.subtotal + i.tax && -50 < 100 * i.tax - 18 * i.subtotal <= 50
  }

  /** The price of a plan for one period of the cycle: a year without a price of its own costs ten months. */
  predicate Costs(plan: Plan, cycle: BillingCycle, amount: int) {
    && (cycle == Monthly ==> amount == plan.monthly)
    && (cycle == Yearly && plan.yearly.Some? ==> amount == plan.yearly.value)
    && (cycle == Yearly && plan.yearly.None? ==> amount == 10 * plan.monthly)
  }

  /** The invoice of one period of a subscription, at the price its plan has now. */
  predicate IsInvoiceOf(s: Billing, id: SubId, number: string, i: Invoice) {
    && id < |s.subs| && s.subs[id].plan < |s.plans|
    && i.tenant == s.subs[id].tenant && i.subscription == id && i.plan == s.subs[id].plan && i.number == number
    && Costs(s.plans[s.subs[id].plan], s.subs[id].cycle, i.subtotal) && InvoiceAddsUp(i)
  }

  lemma InvoiceForIsPriced(s: Billing, id: SubId, number: string)
    requires id < |s.subs| && s.subs[id].plan < |s.plans|
    ensures IsInvoiceOf(s, id, number, InvoiceFor(s, id, number))
  {
    InvoiceForAddsUp(s, id, number);
  }

  predicate PaysFor(p: Payment, invoices: seq<Invoice>) {
    && p.invoice < |invoices| && p.status == Captured
    && invoices[p.invoice].tenant == p.tenant && invoices[p.invoice].subscription == p.subscription
  }

  lemma InvoiceForAddsUp(s: Billing, id: SubId, number: string)
    requires id < |s.subs| && s.subs[id].plan < |s.plans|
    ensures InvoiceAddsUp(InvoiceFor(s, id, number))
  {
  }

  lemma WebhookKeepsLedger(s: Billing, d: Delivery)
    requires LedgerSound(s.invoices, s.payments)
    ensures var t := Webhook(s, d).0; LedgerSound(t.invoices, t.payments)
  {
    WebhookLedger(s, d);
    if WritesInvoice(s, d) {
      var invoice := InvoiceFor(s, Subject(s, d).value, d.invoiceNumber);
      InvoiceForAddsUp(s, Subject(s, d).value, d.invoiceNumber);
      InvoiceAppended(s.invoices, s.payments, invoice);
      if Captures(s, d) {
        PaymentAppended(s.invoices, s.payments, invoice, PaymentOf(s, d));
      }
    }
  }

  lemma InvoiceAppended(invoices: seq<Invoice>, payments: seq<Payment>, invoice: Invoice)
    requires LedgerSound(invoices, payments) && InvoiceAddsUp(invoice)
    ensures LedgerSound(invoices + [invoice], payments)
  {
  }

  lemma PaymentAppended(invoices: seq<Invoice>, payments: seq<Payment>, invoice: Invoice, p: Payment)
    requires LedgerSound(invoices, payments) && InvoiceAddsUp(invoice)
    requires p.invoice == |invoices| && PaysFor(p, invoices + [invoice])
    requires p.providerPaymentId.Some? ==>
               forall k :: 0 <= k < |payments| ==> payments[k].providerPaymentId != p.providerPaymentId
    ensures LedgerSound(invoices + [invoice], payments + [p])
  {
  }

  /** Only captured payments are revenue. */
  lemma PaidRevenueAppend(payments: seq<Payment>, p: Payment)
    ensures p.status == Captured ==> PaidRevenue(payments + [p]) == PaidRevenue(payments) + p.amount
    ensures p.status != Captured ==> PaidRevenue(payments + [p]) == PaidRevenue(payments)
    ensures Amounts(payments + [p]) == Amounts(payments) + [p.amount]
  {
    assert (payments + [p])[..|payments|] == payments;
  }

  /** What a run adds to the ledger. */
  ghost predicate LedgerGrew(s: Billing, t: Billing, captured: seq<int>, collisions: nat) {
    && LedgerSound(t.invoices, t.payments)
    && Amounts(t.payments) == Amounts(s.payments) + captured
    && PaidRevenue(t.payments) == PaidRevenue(s.payments) + Sum(captured)
    && |t.invoices| - |s.invoices| == |captured| + collisions
  }

  lemma LedgerStep(s: Billing, prev: Billing, e: Event, captured: seq<int>, collisions: nat)
    requires LedgerGrew(s, prev, captured, collisions)
    ensures LedgerGrew(s, Apply(prev, e),
              captured + (if e.WebhookCall? && Captures(prev, e.delivery) then [AmountOf(prev, e.delivery)] else []),
              collisions + (if e.WebhookCall? && Collides(prev, e.delivery) then 1 else 0))
  {
    if !e.WebhookCall? {
      OtherStepsLedger(prev, e);
      assert captured + [] == captured;
    } else {
      var d := e.delivery;
      WebhookLedger(prev, d);
      WebhookKeepsLedger(prev, d);
      if Captures(prev, d) {
        PaidRevenueAppend(prev.payments, PaymentOf(prev, d));
        SumOfConcat(captured, [AmountOf(prev, d)]);
        assert Sum([AmountOf(prev, d)]) == AmountOf(prev, d);
        assert Amounts(s.payments) + captured + [AmountOf(prev, d)] == Amounts(s.payments) + (captured + [AmountOf(prev, d)]);
      } else {
        assert captured + [] == captured;
        assert prev.payments + [] == prev.payments;
      }
    }
  }

  /**
   * Conservation: over any run of deliveries, redeliveries, retries and other steps, the payments added are
   * exactly the processed captures, revenue grows by the sum of their amounts, and every invoice added belongs
   * to a processed capture or to a collision.
   */
  lemma {:induction false} EveryRunConserves(s: Billing, es: seq<Event>)
    requires LedgerSound(s.invoices, s.payments)
    ensures LedgerGrew(s, Run(s, es), CapturedAmounts(s, es), Collisions(s, es))
    decreases |es|
  {
    if |es| == 0 {
      assert Amounts(s.payments) + [] == Amounts(s.payments);
    } else {
      EveryRunConserves(s, es[..|es| - 1]);
      LedgerStep(s, Run(s, es[..|es| - 1]), es[|es| - 1],
                 CapturedAmounts(s, es[..|es| - 1]), Collisions(s, es[..|es| - 1]));
    }
  }

  /** The invoice was written by this delivery: a capture that names its subscription. */
  ghost predicate IsWrittenBy(s: Billing, e: Event, i: Invoice) {
    && e.WebhookCall? && (e.delivery.event == PaymentCaptured || e.delivery.event == SubscriptionCharged)
    && Subject(s, e.delivery) == Some(i.subscription) && IsInvoiceOf(s, i.subscription, e.delivery.invoiceNumber, i)
  }

  lemma StepWritesPriced(s: Billing, e: Event, k: nat)
    requires |s.invoices| <= k < |Apply(s, e).invoices|
    ensures k == |s.invoices| && IsWrittenBy(s, e, Apply(s, e).invoices[k])
  {
    if e.WebhookCall? {
      WebhookLedger(s, e.delivery);
      InvoiceForIsPriced(s, Subject(s, e.delivery).value, e.delivery.invoiceNumber);
    } else {
      OtherStepsLedger(s, e);
    }
  }

  lemma StepKeepsInvoices(s: Billing, e: Event)
    ensures s.invoices <= Apply(s, e).invoices
  {
    if e.WebhookCall? {
      WebhookLedger(s, e.delivery);
    } else {
      OtherStepsLedger(s, e);
    }
  }

  /** Every invoice a run adds was written by a capture of the run, at the price its plan had then. */
  lemma {:induction false} EveryInvoiceIsPriced(s: Billing, es: seq<Event>, k: nat)
    requires |s.invoices| <= k < |Run(s, es).invoices|
    ensures exists i :: 0 <= i < |es| && IsWrittenBy(Run(s, es[..i]), es[i], Run(s, es).invoices[k])
    decreases |es|
  {
    if |es| > 0 {
      var front, e := es[..|es| - 1], es[|es| - 1];
      StepKeepsInvoices(Run(s, front), e);
      if k < |Run(s, front).invoices| {
        EveryInvoiceIsPriced(s, front, k);
        var i :| 0 <= i < |front| && IsWrittenBy(Run(s, front[..i]), front[i], Run(s, front).invoices[k]);
        assert front[..i] == es[..i];
      } else {
        StepWritesPriced(Run(s, front), e, k);
      }
    }
  }

  // ----- Invoices and payments in bijection -----

  ghost predicate EveryInvoicePaid(invoices: seq<Invoice>, payments: seq<Payment>) {
    forall i :: 0 <= i < |invoices| ==> PaidBy(payments, i)
  }

  ghost predicate PaidBy(payments: seq<Payment>, i: nat) {
    exists k :: 0 <= k < |payments| && payments[k].invoice == i
  }

  ghost function PaidInvoices(payments: seq<Payment>): set<nat> {
    set k | 0 <= k < |payments| :: payments[k].invoice
  }

  ghost function Below(n: nat): (r: set<nat>)
    ensures forall i :: i in r <==> 0 <= i < n
  {
    if n == 0 then {} else Below(n - 1) + {n - 1}
  }

  lemma {:induction false} BelowSize(n: nat)
    ensures |Below(n)| == n
  {
    if n > 0 {
      BelowSize(n - 1);
    }
  }

  lemma {:induction false} PaidInvoicesSize(payments: seq<Payment>)
    requires forall k, l :: 0 <= k < l < |payments| ==> payments[k].invoice != payments[l].invoice
    ensures |PaidInvoices(payments)| == |payments|
    decreases |payments|
  {
    if |payments| > 0 {
      var n := |payments| - 1;
      var front := payments[..n];
      PaidInvoicesSize(front);
      assert PaidInvoices(payments) == PaidInvoices(front) + {payments[n].invoice} by {
        assert forall k :: 0 <= k < n ==> front[k] == payments[k];
      }
      assert payments[n].invoice !in PaidInvoices(front);
    }
  }

  /** Payments point at distinct invoices, so every invoice is paid exactly when the tables have equal length. */
  lemma PaidIffAsMany(invoices: seq<Invoice>, payments: seq<Payment>)
    requires LedgerSound(invoices, payments)
    ensures EveryInvoicePaid(invoices, payments) <==> |invoices| == |payments|
  {
    PaidInvoicesSize(payments);
    BelowSize(|invoices|);
    var paid, all := PaidInvoices(payments), Below(|invoices|);
    assert paid <= all;
    if EveryInvoicePaid(invoices, payments) {
      forall i | i in all ensures i in paid {
        assert PaidBy(payments, i);
      }
      assert paid == all;
    } else {
      var i :| 0 <= i < |invoices| && !PaidBy(payments, i);
      assert i in all && i !in paid;
      SubsetIsSmaller(paid, all - {i});
    }
  }

  lemma {:induction false} SubsetIsSmaller(a: set<nat>, b: set<nat>)
    requires a <= b
    ensures |a| <= |b|
    decreases a
  {
    if a != {} {
      var x :| x in a;
      SubsetIsSmaller(a - {x}, b - {x});
    }
  }

  /**
   * From a ledger where every invoice is paid, processed captures, payments and invoices stay in one-to-one
   * correspondence exactly when no delivery of the run carries a payment id that is already recorded.
   */
  lemma BijectionIffNoCollision(s: Billing, es: seq<Event>)
    requires LedgerSound(s.invoices, s.payments) && EveryInvoicePaid(s.invoices, s.payments)
    ensures var t := Run(s, es);
            && |t.payments| == |s.payments| + |CapturedAmounts(s, es)|
            && (EveryInvoicePaid(t.invoices, t.payments) <==> Collisions(s, es) == 0)
  {
    EveryRunConserves(s, es);
    var t := Run(s, es);
    assert |Amounts(t.payments)| == |t.payments| && |Amounts(s.payments)| == |s.payments|;
    PaidIffAsMany(s.invoices, s.payments);
    PaidIffAsMany(t.invoices, t.payments);
  }

  /** A collision leaves an invoice marked paid without a payment, and every retry under a new number leaves another. */
  lemma CollisionRepeats(s: Billing, d: Delivery, number: string)
    requires LedgerSound(s.invoices, s.payments) && Collides(s, d)
    requires number != d.invoiceNumber
    requires !InvoiceNumberTaken(s, s.subs[Subject(s, d).value].tenant, number)
    ensures var t := Webhook(s, d).0;
            && |t.invoices| == |s.invoices| + 1 && t.invoices[|s.invoices|].status == InvoicePaid
            && !PaidBy(t.payments, |s.invoices|) && Collides(t, d.(invoiceNumber := number))
  {
  }

  /** One payment announced by two events, as `payment.captured` and `subscription.charged` do, is such a collision. */
  lemma TwoEventsOnePayment(s: Billing, first: Delivery, second: Delivery)
    requires BillingSound(s) && Captures(s, first) && first.paymentId.Some?
    requires second == first.(eventId := second.eventId, event := second.event, invoiceNumber := second.invoiceNumber)
    requires second.eventId != first.eventId && Admitted(s, second) && IsCapture(second.event)
    requires second.invoiceNumber != first.invoiceNumber
    requires !InvoiceNumberTaken(s, s.subs[Subject(s, first).value].tenant, second.invoiceNumber)
    ensures Collides(Webhook(s, first).0, second)
  {
    var t, id := Webhook(s, first).0, Subject(s, first).value;
    WebhookLedger(s, first);
    CaptureSubscription(s, id, first);
    assert t.payments[|s.payments|].providerPaymentId == second.paymentId;
    SubjectStays(s, t, id, first, second);
    NumberStaysFree(s, t, s.subs[id].tenant, second.invoiceNumber);
  }

  lemma NumberStaysFree(s: Billing, t: Billing, tenant: TenantId, number: string)
    requires !InvoiceNumberTaken(s, tenant, number) && s.invoices <= t.invoices
    requires forall i :: |s.invoices| <= i < |t.invoices| ==> t.invoices[i].number != number
    ensures !InvoiceNumberTaken(t, tenant, number)
  {
    assert forall i :: 0 <= i < |s.invoices| ==> t.invoices[i] == s.invoices[i];
  }

  /** A renewed subscription is still the one that the provider's id names. */
  lemma SubjectStays(s: Billing, t: Billing, id: SubId, first: Delivery, second: Delivery)
    requires BillingSound(s) && Subject(s, first) == Some(id) && second.subscriptionId == first.subscriptionId
    requires t.subs == s.subs[id := Renewed(s.subs[id], first.now)]
    ensures Subject(t, second) == Some(id)
  {
    var found := Subject(t, second);
    assert found.Some? by {
      assert t.subs[id].providerId == second.subscriptionId && !t.subs[id].deleted;
    }
    assert t.subs[found.value].providerId == s.subs[id].providerId;
    assert s.subs[found.value].providerId == s.subs[id].providerId;
  }

  lemma CaptureSubscription(s: Billing, id: SubId, d: Delivery)
    requires BillingSound(s) && Captures(s, d) && Subject(s, d) == Some(id)
    ensures var t := Webhook(s, d).0; t.subs == s.subs[id := Renewed(s.subs[id], d.now)] && t.plans == s.plans
  {
  }
}
