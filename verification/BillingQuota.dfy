/** The plan a tenant is shown, the plan that is enforced, and the limits checked on both sides. */
module BillingQuota {
  import opened Calendar
  import opened Common
  import opened BillingModel
  import opened BillingInvariants

  const UNLIMITED_COUNT_LIMIT := 2_147_483_647

  /** Legacy tier names map to plan codes. */
  function TierToPlanCode(tier: string): string {
    if tier == "basic" then "starter" else tier
  }

  predicate IsActiveStatus(status: Status) {
    status == Active || status == Trial || status == PastDue
  }

  predicate IsReadOnly(status: Status) {
    status == Suspended || status == Cancelled
  }

  datatype QuotaContext = QuotaContext(orgStatus: Status, planId: PlanId, plan: Plan, usage: Option<Usage>)

  datatype UsageReport = UsageReport(planId: PlanId, limits: Plan, usage: Usage)

  predicate OrgExists(s: Billing, tenant: TenantId) {
    tenant < |s.orgs| && !s.orgs[tenant].deleted
  }

  /** The context the server enforces. */
  function LoadContext(s: Billing, tenant: TenantId): Result<QuotaContext, BillingError> {
    if !OrgExists(s, tenant) then Err(OrganizationNotFound)
    else
      var org := s.orgs[tenant];
      var current := CurrentSubscription(s.subs, tenant);
      var plan :=
        if current.Some? && IsActiveStatus(s.subs[current.value].status) && s.subs[current.value].plan < |s.plans|
        then Some(s.subs[current.value].plan)
        else FindPlanByCode(s.plans, TierToPlanCode(org.tier));
      if plan.None? then Err(PlanNotFound)
      else Ok(QuotaContext(org.status, plan.value, s.plans[plan.value], org.usage))
  }

  /** The usage page. */
  function GetUsage(s: Billing, tenant: TenantId): Result<UsageReport, BillingError> {
    if !OrgExists(s, tenant) then Err(OrganizationNotFound)
    else
      var org := s.orgs[tenant];
      var plan := FindPlanByCode(s.plans, TierToPlanCode(org.tier));
      if plan.None? then Err(PlanNotFound)
      else Ok(UsageReport(plan.value, s.plans[plan.value], org.usage.GetOr(Usage(0, 0, 0, 0))))
  }

  datatype Resource = Properties | Employees | AiMinutes | StorageBytes

  datatype QuotaError = OrgReadOnly | QuotaExceeded

  predicate IsUnlimitedCount(limit: int) {
    limit <= 0 || limit >= UNLIMITED_COUNT_LIMIT
  }

  /** The server's check before `amount` more of a resource; a property or an employee counts as one. */
  function AssertAvailable(ctx: QuotaContext, resource: Resource, amount: int): Option<QuotaError> {
    if IsReadOnly(ctx.orgStatus) then Some(OrgReadOnly)
    else
      var usage := ctx.usage.GetOr(Usage(0, 0, 0, 0));
      var exceeded := match resource
        case Properties => !IsUnlimitedCount(ctx.plan.maxProperties) && usage.properties >= ctx.plan.maxProperties
        case Employees => !IsUnlimitedCount(ctx.plan.maxEmployees) && usage.employees >= ctx.plan.maxEmployees
        case AiMinutes =>
          ctx.plan.maxAiMinutes <= 0
          || (!IsUnlimitedCount(ctx.plan.maxAiMinutes) && usage.aiMinutes + amount > ctx.plan.maxAiMinutes)
        case StorageBytes =>
          amount > 0 && ctx.plan.storageLimit > 0 && usage.storageBytes + amount > ctx.plan.storageLimit;
      if exceeded then Some(QuotaExceeded) else None
  }

  predicate IsAtCountLimit(used: int, limit: int) {
    !IsUnlimitedCount(limit) && used >= limit
  }

  /** The client's twin of the check. */
  predicate ResourceAtLimit(report: UsageReport, resource: Resource) {
    match resource
    case Properties => IsAtCountLimit(report.usage.properties, report.limits.maxProperties)
    case Employees => IsAtCountLimit(report.usage.employees, report.limits.maxEmployees)
    case AiMinutes =>
      report.limits.maxAiMinutes <= 0 || IsAtCountLimit(report.usage.aiMinutes, report.limits.maxAiMinutes)
    case StorageBytes =>
      report.limits.storageLimit > 0 && report.usage.storageBytes >= report.limits.storageLimit
  }

  /** Both sides find the same plan, or fail alike. */
  predicate SamePlan(s: Billing, tenant: TenantId) {
    match (LoadContext(s, tenant), GetUsage(s, tenant))
    case (Ok(ctx), Ok(report)) =>
      ctx.planId == report.planId && ctx.plan == report.limits && ctx.usage.GetOr(Usage(0, 0, 0, 0)) == report.usage
    case (Err(e), Err(f)) => e == f
    case _ => false
  }

  /** The tenant's live subscription is in force on a plan whose code is a legacy tier name. */
  predicate OnAliasedPlan(s: Billing, tenant: TenantId) {
    var current := CurrentSubscription(s.subs, tenant);
    && current.Some? && s.subs[current.value].status in {Active, Trial, PastDue}
    && s.subs[current.value].plan < |s.plans| && s.plans[s.subs[current.value].plan].code == "basic"
  }

  /** Without an organization both sides say so. */
  lemma NoOrganization(s: Billing, tenant: TenantId)
    requires tenant >= |s.orgs| || s.orgs[tenant].deleted
    ensures LoadContext(s, tenant) == Err(OrganizationNotFound) && GetUsage(s, tenant) == Err(OrganizationNotFound)
  {
  }

  /** The plan the server enforces: the live subscription's while it is in force, else the one of the tier. */
  lemma EnforcedPlanIs(s: Billing, tenant: TenantId)
    requires BillingSound(s) && OrgExists(s, tenant)
    ensures var org, current := s.orgs[tenant], CurrentSubscription(s.subs, tenant);
            match LoadContext(s, tenant)
            case Ok(ctx) =>
              && ctx.orgStatus == org.status && ctx.usage == org.usage
              && ctx.planId < |s.plans| && ctx.plan == s.plans[ctx.planId]
              && (if current.Some? && s.subs[current.value].status in {Active, Trial, PastDue}
                  then ctx.planId == s.subs[current.value].plan
                  else ctx.plan.code == if org.tier == "basic" then "starter" else org.tier)
            case Err(e) =>
              && e == PlanNotFound && (current.Some? ==> s.subs[current.value].status !in {Active, Trial, PastDue})
              && forall i :: 0 <= i < |s.plans| ==>
                   s.plans[i].code != if org.tier == "basic" then "starter" else org.tier
  {
  }

  /** The plan shown is the plan enforced, exactly unless an active subscription is on an aliased plan code. */
  lemma ShownPlanIsEnforced(s: Billing, tenant: TenantId)
    requires BillingSound(s) && OrgExists(s, tenant)
    ensures SamePlan(s, tenant) <==> !OnAliasedPlan(s, tenant)
  {
  }

  /** In every reachable state. */
  lemma EveryRunShowsEnforcedPlan(s: Billing, es: seq<Event>, tenant: TenantId)
    requires BillingSound(s) && OrgExists(Run(s, es), tenant)
    ensures SamePlan(Run(s, es), tenant) <==> !OnAliasedPlan(Run(s, es), tenant)
  {
    EveryRunIsMirrored(s, es);
    ShownPlanIsEnforced(Run(s, es), tenant);
  }

  /** Nothing reserves the legacy code: a tenant changed to an active plan created under it is on an aliased plan. */
  lemma ChangeToLegacyCode(s: Billing, tenant: TenantId, cycle: BillingCycle, checkout: Option<string>, now: int)
    requires BillingSound(s) && OrgExists(s, tenant) && CurrentSubscription(s.subs, tenant).Some?
    requires FindPlanByCode(s.plans, "basic").Some? && s.plans[FindPlanByCode(s.plans, "basic").value].isActive
    ensures var t := ChangePlan(s, tenant, "basic", cycle, checkout, now).0;
            OrgExists(t, tenant) && OnAliasedPlan(t, tenant) && !SamePlan(t, tenant)
  {
    var id := CurrentSubscription(s.subs, tenant).value;
    var t := ChangePlan(s, tenant, "basic", cycle, checkout, now).0;
    ChangePlanKeeps(s, tenant, "basic", cycle, checkout, now);
    assert t.subs[id].status == Active && !t.subs[id].deleted && t.subs[id].tenant == tenant;
    LiveIsCurrent(t, id);
    assert "basic"[0] != "starter"[0];
    ShownPlanIsEnforced(t, tenant);
  }

  lemma LiveIsCurrent(s: Billing, id: SubId)
    requires BillingSound(s) && id < |s.subs| && !s.subs[id].deleted
    ensures CurrentSubscription(s.subs, s.subs[id].tenant) == Some(id)
  {
  }

  const STARTER := Plan("starter", 0, None, 1, 1, 1, 1, true)
  const BASIC := Plan("basic", 0, None, 2, 2, 2, 2, true)

  /** Two plans are created, one of them under the legacy code, and a newly registered tenant changes to that one. */
  function LegacyRun(now: int): seq<Event> {
    [CreatePlanCall(STARTER), CreatePlanCall(BASIC), RegisterCall(now), ChangeCall(0, BASIC.code, Monthly, None, now)]
  }

  lemma BothPlans(plans: seq<Plan>)
    requires plans == [STARTER, BASIC]
    ensures FindPlanByCode(plans, "starter") == Some(0) && FindPlanByCode(plans, "basic") == Some(1)
  {
    assert "basic"[0] != "starter"[0];
    assert FindPlanByCode(plans, "starter").Some? && FindPlanByCode(plans, "basic").Some?;
  }

  lemma PlansAreCreated()
    ensures Apply(Apply(EMPTY, CreatePlanCall(STARTER)), CreatePlanCall(BASIC)) == EMPTY.(plans := [STARTER, BASIC])
  {
    assert "basic"[0] != "starter"[0];
  }

  lemma FirstTenant(s: Billing, now: int)
    requires s == EMPTY.(plans := [STARTER, BASIC])
    ensures var t := Register(s, now).0;
            && t.plans == s.plans && BillingSound(t) && OrgExists(t, 0) && CurrentSubscription(t.subs, 0).Some?
  {
    BothPlans(s.plans);
    RegisterKeeps(s, now);
  }

  /** The run reaches a state where the page shows the starter plan's limits and the server enforces the other's. */
  lemma AliasedPlanExample(now: int)
    ensures var s := Run(EMPTY, LegacyRun(now));
            && BillingSound(s) && OnAliasedPlan(s, 0) && GetUsage(s, 0).Ok? && LoadContext(s, 0).Ok?
            && GetUsage(s, 0).value.limits.maxProperties == 1 && LoadContext(s, 0).value.plan.maxProperties == 2
  {
    var plans := EMPTY.(plans := [STARTER, BASIC]);
    FourSteps(EMPTY, CreatePlanCall(STARTER), CreatePlanCall(BASIC), RegisterCall(now),
              ChangeCall(0, BASIC.code, Monthly, None, now));
    PlansAreCreated();
    FirstTenant(plans, now);
    BothPlans(plans.plans);
    LegacyLimits(Register(plans, now).0, now);
    EmptyIsSound();
    EveryRunIsMirrored(EMPTY, LegacyRun(now));
  }

  lemma OneMoreStep(s: Billing, es: seq<Event>, e: Event)
    ensures Run(s, es + [e]) == Apply(Run(s, es), e)
  {
    assert (es + [e])[..|es|] == es;
  }

  lemma FourSteps(s: Billing, a: Event, b: Event, c: Event, d: Event)
    ensures Run(s, [a, b, c, d]) == Apply(Apply(Apply(Apply(s, a), b), c), d)
  {
    OneMoreStep(s, [], a);
    OneMoreStep(s, [a], b);
    OneMoreStep(s, [a, b], c);
    OneMoreStep(s, [a, b, c], d);
    assert [] + [a] == [a] && [a] + [b] == [a, b] && [a, b] + [c] == [a, b, c] && [a, b, c] + [d] == [a, b, c, d];
  }

  lemma LegacyLimits(s: Billing, now: int)
    requires s.plans == [STARTER, BASIC] && BillingSound(s) && OrgExists(s, 0) && CurrentSubscription(s.subs, 0).Some?
    ensures var t := ChangePlan(s, 0, BASIC.code, Monthly, None, now).0;
            && OnAliasedPlan(t, 0) && GetUsage(t, 0).Ok? && LoadContext(t, 0).Ok?
            && GetUsage(t, 0).value.limits == STARTER && LoadContext(t, 0).value.plan == BASIC
  {
    BothPlans(s.plans);
    ChangeToLegacyCode(s, 0, Monthly, None, now);
  }

  /**
   * More of a resource than a plan leaves, in numbers. A limit of 0 is none for properties, employees and storage,
   * and 2147483647 none for counts; without AI minutes in the plan any are too many.
   */
  predicate IsTooMuch(plan: Plan, used: Usage, resource: Resource, amount: int) {
    match resource
    case Properties => 0 < plan.maxProperties < 2_147_483_647 && used.properties >= plan.maxProperties
    case Employees => 0 < plan.maxEmployees < 2_147_483_647 && used.employees >= plan.maxEmployees
    case AiMinutes =>
      plan.maxAiMinutes <= 0 || (plan.maxAiMinutes < 2_147_483_647 && used.aiMinutes + amount > plan.maxAiMinutes)
    case StorageBytes => amount > 0 && plan.storageLimit > 0 && used.storageBytes + amount > plan.storageLimit
  }

  /** The server refuses everything of a suspended or cancelled tenant, and else exactly what is too much. */
  lemma LimitIsEnforced(ctx: QuotaContext, resource: Resource, amount: int)
    ensures AssertAvailable(ctx, resource, amount) ==
              if ctx.orgStatus == Suspended || ctx.orgStatus == Cancelled then Some(OrgReadOnly)
              else if IsTooMuch(ctx.plan, ctx.usage.GetOr(Usage(0, 0, 0, 0)), resource, amount) then Some(QuotaExceeded)
              else None
  {
  }

  /** The client calls a resource exhausted exactly when one more is too much. */
  lemma ExhaustedExactly(report: UsageReport, resource: Resource)
    ensures ResourceAtLimit(report, resource) <==> IsTooMuch(report.limits, report.usage, resource, 1)
  {
  }

  /** On the same plan, the client calls a resource exhausted exactly when the server refuses one more of it. */
  lemma ClientMatchesServer(s: Billing, tenant: TenantId, resource: Resource)
    requires LoadContext(s, tenant).Ok? && SamePlan(s, tenant)
    requires LoadContext(s, tenant).value.orgStatus !in {Suspended, Cancelled}
    ensures ResourceAtLimit(GetUsage(s, tenant).value, resource)
            <==> AssertAvailable(LoadContext(s, tenant).value, resource, 1) == Some(QuotaExceeded)
  {
  }

  /** End to end: in every reachable state, for a tenant in good standing and not on an aliased plan. */
  lemma LimitsAgreeEndToEnd(s: Billing, es: seq<Event>, tenant: TenantId, resource: Resource)
    requires BillingSound(s)
    requires var t := Run(s, es);
             OrgExists(t, tenant) && t.orgs[tenant].status !in {Suspended, Cancelled} && !OnAliasedPlan(t, tenant)
    ensures var t := Run(s, es);
            match (LoadContext(t, tenant), GetUsage(t, tenant))
            case (Ok(ctx), Ok(report)) =>
              ctx.planId == report.planId
              && (ResourceAtLimit(report, resource) <==> AssertAvailable(ctx, resource, 1) == Some(QuotaExceeded))
              && (ResourceAtLimit(report, resource) <==>
                    IsTooMuch(ctx.plan, t.orgs[tenant].usage.GetOr(Usage(0, 0, 0, 0)), resource, 1))
            case (Err(e), Err(f)) => e == f
            case _ => false
  {
    EveryRunShowsEnforcedPlan(s, es, tenant);
    if LoadContext(Run(s, es), tenant).Ok? {
      ClientMatchesServer(Run(s, es), tenant, resource);
      ExhaustedExactly(GetUsage(Run(s, es), tenant).value, resource);
    }
  }
}
