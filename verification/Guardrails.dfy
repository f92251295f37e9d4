/** Cost and blast-radius guardrails (packages/utils/src/aws-guardrails.ts). The text scans are inputs:
    `Findings` holds what they detect. Money is exact. */
module Guardrails {
  import opened Wrappers
  import opened Text

  datatype Config = Config(
    allowedAccountIds: seq<string>, allowedRegions: seq<string>,
    maxPlanAddCount: real, maxPlanChangeCount: real, maxMonthlyCostDeltaUsd: real,
    maxFargateCpu: real, maxFargateMemoryMb: real, maxDesiredCount: real,
    blockPublicLoadBalancerByDefault: bool, allowPublicLoadBalancer: bool)

  datatype Findings = Findings(
    replacementCount: nat, publicLoadBalancer: bool, iamChange: bool, securityGroupChange: bool,
    networkChange: bool, natGateway: bool, logGroup: bool, desiredCount: Option<nat>,
    fargateCpu: Option<nat>, fargateMemoryMb: Option<nat>, highImpactResources: seq<string>)

  datatype Plan = Plan(
    environmentSlug: string, accountId: Option<string>, region: Option<string>,
    addCount: nat, changeCount: nat, destroyCount: nat, findings: Findings)

  datatype Code =
    | MISSING_ACCOUNT_ALLOWLIST | MISSING_ACCOUNT_ID | DISALLOWED_ACCOUNT
    | MISSING_REGION_ALLOWLIST | MISSING_REGION | DISALLOWED_REGION
    | DESTROY_DETECTED | ADD_COUNT_LIMIT | CHANGE_COUNT_LIMIT | PUBLIC_LOAD_BALANCER_BLOCKED
    | DESIRED_COUNT_LIMIT | FARGATE_CPU_LIMIT | FARGATE_MEMORY_LIMIT | MONTHLY_COST_LIMIT

  datatype Warning =
    | REPLACEMENT_DETECTED | IAM_CHANGE_DETECTED | SECURITY_GROUP_CHANGE_DETECTED
    | NETWORK_CHANGE_DETECTED | HIGH_IMPACT_RESOURCE(resource: string) | PRODUCTION_ENVIRONMENT

  datatype Status = PASSED | WARNED | BLOCKED

  datatype Risk = LOW | MEDIUM | HIGH | RISK_BLOCKED

  datatype Evaluation = Evaluation(
    status: Status, riskLevel: Risk, blockedReasons: seq<Code>, warnings: seq<Warning>, applyEligible: bool,
    minUsd: real, deltaUsd: real, maxUsd: real)

  // ----- Money ----------------------------------------------------------------

  /** `Math.round(value * 100) / 100`. */
  function RoundCurrency(value: real): real {
    (value * 100.0 + 0.5).Floor as real / 100.0
  }

  lemma RoundIsMonotone(x: real, y: real)
    requires x <= y
    ensures RoundCurrency(x) <= RoundCurrency(y)
  {
    assert (x * 100.0 + 0.5).Floor <= (y * 100.0 + 0.5).Floor;
  }

  lemma RoundIsIdempotent(x: real)
    ensures RoundCurrency(RoundCurrency(x)) == RoundCurrency(x)
  {
    var cents := (x * 100.0 + 0.5).Floor;
    assert RoundCurrency(x) * 100.0 == cents as real;
    assert (cents as real + 0.5).Floor == cents;
  }

  function OrElse(n: Option<nat>, default: nat): nat {
    match n case Some(v) => v case None => default
  }

  /** The monthly price of the tasks: 730 hours of vCPU and memory per task. */
  function TaskCost(desired: nat, cpu: nat, memory: nat): real {
    desired as real * ((cpu as real / 1024.0 * 0.04 + memory as real / 1024.0 * 0.0045) * 730.0)
  }

  function Surcharge(f: Findings): real {
    (if f.publicLoadBalancer then 18.0 else 0.0)
    + (if f.networkChange && f.natGateway then 32.0 else 0.0)
    + (if f.logGroup then 3.0 else 0.0)
  }

  function CostDelta(f: Findings): real {
    RoundCurrency(
      TaskCost(OrElse(f.desiredCount, 1), OrElse(f.fargateCpu, 512), OrElse(f.fargateMemoryMb, 1024)) + Surcharge(f))
  }

  method EstimateMonthlyCostDelta(f: Findings) returns (delta: real)
    ensures delta == CostDelta(f)
  {
    var desiredCount := OrElse(f.desiredCount, 1);
    var cpuUnits := OrElse(f.fargateCpu, 512);
    var memoryMb := OrElse(f.fargateMemoryMb, 1024);
    var vcpu := cpuUnits as real / 1024.0;
    var memoryGb := memoryMb as real / 1024.0;
    var total := desiredCount as real * ((vcpu * 0.04 + memoryGb * 0.0045) * 730.0);
    ghost var tasks := TaskCost(desiredCount, cpuUnits, memoryMb);
    assert total == tasks;
    if f.publicLoadBalancer { total := total + 18.0; }
    if f.networkChange && f.natGateway { total := total + 32.0; }
    if f.logGroup { total := total + 3.0; }
    assert total == tasks + Surcharge(f);
    delta := RoundCurrency(total);
  }

  lemma RoundsToCents(x: real)
    ensures x - 0.005 < RoundCurrency(x) <= x + 0.005
    ensures RoundCurrency(x) * 100.0 == (RoundCurrency(x) * 100.0).Floor as real
  {
    var cents := (x * 100.0 + 0.5).Floor;
    assert RoundCurrency(x) * 100.0 == cents as real;
  }

  /** 29.20 a month for each vCPU and 3.285 for each gigabyte of every task. */
  function ListPrice(tasks: nat, cpu: nat, memory: nat): real {
    29.2 / 1024.0 * (tasks as real * cpu as real) + 3.285 / 1024.0 * (tasks as real * memory as real)
  }

  lemma TaskPrice(tasks: nat, cpu: nat, memory: nat)
    ensures TaskCost(tasks, cpu, memory) == ListPrice(tasks, cpu, memory)
  {
    var hour := (cpu as real / 1024.0 * 0.04 + memory as real / 1024.0 * 0.0045) * 730.0;
    assert hour == 29.2 / 1024.0 * cpu as real + 3.285 / 1024.0 * memory as real;
  }

  /** To half a cent the estimate is the list price of the tasks, 18 for a public load balancer, 32 for a NAT gateway
      that a network change brings, and 3 for a log group. What the plan does not say is one task of half a vCPU
      and one gigabyte. */
  lemma PricesExactly(f: Findings)
    ensures
      var tasks := if f.desiredCount.Some? then f.desiredCount.value else 1;
      var cpu := if f.fargateCpu.Some? then f.fargateCpu.value else 512;
      var memory := if f.fargateMemoryMb.Some? then f.fargateMemoryMb.value else 1024;
      var extra := (if f.publicLoadBalancer then 18.0 else 0.0) + (if f.logGroup then 3.0 else 0.0)
                   + (if f.networkChange && f.natGateway then 32.0 else 0.0);
      var price := ListPrice(tasks, cpu, memory) + extra;
      && price - 0.005 < CostDelta(f) <= price + 0.005
      && CostDelta(f) * 100.0 == (CostDelta(f) * 100.0).Floor as real
  {
    var d, c, m := OrElse(f.desiredCount, 1), OrElse(f.fargateCpu, 512), OrElse(f.fargateMemoryMb, 1024);
    TaskPrice(d, c, m);
    RoundsToCents(TaskCost(d, c, m) + Surcharge(f));
  }

  lemma ProductIsMonotone(a: real, b: real, c: real, d: real)
    requires 0.0 <= a <= c && 0.0 <= b <= d
    ensures 0.0 <= a * b <= c * d
  {
    assert a * b <= c * b;
    assert c * b <= c * d;
  }

  /** The estimate never falls when the desired count, the CPU or the memory rises. */
  lemma CostRisesWithSize(f: Findings, desired: nat, cpu: nat, memory: nat)
    requires OrElse(f.desiredCount, 1) <= desired
    requires OrElse(f.fargateCpu, 512) <= cpu && OrElse(f.fargateMemoryMb, 1024) <= memory
    ensures CostDelta(f) <=
      CostDelta(f.(desiredCount := Some(desired), fargateCpu := Some(cpu), fargateMemoryMb := Some(memory)))
  {
    var d0, c0, m0 := OrElse(f.desiredCount, 1), OrElse(f.fargateCpu, 512), OrElse(f.fargateMemoryMb, 1024);
    var hour0 := (c0 as real / 1024.0 * 0.04 + m0 as real / 1024.0 * 0.0045) * 730.0;
    var hour1 := (cpu as real / 1024.0 * 0.04 + memory as real / 1024.0 * 0.0045) * 730.0;
    ProductIsMonotone(d0 as real, hour0, desired as real, hour1);
    RoundIsMonotone(TaskCost(d0, c0, m0) + Surcharge(f), TaskCost(desired, cpu, memory) + Surcharge(f));
  }

  lemma CostIsNotNegative(f: Findings)
    ensures 0.0 <= CostDelta(f)
  {
    var d, c, m := OrElse(f.desiredCount, 1), OrElse(f.fargateCpu, 512), OrElse(f.fargateMemoryMb, 1024);
    ProductIsMonotone(0.0, 0.0, d as real, (c as real / 1024.0 * 0.04 + m as real / 1024.0 * 0.0045) * 730.0);
    RoundIsMonotone(0.0, TaskCost(d, c, m) + Surcharge(f));
    assert RoundCurrency(0.0) == 0.0;
  }

  /** The rounded bounds really bracket the estimate. */
  lemma RoundedBoundsBracket(f: Findings)
    ensures RoundCurrency(CostDelta(f) * 0.8) <= CostDelta(f) <= RoundCurrency(CostDelta(f) * 1.2)
  {
    var delta := CostDelta(f);
    CostIsNotNegative(f);
    RoundIsMonotone(delta * 0.8, delta);
    RoundIsMonotone(delta, delta * 1.2);
    RoundIsIdempotent(
      TaskCost(OrElse(f.desiredCount, 1), OrElse(f.fargateCpu, 512), OrElse(f.fargateMemoryMb, 1024)) + Surcharge(f));
  }

  // ----- What each reason means -----------------------------------------------

  predicate IsProduction(slug: string) {
    Lower(Trim(slug)) == "production" || Lower(Trim(slug)) == "prod"
  }

  /** A string that JavaScript treats as absent. */
  predicate Absent(s: Option<string>) {
    s.None? || s.value == ""
  }

  predicate Exceeds(n: Option<nat>, limit: real) {
    n.Some? && n.value as real > limit
  }

  predicate Violates(code: Code, p: Plan, c: Config) {
    match code
    case MISSING_ACCOUNT_ALLOWLIST => c.allowedAccountIds == []
    case MISSING_ACCOUNT_ID => c.allowedAccountIds != [] && Absent(p.accountId)
    case DISALLOWED_ACCOUNT =>
      c.allowedAccountIds != [] && !Absent(p.accountId) && p.accountId.value !in c.allowedAccountIds
    case MISSING_REGION_ALLOWLIST => c.allowedRegions == []
    case MISSING_REGION => c.allowedRegions != [] && Absent(p.region)
    case DISALLOWED_REGION => c.allowedRegions != [] && !Absent(p.region) && p.region.value !in c.allowedRegions
    case DESTROY_DETECTED => p.destroyCount > 0
    case ADD_COUNT_LIMIT => p.addCount as real > c.maxPlanAddCount
    case CHANGE_COUNT_LIMIT => p.changeCount as real > c.maxPlanChangeCount
    case PUBLIC_LOAD_BALANCER_BLOCKED =>
      p.findings.publicLoadBalancer && c.blockPublicLoadBalancerByDefault && !c.allowPublicLoadBalancer
    case DESIRED_COUNT_LIMIT => Exceeds(p.findings.desiredCount, c.maxDesiredCount)
    case FARGATE_CPU_LIMIT => Exceeds(p.findings.fargateCpu, c.maxFargateCpu)
    case FARGATE_MEMORY_LIMIT => Exceeds(p.findings.fargateMemoryMb, c.maxFargateMemoryMb)
    case MONTHLY_COST_LIMIT => CostDelta(p.findings) > c.maxMonthlyCostDeltaUsd
  }

  predicate Warns(w: Warning, p: Plan) {
    match w
    case REPLACEMENT_DETECTED => p.findings.replacementCount > 0
    case IAM_CHANGE_DETECTED => p.findings.iamChange
    case SECURITY_GROUP_CHANGE_DETECTED => p.findings.securityGroupChange
    case NETWORK_CHANGE_DETECTED => p.findings.networkChange
    case HIGH_IMPACT_RESOURCE(r) => r in p.findings.highImpactResources
    case PRODUCTION_ENVIRONMENT => IsProduction(p.environmentSlug)
  }

  ghost predicate NoDuplicates<T(!new)>(s: seq<T>) {
    forall i, j :: 0 <= i < j < |s| ==> s[i] != s[j]
  }

  /** What the evaluation promises of its result. */
  ghost predicate IsEvaluation(e: Evaluation, p: Plan, c: Config) {
    && (forall code :: code in e.blockedReasons <==> Violates(code, p, c))
    && NoDuplicates(e.blockedReasons)
    && (forall w :: w in e.warnings <==> Warns(w, p))
    && e.status == (if e.blockedReasons != [] then BLOCKED else if e.warnings != [] then WARNED else PASSED)
    && e.riskLevel ==
        (if e.blockedReasons != [] then RISK_BLOCKED
         else if e.warnings != [] || p.changeCount > 0 then HIGH
         else if p.addCount > 0 then MEDIUM
         else LOW)
    && (e.applyEligible <==> e.blockedReasons == [] && p.destroyCount == 0)
    && e.deltaUsd == CostDelta(p.findings)
    && e.minUsd == RoundCurrency(e.deltaUsd * 0.8) && e.maxUsd == RoundCurrency(e.deltaUsd * 1.2)
    && e.minUsd <= e.deltaUsd <= e.maxUsd
  }

  /** The order in which the evaluation looks for reasons. */
  function Order(code: Code): nat {
    match code
    case MISSING_ACCOUNT_ALLOWLIST => 0 case MISSING_ACCOUNT_ID => 1 case DISALLOWED_ACCOUNT => 2
    case MISSING_REGION_ALLOWLIST => 3 case MISSING_REGION => 4 case DISALLOWED_REGION => 5
    case DESTROY_DETECTED => 6 case ADD_COUNT_LIMIT => 7 case CHANGE_COUNT_LIMIT => 8
    case PUBLIC_LOAD_BALANCER_BLOCKED => 9 case DESIRED_COUNT_LIMIT => 10 case FARGATE_CPU_LIMIT => 11
    case FARGATE_MEMORY_LIMIT => 12 case MONTHLY_COST_LIMIT => 13
  }

  /** `blocked` holds the reasons that come before `k`, in order. */
  ghost predicate Covers(blocked: seq<Code>, k: nat, p: Plan, c: Config) {
    && (forall code :: code in blocked <==> Order(code) < k && Violates(code, p, c))
    && (forall i, j :: 0 <= i < j < |blocked| ==> Order(blocked[i]) < Order(blocked[j]))
  }

  method Push(blocked: seq<Code>, holds: bool, code: Code, ghost p: Plan, ghost c: Config) returns (more: seq<Code>)
    requires Covers(blocked, Order(code), p, c) && (holds <==> Violates(code, p, c))
    ensures Covers(more, Order(code) + 1, p, c)
  {
    assert forall i :: 0 <= i < |blocked| ==> blocked[i] in blocked;
    assert forall x :: Order(x) == Order(code) ==> x == code;
    more := if holds then blocked + [code] else blocked;
  }

  method AccountReasons(p: Plan, c: Config) returns (blocked: seq<Code>)
    ensures Covers(blocked, 3, p, c)
  {
    var accountAllowed := !Absent(p.accountId) && c.allowedAccountIds != [] && p.accountId.value in c.allowedAccountIds;
    blocked := [];
    if c.allowedAccountIds == [] {
      blocked := blocked + [MISSING_ACCOUNT_ALLOWLIST];
    } else if Absent(p.accountId) {
      blocked := blocked + [MISSING_ACCOUNT_ID];
    } else if !accountAllowed {
      blocked := blocked + [DISALLOWED_ACCOUNT];
    }
  }

  method RegionReasons(before: seq<Code>, p: Plan, c: Config) returns (blocked: seq<Code>)
    requires Covers(before, 3, p, c)
    ensures Covers(blocked, 6, p, c)
  {
    var regionAllowed := !Absent(p.region) && c.allowedRegions != [] && p.region.value in c.allowedRegions;
    blocked := Push(before, c.allowedRegions == [], MISSING_REGION_ALLOWLIST, p, c);
    blocked := Push(blocked, c.allowedRegions != [] && Absent(p.region), MISSING_REGION, p, c);
    blocked := Push(blocked, c.allowedRegions != [] && !Absent(p.region) && !regionAllowed, DISALLOWED_REGION, p, c);
  }

  method CountReasons(before: seq<Code>, p: Plan, c: Config) returns (blocked: seq<Code>)
    requires Covers(before, 6, p, c)
    ensures Covers(blocked, 9, p, c)
  {
    blocked := Push(before, p.destroyCount > 0, DESTROY_DETECTED, p, c);
    blocked := Push(blocked, p.addCount as real > c.maxPlanAddCount, ADD_COUNT_LIMIT, p, c);
    blocked := Push(blocked, p.changeCount as real > c.maxPlanChangeCount, CHANGE_COUNT_LIMIT, p, c);
  }

  method SizeReasons(before: seq<Code>, p: Plan, c: Config, delta: real) returns (blocked: seq<Code>)
    requires Covers(before, 9, p, c) && delta == CostDelta(p.findings)
    ensures Covers(blocked, 14, p, c)
  {
    var f := p.findings;
    var publicBlocked := f.publicLoadBalancer && c.blockPublicLoadBalancerByDefault && !c.allowPublicLoadBalancer;
    blocked := Push(before, publicBlocked, PUBLIC_LOAD_BALANCER_BLOCKED, p, c);
    blocked := Push(blocked, Exceeds(f.desiredCount, c.maxDesiredCount), DESIRED_COUNT_LIMIT, p, c);
    blocked := Push(blocked, Exceeds(f.fargateCpu, c.maxFargateCpu), FARGATE_CPU_LIMIT, p, c);
    blocked := Push(blocked, Exceeds(f.fargateMemoryMb, c.maxFargateMemoryMb), FARGATE_MEMORY_LIMIT, p, c);
    blocked := Push(blocked, delta > c.maxMonthlyCostDeltaUsd, MONTHLY_COST_LIMIT, p, c);
  }

  method BlockedReasons(p: Plan, c: Config, delta: real) returns (blocked: seq<Code>)
    requires delta == CostDelta(p.findings)
    ensures forall code :: code in blocked <==> Violates(code, p, c)
    ensures NoDuplicates(blocked)
  {
    blocked := AccountReasons(p, c);
    blocked := RegionReasons(blocked, p, c);
    blocked := CountReasons(blocked, p, c);
    blocked := SizeReasons(blocked, p, c, delta);
    forall i, j | 0 <= i < j < |blocked| ensures blocked[i] != blocked[j] {
      assert Order(blocked[i]) < Order(blocked[j]);
    }
  }

  method Warnings(p: Plan) returns (warnings: seq<Warning>)
    ensures forall w :: w in warnings <==> Warns(w, p)
  {
    warnings := [];
    if p.findings.replacementCount > 0 { warnings := warnings + [REPLACEMENT_DETECTED]; }
    if p.findings.iamChange { warnings := warnings + [IAM_CHANGE_DETECTED]; }
    if p.findings.securityGroupChange { warnings := warnings + [SECURITY_GROUP_CHANGE_DETECTED]; }
    if p.findings.networkChange { warnings := warnings + [NETWORK_CHANGE_DETECTED]; }
    var resources := p.findings.highImpactResources;
    for i := 0 to |resources|
      invariant forall w :: w in warnings <==>
        if w.HIGH_IMPACT_RESOURCE? then w.resource in resources[..i] else w != PRODUCTION_ENVIRONMENT && Warns(w, p)
    {
      warnings := warnings + [HIGH_IMPACT_RESOURCE(resources[i])];
    }
    if IsProduction(p.environmentSlug) { warnings := warnings + [PRODUCTION_ENVIRONMENT]; }
  }

  method EvaluateAwsGuardrails(p: Plan, c: Config) returns (e: Evaluation)
    ensures IsEvaluation(e, p, c)
  {
    var isProduction := IsProduction(p.environmentSlug);
    var delta := EstimateMonthlyCostDelta(p.findings);
    var blocked := BlockedReasons(p, c, delta);
    var warnings := Warnings(p);
    var riskLevel :=
      if |blocked| > 0 then RISK_BLOCKED
      else if |warnings| > 0 || p.changeCount > 0 || isProduction then HIGH
      else if p.addCount > 0 then MEDIUM
      else LOW;
    var status := if |blocked| > 0 then BLOCKED else if |warnings| > 0 then WARNED else PASSED;
    RoundedBoundsBracket(p.findings);
    assert isProduction ==> PRODUCTION_ENVIRONMENT in warnings;
    e := Evaluation(
      status, riskLevel, blocked, warnings, |blocked| == 0 && p.destroyCount == 0,
      RoundCurrency(delta * 0.8), delta, RoundCurrency(delta * 1.2));
  }

  // ----- Consistency and monotonicity -----------------------------------------

  /** The three verdicts agree, and each says that some limit is violated. */
  lemma VerdictsAgree(e: Evaluation, p: Plan, c: Config)
    requires IsEvaluation(e, p, c)
    ensures e.status == BLOCKED <==> e.riskLevel == RISK_BLOCKED
    ensures e.status == BLOCKED <==> !e.applyEligible
    ensures e.status == BLOCKED <==> exists code :: Violates(code, p, c)
  {
    if p.destroyCount > 0 { assert Violates(DESTROY_DETECTED, p, c); }
    if e.blockedReasons != [] { assert e.blockedReasons[0] in e.blockedReasons; }
  }

  /** Everything about the plan is allowlisted or within its limit. */
  predicate WithinLimits(p: Plan, c: Config) {
    && p.accountId.Some? && p.accountId.value != "" && p.accountId.value in c.allowedAccountIds
    && p.region.Some? && p.region.value != "" && p.region.value in c.allowedRegions
    && p.destroyCount == 0 && p.addCount as real <= c.maxPlanAddCount && p.changeCount as real <= c.maxPlanChangeCount
    && (p.findings.publicLoadBalancer ==> !c.blockPublicLoadBalancerByDefault || c.allowPublicLoadBalancer)
    && (p.findings.desiredCount.Some? ==> p.findings.desiredCount.value as real <= c.maxDesiredCount)
    && (p.findings.fargateCpu.Some? ==> p.findings.fargateCpu.value as real <= c.maxFargateCpu)
    && (p.findings.fargateMemoryMb.Some? ==> p.findings.fargateMemoryMb.value as real <= c.maxFargateMemoryMb)
    && CostDelta(p.findings) <= c.maxMonthlyCostDeltaUsd
  }

  lemma AllowedIdentity(p: Plan, c: Config)
    requires forall code :: !Violates(code, p, c)
    ensures p.accountId.Some? && p.accountId.value != "" && p.accountId.value in c.allowedAccountIds
    ensures p.region.Some? && p.region.value != "" && p.region.value in c.allowedRegions
  {
    assert !Violates(MISSING_ACCOUNT_ALLOWLIST, p, c) && !Violates(MISSING_ACCOUNT_ID, p, c);
    assert !Violates(DISALLOWED_ACCOUNT, p, c) && !Violates(DISALLOWED_REGION, p, c);
    assert !Violates(MISSING_REGION_ALLOWLIST, p, c) && !Violates(MISSING_REGION, p, c);
  }

  lemma NothingViolated(p: Plan, c: Config)
    ensures (forall code :: !Violates(code, p, c)) <==> WithinLimits(p, c)
  {
    if forall code :: !Violates(code, p, c) {
      AllowedIdentity(p, c);
      assert !Violates(DESTROY_DETECTED, p, c) && !Violates(ADD_COUNT_LIMIT, p, c);
      assert !Violates(CHANGE_COUNT_LIMIT, p, c) && !Violates(PUBLIC_LOAD_BALANCER_BLOCKED, p, c);
      assert !Violates(DESIRED_COUNT_LIMIT, p, c) && !Violates(FARGATE_CPU_LIMIT, p, c);
      assert !Violates(FARGATE_MEMORY_LIMIT, p, c) && !Violates(MONTHLY_COST_LIMIT, p, c);
    }
  }

  /** A plan may be applied exactly when it is within all limits. */
  lemma EligibleExactly(e: Evaluation, p: Plan, c: Config)
    requires IsEvaluation(e, p, c)
    ensures e.applyEligible <==> WithinLimits(p, c)
    ensures e.status != BLOCKED <==> WithinLimits(p, c)
  {
    VerdictsAgree(e, p, c);
    NothingViolated(p, c);
  }

  /** The plan replaces nothing, leaves IAM, security groups, the network and databases alone, and is not for
      production. */
  predicate Unremarkable(p: Plan) {
    && p.findings.replacementCount == 0 && !p.findings.iamChange && !p.findings.securityGroupChange
    && !p.findings.networkChange && p.findings.highImpactResources == []
    && Lower(Trim(p.environmentSlug)) != "production" && Lower(Trim(p.environmentSlug)) != "prod"
  }

  /** Nothing is warned of exactly in such a plan. */
  lemma UnwarnedExactly(e: Evaluation, p: Plan, c: Config)
    requires IsEvaluation(e, p, c)
    ensures e.warnings == [] <==> Unremarkable(p)
  {
    LowRiskExactly(e, p, c);
    var f := p.findings;
    if e.warnings == [] {
      assert !Warns(REPLACEMENT_DETECTED, p) && !Warns(IAM_CHANGE_DETECTED, p) && !Warns(PRODUCTION_ENVIRONMENT, p);
      assert !Warns(SECURITY_GROUP_CHANGE_DETECTED, p) && !Warns(NETWORK_CHANGE_DETECTED, p);
      if f.highImpactResources != [] {
        assert Warns(HIGH_IMPACT_RESOURCE(f.highImpactResources[0]), p);
      }
    }
  }

  /** Status, risk and the bounds of the cost, read off the plan and the limits. */
  lemma VerdictsExactly(e: Evaluation, p: Plan, c: Config)
    requires IsEvaluation(e, p, c)
    ensures e.status == PASSED <==> WithinLimits(p, c) && Unremarkable(p)
    ensures e.status == WARNED <==> WithinLimits(p, c) && !Unremarkable(p)
    ensures e.riskLevel == LOW <==> WithinLimits(p, c) && Unremarkable(p) && p.changeCount == 0 && p.addCount == 0
    ensures e.riskLevel == MEDIUM <==> WithinLimits(p, c) && Unremarkable(p) && p.changeCount == 0 && p.addCount > 0
    ensures e.riskLevel == RISK_BLOCKED <==> !WithinLimits(p, c)
    ensures -0.005 <= e.minUsd - 0.8 * CostDelta(p.findings) <= 0.005
    ensures -0.005 <= e.maxUsd - 1.2 * CostDelta(p.findings) <= 0.005
    ensures e.deltaUsd == CostDelta(p.findings)
  {
    EligibleExactly(e, p, c);
    UnwarnedExactly(e, p, c);
    RoundsToCents(CostDelta(p.findings) * 0.8);
    RoundsToCents(CostDelta(p.findings) * 1.2);
  }

  /** Risk below HIGH means: nothing violated, nothing warned of, nothing changed. */
  lemma LowRiskExactly(e: Evaluation, p: Plan, c: Config)
    requires IsEvaluation(e, p, c)
    ensures e.riskLevel == LOW || e.riskLevel == MEDIUM <==>
      (forall code :: !Violates(code, p, c)) && (forall w :: !Warns(w, p)) && p.changeCount == 0
    ensures e.warnings == [] <==> forall w :: !Warns(w, p)
    ensures e.blockedReasons == [] <==> forall code :: !Violates(code, p, c)
  {
    if e.blockedReasons != [] { assert e.blockedReasons[0] in e.blockedReasons; }
    if e.warnings != [] { assert e.warnings[0] in e.warnings; }
  }

  /** The test that an apply makes on a stored evaluation. */
  predicate Quiet(e: Evaluation, destroyCount: nat) {
    destroyCount == 0 && e.applyEligible && e.riskLevel != HIGH && e.riskLevel != RISK_BLOCKED && e.status != BLOCKED
  }

  lemma QuietExactly(e: Evaluation, p: Plan, c: Config)
    requires IsEvaluation(e, p, c)
    ensures Quiet(e, p.destroyCount) <==>
      (forall code :: !Violates(code, p, c)) && (forall w :: !Warns(w, p)) && p.changeCount == 0
    ensures IsProduction(p.environmentSlug) ==> !Quiet(e, p.destroyCount)
  {
    LowRiskExactly(e, p, c);
    assert Violates(DESTROY_DETECTED, p, c) <==> p.destroyCount > 0;
    assert IsProduction(p.environmentSlug) ==> Warns(PRODUCTION_ENVIRONMENT, p);
  }

  /** `d` permits at least what `c` permits. */
  ghost predicate Looser(c: Config, d: Config) {
    && (forall a :: a in c.allowedAccountIds ==> a in d.allowedAccountIds)
    && (forall r :: r in c.allowedRegions ==> r in d.allowedRegions)
    && c.maxPlanAddCount <= d.maxPlanAddCount && c.maxPlanChangeCount <= d.maxPlanChangeCount
    && c.maxMonthlyCostDeltaUsd <= d.maxMonthlyCostDeltaUsd && c.maxFargateCpu <= d.maxFargateCpu
    && c.maxFargateMemoryMb <= d.maxFargateMemoryMb && c.maxDesiredCount <= d.maxDesiredCount
    && (d.blockPublicLoadBalancerByDefault ==> c.blockPublicLoadBalancerByDefault)
    && (c.allowPublicLoadBalancer ==> d.allowPublicLoadBalancer)
  }

  /** The reasons an allowlist gives; at most one of each kind applies. */
  predicate AccountCode(code: Code) {
    code == MISSING_ACCOUNT_ALLOWLIST || code == MISSING_ACCOUNT_ID || code == DISALLOWED_ACCOUNT
  }

  predicate RegionCode(code: Code) {
    code == MISSING_REGION_ALLOWLIST || code == MISSING_REGION || code == DISALLOWED_REGION
  }

  /** The reason under the stricter limits that accounts for a reason under the looser ones. */
  function Counterpart(code: Code, c: Config): Code {
    if AccountCode(code) && c.allowedAccountIds == [] then MISSING_ACCOUNT_ALLOWLIST
    else if RegionCode(code) && c.allowedRegions == [] then MISSING_REGION_ALLOWLIST
    else code
  }

  /** Loosening adds a reason in one case only: a first entry is put on an empty allowlist
      and the plan's identity is missing or not that entry. */
  lemma LooserAddsReasonOnlyToEmptyAllowlist(code: Code, p: Plan, c: Config, d: Config)
    requires Looser(c, d)
    ensures Violates(code, p, d) && !Violates(code, p, c) <==>
      || (code == MISSING_ACCOUNT_ID && c.allowedAccountIds == [] && d.allowedAccountIds != [] && Absent(p.accountId))
      || (code == DISALLOWED_ACCOUNT && c.allowedAccountIds == [] && d.allowedAccountIds != [] && !Absent(p.accountId)
          && p.accountId.value !in d.allowedAccountIds)
      || (code == MISSING_REGION && c.allowedRegions == [] && d.allowedRegions != [] && Absent(p.region))
      || (code == DISALLOWED_REGION && c.allowedRegions == [] && d.allowedRegions != [] && !Absent(p.region)
          && p.region.value !in d.allowedRegions)
  {
    assert c.allowedAccountIds != [] ==> c.allowedAccountIds[0] in d.allowedAccountIds;
    assert c.allowedRegions != [] ==> c.allowedRegions[0] in d.allowedRegions;
  }

  lemma {:induction false} ElementsCount(s: seq<Code>, elements: set<Code>)
    requires NoDuplicates(s) && forall code :: code in s <==> code in elements
    ensures |elements| == |s|
  {
    if s == [] {
      assert elements == {};
    } else {
      var n := |s| - 1;
      assert forall i :: 0 <= i < n ==> s[i] == s[..n][i];
      assert s[n] !in s[..n];
      forall code ensures code in s[..n] <==> code in elements - {s[n]} {
        if code in s && code != s[n] {
          var i :| 0 <= i < |s| && s[i] == code;
          assert s[..n][i] == code;
        }
      }
      ElementsCount(s[..n], elements - {s[n]});
    }
  }

  /** A set whose members have distinct counterparts in another set is no larger. */
  lemma {:induction false} CounterpartsFit(a: set<Code>, b: set<Code>, c: Config)
    requires forall x :: x in a ==> Counterpart(x, c) in b
    requires forall x, y :: x in a && y in a && Counterpart(x, c) == Counterpart(y, c) ==> x == y
    ensures |a| <= |b|
  {
    if a != {} {
      var x :| x in a;
      CounterpartsFit(a - {x}, b - {Counterpart(x, c)}, c);
    }
  }

  /** Raising a limit, permitting public load balancers or enlarging an allowlist never adds to the
      number of reasons, and never blocks a plan that was not blocked. */
  lemma LooserBlocksNoMore(p: Plan, c: Config, d: Config, e: Evaluation, f: Evaluation)
    requires Looser(c, d) && IsEvaluation(e, p, c) && IsEvaluation(f, p, d)
    ensures |f.blockedReasons| <= |e.blockedReasons|
    ensures f.status == BLOCKED ==> e.status == BLOCKED
    ensures e.applyEligible ==> f.applyEligible
  {
    var strict := set code | code in e.blockedReasons;
    var loose := set code | code in f.blockedReasons;
    ElementsCount(e.blockedReasons, strict);
    ElementsCount(f.blockedReasons, loose);
    forall x | x in loose ensures Counterpart(x, c) in strict {
      LooserAddsReasonOnlyToEmptyAllowlist(x, p, c, d);
      assert Violates(Counterpart(x, c), p, c);
    }
    CounterpartsFit(loose, strict, c);
  }
}
