/** ECS plan and apply in the worker (apps/worker/src/queues/operations.queue.ts):
    what a plan stores, and the gate an apply must pass. */
module PlanApply {
  import opened Wrappers
  import opened PlanSummary
  import G = Guardrails
  import Text

  type Time = nat

  /** The string-valued fields of an operation's input. */
  type Input = map<string, string>

  /** The worker's configuration. */
  datatype Environment = Environment(
    applyEnabled: bool, allowedWorkspaces: seq<string>, remoteStateConfigured: bool,
    accountId: Option<string>, region: Option<string>, guardrails: G.Config)

  /** What the outside world answers: whether the workspace and the tool are there,
      the text the tool prints, and what the guardrail scans detect in it. */
  datatype Tooling = Tooling(workspaceFound: bool, toolConnected: bool, text: string, findings: G.Findings)

  datatype PlanResult = PlanResult(
    targetSlug: string, environmentSlug: string, imageUri: string, imageDigest: Option<string>,
    counts: Counts, riskLevel: G.Risk, guardrails: G.Evaluation, applyEligible: bool)

  /** An operation row, as the apply reads it. */
  datatype PlanRow = PlanRow(succeeded: bool, updatedAt: Time, input: Input, result: Option<PlanResult>)

  datatype Error =
    | MissingField(field: string) | NotApproved | ApplyDisabled | InvalidTarget | WorkspaceNotAllowed
    | StateNotConfigured | WorkspaceNotFound | ToolNotConnected | SourceNotFound | SourceNotSuccessful
    | SourceStale | VariablesMismatch | SourceBlocked | GuardrailsBlocked | SummaryMismatch | PlanUnsafe

  /** What the apply changes: these variables, with these counts. */
  datatype Applied = Applied(vars: Vars, counts: Counts, guardrails: G.Evaluation)

  // ----- Fields ---------------------------------------------------------------

  function StringField(input: Input, key: string): Result<string, Error> {
    if key in input && input[key] != "" then Ok(input[key]) else Err(MissingField(key))
  }

  function OptionalStringField(input: Input, key: string): Option<string> {
    if key in input && Text.Trim(input[key]) != "" then Some(input[key]) else None
  }

  function RawField(input: Input, key: string): Option<string> {
    if key in input then Some(input[key]) else None
  }

  datatype Vars = Vars(targetSlug: string, workspaceSlug: string, environmentSlug: string, imageUri: string,
    imageDigest: Option<string>)

  /** The input holds all the required fields, with these values. */
  predicate HasVars(input: Input, v: Vars) {
    && StringField(input, "targetSlug") == Ok(v.targetSlug)
    && StringField(input, "workspaceSlug") == Ok(v.workspaceSlug)
    && StringField(input, "environmentSlug") == Ok(v.environmentSlug)
    && StringField(input, "imageUri") == Ok(v.imageUri)
    && OptionalStringField(input, "imageDigest") == v.imageDigest
  }

  /** The fields both executors read first. */
  method ReadVars(input: Input) returns (r: Result<Vars, Error>)
    ensures r.Ok? ==> forall v :: HasVars(input, v) <==> v == r.value
    ensures r.Err? ==> forall v :: !HasVars(input, v)
    ensures r.Err? ==> r.error.MissingField? && StringField(input, r.error.field) == Err(r.error)
  {
    var target := StringField(input, "targetSlug");
    if target.Err? { return Err(target.error); }
    var workspace := StringField(input, "workspaceSlug");
    if workspace.Err? { return Err(workspace.error); }
    var environment := StringField(input, "environmentSlug");
    if environment.Err? { return Err(environment.error); }
    var image := StringField(input, "imageUri");
    if image.Err? { return Err(image.error); }
    return Ok(Vars(target.value, workspace.value, environment.value, image.value,
      OptionalStringField(input, "imageDigest")));
  }

  function GuardrailPlan(environmentSlug: string, counts: Counts, env: Environment, tooling: Tooling): G.Plan {
    G.Plan(environmentSlug, env.accountId, env.region, counts.addCount, counts.changeCount, counts.destroyCount,
      tooling.findings)
  }

  // ----- The plan -------------------------------------------------------------

  /** What both executors need of the input and the environment before they run the tool. */
  predicate Runnable(v: Vars, env: Environment, tooling: Tooling) {
    && v.targetSlug == v.workspaceSlug
    && v.workspaceSlug in env.allowedWorkspaces
    && env.remoteStateConfigured && tooling.workspaceFound && tooling.toolConnected
  }

  /** A result that a plan of this input can have stored. */
  ghost predicate Produced(result: PlanResult, input: Input, env: Environment, tooling: Tooling) {
    && HasVars(input,
         Vars(result.targetSlug, result.targetSlug, result.environmentSlug, result.imageUri, result.imageDigest))
    && result.counts == ParseTerraformPlanCounts(tooling.text)
    && G.IsEvaluation(result.guardrails, GuardrailPlan(result.environmentSlug, result.counts, env, tooling),
         env.guardrails)
    && result.riskLevel == result.guardrails.riskLevel
    && (result.applyEligible <==> result.counts.destroyCount == 0 && result.guardrails.applyEligible)
  }

  method ExecutePlan(input: Input, env: Environment, tooling: Tooling) returns (r: Result<PlanResult, Error>)
    ensures r.Ok? ==> Produced(r.value, input, env, tooling)
    ensures r.Ok? <==> exists v :: HasVars(input, v) && Runnable(v, env, tooling)
  {
    var vars := ReadVars(input);
    if vars.Err? { return Err(vars.error); }
    var v := vars.value;
    if v.targetSlug != v.workspaceSlug { return Err(InvalidTarget); }
    if v.workspaceSlug !in env.allowedWorkspaces { return Err(WorkspaceNotAllowed); }
    if !env.remoteStateConfigured { return Err(StateNotConfigured); }
    if !tooling.workspaceFound { return Err(WorkspaceNotFound); }
    if !tooling.toolConnected { return Err(ToolNotConnected); }
    var safety := SummarizeTerraformPlanSafety(tooling.text);
    var guardrails := G.EvaluateAwsGuardrails(
      GuardrailPlan(v.environmentSlug, safety.counts, env, tooling), env.guardrails);
    assert HasVars(input, v) && Runnable(v, env, tooling);
    return Ok(PlanResult(v.workspaceSlug, v.environmentSlug, v.imageUri, v.imageDigest, safety.counts,
      guardrails.riskLevel, guardrails, safety.applyEligible && guardrails.applyEligible));
  }

  // ----- The apply ------------------------------------------------------------

  const DAY_SECONDS := 24 * 60 * 60

  /** The plan's age in whole seconds, never negative. */
  function AgeSeconds(now: Time, updatedAt: Time): nat {
    if now <= updatedAt then 0 else (now - updatedAt) / 1000
  }

  /** The source plan's stored result lets an apply go on. A row without a result reads as
      zero counts and not eligible. */
  predicate SourceAllows(row: PlanRow) {
    && row.result.Some?
    && row.result.value.counts.destroyCount == 0
    && row.result.value.applyEligible
    && row.result.value.riskLevel != G.HIGH
    && row.result.value.riskLevel != G.RISK_BLOCKED
    && row.result.value.guardrails.status != G.BLOCKED
  }

  predicate SameVariables(row: PlanRow, v: Vars) {
    && RawField(row.input, "targetSlug") == Some(v.targetSlug)
    && RawField(row.input, "environmentSlug") == Some(v.environmentSlug)
    && RawField(row.input, "imageUri") == Some(v.imageUri)
    && RawField(row.input, "imageDigest") == v.imageDigest
  }

  /** A named source plan is stored, recent, made for these variables, and lets an apply go on. */
  predicate SourceAccepted(row: Option<PlanRow>, v: Vars, now: Time) {
    && row.Some? && row.value.succeeded && AgeSeconds(now, row.value.updatedAt) <= DAY_SECONDS
    && SameVariables(row.value, v) && SourceAllows(row.value)
  }

  /** Which of the failing conditions a refusal names. */
  function Refusal(row: Option<PlanRow>, v: Vars, now: Time): Error {
    if row.None? then SourceNotFound
    else if !row.value.succeeded then SourceNotSuccessful
    else if AgeSeconds(now, row.value.updatedAt) > DAY_SECONDS then SourceStale
    else if !SameVariables(row.value, v) then VariablesMismatch
    else SourceBlocked
  }

  /** The checks on a named source plan; `row` is None when no such plan is stored. */
  method CheckSourcePlan(row: Option<PlanRow>, v: Vars, now: Time) returns (r: Result<Counts, Error>)
    ensures r.Ok? <==> SourceAccepted(row, v, now)
    ensures r.Ok? ==> r.value == row.value.result.value.counts
    ensures r.Err? ==> r.error == Refusal(row, v, now)
    ensures r == Err(SourceNotFound) <==> row.None?
    ensures r == Err(SourceNotSuccessful) <==> row.Some? && !row.value.succeeded
    ensures r == Err(SourceStale) <==> row.Some? && row.value.succeeded && row.value.updatedAt + 86_401_000 <= now
    ensures r == Err(VariablesMismatch) <==>
      && row.Some? && row.value.succeeded && now < row.value.updatedAt + 86_401_000
      && var input := row.value.input;
         || "targetSlug" !in input || input["targetSlug"] != v.targetSlug
         || "environmentSlug" !in input || input["environmentSlug"] != v.environmentSlug
         || "imageUri" !in input || input["imageUri"] != v.imageUri
         || (if "imageDigest" in input then Some(input["imageDigest"]) else None) != v.imageDigest
  {
    if row.None? { return Err(SourceNotFound); }
    if !row.value.succeeded { return Err(SourceNotSuccessful); }
    if AgeSeconds(now, row.value.updatedAt) > DAY_SECONDS { return Err(SourceStale); }
    if RawField(row.value.input, "targetSlug") != Some(v.targetSlug)
       || RawField(row.value.input, "environmentSlug") != Some(v.environmentSlug)
       || RawField(row.value.input, "imageUri") != Some(v.imageUri)
       || RawField(row.value.input, "imageDigest") != v.imageDigest {
      return Err(VariablesMismatch);
    }
    var counts, eligible, risk, status := Counts(0, 0, 0), false, G.LOW, G.PASSED;
    if row.value.result.Some? {
      var result := row.value.result.value;
      counts, eligible, risk, status := result.counts, result.applyEligible, result.riskLevel, result.guardrails.status;
    }
    if counts.destroyCount > 0 || !eligible || risk == G.HIGH || risk == G.RISK_BLOCKED || status == G.BLOCKED {
      return Err(SourceBlocked);
    }
    return Ok(counts);
  }

  /** The plan made just before the apply is safe and, with a source plan, has its counts. */
  ghost predicate NewPlanAllows(environmentSlug: string, source: Option<Counts>, env: Environment, tooling: Tooling) {
    var counts := ParseTerraformPlanCounts(tooling.text);
    && counts.destroyCount == 0
    && (source.Some? ==> source.value == counts)
    && forall code :: !G.Violates(code, GuardrailPlan(environmentSlug, counts, env, tooling), env.guardrails)
  }

  method CheckNewPlan(environmentSlug: string, source: Option<Counts>, env: Environment, tooling: Tooling)
    returns (r: Result<G.Evaluation, Error>)
    ensures r.Ok? <==> NewPlanAllows(environmentSlug, source, env, tooling)
    ensures r.Ok? ==> G.IsEvaluation(r.value,
      GuardrailPlan(environmentSlug, ParseTerraformPlanCounts(tooling.text), env, tooling), env.guardrails)
  {
    var safety := SummarizeTerraformPlanSafety(tooling.text);
    var plan := GuardrailPlan(environmentSlug, safety.counts, env, tooling);
    var guardrails := G.EvaluateAwsGuardrails(plan, env.guardrails);
    G.VerdictsAgree(guardrails, plan, env.guardrails);
    if guardrails.status == G.BLOCKED { return Err(GuardrailsBlocked); }
    if source.Some? {
      if safety.counts != source.value || safety.counts.destroyCount > 0 ||
         !safety.applyEligible || safety.riskLevel == HIGH {
        return Err(SummaryMismatch);
      }
    } else {
      if safety.counts.destroyCount > 0 || !safety.applyEligible || safety.riskLevel == HIGH { return Err(PlanUnsafe); }
    }
    return Ok(guardrails);
  }

  /** The conditions under which an apply reaches the tool's `apply`, stated on its arguments. */
  ghost predicate MayApply(
    v: Vars, approvedAt: Option<Time>, source: Option<Option<PlanRow>>, now: Time, env: Environment, tooling: Tooling)
  {
    && approvedAt.Some? && env.applyEnabled
    && Runnable(v, env, tooling)
    && (source.Some? ==> SourceAccepted(source.value, v, now))
    && NewPlanAllows(v.environmentSlug,
         if source.Some? then Some(source.value.value.result.value.counts) else None, env, tooling)
  }

  /** `source` is None when the operation names no source plan (a promotion or a rollback),
      and otherwise the row found under the name, if any. The world is touched only on Ok. */
  method ExecuteApply(
    input: Input, approvedAt: Option<Time>, source: Option<Option<PlanRow>>, now: Time,
    env: Environment, tooling: Tooling) returns (r: Result<Applied, Error>)
    ensures approvedAt.None? ==> r == Err(NotApproved)
    ensures approvedAt.Some? && !env.applyEnabled ==> r == Err(ApplyDisabled)
    ensures r.Ok? <==> exists v :: HasVars(input, v) && MayApply(v, approvedAt, source, now, env, tooling)
    ensures r.Ok? ==>
      && HasVars(input, r.value.vars)
      && r.value.counts == ParseTerraformPlanCounts(tooling.text)
      && G.IsEvaluation(r.value.guardrails,
           GuardrailPlan(r.value.vars.environmentSlug, r.value.counts, env, tooling), env.guardrails)
  {
    if approvedAt.None? { return Err(NotApproved); }
    if !env.applyEnabled { return Err(ApplyDisabled); }
    var vars := ReadVars(input);
    if vars.Err? { return Err(vars.error); }
    var v := vars.value;
    if v.targetSlug != v.workspaceSlug { return Err(InvalidTarget); }
    if v.workspaceSlug !in env.allowedWorkspaces { return Err(WorkspaceNotAllowed); }
    if !env.remoteStateConfigured { return Err(StateNotConfigured); }
    var sourceCounts: Option<Counts> := None;
    if source.Some? {
      var checked := CheckSourcePlan(source.value, v, now);
      if checked.Err? { return Err(checked.error); }
      sourceCounts := Some(checked.value);
    }
    if !tooling.workspaceFound { return Err(WorkspaceNotFound); }
    if !tooling.toolConnected { return Err(ToolNotConnected); }
    var plan := CheckNewPlan(v.environmentSlug, sourceCounts, env, tooling);
    if plan.Err? { return Err(plan.error); }
    assert HasVars(input, v) && MayApply(v, approvedAt, source, now, env, tooling);
    return Ok(Applied(v, ParseTerraformPlanCounts(tooling.text), plan.value));
  }

  // ----- In terms of the input ------------------------------------------------

  /** The four fields are given, the target is the workspace and is allowlisted, and state, workspace and tool are
      there. */
  predicate Prepared(input: Input, env: Environment, tooling: Tooling) {
    && "targetSlug" in input && input["targetSlug"] != ""
    && "workspaceSlug" in input && input["workspaceSlug"] == input["targetSlug"]
    && "environmentSlug" in input && input["environmentSlug"] != ""
    && "imageUri" in input && input["imageUri"] != ""
    && input["targetSlug"] in env.allowedWorkspaces && env.remoteStateConfigured
    && tooling.workspaceFound && tooling.toolConnected
  }

  /** The source plan succeeded less than a day and a second ago for the same target, environment, image and digest,
      and its stored result destroys nothing and is eligible, neither of high risk nor blocked. */
  predicate SourceFits(row: PlanRow, input: Input, now: Time)
    requires "targetSlug" in input && "environmentSlug" in input && "imageUri" in input
  {
    && row.succeeded && now < row.updatedAt + 86_401_000
    && "targetSlug" in row.input && row.input["targetSlug"] == input["targetSlug"]
    && "environmentSlug" in row.input && row.input["environmentSlug"] == input["environmentSlug"]
    && "imageUri" in row.input && row.input["imageUri"] == input["imageUri"]
    && (if "imageDigest" in input && Text.Trim(input["imageDigest"]) != ""
        then "imageDigest" in row.input && row.input["imageDigest"] == input["imageDigest"]
        else "imageDigest" !in row.input)
    && row.result.Some? && row.result.value.counts.destroyCount == 0 && row.result.value.applyEligible
    && row.result.value.riskLevel in {G.LOW, G.MEDIUM} && row.result.value.guardrails.status in {G.PASSED, G.WARNED}
  }

  function VarsOf(input: Input): Vars
    requires "targetSlug" in input && "workspaceSlug" in input && "environmentSlug" in input && "imageUri" in input
  {
    Vars(input["targetSlug"], input["workspaceSlug"], input["environmentSlug"], input["imageUri"],
      OptionalStringField(input, "imageDigest"))
  }

  /** Exactly which inputs a plan is made for. */
  lemma PlansExactly(input: Input, env: Environment, tooling: Tooling)
    ensures (exists v :: HasVars(input, v) && Runnable(v, env, tooling)) <==> Prepared(input, env, tooling)
  {
    if Prepared(input, env, tooling) {
      assert HasVars(input, VarsOf(input)) && Runnable(VarsOf(input), env, tooling);
    }
  }

  lemma SourceAcceptedExactly(row: PlanRow, input: Input, now: Time)
    requires "targetSlug" in input && "workspaceSlug" in input && "environmentSlug" in input && "imageUri" in input
    ensures SourceAccepted(Some(row), VarsOf(input), now) <==> SourceFits(row, input, now)
  {
  }

  /** Exactly which applies reach the tool: approved and switched on, prepared, with a source plan that fits when one
      is named, and a fresh plan that destroys nothing, is within all limits and has the source's counts. */
  lemma AppliesExactly(
    input: Input, approvedAt: Option<Time>, source: Option<Option<PlanRow>>, now: Time,
    env: Environment, tooling: Tooling)
    ensures (exists v :: HasVars(input, v) && MayApply(v, approvedAt, source, now, env, tooling)) <==>
      && approvedAt.Some? && env.applyEnabled && Prepared(input, env, tooling)
      && (source.Some? ==> source.value.Some? && SourceFits(source.value.value, input, now))
      && var counts := ParseTerraformPlanCounts(tooling.text);
         && (source.Some? ==> source.value.value.result.value.counts == counts)
         && G.WithinLimits(GuardrailPlan(input["environmentSlug"], counts, env, tooling), env.guardrails)
  {
    if Prepared(input, env, tooling) {
      var v, counts := VarsOf(input), ParseTerraformPlanCounts(tooling.text);
      assert HasVars(input, v) && Runnable(v, env, tooling);
      if source.Some? && source.value.Some? {
        SourceAcceptedExactly(source.value.value, input, now);
      }
      G.NothingViolated(GuardrailPlan(v.environmentSlug, counts, env, tooling), env.guardrails);
    }
  }

  // ----- Plan and apply together ----------------------------------------------

  /** Exactly which stored plans are accepted as sources: those that violate nothing, warn of nothing
      and change nothing. A production plan warns of its environment, so it never is. */
  lemma AcceptedExactly(row: PlanRow, planEnv: Environment, planTooling: Tooling)
    requires row.result.Some? && Produced(row.result.value, row.input, planEnv, planTooling)
    ensures var result := row.result.value;
      var p := GuardrailPlan(result.environmentSlug, result.counts, planEnv, planTooling);
      SourceAllows(row) <==>
        && (forall code :: !G.Violates(code, p, planEnv.guardrails))
        && (forall w :: !G.Warns(w, p))
        && result.counts.changeCount == 0
    ensures G.IsProduction(row.result.value.environmentSlug) ==> !SourceAllows(row)
  {
    var result := row.result.value;
    var p := GuardrailPlan(result.environmentSlug, result.counts, planEnv, planTooling);
    assert SourceAllows(row) <==> G.Quiet(result.guardrails, p.destroyCount);
    G.QuietExactly(result.guardrails, p, planEnv.guardrails);
  }

  /** The row's variables are the apply's, digest included. */
  lemma SameVariablesAsPlanned(input: Input, v: Vars, row: PlanRow, planEnv: Environment, planTooling: Tooling)
    requires HasVars(input, v) && SameVariables(row, v)
    requires row.result.Some? && Produced(row.result.value, row.input, planEnv, planTooling)
    ensures row.result.value.targetSlug == v.targetSlug && row.result.value.environmentSlug == v.environmentSlug
    ensures row.result.value.imageUri == v.imageUri && row.result.value.imageDigest == v.imageDigest
  {
  }

  /** A plan result that the worker stored and an apply then accepted has no changes, no destroys and no
      warnings, and is not for production; the apply uses the same variables and counts, and passed the
      gate less than 86,401,000 ms after the plan row was last updated. */
  lemma AcceptedPlansAreQuiet(
    input: Input, v: Vars, approvedAt: Option<Time>, row: PlanRow, now: Time,
    applyEnv: Environment, applyTooling: Tooling, planEnv: Environment, planTooling: Tooling)
    requires HasVars(input, v) && MayApply(v, approvedAt, Some(Some(row)), now, applyEnv, applyTooling)
    requires row.result.Some? && Produced(row.result.value, row.input, planEnv, planTooling)
    ensures var plan := row.result.value;
      && plan.counts == ParseTerraformPlanCounts(applyTooling.text)
      && plan.counts.changeCount == 0 && plan.counts.destroyCount == 0
      && plan.guardrails.warnings == [] && plan.guardrails.blockedReasons == []
      && !G.IsProduction(v.environmentSlug)
      && plan.targetSlug == v.targetSlug && plan.environmentSlug == v.environmentSlug
      && plan.imageUri == v.imageUri && plan.imageDigest == v.imageDigest
      && now < row.updatedAt + 86_401_000
  {
    AcceptedExactly(row, planEnv, planTooling);
    SameVariablesAsPlanned(input, v, row, planEnv, planTooling);
    var plan := row.result.value;
    G.LowRiskExactly(plan.guardrails,
      GuardrailPlan(plan.environmentSlug, plan.counts, planEnv, planTooling), planEnv.guardrails);
  }

  ghost predicate Imports(text: string) {
    exists before, imports, c, after :: OnlyAt(before + PlanLine(Some(imports), c, after), |before|)
      && text == before + PlanLine(Some(imports), c, after)
  }

  lemma ImportsReadAsEmpty(text: string)
    requires Imports(text)
    ensures ParseTerraformPlanCounts(text) == Counts(0, 0, 0)
  {
    var before, imports, c, after :| OnlyAt(before + PlanLine(Some(imports), c, after), |before|)
      && text == before + PlanLine(Some(imports), c, after);
    ImportPlansReadAsEmpty(before, imports, c, after);
  }

  /** A plan that imports resources hides what it destroys from the gate on the fresh plan: without a source plan it
      passes exactly when an empty plan would, and with one exactly when that had no counts either. */
  lemma DestroysBehindImportsPass(environmentSlug: string, source: Option<Counts>, env: Environment, tooling: Tooling)
    requires Imports(tooling.text)
    ensures NewPlanAllows(environmentSlug, source, env, tooling) <==>
      && (source.Some? ==> source.value == Counts(0, 0, 0))
      && forall code :: !G.Violates(code, GuardrailPlan(environmentSlug, Counts(0, 0, 0), env, tooling), env.guardrails)
  {
    ImportsReadAsEmpty(tooling.text);
  }

  /** It hides it from the gate on the source plan too: stored, it is accepted exactly when an empty plan with the same
      findings would be. */
  lemma DestroysBehindImportsAreStored(row: PlanRow, planEnv: Environment, planTooling: Tooling)
    requires row.result.Some? && Produced(row.result.value, row.input, planEnv, planTooling)
    requires Imports(planTooling.text)
    ensures var p := GuardrailPlan(row.result.value.environmentSlug, Counts(0, 0, 0), planEnv, planTooling);
      SourceAllows(row) <==>
        (forall code :: !G.Violates(code, p, planEnv.guardrails)) && (forall w :: !G.Warns(w, p))
  {
    ImportsReadAsEmpty(planTooling.text);
    AcceptedExactly(row, planEnv, planTooling);
  }
}
