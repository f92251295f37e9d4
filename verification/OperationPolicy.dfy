/** Who may start, approve and reject an operation, and which operations need approval
    (apps/api/src/modules/operations/operation-policy.service.ts, operation-authorization.service.ts,
    apps/api/src/modules/policy/operation-policy.middleware.ts, and the worker's own checks in
    apps/worker/src/queues/operations.queue.ts). */
module OperationPolicy {
  import opened Wrappers
  import opened Text

  datatype Provider = KUBERNETES | AWS | JENKINS | GITHUB | DOCKER | INFRASTRUCTURE

  datatype OperationType =
    | KUBERNETES_DEPLOYMENT_SCALE | KUBERNETES_DEPLOYMENT_RESTART | KUBERNETES_MANIFEST_DRY_RUN
    | KUBERNETES_MANIFEST_APPLY | JENKINS_BUILD_TRIGGER
    | DOCKER_CONTAINER_START | DOCKER_CONTAINER_STOP | DOCKER_CONTAINER_RESTART
    | TERRAFORM_VALIDATE | TERRAFORM_PLAN | TERRAFORM_APPLY
    | ANSIBLE_SYNTAX_CHECK | ANSIBLE_CHECK | ANSIBLE_RUN
    | GITHUB_WORKFLOW_DISPATCH | AWS_DEPLOYMENT
    | AWS_ECR_IMAGE_BUILD | AWS_ECR_IMAGE_PUSH | AWS_TERRAFORM_ECS_PLAN | AWS_TERRAFORM_ECS_APPLY
    | AWS_ECS_RELEASE_PROMOTE | AWS_ECS_RELEASE_ROLLBACK | DEPLOYMENT_ROLLBACK

  datatype Risk = LOW | MEDIUM | HIGH

  /** The fields of an operation's input that decisions read; None when missing or of another type. */
  datatype Facts = Facts(
    provider: Provider, kind: OperationType, replicas: Option<real>, environmentSlug: Option<string>)

  datatype PolicyDecision = PolicyDecision(risk: Risk, token: Option<string>, approvalRequired: bool)

  function ConfirmationOnly(risk: Risk, token: string): PolicyDecision {
    PolicyDecision(risk, Some(token), false)
  }

  function ApprovalRequired(risk: Risk, token: Option<string>): PolicyDecision {
    PolicyDecision(risk, token, true)
  }

  predicate ProductionSlug(slug: string) {
    var normalized := Lower(Trim(slug));
    normalized == "production" || normalized == "prod"
  }

  predicate ForProduction(slug: Option<string>) {
    slug.Some? && ProductionSlug(slug.value)
  }

  /** `pushFlag` is false only when the environment switches the production-push approval off. */
  function EvaluateOperationPolicy(f: Facts, pushFlag: bool): PolicyDecision {
    var infra := f.provider == INFRASTRUCTURE || f.provider == AWS;
    if f.provider == JENKINS && f.kind == JENKINS_BUILD_TRIGGER then ConfirmationOnly(LOW, "BUILD")
    else if f.provider == DOCKER && f.kind == DOCKER_CONTAINER_START then ConfirmationOnly(MEDIUM, "START")
    else if f.provider == DOCKER && f.kind == DOCKER_CONTAINER_STOP then ApprovalRequired(MEDIUM, Some("STOP"))
    else if f.provider == DOCKER && f.kind == DOCKER_CONTAINER_RESTART then ApprovalRequired(MEDIUM, Some("RESTART"))
    else if f.provider == KUBERNETES && f.kind == KUBERNETES_DEPLOYMENT_RESTART then ConfirmationOnly(MEDIUM, "ROLLOUT")
    else if f.provider == KUBERNETES && f.kind == KUBERNETES_DEPLOYMENT_SCALE then
      if f.replicas.Some? && f.replicas.value > 2.0 then ApprovalRequired(MEDIUM, Some("SCALE"))
      else ConfirmationOnly(MEDIUM, "SCALE")
    else if infra && f.kind == TERRAFORM_VALIDATE then ConfirmationOnly(LOW, "VALIDATE")
    else if infra && f.kind == TERRAFORM_PLAN then ConfirmationOnly(LOW, "PLAN")
    else if infra && f.kind == TERRAFORM_APPLY then ApprovalRequired(HIGH, Some("APPLY"))
    else if f.provider == AWS && f.kind == AWS_ECR_IMAGE_BUILD then ConfirmationOnly(MEDIUM, "BUILD")
    else if f.provider == AWS && f.kind == AWS_ECR_IMAGE_PUSH then
      if pushFlag && ForProduction(f.environmentSlug) then ApprovalRequired(HIGH, Some("PUSH"))
      else ConfirmationOnly(MEDIUM, "PUSH")
    else if f.provider == AWS && f.kind == AWS_TERRAFORM_ECS_PLAN then ConfirmationOnly(MEDIUM, "PLAN")
    else if f.provider == AWS && f.kind == AWS_TERRAFORM_ECS_APPLY then ApprovalRequired(HIGH, Some("APPLY"))
    else if f.provider == AWS && f.kind == AWS_ECS_RELEASE_PROMOTE then
      if ForProduction(f.environmentSlug) then ApprovalRequired(HIGH, Some("PROMOTE"))
      else ConfirmationOnly(MEDIUM, "PROMOTE")
    else if f.provider == AWS && f.kind == AWS_ECS_RELEASE_ROLLBACK then ApprovalRequired(HIGH, Some("ROLLBACK"))
    else if f.provider == INFRASTRUCTURE && f.kind == ANSIBLE_SYNTAX_CHECK then ConfirmationOnly(LOW, "SYNTAX")
    else if f.provider == INFRASTRUCTURE && f.kind == ANSIBLE_CHECK then ConfirmationOnly(LOW, "CHECK")
    else if f.provider == INFRASTRUCTURE && f.kind == ANSIBLE_RUN then ApprovalRequired(HIGH, Some("RUN"))
    else ApprovalRequired(HIGH, None)
  }

  /** High risk always means approval, low risk never does, and what is not known is high risk. */
  lemma RiskAndApproval(f: Facts, pushFlag: bool)
    ensures var d := EvaluateOperationPolicy(f, pushFlag);
      (d.risk == HIGH ==> d.approvalRequired) && (d.risk == LOW ==> !d.approvalRequired) &&
      (d.token.None? ==> d.risk == HIGH)
  {
  }

  /** Low risk is what only looks, and Jenkins builds; medium risk with approval is stopping and restarting a
      container, and scaling above two. */
  lemma RiskExactly(f: Facts, pushFlag: bool)
    ensures var d := EvaluateOperationPolicy(f, pushFlag);
      && (d.risk == LOW <==>
          || (f.provider == JENKINS && f.kind == JENKINS_BUILD_TRIGGER)
          || (f.provider in {INFRASTRUCTURE, AWS} && f.kind in {TERRAFORM_VALIDATE, TERRAFORM_PLAN})
          || (f.provider == INFRASTRUCTURE && f.kind in {ANSIBLE_SYNTAX_CHECK, ANSIBLE_CHECK}))
      && (d.risk == MEDIUM && d.approvalRequired <==>
          || (f.provider == DOCKER && f.kind in {DOCKER_CONTAINER_STOP, DOCKER_CONTAINER_RESTART})
          || (f.provider == KUBERNETES && f.kind == KUBERNETES_DEPLOYMENT_SCALE
              && f.replicas.Some? && f.replicas.value > 2.0))
  {
  }

  /** The one provider under which an operation has a label; Terraform's own three have two. */
  function Home(kind: OperationType): Option<Provider> {
    match kind
    case JENKINS_BUILD_TRIGGER => Some(JENKINS)
    case DOCKER_CONTAINER_START | DOCKER_CONTAINER_STOP | DOCKER_CONTAINER_RESTART => Some(DOCKER)
    case KUBERNETES_DEPLOYMENT_RESTART | KUBERNETES_DEPLOYMENT_SCALE => Some(KUBERNETES)
    case TERRAFORM_VALIDATE | TERRAFORM_PLAN | TERRAFORM_APPLY => Some(INFRASTRUCTURE)
    case ANSIBLE_SYNTAX_CHECK | ANSIBLE_CHECK | ANSIBLE_RUN => Some(INFRASTRUCTURE)
    case AWS_ECR_IMAGE_BUILD | AWS_ECR_IMAGE_PUSH | AWS_TERRAFORM_ECS_PLAN | AWS_TERRAFORM_ECS_APPLY
         | AWS_ECS_RELEASE_PROMOTE | AWS_ECS_RELEASE_ROLLBACK => Some(AWS)
    case _ => None
  }

  /** The word that has to be typed. */
  function Label(kind: OperationType): string {
    match kind
    case JENKINS_BUILD_TRIGGER | AWS_ECR_IMAGE_BUILD => "BUILD"
    case DOCKER_CONTAINER_START => "START"
    case DOCKER_CONTAINER_STOP => "STOP"
    case DOCKER_CONTAINER_RESTART => "RESTART"
    case KUBERNETES_DEPLOYMENT_RESTART => "ROLLOUT"
    case KUBERNETES_DEPLOYMENT_SCALE => "SCALE"
    case TERRAFORM_VALIDATE => "VALIDATE"
    case TERRAFORM_PLAN | AWS_TERRAFORM_ECS_PLAN => "PLAN"
    case TERRAFORM_APPLY | AWS_TERRAFORM_ECS_APPLY => "APPLY"
    case ANSIBLE_SYNTAX_CHECK => "SYNTAX"
    case ANSIBLE_CHECK => "CHECK"
    case ANSIBLE_RUN => "RUN"
    case AWS_ECR_IMAGE_PUSH => "PUSH"
    case AWS_ECS_RELEASE_PROMOTE => "PROMOTE"
    case AWS_ECS_RELEASE_ROLLBACK => "ROLLBACK"
    case _ => ""
  }

  /** An operation has its label under its own provider and no other. */
  lemma LabelExactly(f: Facts, pushFlag: bool)
    ensures var token := EvaluateOperationPolicy(f, pushFlag).token;
      var terraform := f.kind in {TERRAFORM_VALIDATE, TERRAFORM_PLAN, TERRAFORM_APPLY};
      && (token.Some? <==> Home(f.kind) == Some(f.provider) || (terraform && f.provider == AWS))
      && (token.Some? ==> token.value == Label(f.kind))
  {
  }

  /** What may run on its requester's confirmation alone: checks, plans and builds, starting and rolling out, small
      scalings, and pushes and promotions that are not for production. */
  predicate ConfirmedOnly(f: Facts, pushFlag: bool) {
    var slug := if f.environmentSlug.Some? then Lower(Trim(f.environmentSlug.value)) else "";
    match f.kind
    case JENKINS_BUILD_TRIGGER => f.provider == JENKINS
    case DOCKER_CONTAINER_START => f.provider == DOCKER
    case KUBERNETES_DEPLOYMENT_RESTART => f.provider == KUBERNETES
    case KUBERNETES_DEPLOYMENT_SCALE => f.provider == KUBERNETES && (f.replicas.Some? ==> f.replicas.value <= 2.0)
    case TERRAFORM_VALIDATE => f.provider == INFRASTRUCTURE || f.provider == AWS
    case TERRAFORM_PLAN => f.provider == INFRASTRUCTURE || f.provider == AWS
    case ANSIBLE_SYNTAX_CHECK => f.provider == INFRASTRUCTURE
    case ANSIBLE_CHECK => f.provider == INFRASTRUCTURE
    case AWS_ECR_IMAGE_BUILD => f.provider == AWS
    case AWS_TERRAFORM_ECS_PLAN => f.provider == AWS
    case AWS_ECR_IMAGE_PUSH => f.provider == AWS && (pushFlag ==> slug !in ["production", "prod"])
    case AWS_ECS_RELEASE_PROMOTE => f.provider == AWS && slug !in ["production", "prod"]
    case _ => false
  }

  /** Everything else needs approval, an operation under a provider that is not its own included. */
  lemma ApprovalExactly(f: Facts, pushFlag: bool)
    ensures EvaluateOperationPolicy(f, pushFlag).approvalRequired <==> !ConfirmedOnly(f, pushFlag)
  {
  }

  // ----- The worker's own check -----------------------------------------------

  /** The worker refuses to run the operation because its row carries no approval time. */
  predicate WorkerGateFires(f: Facts, approved: bool) {
    !approved &&
    (|| ((f.provider == INFRASTRUCTURE || f.provider == AWS) && f.kind == TERRAFORM_APPLY)
     || (f.provider == AWS && f.kind == AWS_ECR_IMAGE_PUSH && ForProduction(f.environmentSlug))
     || (f.provider == AWS && f.kind == AWS_TERRAFORM_ECS_APPLY)
     || (f.provider == AWS && f.kind == AWS_ECS_RELEASE_PROMOTE)
     || (f.provider == AWS && f.kind == AWS_ECS_RELEASE_ROLLBACK)
     || (f.provider == INFRASTRUCTURE && f.kind == ANSIBLE_RUN))
  }

  /** The two operations that the policy lets through and the worker then refuses. */
  predicate PolicyGap(f: Facts, pushFlag: bool) {
    || (f.provider == AWS && f.kind == AWS_ECS_RELEASE_PROMOTE && !ForProduction(f.environmentSlug))
    || (f.provider == AWS && f.kind == AWS_ECR_IMAGE_PUSH && ForProduction(f.environmentSlug) && !pushFlag)
  }

  /** Without an approval the worker refuses exactly what the policy labels as HIGH risk, and promotions to any
      environment; with one it refuses nothing. */
  lemma GateIsForHighRisk(f: Facts)
    ensures var d := EvaluateOperationPolicy(f, true);
      WorkerGateFires(f, false) <==>
        (d.token.Some? && d.risk == HIGH) || (f.provider == AWS && f.kind == AWS_ECS_RELEASE_PROMOTE)
    ensures !WorkerGateFires(f, true)
  {
  }

  /** For an operation that was approved exactly when the policy or OPA asked for it, the worker's check fires exactly
      in the gap: never for Terraform apply, Ansible run, ECS apply and rollback. */
  lemma GateFiresInGapExactly(f: Facts, pushFlag: bool, opaRequired: bool)
    ensures var required := EvaluateOperationPolicy(f, pushFlag).approvalRequired || opaRequired;
      WorkerGateFires(f, required) <==> !opaRequired && PolicyGap(f, pushFlag)
    ensures f.kind in {TERRAFORM_APPLY, ANSIBLE_RUN, AWS_TERRAFORM_ECS_APPLY, AWS_ECS_RELEASE_ROLLBACK} ==>
      !PolicyGap(f, pushFlag)
  {
  }

  // ----- OPA ------------------------------------------------------------------

  datatype OpaDecision = OpaDecision(allow: bool, approvalRequired: bool, controls: seq<string>)

  datatype OpaMode = Shadow | Enforce

  const SHADOW_ALLOW := OpaDecision(true, false, ["shadow_mode_observation"])

  const FAIL_CLOSED := OpaDecision(false, false, ["fail_closed"])

  /** OPA's answer, or None when the call fails: an unreachable OPA denies in either mode; a reachable one is
      obeyed in enforce mode, and in shadow mode neither denies nor asks for approval, unless its own answer is
      marked fail-closed. */
  method EvaluateOpa(mode: OpaMode, answer: Option<OpaDecision>) returns (enforced: OpaDecision)
    ensures enforced == OpaEnforced(mode, answer)
    ensures answer.None? ==> !enforced.allow
    ensures answer.Some? && (mode == Enforce || "fail_closed" in answer.value.controls) ==> enforced == answer.value
    ensures answer.Some? && mode == Shadow && "fail_closed" !in answer.value.controls ==>
      enforced.allow && !enforced.approvalRequired
  {
    var decision;
    match answer {
      case Some(d) => decision := d;
      case None => decision := FAIL_CLOSED;
    }
    assert FAIL_CLOSED.controls[0] == "fail_closed";
    enforced := if "fail_closed" in decision.controls || mode == Enforce then decision else SHADOW_ALLOW;
  }

  function OpaEnforced(mode: OpaMode, answer: Option<OpaDecision>): OpaDecision {
    match answer
    case None => FAIL_CLOSED
    case Some(d) => if "fail_closed" in d.controls || mode == Enforce then d else SHADOW_ALLOW
  }

  // ----- Roles ----------------------------------------------------------------

  datatype Role = OWNER | ADMIN | MEMBER | VIEWER

  datatype Status = PENDING_APPROVAL | QUEUED | RUNNING | SUCCEEDED | FAILED | REJECTED

  predicate CanTriggerWithRole(role: Option<Role>) {
    role.Some? && (role.value == OWNER || role.value == ADMIN || role.value == MEMBER)
  }

  /** Approving and rejecting ask the same. */
  predicate CanDecideWithRole(role: Option<Role>, user: string, status: Status, requestedBy: Option<string>) {
    && status == PENDING_APPROVAL
    && role.Some? && (role.value == OWNER || role.value == ADMIN)
    && requestedBy != Some(user)
  }
}
