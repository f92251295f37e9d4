# AutoOps: a verified model of its state machines and printers

AutoOps is a control plane for operations: people ask for an operation (a restart, an image push, a Terraform
apply), a policy decides whether somebody else has to approve it, workers carry it out, signals about resources are
grouped into incidents, and an inventory of resources is kept as a graph. This project models the parts of it whose
correctness is a matter of order, of arithmetic or of unambiguous text, and proves what they promise.

The database rows are values in sequences and maps; a call that updates rows step by step is a method of a class.
Where calls and workers can come between each other's statements, there is also a machine: `Possible` says when a
statement can happen, `Apply` what it writes, and a run is a sequence of such steps (`Runs.Final`). What the machine
keeps is proved for every run, and each undisturbed call of the class is proved to be one of its runs. Where the code
does not keep what it should, the code is modelled as it is: a lemma gives the run or the input that shows it, and
another says exactly when it is kept.

| file | what it models |
|---|---|
| `OperationPolicy.dfy` | roles, the approval policy, OPA's modes, the worker's own approval check |
| `OperationLifecycle.dfy` | operations: API calls, queue and workers, statement by statement |
| `OperationSafety.dfy` | what every interleaving keeps |
| `OperationOnce.dfy`, `OperationProgress.dfy` | what atomic decisions add: at most one execution, and nothing forgotten |
| `OperationLate.dfy` | exactly what a decision can do that is written late |
| `OperationOverlap.dfy` | runs of two overlapping decisions |
| `OperationService.dfy` | the calls and the worker as methods |
| `SignalKeys.dfy`, `Signals.dfy`, `SignalCounts.dfy` | fingerprints, correlation keys, the signal table, reconciliation |
| `Incidents.dfy`, `IncidentBatches.dfy` | incidents, their aggregates, correlation of one signal and of a batch |
| `ResourceUrn.dfy`, `SanitizedTexts.dfy`, `UrnPrinters.dfy`, `UrnTexts.dfy` | the segment normaliser, its outputs, the URN builders and their texts |
| `ResourceGraph.dfy`, `ResourceGraphLaws.dfy`, `ResourceGraphRuns.dfy`, `ResourceGraphService.dfy` | the resource graph |
| `ResourceGraphContents.dfy`, `KubernetesContents.dfy`, `DockerContents.dfy`, `JenkinsContents.dfy`, `AutoOpsContents.dfy` | what each inventory leaves in the graph |
| `Guardrails.dfy`, `PlanSummary.dfy`, `PlanPattern.dfy`, `PlanApply.dfy`, `Releases.dfy` | AWS plan, its summary line, guardrails, apply gate, releases |
| `Deployments.dfy`, `DeploymentService.dfy` | deployments, their workers and the simulation |
| `RefreshTokens.dfy`, `SlugAllocation.dfy` | refresh-token rotation, the registration slug loop |
| `DockerLogs.dfy` | the Docker log frame decoder |
| `Text.dfy`, `Runs.dfy` | shared string operations, runs of a machine |

## What turned out false

- Approvals and rejections are written by id, without a check of the status. Two decisions that overlap can have an
  operation executed twice (`OperationOverlap.ExecutedTwice`), left QUEUED with nobody to run it
  (`OperationOverlap.Forgotten`) or REJECTED after it SUCCEEDED (`OperationOverlap.RejectedAfterSuccess`).
  `OperationLate.DecisionExecutesTwiceExactly`, `DecisionAbandonsExactly` and `DecisionTakesBackExactly` say when a
  decision that is written now can do so.
- The worker demands an approval for every ECS promotion and every production image push, and the policy does not:
  `OperationPolicy.GateFiresInGapExactly` gives exactly the operations that are queued and then always fail.
- A Jenkins instance whose name starts with `job/` gives a build the URN of a job, because the rewrite takes the first
  `:job/` (`UrnPrinters.BuildTakesJobUrnExactly`); a node of the graph can then change its kind, and only then
  (`ResourceGraphRuns.InstanceChangesKindExactly`). The one route that registers an inventory
  (`apps/api/src/modules/integrations/jenkins/jenkins.controller.ts:94-99`) names no instance, so this is a property of
  the service's parameter; edges stay acyclic all the same.
- An incident's operation id is unique, and incidents are never deleted: correlating a signal of an operation whose
  incident was resolved throws (`IncidentLaws.RefusedAfterResolving`), and it stops the batch it is in
  (`IncidentBatches.BatchRefusedExactly`).
- A `|` inside a resource identity, after some text, makes two signals share a row and a count
  (`SignalCounts.PipedIdentitiesShareARow`, `SignalFingerprints.IdentityIsSharedExactly`).
- `Plan: 1 to import, 0 to add, 0 to change, 4 to destroy.` is read as a plan that changes nothing
  (`PlanSummary.ReadBackExactly`, `PlanApply.DestroysBehindImportsPass`).
- Putting a first entry on an empty allowlist can add a block reason
  (`Guardrails.LooserAddsReasonOnlyToEmptyAllowlist`).
- `api--key` is sanitised to `api-key`, which is rejected (`ResourceUrn.SanitizedCanBeRejected`).
- Overlapping refreshes of one token, overlapping release recordings of one key and overlapping triggers of one
  environment each break what holds when they do not overlap, and only they do
  (`RefreshTokens.RefreshExchangesTwiceExactly`, `Releases.StartCollidesExactly`, `Deployments.OverlappingTriggers`,
  `Deployments.CreateKeepsOneActiveExactly`). A logout under a refresh of its token leaves a surplus unrevoked token
  (`RefreshTokens.LogoutIsUndoneExactly`).

## Model

| member | source | states |
|---|---|---|
| `OperationPolicy.ApprovalExactly` | apps/api/src/modules/operations/operation-policy.service.ts:24-206 | an operation needs approval exactly when it is not in a table of checks, plans, builds, starts, small scalings and non-production pushes and promotions under their own provider |
| `OperationPolicy.RiskAndApproval` | apps/api/src/modules/operations/operation-policy.service.ts:24-235 | HIGH risk always needs approval, LOW never does, and an operation without a confirmation label is HIGH |
| `OperationPolicy.RiskExactly` | apps/api/src/modules/operations/operation-policy.service.ts:24-235 | LOW are the checks, plans and Jenkins builds; MEDIUM with approval are stopping and restarting a container and scaling above two; with approval this gives HIGH |
| `OperationPolicy.LabelExactly` | apps/api/src/modules/operations/operation-policy.service.ts:24-235 | an operation has a confirmation label under its own provider only, Terraform also under AWS, and which word it is |
| `OperationPolicy.GateFiresInGapExactly` | apps/worker/src/queues/operations.queue.ts:480-482 | for a row approved exactly when policy or OPA asked for it, the worker's approval check fires exactly for promotions outside production and for production pushes with the flag off; never for Terraform apply, Ansible run, ECS apply and rollback |
| `OperationPolicy.GateIsForHighRisk` | apps/worker/src/queues/operations.queue.ts:163-283 | without an approval the worker refuses exactly what the policy labels as HIGH risk and promotions to any environment; with one it refuses nothing |
| `OperationPolicy.EvaluateOpa` | apps/api/src/modules/policy/operation-policy.middleware.ts:25-48 | an unreachable OPA denies in both modes; an answer is obeyed in enforce mode or when marked fail-closed; otherwise shadow mode neither denies nor asks for approval |
| `OperationSafety.ExecutorsSawApproval` | apps/worker/src/queues/operations.queue.ts:85-132 | in every interleaving an executor of an approval-required operation has seen an approval time and an approver who was OWNER or ADMIN when checked and is not the requester, and one of another operation has seen none |
| `OperationSafety.WorkerGateInEveryRun` | apps/worker/src/queues/operations.queue.ts:163-283 | in every interleaving the worker's approval check fires for a running operation exactly in the policy's gap |
| `OperationSafety.ExecutionsArePaid` | apps/worker/src/queues/operations.queue.ts:97-160 | under any interleaving, duplicate delivery, retry and crash, executions plus one while QUEUED never exceed the writes of QUEUED |
| `OperationSafety.RequestersCouldTrigger` | apps/api/src/modules/operations/operation-authorization.service.ts:20-74 | in every interleaving, the requester of every operation was OWNER, ADMIN or MEMBER of its organization when it was created |
| `OperationSafety.RequesterRoleIsAsCreated` | apps/api/src/modules/operations/operation-authorization.service.ts:29-48 | the role that a row records is the membership of its requester at the statement that added it, and no statement changes it |
| `OperationSafety.CheckGrantsExactly` | apps/api/src/modules/operations/operation-authorization.service.ts:76-138 | the check of a decision passes every OWNER and ADMIN who did not request the operation, and nobody else |
| `OperationSafety.OneOperationPerKey` | apps/api/src/modules/operations/operation.service.ts:86-96 | in every run an organization's idempotency key belongs to at most one operation |
| `OperationSafety.StepIsSafe` | apps/api/src/modules/operations/operation.service.ts:160-361 | every single statement of an API call, of the queue and of a worker keeps the invariant of rows, calls, jobs and workers |
| `OperationSafety.CutShortAnywhere` | apps/worker/src/queues/operations.queue.ts:81-161 | a call can end and a worker can crash between any two statements, and an active job can be delivered again |
| `OperationOnce.ExecutedAtMostOnce` | apps/worker/src/queues/operations.queue.ts:115-141 | with decisions atomic an operation is executed at most once and its executor is alone with it |
| `OperationOnce.TerminalIsFinal` | apps/worker/src/queues/operations.queue.ts:97-152 | with decisions atomic SUCCEEDED, FAILED and REJECTED never change again, however the run goes on |
| `OperationOnce.RunsChangeLittle` | apps/api/src/modules/operations/operation.service.ts:160-361 | with decisions atomic every status change goes down PENDING_APPROVAL, QUEUED, RUNNING, terminal, so n operations change status at most 3n times |
| `OperationProgress.NothingIsForgotten` | apps/api/src/modules/operations/operation.queue.ts:28-32 | with decisions atomic and no crash or lost enqueue, a QUEUED operation has a waiting job, a worker that has not claimed it yet, or no job and a call between commit and enqueue |
| `OperationProgress.RestIsDecided` | apps/worker/src/queues/operations.queue.ts:81-161 | such a run that has come to rest, with no waiting job, worker or call, leaves every operation pending approval or terminal |
| `OperationProgress.CalmIsAtomic` | apps/api/src/modules/operations/operation.service.ts:160-304 | runs without crashes are runs with atomic decisions, and those are runs of the machine, with the same end |
| `OperationLate.DecisionExecutesTwiceExactly` | apps/api/src/modules/operations/operation.service.ts:240-264 | from any state of atomic decisions, a granted decision that is written now can have its operation executed twice exactly when it approves one that is RUNNING, SUCCEEDED or FAILED |
| `OperationLate.DecisionTakesBackExactly` | apps/api/src/modules/operations/operation.service.ts:317-342 | it can change a terminal status, at once or later, exactly when the row has ended otherwise than the decision writes, or an executor is at work on it; approvals and rejections alike |
| `OperationLate.DecisionAbandonsExactly` | apps/api/src/modules/operations/operation.queue.ts:28-32 | in a calm run it can leave its operation QUEUED with nobody to run it exactly when it approves an ended one whose job is still known, does not wait, and is in no worker's hands |
| `OperationLate.AbandonedForGood` | apps/worker/src/queues/operations.queue.ts:81-161 | nobody ever comes back to such an operation, however the run goes on |
| `OperationOverlap.ExecutedTwice` | apps/api/src/modules/operations/operation.service.ts:240-304 | a run with two overlapping approvals in which one operation is executed twice |
| `OperationOverlap.Forgotten` | apps/api/src/modules/operations/operation.queue.ts:28-32 | a run with two overlapping approvals that takes back SUCCEEDED and leaves the operation QUEUED with an ended job and no worker or call |
| `OperationOverlap.RejectedAfterSuccess` | apps/api/src/modules/operations/operation.service.ts:317-342 | a run with an approval and a rejection that overlap, in which the operation is executed, SUCCEEDED, and then REJECTED |
| `OperationServices.OperationService.CreateQueuedOperation` | apps/api/src/modules/operations/operation.service.ts:62-230 | Unauthorized exactly for whoever has no OWNER, ADMIN or MEMBER membership; otherwise the error of the first failing check, the holder of a used idempotency key, or a new row; the new state is the machine's run of the create and its enqueue |
| `OperationServices.CreateOutcomeExactly` | apps/api/src/modules/operations/operation.service.ts:62-163 | over the memberships, the rows and the request: who may create, when nothing is found, when a key returns its holder, and when a new operation is made |
| `OperationServices.CreatedStateExactly` | apps/api/src/modules/operations/operation.service.ts:158-230 | every other answer changes nothing; a new operation is pending without a job when policy or OPA asks for approval, and otherwise QUEUED with one |
| `OperationServices.DecideOutcomeExactly` | apps/api/src/modules/operations/operation.service.ts:232-261 | a decision is accepted exactly for an OWNER or ADMIN who is not the requester of a pending operation of the organization; not found and conflict exactly otherwise |
| `OperationServices.DecidedStateExactly` | apps/api/src/modules/operations/operation.service.ts:256-361 | an accepted decision writes one row, its status, its decider and its time, and an approval adds the job; a refused one nothing |
| `OperationServices.ProcessedStateExactly` | apps/worker/src/queues/operations.queue.ts:81-161 | a delivery executes a QUEUED operation once and ends it, and leaves any other row as it is |
| `OperationServices.OperationService.ApproveOperation` | apps/api/src/modules/operations/operation.service.ts:232-307 | accepted exactly for an OWNER or ADMIN who is not the requester of a pending operation; otherwise not found, conflict and unauthorized in this order and nothing written; the new state is the machine's atomic run of read, check, commit and enqueue |
| `OperationServices.OperationService.RejectOperation` | apps/api/src/modules/operations/operation.service.ts:309-378 | the same for a rejection, which enqueues nothing |
| `OperationServices.OperationService.CheckDecision` | apps/api/src/modules/operations/operation-authorization.service.ts:76-138 | the outcome of the checks in their order; who passes is recorded with the role found |
| `OperationServices.OperationService.EnqueueOperationJob` | apps/api/src/modules/operations/operation.queue.ts:28-32 | a job is added under the operation's job id, and a known id changes nothing |
| `OperationServices.OperationService.ProcessOperation` | apps/worker/src/queues/operations.queue.ts:81-161 | executes exactly when the row is QUEUED; the new state is the machine's run of delivery, read, claim, execution and finish, whoever else is under way |
| `SignalFingerprints.FingerprintIsUnambiguous` | apps/api/src/modules/signals/signal.service.ts:375-402 | for parts without the separator two fingerprints are equal exactly when mode and parts are, so DEDUPE and EVENT never coincide |
| `SignalFingerprints.DedupeIsUnambiguous` | apps/api/src/modules/signals/signal.service.ts:394-401 | between deduplicated signals the last part, a condition or a title, may hold the separator |
| `SignalFingerprints.ReadableIsUnambiguous` | apps/api/src/modules/signals/signal.service.ts:375-402 | across both modes the text determines the parts, when only a deduplicated signal's last part holds the separator and no operation's id is the name of a severity |
| `SignalFingerprints.PipedIdentityCollides` | apps/api/src/modules/signals/signal.service.ts:397-398 | an identity with a separator after text that is not blank shares its fingerprint with another identity and condition, whatever the signal's own condition and title |
| `SignalFingerprints.IdentityIsSharedExactly` | apps/api/src/modules/signals/signal.service.ts:394-401 | for a signal whose other parts hold no separator, another one of the same node and severity shares its fingerprint exactly when the identity holds a separator after text that is not blank |
| `SignalFingerprints.DedupeText` | apps/api/src/modules/signals/signal.service.ts:375-402 | the text behind a deduplicated signal's fingerprint: organization, source, type, node, severity, identity, and condition or else the title's first hundred characters |
| `SignalFingerprints.EventText` | apps/api/src/modules/signals/signal.service.ts:375-393 | the text behind an event's: operation, deployment, build and event id instead, and the second it was observed in when it has none of them |
| `Signals.SignalTable.IngestSignal` | apps/api/src/modules/signals/signal.service.ts:62-121 | the row of the fingerprint is created with count 1 or seen again, a node that is not the organization's is left out, and every other row stays |
| `Signals.SignalTable.ResolveSignalsByFingerprints` | apps/api/src/modules/signals/signal.service.ts:228-246 | exactly the organization's active, unarchived rows with a listed fingerprint become RESOLVED, and they are counted |
| `Signals.SignalTable.ArchiveSignal` | apps/api/src/modules/signals/signal.service.ts:219-226 | the one row gets status ARCHIVED and the time, or nothing is found and nothing changes |
| `Signals.SignalTable.ReconcileHistoricalSignals` | apps/api/src/modules/signals/signal.service.ts:332-373 | an incomplete scan and an unsupported scope change nothing; otherwise exactly the rows inside the scan, column by column, whose fingerprint is not listed become RESOLVED, and all four numbers of the answer |
| `Signals.ReconcilesExactly` | apps/api/src/modules/signals/signal.service.ts:332-452 | a row stays as it is exactly for one of these reasons: another organization, source or kind, a status other than ACTIVE and ACKNOWLEDGED, an archive time, a later sighting, a wanted link or metadata entry that differs, or its trimmed fingerprint in the list; every other row ends RESOLVED; what is counted as scanned and resolved |
| `Signals.IngestedRow` | apps/api/src/modules/signals/signal.service.ts:79-118 | an ingestion writes one row of its organization: ACTIVE and unarchived, with the new times and metadata; an old row keeps its origin, links and first sighting and counts one more when deduplicated |
| `Signals.ForeignNodeIsDropped` | apps/api/src/modules/signals/signal.service.ts:67-77 | a resource node that the organization does not have is dropped from key and row, and nothing else is |
| `Signals.ResolvesListedExactly` | apps/api/src/modules/signals/signal.service.ts:228-246 | exactly the organization's ACTIVE, unarchived rows with a listed, non-empty fingerprint change, to RESOLVED |
| `Signals.DistinctTrimmed` | apps/api/src/modules/signals/signal.service.ts:336-338 | the trimmed, non-blank, distinct fingerprints |
| `Signals.Unsupported` | apps/api/src/modules/signals/signal.service.ts:433-439 | a scope is accepted exactly when every metadata key is one of the three supported ones |
| `Signals.OpenInScopeWasObserved` | apps/api/src/modules/signals/signal.service.ts:350-364 | after a completed reconciliation every row still open in scope was observed, every other row is unchanged, and no row appears or goes |
| `Signals.ScannedMinusResolved` | apps/api/src/modules/signals/signal.service.ts:356-372 | scanned minus resolved is the number of open in-scope rows that were observed |
| `Signals.ReconcilingTwice` | apps/api/src/modules/signals/signal.service.ts:356-364 | repeating a reconciliation resolves none and changes nothing |
| `SignalCounts.CountsAreIngests` | apps/api/src/modules/signals/signal.service.ts:79-118 | in every run a deduplicated signal has a row exactly when it was ingested and the row counts its ingests, whatever statuses are written in between and whatever its condition or title holds; an event's row counts one |
| `SignalCounts.PipedIdentitiesShareARow` | apps/api/src/modules/signals/signal.service.ts:394-401 | two different signals, each ingested once, share one row that counts two |
| `CorrelationKeys.SameKeyExactly` | apps/api/src/modules/incidents/incident.service.ts:776-802 | two signals have one correlation key exactly when they have one group: connectivity of a source, an operation, a deployment, or source, context and resource |
| `CorrelationKeys.KeyText` | apps/api/src/modules/incidents/incident.service.ts:776-802 | the text of a key: connectivity of a source before operation before deployment before source, context and resource, the node before the URN |
| `CorrelationKeys.ContextIs` | apps/api/src/modules/incidents/incident.service.ts:797-802 | the three families of types that have one context each, and that any other type is its own |
| `CorrelationKeys.TimelineReadsIds` | apps/api/src/modules/incidents/incident-timeline.service.ts:519-525 | the timeline reads an operation's or a deployment's id back from exactly the keys printed for one |
| `IncidentLaws.EveryRunIsSound` | apps/api/src/modules/incidents/incident.service.ts:196-774 | in every run there is at most one live incident per organization and key, and each incident's count, single trigger, severity and last observation are those of its links |
| `IncidentLaws.CorrelateKeeps` | apps/api/src/modules/incidents/incident.service.ts:611-774 | correlating a signal keeps this: linking escalates to the maximum, creating opens with the trigger |
| `IncidentLaws.OperationFailsKeeps` | apps/worker/src/runtime/operation-incidents.ts:27-65 | the worker's incident for a failed operation keeps this: an operation's key belongs to its one incident |
| `IncidentLaws.DecisionKeeps` | apps/api/src/modules/incidents/incident.service.ts:196-398 | acknowledging, resolving and archiving keep this and make no incident live |
| `IncidentLaws.OneUnsettledPerKey` | apps/api/src/modules/incidents/incident.service.ts:624-735 | in every run two incidents of one organization and key that are OPEN or ACKNOWLEDGED and have no archive time are the same incident |
| `IncidentLaws.UnsettledIsFed` | apps/api/src/modules/incidents/incident.service.ts:624-708 | where a key has such an incident, a signal of the key is linked to it and to no other, the answer is UPDATED or SKIPPED, and no incident is opened |
| `IncidentLaws.SettledIsOpenedAnew` | apps/api/src/modules/incidents/incident.service.ts:711-773 | where it has none, an incident is opened with the signal as trigger, unless its operation id is taken |
| `IncidentLaws.SettledStays` | apps/api/src/modules/incidents/incident.service.ts:611-774 | correlating never changes a RESOLVED or archived incident, nor one of another organization or key |
| `IncidentLaws.NeverGoesBack` | apps/api/src/modules/incidents/incident.service.ts:196-398 | no step takes a status back, unarchives, or removes a link |
| `IncidentLaws.DecisionsTaken` | apps/api/src/modules/incidents/incident.service.ts:196-398 | which decisions are taken, read off status and archive time, and the one column that each writes |
| `IncidentLaws.FailedOperationOpens` | apps/worker/src/runtime/operation-incidents.ts:27-65 | the incident of a failed operation, opened unless any incident has the operation's id |
| `IncidentLaws.RefusedExactly` | apps/api/src/modules/incidents/incident.service.ts:711-735 | correlating throws exactly when no incident is live for the key and some incident already has the signal's operation id |
| `IncidentLaws.RefusedAfterResolving` | apps/worker/src/runtime/operation-incidents.ts:42-53 | after the incident of an operation is resolved, correlating a signal of that operation throws |
| `IncidentBatches.CorrelateEffect` | apps/api/src/modules/incidents/incident.service.ts:624-773 | one signal is added to its key's group and no other group changes; CREATED, UPDATED and SKIPPED say which case it was |
| `IncidentBatches.BatchEffect` | apps/api/src/modules/incidents/incident.service.ts:594-608 | after a batch each key's live incident holds its old signals and the batch's, created counts the new keys, linked the new signals |
| `IncidentBatches.BatchTallies` | apps/api/src/modules/incidents/incident.service.ts:589-608 | created is the number of distinct keys without a live incident beforehand, linked the growth in links, and created, updated and skipped add up to the batch |
| `IncidentBatches.OrderDoesNotMatter` | apps/api/src/modules/incidents/incident.service.ts:579-601 | two batches of the same signals in any order leave the same groups and counts |
| `IncidentBatches.SecondBatchSkips` | apps/api/src/modules/incidents/incident.service.ts:633-708 | an immediate second batch skips every signal and writes nothing |
| `IncidentBatches.BatchRefusedExactly` | apps/api/src/modules/incidents/incident.service.ts:576-609 | a batch throws exactly when one of its signals would open an incident for an operation that has one, beforehand or from an earlier signal of another key |
| `IncidentBatches.IncidentService.CorrelateSignal` | apps/api/src/modules/incidents/incident.service.ts:611-774 | the answer and the new table of one correlation, or the refusal and an unchanged table; `UnsettledIsFed`, `SettledIsOpenedAnew` and `SettledStays` say what they are over the columns |
| `IncidentBatches.IncidentService.CorrelateSignalsForOrg` | apps/api/src/modules/incidents/incident.service.ts:576-609 | the table and the counters of the whole batch; created counts the new keys and linked the growth in links |
| `IncidentBatches.IncidentService.AcknowledgeIncident` | apps/api/src/modules/incidents/incident.service.ts:196-261 | only an OPEN incident of the organization is acknowledged; otherwise which error, and no change |
| `IncidentBatches.IncidentService.ResolveIncident` | apps/api/src/modules/incidents/incident.service.ts:263-332 | an incident that is not resolved yet is, archived or not; otherwise which error, and no change |
| `IncidentBatches.IncidentService.ArchiveIncident` | apps/api/src/modules/incidents/incident.service.ts:334-398 | the archive time is set once and the status is left as it is |
| `IncidentBatches.IncidentService.CreateIncidentForFailedOperation` | apps/worker/src/runtime/operation-incidents.ts:27-65 | one SYSTEM incident per operation; a second call changes nothing |
| `ResourceUrn.SanitizedIsNormal` | packages/utils/src/resource-urn.ts:4-25 | an accepted segment is in normal form: allowed characters only, no doubled dash or slash, no edge character at either end |
| `ResourceUrn.NormalIsFixed` | packages/utils/src/resource-urn.ts:4-25 | a normal form that is not secret-like is sanitised to itself |
| `ResourceUrn.SanitizeTwice` | packages/utils/src/resource-urn.ts:4-25 | a second pass accepts its input exactly when that is not secret-like, and then returns it |
| `ResourceUrn.DoubledDash` | packages/utils/src/resource-urn.ts:17-17 | a doubled dash between two normal forms becomes a single one |
| `ResourceUrn.RejectedOnSecondPass` | packages/utils/src/resource-urn.ts:9-19 | two normal forms that only a single dash makes secret-like are accepted joined by two, and the result is rejected |
| `ResourceUrn.SanitizedCanBeRejected` | packages/utils/src/resource-urn.ts:1-25 | there is an accepted segment whose sanitised form is rejected |
| `SanitizedTexts.SanitizedExactly` | packages/utils/src/resource-urn.ts:1-25 | a text is the sanitised form of some input exactly when it is in normal form and holds none of the secret-like words without a dash |
| `UrnTexts.LettersSurvive` | packages/utils/src/resource-urn.ts:4-25 | an accepted segment keeps its letters, digits and underscores, in lower case and in their order |
| `UrnTexts.AcceptedExactly` | packages/utils/src/resource-urn.ts:1-25 | a segment is accepted exactly when it is not secret-like and holds a letter, a digit or an underscore |
| `UrnTexts.NormalExactly` | packages/utils/src/resource-urn.ts:12-19 | the normal form by its characters: letters, digits and underscores at both ends, and between them also dots and single dashes and slashes |
| `UrnTexts.ForeignBecomesDash` | packages/utils/src/resource-urn.ts:12-17 | between two normal texts any other character becomes a dash |
| `UrnTexts.SecretWordsAre` | packages/utils/src/resource-urn.ts:1-2 | the secret-like words are those that the pattern matches |
| `UrnPrinters.ReadUrnOfPrint` | packages/utils/src/resource-urn.ts:27-113 | every URN of sanitised segments is read back as the builder and the segments it was printed from, so builders are injective and pairwise disjoint |
| `UrnPrinters.ReadUrnOfAny` | packages/utils/src/resource-urn.ts:27-113 | a URN is read back as the key it was printed from, or as the job whose URN that build takes |
| `UrnPrinters.PrintIsJoin` | packages/utils/src/resource-urn.ts:27-113 | every URN is a colon-separated list of its fields, a build's included, whose first `:job/` was rewritten |
| `UrnTexts.BuildUrnIsTemplate` | packages/utils/src/resource-urn.ts:27-113 | what each builder returns is its template with the sanitised segments in their places |
| `UrnPrinters.SameUrnExactly` | packages/utils/src/resource-urn.ts:4-113 | two builder calls give one URN exactly when, on the sanitised segments, they are one builder call or one is the job whose URN the other, a build of an instance named `job/...`, takes |
| `UrnPrinters.BuildUrnAccepts` | packages/utils/src/resource-urn.ts:4-113 | a builder throws exactly when one of its segments is refused |
| `UrnPrinters.BuildTakesJobUrnExactly` | packages/utils/src/resource-urn.ts:35-41 | a build's URN is also some job's exactly when the instance starts with `job/` |
| `UrnPrinters.RewriteIsByPart` | packages/utils/src/resource-urn.ts:40-40 | replacing the first `:job/` rewrites the first part that starts with `job/` |
| `ResourceGraphRuns.KindIsFixed` | apps/api/src/modules/resources/resource-graph.service.ts:66-96 | in every run without a Jenkins instance named `job/...`, calls cut short included, a node once written stays and keeps its kind |
| `ResourceGraphRuns.EveryRunIsAcyclic` | apps/api/src/modules/resources/resource-graph.service.ts:106-146 | in every run each edge joins two distinct nodes of one organization, no walk comes back, and none has more than three edges |
| `ResourceGraphRuns.NoEdgeIsRefused` | apps/api/src/modules/resources/resource-graph.service.ts:107-117 | in every run no call is refused an edge, neither as a self-edge nor for a missing node |
| `ResourceGraphRuns.RepeatingAddsNothing` | apps/api/src/modules/resources/resource-graph.service.ts:247-618 | registering the same inventory again at any later time adds no node and no edge and ends the same way |
| `ResourceGraphRuns.CallKeeps` | apps/api/src/modules/resources/resource-graph.service.ts:247-618 | every call keeps edges climbing wherever it throws, and throws only for a segment or a missing parent |
| `ResourceGraphRuns.TwoCallsChangeKind` | apps/api/src/modules/resources/resource-graph.service.ts:403-406 | whenever a build and a job of a clear instance have one URN, two inventories of one organization change the kind of its node |
| `ResourceGraphRuns.KindCanChange` | apps/api/src/modules/resources/resource-graph.service.ts:359-420 | every build of an instance named `job/...`, whatever its name and number, makes that happen: a caller can name the other instance and job |
| `ResourceGraphRuns.InstanceChangesKindExactly` | apps/api/src/modules/resources/resource-graph.service.ts:359-420 | an inventory of an instance and a clear call after it can change the kind of a node exactly when the instance's name starts with `job/` once sanitised |
| `ResourceGraphLaws.PlanOrdered` | apps/api/src/modules/resources/resource-graph.service.ts:247-618 | every call writes each node with the kind of its key, and each edge upwards between nodes it wrote before |
| `ResourceGraphLaws.PerformKeeps` | apps/api/src/modules/resources/resource-graph.service.ts:66-146 | performing such a plan, even cut short, keeps every edge inside one organization and climbing a level that the text of a URN fixes |
| `ResourceGraphLaws.PerformKeepsKinds` | apps/api/src/modules/resources/resource-graph.service.ts:66-96 | when it writes clear keys only, it also keeps each node at the kind that the text of its URN fixes |
| `ResourceGraphLaws.ImageCalledIsListed` | apps/api/src/modules/resources/resource-graph.service.ts:489-492 | a container is linked to an image that the same call registered |
| `ResourceGraphService.ResourceGraph.UpsertResourceNode` | apps/api/src/modules/resources/resource-graph.service.ts:66-96 | a node is created or overwritten under its unique key with its first sighting kept, or a segment is refused and nothing changes |
| `ResourceGraphService.ResourceGraph.UpsertResourceEdge` | apps/api/src/modules/resources/resource-graph.service.ts:106-146 | a self-edge and a node that is not the organization's are refused; otherwise the edge is created or seen again |
| `ResourceGraphPlans.EdgeIsTakenExactly` | apps/api/src/modules/resources/resource-graph.service.ts:106-146 | an edge is refused exactly as a self-edge or for a node that is missing or another organization's; otherwise it is there, seen now, with its first sighting kept |
| `ResourceGraphService.ResourceGraph.ArchiveStaleResources` | apps/api/src/modules/resources/resource-graph.service.ts:239-245 | exactly the provider's unarchived rows last seen before the cutoff are archived, and they are counted |
| `ResourceGraphPlans.ArchivesStaleExactly` | apps/api/src/modules/resources/resource-graph.service.ts:239-245 | a node is archived exactly when it is the organization's and the provider's, unarchived and last seen before the time, and nothing else changes |
| `ResourceGraphService.ResourceGraph.RegisterAutoOpsProjectNode` | apps/api/src/modules/resources/resource-graph.service.ts:258-278 | the organization, the project and their edge, as far as they get |
| `ResourceGraphService.ResourceGraph.RegisterAutoOpsEnvironmentNode` | apps/api/src/modules/resources/resource-graph.service.ts:280-305 | a missing project throws first; otherwise the project's plan, the environment and its edge |
| `ResourceGraphService.ResourceGraph.RegisterAutoOpsDeploymentNode` | apps/api/src/modules/resources/resource-graph.service.ts:307-337 | the same one level down |
| `ResourceGraphService.ResourceGraph.RegisterAutoOpsOperationNode` | apps/api/src/modules/resources/resource-graph.service.ts:339-357 | one node without an edge |
| `ResourceGraphService.ResourceGraph.RegisterJenkinsInventory` | apps/api/src/modules/resources/resource-graph.service.ts:359-420 | the loops over jobs and builds perform the plan up to the first segment that throws; without an error they leave what `JenkinsRecorded` says |
| `ResourceGraphService.ResourceGraph.RegisterImages` | apps/api/src/modules/resources/resource-graph.service.ts:452-468 | the image loop, and its map from names and ids to nodes, in which a later image wins |
| `ResourceGraphService.ResourceGraph.RegisterDockerInventory` | apps/api/src/modules/resources/resource-graph.service.ts:422-519 | the loops over images, containers, networks and volumes perform the plan up to the first segment that throws; without an error they leave what `DockerRecorded` says |
| `ResourceGraphService.ResourceGraph.RegisterNamespaces` | apps/api/src/modules/resources/resource-graph.service.ts:541-555 | the namespace loop and its map from names to nodes |
| `ResourceGraphService.ResourceGraph.RegisterKubernetesInventory` | apps/api/src/modules/resources/resource-graph.service.ts:521-618 | the loops over namespaces, nodes, workloads, pods and services perform the plan up to the first segment that throws; without an error they leave what `KubernetesRecorded` says |
| `ResourceGraphContents.LeftBehind` | apps/api/src/modules/resources/resource-graph.service.ts:66-146 | writing nodes and edges in any order leaves, for every URN, the columns of the last write and the first sighting of before, exactly the edges written, and everything else as it was |
| `KubernetesContents.Registered` | apps/api/src/modules/resources/resource-graph.service.ts:521-618 | the cluster and every listed namespace, node, workload, pod and service are nodes with their columns; cluster to namespace, cluster to node and namespace to workload are edges, and namespace to pod and to service exactly for listed namespaces; every other node and edge is as before |
| `DockerContents.Registered` | apps/api/src/modules/resources/resource-graph.service.ts:422-519 | the engine and every image, container, network and volume; engine to each, and container to image by reference or else by id; everything else as before |
| `JenkinsContents.Registered` | apps/api/src/modules/resources/resource-graph.service.ts:359-420 | the instance, every job and every build with the job it names; instance to listed job and job to build; everything else as before |
| `AutoOpsContents.ProjectRegistered` | apps/api/src/modules/resources/resource-graph.service.ts:258-278 | the organization, the project, and the edge between them; everything else as before |
| `AutoOpsContents.EnvironmentRegistered` | apps/api/src/modules/resources/resource-graph.service.ts:280-305 | the same and the environment, contained in the project |
| `AutoOpsContents.DeploymentRegistered` | apps/api/src/modules/resources/resource-graph.service.ts:307-337 | the same and the deployment, contained in the environment |
| `AutoOpsContents.OperationRegistered` | apps/api/src/modules/resources/resource-graph.service.ts:339-357 | the one node of the operation; everything else as before |
| `AutoOpsContents.MissingParentThrows` | apps/api/src/modules/resources/resource-graph.service.ts:280-337 | an environment or deployment without its parents throws before anything is written |
| `Guardrails.EvaluateAwsGuardrails` | packages/utils/src/aws-guardrails.ts:120-260 | the reasons are exactly the violated limits, each once, the warnings exactly what is warned of, and status, risk, eligibility and bounds follow from them |
| `Guardrails.EstimateMonthlyCostDelta` | packages/utils/src/aws-guardrails.ts:262-280 | the running total is the rounded price of the tasks and the surcharges |
| `Guardrails.PricesExactly` | packages/utils/src/aws-guardrails.ts:262-280 | to half a cent: 29.20 a month per vCPU and 3.285 per gigabyte of every task, 18 for a public load balancer, 32 for a NAT gateway, 3 for a log group, and one half-vCPU, one-gigabyte task when nothing is said |
| `Guardrails.EligibleExactly` | packages/utils/src/aws-guardrails.ts:138-260 | a plan may be applied exactly when its account and region are allowlisted, nothing is destroyed, and every count, size, load balancer and cost is within its limit |
| `Guardrails.UnwarnedExactly` | packages/utils/src/aws-guardrails.ts:180-189 | nothing is warned of exactly when nothing is replaced, IAM, security groups, network and databases are left alone, and the environment is not production |
| `Guardrails.VerdictsExactly` | packages/utils/src/aws-guardrails.ts:207-260 | PASSED, WARNED, LOW, MEDIUM and BLOCKED read off the limits, the findings and the counts, and the bounds 80 and 120 percent of the estimate to half a cent |
| `Guardrails.VerdictsAgree` | packages/utils/src/aws-guardrails.ts:200-260 | status BLOCKED, risk BLOCKED and not eligible are equivalent, and each says that some limit is violated |
| `Guardrails.LowRiskExactly` | packages/utils/src/aws-guardrails.ts:200-217 | risk is below HIGH exactly when nothing is violated, warned of or changed |
| `Guardrails.LooserAddsReasonOnlyToEmptyAllowlist` | packages/utils/src/aws-guardrails.ts:138-200 | raising limits, permitting load balancers and enlarging allowlists adds a reason exactly when a first entry is put on an empty allowlist that the plan's account or region is not on |
| `Guardrails.LooserBlocksNoMore` | packages/utils/src/aws-guardrails.ts:120-260 | loosening never adds to the number of reasons, and never blocks what was not blocked |
| `Guardrails.CostRisesWithSize` | packages/utils/src/aws-guardrails.ts:262-280 | the estimate never falls when desired count, CPU or memory rise |
| `Guardrails.RoundedBoundsBracket` | packages/utils/src/aws-guardrails.ts:219-260 | the rounded minimum is at most the estimate, and that at most the rounded maximum |
| `PlanPattern.CountsExactly` | packages/utils/src/terraform-plan-summary.ts:16-31 | for every text, the counts read are those of the leftmost place where the pattern, said declaratively, matches, and zero when it matches nowhere |
| `PlanSummary.PlanLineIsRead` | packages/utils/src/terraform-plan-summary.ts:16-31 | the summary line of any counts is read back exactly, whatever surrounds it, when the text before it has no match |
| `PlanSummary.SummarizeTerraformPlanSafety` | packages/utils/src/terraform-plan-summary.ts:33-47 | eligible exactly when nothing is destroyed, and how the risk follows |
| `PlanSummary.ImportPlansReadAsEmpty` | packages/utils/src/terraform-plan-summary.ts:16-31 | a plan that also imports is read as no adds, no changes, no destroys, and is eligible, whatever text surrounds its summary line, when `plan:` occurs nowhere else |
| `PlanSummary.ReadBackExactly` | packages/utils/src/terraform-plan-summary.ts:16-31 | the counts of the summary line are read back exactly when it has no import clause or they are all zero |
| `PlanApply.ExecutePlan` | apps/worker/src/queues/operations.queue.ts:584-724 | the plan goes through exactly when its variables are there, agree and are allowlisted and the tool is ready, and then stores the parsed counts and the guardrails' evaluation |
| `PlanApply.CheckSourcePlan` | apps/worker/src/queues/operations.queue.ts:839-896 | a source plan is accepted exactly when stored, successful, at most a day old in whole seconds, made for the same variables, and unblocked; otherwise which refusal |
| `PlanApply.CheckNewPlan` | apps/worker/src/queues/operations.queue.ts:940-1007 | the fresh plan is accepted exactly when it destroys nothing, violates nothing and has the source's counts |
| `PlanApply.ExecuteApply` | apps/worker/src/queues/operations.queue.ts:792-1013 | the apply is reached exactly when approved, enabled, well-formed and through both gates, and uses the checked variables and counts |
| `PlanApply.AppliesExactly` | apps/worker/src/queues/operations.queue.ts:792-1013 | over the input, the source row and the tool's text: exactly which applies reach the tool |
| `PlanApply.PlansExactly` | apps/worker/src/queues/operations.queue.ts:584-660 | which inputs a plan is made for: the four fields given, target and workspace the same and allowlisted, state, workspace and tool there |
| `PlanApply.AcceptedExactly` | apps/worker/src/queues/operations.queue.ts:681-720 | a plan that a worker stored is accepted as a source exactly when it violates nothing, warns of nothing and changes nothing; a production plan never is |
| `PlanApply.AcceptedPlansAreQuiet` | apps/worker/src/queues/operations.queue.ts:839-1007 | an accepted source plan has no changes, destroys, warnings or reasons and is not for production, the apply has its variables and counts and passes the gate less than 86,401,000 ms after the plan's last update |
| `PlanApply.DestroysBehindImportsPass` | apps/worker/src/queues/operations.queue.ts:972-1007 | a plan that imports passes the fresh-plan gate exactly when an empty plan would and a named source plan has no counts, whatever it destroys |
| `PlanApply.DestroysBehindImportsAreStored` | apps/worker/src/queues/operations.queue.ts:681-720 | a stored plan that imports is accepted as a source exactly when an empty plan with the same findings would be |
| `Releases.VersionsInOrder` | apps/worker/src/queues/operations.queue.ts:726-790 | with the recordings of one key serialised, a key's n releases have versions 1 to n in order, the last one ACTIVE and all others SUPERSEDED |
| `Releases.OtherKeysUntouched` | apps/worker/src/queues/operations.queue.ts:742-756 | no statement of a recording touches another key's releases |
| `Releases.StartCollidesExactly` | apps/worker/src/queues/operations.queue.ts:1103-1118 | from any state of serialised recordings, starting a recording can end in two releases of one version exactly when a recording of the same key is under way |
| `Releases.ReleaseTable.RecordNewAwsRelease` | apps/worker/src/queues/operations.queue.ts:726-790 | an undisturbed recording is the run supersede, count, create, and returns the ACTIVE release |
| `Deployments.ClaimedAtMostOnce` | apps/worker/src/queues/deployments.queue.ts:122-160 | in every interleaving a deployment is claimed at most once, logs at most one started and one final event, and its progress is a prefix of the rising series |
| `Deployments.SucceededRanInFull` | apps/worker/src/queues/deployments.queue.ts:163-190 | a deployment that ended SUCCEEDED without a crash logs started, every simulation step in order and succeeded, and reported the whole progress |
| `Deployments.OneActivePerEnvironment` | apps/api/src/modules/deployments/deployment.service.ts:71-111 | with check and create atomic, beside a QUEUED or RUNNING deployment every other one of its environment is SUCCEEDED or FAILED |
| `Deployments.CreateKeepsOneActiveExactly` | apps/api/src/modules/deployments/deployment.service.ts:87-98 | a create keeps that exactly when no deployment of the environment is active when it writes |
| `Deployments.OverlappingTriggers` | apps/api/src/modules/deployments/deployment.service.ts:71-98 | two triggers that both checked before either created leave two active deployments |
| `Deployments.StepKeeps` | apps/worker/src/queues/deployments.queue.ts:36-222 | every single statement keeps that a held deployment's log and progress are as far as its one holder is |
| `DeploymentServices.ProcessRun` | apps/worker/src/queues/deployments.queue.ts:36-222 | an undisturbed delivery, whoever else is under way, is a run of the machine that ends in the processed deployment |
| `DeploymentServices.DeploymentService.TriggerDeployment` | apps/api/src/modules/deployments/deployment.service.ts:62-172 | a conflict exactly when some deployment of the environment is QUEUED or RUNNING; otherwise one new row, QUEUED with a job or, after a failed enqueue, FAILED though the job may have been added; the new state is the machine's run |
| `DeploymentServices.DeploymentService.RunSimulationDeployment` | apps/worker/src/executors/simulation.executor.ts:55-102 | the loop logs and reports exactly the steps before the progress report that throws, and all of them when none does |
| `DeploymentServices.DeploymentService.ProcessDeployment` | apps/worker/src/queues/deployments.queue.ts:36-222 | a deployment that is not QUEUED is skipped with an event; otherwise it ends SUCCEEDED with the whole trace or FAILED with its part |
| `RefreshTokens.ChainsEnd` | apps/api/src/modules/auth/auth.service.ts:149-176 | in every interleaving a replacement chain climbs in creation order and ends at a token that is unrevoked or was logged out |
| `RefreshTokens.ExchangedAtMostOnce` | apps/api/src/modules/auth/auth.service.ts:149-176 | when the refreshes of one token do not overlap, each token is exchanged at most once, whatever logouts come between |
| `RefreshTokens.ExchangedByOwnerInTime` | apps/api/src/modules/auth/auth.service.ts:149-176 | in every interleaving each exchange of a token was checked for the token's own user while it had not expired, and its replacement is that user's |
| `RefreshTokens.CheckPassesExactly` | apps/api/src/modules/auth/auth.service.ts:158-163 | the check passes exactly for a stored, unrevoked, unexpired token and its owner |
| `RefreshTokens.UnrevokedAreConserved` | apps/api/src/modules/auth/auth.service.ts:149-224 | in such runs unrevoked tokens and logouts are paid for by sign-ins and outstanding replacements; with no refresh in flight or cut short, unrevoked tokens are sign-ins minus the logouts that revoked one exactly when no token was logged out under a refresh that replaced it all the same |
| `RefreshTokens.NoneIsLoggedOutAndReplaced` | apps/api/src/modules/auth/auth.service.ts:149-190 | no token is, when no logout of a token starts while a refresh of it is in flight |
| `RefreshTokens.LogoutIsUndoneExactly` | apps/api/src/modules/auth/auth.service.ts:178-190 | a logout can end in a logged-out token with a replacement exactly when a refresh of the token is in flight |
| `RefreshTokens.RefreshExchangesTwiceExactly` | apps/api/src/modules/auth/auth.service.ts:149-176 | from any state of refreshes without overlap, an accepted refresh can end in a second exchange of its token exactly when another refresh of it is in flight |
| `RefreshTokens.TokenTable.Refresh` | apps/api/src/modules/auth/auth.service.ts:149-176 | a replacement is issued exactly when the subject verifies and the stored token is its own, unrevoked and not expired; an undisturbed refresh is the run check, issue, retire, and a refused one changes nothing |
| `RefreshTokens.TokenTable.LogoutToken` | apps/api/src/modules/auth/auth.service.ts:178-190 | only an unrevoked token is revoked |
| `RefreshTokens.TokenTable.SignInUser` | apps/api/src/modules/auth/auth.service.ts:192-224 | one unrevoked token is appended |
| `SlugAllocation.AllocateSlug` | apps/api/src/modules/auth/auth.service.ts:49-61 | the loop ends after at most one more lookup than there are slugs and returns the base or the least numbered suffix not in use |
| `SlugAllocation.OccupiedFit` | apps/api/src/modules/auth/auth.service.ts:53-61 | n occupied candidates take up n of the existing slugs |
| `DockerLogs.DecodeDockerLogs` | packages/utils/src/docker-engine.ts:273-291 | the payloads of the frames when the buffer is an encoding of frames, and the whole buffer otherwise; every read is in bounds and the loop ends |
| `DockerLogs.UniqueFrames` | packages/utils/src/docker-engine.ts:276-288 | a buffer is the encoding of at most one list of frames |
| `DockerLogs.FirstFrameIsPrefix` | packages/utils/src/docker-engine.ts:279-285 | a buffer starts with a frame exactly when that frame's bytes are its prefix |
| `DockerLogs.FirstFrameExactly` | packages/utils/src/docker-engine.ts:279-285 | a frame is read exactly when the stream byte is 1 or 2 and as many bytes follow as the second four bytes say, the most significant first |
| `DockerLogs.LengthIsBigEndian` | packages/utils/src/docker-engine.ts:280-281 | a frame encodes its payload's length in the second four bytes, the most significant first |

## Left out

- Web pages, routes, controllers, sockets, metrics and loggers: plumbing around the calls modelled here.
- Provider clients and command execution: each is an outcome that the environment chooses.
- Database and queue internals: single statements are atomic, transactions commit as a whole, unique columns hold, and jobs are delivered at least once and added once per job id.
- Digests, tokens and random ids: digests are injective and ids are new. The `replacedBy` column of refresh tokens is declared as a UUID in the schema while the code writes a digest; the code is followed.
- Deletion of users, operations and signals, which clears or cascades to columns that the laws read: no call modelled here deletes.
- UTF-8 decoding after the frame decoder, and `toLowerCase` outside ASCII.
- The text scans of the guardrails and of the plan executor, and the two switches of the configuration that the evaluation never reads: what the scans find is an input.
- Binary rounding of money and of large counts: money is exact, and counts are whole numbers.
- OperationServices.OperationService.CreateQueuedOperation: the checks and the insert are one step of the machine, because none of the checks reads what another call's steps write except the idempotency key, whose column is unique, and the memberships, which are read once. An empty idempotency key is not looked up, and the second one is refused by that column.
- Retries, stalls and duplicate deliveries of the queue are one step, which puts an active job back; attempts and delays are not counted.
- The audit rows, signals and graph nodes that an operation or a deployment also writes: they are written beside the status and read by none of the steps.
- OperationSafety.WorkerGateInEveryRun: a missing environment name makes the worker throw before its check; the model counts that as no firing.
- ResourceGraphService.ResourceGraph.UpsertResourceNode: metadata, labels, display names, external ids and the link columns are not modelled, and a node's id stands for its organization and URN. One clock reading serves a whole call.
- ResourceGraphRuns.KindIsFixed: the calls are taken one after the other; the condition on the Jenkins instance's name is the only one, and `InstanceChangesKindExactly` shows that it is needed.
- IncidentBatches.IncidentService.CorrelateSignal: titles, summaries, events and the copied project, environment and deployment columns are not modelled, and the links of an incident are kept in its row.
- IncidentBatches.IncidentService.CorrelateSignalsForOrg: the query's result is a parameter; the laws hold for any order of it.
- Signals.SignalTable.IngestSignal: messages and labels are not modelled, and the ownership lookup is a parameter.
- Resolving signals by titles and by resource condition: they write a status to some rows, which the count's law covers as one general step.
- CorrelationKeys.SameKeyExactly: sources and types are texts of upper-case letters and underscores, as the database's enumerations are.
- Deployments.OneActivePerEnvironment: BUILDING and DEPLOYING also count as active in the code, and nothing there writes them. Event writes are taken not to fail; progress reports may.
- PlanApply.AcceptedPlansAreQuiet: the apply's own start time is read after the gate's clock, so the bound is on the gate.
- Cursor pages: the row named by a cursor is skipped for signals and resources and repeated for incidents, so no partition is claimed.
- Remediation rules, readiness texts, runbooks and titles: one branch settles each.
- Permission and user lookups of incident calls: their failure changes nothing.
