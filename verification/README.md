# Verified model of the incident-remediation control plane

The repository detects incidents, proposes a remediation, collects approvals, changes a Kubernetes
object and verifies the result. This project models its safety protocol in Dafny and proves what
that protocol guarantees, including the exact conditions under which a guarantee fails.

| file | component |
|---|---|
| `Json.dfy`, `Text.dfy` | JSON values, the text `JSON.stringify` prints, JavaScript string order and numerals |
| `Canonicalizer.dfy`, `PodTemplate.dfy` | canonical pod templates, their hash, the stamp of a rollback |
| `ApiServer.dfy`, `K8sGateway.dfy`, `GatewayOutcome.dfy`, `GatewayExamples.dfy`, `GatewayRuns.dfy`, `GatewayRefinement.dfy` | JSON Patch under optimistic concurrency; one rollback or scaling call, with concrete cases; any number of them interleaved, and each call as a run of those |
| `ExecutionStore.dfy`, `ExecutionProtocol.dfy`, `ExecutionService.dfy`, `ExecutionRefinement.dfy`, `SingleFlight.dfy` | claims under a lease, the protocol of many workers, one execution and its reconciliation, these as runs of the protocol, the in-process single flight |
| `Lifecycle.dfy`, `IncidentDb.dfy`, `IncidentStore.dfy` | the incident state machine, its rows, and the write-behind store in front of them |
| `Policy.dfy`, `Quorum.dfy` | the deterministic policy and multi-party approval |
| `AuditChain.dfy`, `Correlation.dfy`, `Verification.dfy` | the audit hash chain, event correlation, recovery verification |

Code that updates state in place is a class whose methods are proved equal, state and answer, to a
specification function; runs and their invariants are proved about those functions. Pure code is
functions and lemmas. I/O faults and clocks are inputs, over which every result quantifies. Other writers
are inputs of the gateway and steps of the runs (gateway, protocol, quorum, single flight, correlation).
One execution or reconciliation in `ExecutionService.dfy` is a call with no other writer between its steps.

Three assumptions hold throughout. The body of a `$transaction` is one atomic step (the default
isolation of Prisma does not give this by itself). All workers read one clock. SHA-256 is an injective
function on texts (for the audit chain also one that never returns the genesis text).

## What was found

Places where the code does not do what its comments or names suggest. Each has its exact condition, proved for all
inputs, and a concrete input or run (in brackets).

- A proposal recorded without a hash of its own, as the API (apps/api/src/server.ts:484-499) and the orchestrator
  (services/ai-orchestrator/src/orchestrator.ts:117-126) record it, can never be approved: the fallback hash covers other
  members than the one that approvers compute, so every approval is stale. An approval can be recorded if and only if the
  caller supplied the approver's hash and the tenants agree; the API also passes no tenant, so the row's is the environment
  (`Quorum.ApprovableIff`, `Quorum.FallbackAdmitsNone`).
- A rollback to a template without a `metadata.annotations` object is applied and then always reported as failing
  verification, because stamping adds the object and the hash sees it (`PodTemplate.StampInvisible`,
  `GatewayOutcome.QuietRollbackIff`; [`GatewayExamples.BareTargetFailsVerification`]).
- EXECUTION_FAILED does not mean that nothing was written (`GatewayOutcome.FailureWroteIff`;
  [`GatewayExamples.LostAnswerHidesWrite`]), and a concurrent deletion is not reported as a conflict
  (`GatewayOutcome.ConcurrentWriteRefused`; [`GatewayExamples.DeletedMeanwhile`]).
- When a reconciliation finds a mismatch, the execution row becomes FAILED but the incident and the answer stay
  UNKNOWN: the table has no edge from UNKNOWN to EXECUTION_FAILED (`ExecutionService.ReconcileAgreesIff`;
  [`ExecutionService.MismatchParts`]).
- The evaluator's allow-list reads an empty environment as production, its derivation of the risk does not. So it answers
  that a rollback there needs no human approval (`Policy.ProductionGate`; [`Policy.UngatedProductionRollback`]). Nothing
  acts on that answer today: an execution demands an approved proposal.
- A stored APPROVED can be overwritten by an earlier approver's late PENDING_APPROVAL (`Quorum.ApprovedLastsIff`;
  [`Quorum.LatePendingOverwrites`]), and a sufficient approval of an incident in REMEDIATION_PROPOSED leaves it in
  AWAITING_APPROVAL (`Quorum.IncidentAfterApproval`).
- A proposal that was rejected can still be approved: recording an approval does not look at the status
  (`Quorum.RecordedIff`; [`Quorum.RejectedThenApproved`]).
- At-most-once execution needs the EXECUTING write to land while the lease still runs; the code swallows the loss of that
  write (`ExecutionProtocol.MutationSafeIff`; [`ExecutionProtocol.LostMarkDuplicates`,
  `ExecutionProtocol.LateMarkDuplicates`]).
- That write can also fail with no fault at all: a claim renews a row without comparing tenants, and the updates of a row of
  another tenant are refused. The row then stays CLAIMED, and the key can be executed again
  (`ExecutionService.OutcomesAgree`, `ExecutionService.LastExecutionIff`; [`ExecutionService.ForeignClaimRepeats`]).
- A call of `performExecution` that is rejected may have been executed: after the cluster call it still rejects when the
  timeline entry or the move to VERIFYING cannot be written (`ExecutionService.RejectedIff`,
  `ExecutionService.RejectedYetExecuted`).
- A reconciliation that answers SUCCEEDED certifies a live hash only if an expected hash is known. No execution stores one,
  so without a target hash and a target revision in the proposal every live template confirms
  (`ExecutionService.ConfirmationCertifiesIff`, `ExecutionService.DesiredNeverWritten`;
  [`ExecutionService.AnyHashConfirms`]).
- A storm of events opens one incident only if its calls do not overlap at the start: every call that looked its candidates
  up before the first creation opens one of its own (`Correlation.StormOpensPerEarlyLookup`;
  [`Correlation.OverlapOpensTwo`]).
- Canonical keys are in sort() order at every depth if and only if, in every object, enumeration agrees with that order on
  the names: index keys are enumerated first, by value. A member called `__proto__` is lost (`Canonicalizer.SortOrderIff`;
  [`Canonicalizer.SortOrderFails`]). The canonical form is a complete invariant all the same.
- An error rate from 0.095 up and a memory use from 399.5 MiB up fail limits written as 0.1 and 400, because of rounding
  (`Verification.VerifiedIff`; [`Verification.RoundingRefuses`]); a negative sampling window never verifies
  (`Verification.WindowDecides`).
- Handing back an incident object in another state puts memory out of step with the database: the queue drains to a row in
  another state, and only a transition legal from both states or another object handed back can bring the two together
  (`IncidentStore.IncidentRepository.UpdateIncident`, `IncidentStore.StaleUpdateDiverges`).

## Model

| member | source | states |
|---|---|---|
| Json.PrintCancel | packages/event-schema/src/template-canonicalizer.ts:73 | The printed text of a JSON value is prefix-free: it can be split off the front of a longer text in one way only (RFC 8259, sections 3 to 7; nested objects, arrays, escaped strings) |
| Json.PrintInjective | packages/event-schema/src/template-canonicalizer.ts:73 | Two values print alike only if they are equal, so a hash over the text is a hash over the value |
| Json.PrintedText | packages/event-schema/src/template-canonicalizer.ts:73 | What is printed for each kind of value: scalars as their tokens, elements and members between brackets with commas (RFC 8259, sections 3 to 5) |
| Canonicalizer.CanonicalizeCanonical | packages/event-schema/src/template-canonicalizer.ts:15-28 | At every depth the names of the result are unique and strictly increasing in the order in which JavaScript enumerates the rebuilt object |
| Canonicalizer.IndexKeyIff | packages/event-schema/src/template-canonicalizer.ts:22-26 | The names that JavaScript enumerates first are exactly the decimal numerals of the numbers below 2^32 - 1 |
| Canonicalizer.SortOrderIff | packages/event-schema/src/template-canonicalizer.ts:22-26 | The result is in sort() order at every depth if and only if, in every object of the input, the two orders agree on the names that are kept |
| Canonicalizer.SortOrderFails | packages/event-schema/src/template-canonicalizer.ts:22-26 | `{"10", "9"}` comes out against sort() order, and `__proto__` is lost |
| Canonicalizer.CanonicalizeIdempotent | packages/event-schema/src/template-canonicalizer.ts:15-28 | Canonicalizing twice is canonicalizing once |
| Canonicalizer.CanonicalFormComplete | packages/event-schema/src/template-canonicalizer.ts:15-28 | Two values have equal canonical forms if and only if they are the same data up to the order of keys at every depth, `__proto__` members not compared |
| PodTemplate.CanonicalizePodTemplateSpec | packages/event-schema/src/template-canonicalizer.ts:35-63 | The editing of the clone computes the specified canonical template |
| PodTemplate.CanonicalTemplateComplete | packages/event-schema/src/template-canonicalizer.ts:35-63 | Two templates have equal canonical forms if and only if they agree up to key order, the dropped volatile fields, status and bookkeeping annotations |
| PodTemplate.CanonicalTemplateAgrees | packages/event-schema/src/template-canonicalizer.ts:35-63 | A template agrees with its own canonical form: nothing else is lost |
| PodTemplate.CanonicalTemplateIdempotent | packages/event-schema/src/template-canonicalizer.ts:35-63 | Canonicalizing a canonical template changes nothing |
| PodTemplate.HashComparesForms | packages/event-schema/src/template-canonicalizer.ts:68-75 | With an injective digest two templates hash alike if and only if their canonical forms are equal |
| PodTemplate.HashComparesTemplates | packages/event-schema/src/template-canonicalizer.ts:68-75 | and so if and only if they agree up to what is dropped |
| PodTemplate.StampInvisible | services/execution-service/src/k8s-client.ts:460-468 | Adding the three bookkeeping annotations leaves the canonical form unchanged if and only if the template already has an annotations object |
| PodTemplate.AnnotationInvisibleIff | packages/event-schema/src/template-canonicalizer.ts:41-52 | Setting one annotation of a template leaves the hashed form unchanged if and only if its key has one of the two bookkeeping prefixes (or is `__proto__`), or it has that text already |
| PodTemplate.StampAddsContainers | services/execution-service/src/k8s-client.ts:460-468 | Otherwise the written form is that of the template with the missing empty objects added, and nothing else |
| ApiServer.PutEffect | services/execution-service/src/k8s-client.ts:482-492 | A JSON Patch write is read back at its pointer and leaves every pointer apart from it alone (RFC 6902, sections 4.1 and 4.3) |
| ApiServer.Server.Patch | services/execution-service/src/k8s-client.ts:494-499 | The server stores a patch if and only if there is an object and all operations apply to it, as a write with a fresh version; otherwise it says which of the two was missing (RFC 6902, section 5) |
| ApiServer.SameVersionSameWrite | services/execution-service/src/k8s-client.ts:470-480 | Equal resource versions mean the very same write |
| K8sGateway.Gateway.RollbackDeployment | services/execution-service/src/k8s-client.ts:301-530 | Branch by branch, the answer and everything stored, under any faults and any writes of others between its steps |
| K8sGateway.Gateway.BuildRollback | services/execution-service/src/k8s-client.ts:446-492 | The hash check, the stamped clone and the three operations of the patch |
| K8sGateway.Gateway.VerifyRollback | services/execution-service/src/k8s-client.ts:538-576 | Verification compares the hash of the template as re-read with the expected one, and fails closed |
| K8sGateway.Gateway.ScaleDeployment | services/execution-service/src/k8s-client.ts:660-760 | Branch by branch, the answer and everything stored |
| GatewayOutcome.CandidatesMean | services/execution-service/src/k8s-client.ts:369-394 | The candidates are exactly the listed ReplicaSets with an owner reference to this Deployment's UID, of kind Deployment and as controller, and with a revision number |
| GatewayOutcome.ExactRevision | services/execution-service/src/k8s-client.ts:390-410 | A requested revision is served if and only if exactly one candidate carries it |
| GatewayOutcome.PriorRevision | services/execution-service/src/k8s-client.ts:390-423 | Otherwise sorting and searching find a greatest revision strictly below the current one, or nothing if and only if there is none |
| GatewayOutcome.RevisionMeans | services/execution-service/src/k8s-client.ts:363-366 | The revision number of an object is that of its annotation, or the default if that is absent or empty |
| GatewayOutcome.RollbackDecision | services/execution-service/src/k8s-client.ts:380-458 | When nothing fits, when what fits runs no containers, when its template is not the approved one, and otherwise what is sent |
| GatewayOutcome.RollbackFrame | services/execution-service/src/k8s-client.ts:470-492 | An applied rollback changes the template, the change cause and the version, and nothing else of the object |
| GatewayOutcome.AcceptedMeansUntouched | services/execution-service/src/k8s-client.ts:470-500 | A patch that tests the version it read is accepted only if nothing was stored since the read |
| GatewayOutcome.RollbackSuccess | services/execution-service/src/k8s-client.ts:301-576 | Success means: at the verifying read the live template has the canonical form of a listed ReplicaSet of the right revision whose owner reference names this Deployment's UID, and the patch replaced the very object that was read |
| GatewayOutcome.PreflightMeans | services/execution-service/src/k8s-client.ts:308-362 | Each refusal names what no longer holds, and passing means that UID, version, deadline and expected version all hold |
| GatewayOutcome.PreflightOrder | services/execution-service/src/k8s-client.ts:308-362 | Which refusal is told when several hold |
| GatewayOutcome.WritesOnlyWhatWasApproved | services/execution-service/src/k8s-client.ts:324-458 | A rollback under an approval snapshot writes only to the approved Deployment in the approved version, read before the deadline, and only the template of a listed ReplicaSet that this Deployment owns, with the approved hash |
| GatewayOutcome.RefusalWritesNothing | services/execution-service/src/k8s-client.ts:301-530 | TARGET_NOT_FOUND, STALE_PROPOSAL, STALE_TARGET and APPROVAL_EXPIRED mean that the call wrote nothing |
| GatewayOutcome.FaultAnswers | services/execution-service/src/k8s-client.ts:308-530 | A fault of a read, the listing or the patch is answered STALE_TARGET exactly when it reads as a conflict, with nothing written by the call |
| GatewayOutcome.SentRollbackAnswers | services/execution-service/src/k8s-client.ts:494-530 | What a sent rollback answers and leaves, by whether anybody wrote since the read, the live object's shape, and the fate of the answer |
| GatewayOutcome.FailureWroteIff | services/execution-service/src/k8s-client.ts:301-529 | An answer EXECUTION_FAILED hides a write of the call if and only if its patch was sent, nobody else wrote first, the live object has a template and annotations, and the answer was lost |
| GatewayExamples.LostAnswerHidesWrite | services/execution-service/src/k8s-client.ts:494-529 | A call with that answer whose template is stored |
| GatewayOutcome.ConcurrentWriteRefused | services/execution-service/src/k8s-client.ts:470-529 | Any write between the read and the patch turns the call away with nothing written by it; the answer is STALE_TARGET if and only if there still is an object, else EXECUTION_FAILED |
| GatewayExamples.DeletedMeanwhile | services/execution-service/src/k8s-client.ts:494-529 | A call whose Deployment was deleted in between |
| GatewayExamples.ForeignReplicaSetIgnored | services/execution-service/src/k8s-client.ts:369-388 | With only a ReplicaSet of another Deployment listed, the call finds no target and writes nothing |
| GatewayOutcome.QuietRollbackIff | services/execution-service/src/k8s-client.ts:446-530 | Undisturbed, a rollback that is sent succeeds if and only if the live object has a template and annotations and the target template has an annotations object; lacking only the last it is applied and reported as VERIFICATION_FAILED |
| GatewayExamples.BareTargetFailsVerification | services/execution-service/src/k8s-client.ts:460-516 | Two undisturbed calls that differ in an empty annotations object of the target: one succeeds, the other is stored and reported as failing |
| GatewayOutcome.ScaleChanges | services/execution-service/src/k8s-client.ts:733-744 | The replace operation sets the count that is read back and leaves the template alone; it needs no more than an existing count, so the delta rests on the version test |
| GatewayOutcome.ScaleDecision | services/execution-service/src/k8s-client.ts:670-726 | A scaling is sent if and only if the count is an integer in [1, 20], the expected version is the live one, the step is at most 5, and no autoscaler of that kind and name is listed; which refusal names which obstacle |
| GatewayOutcome.ScaleFrame | services/execution-service/src/k8s-client.ts:733-744 | An applied scaling changes the count and the version, and nothing else of the object |
| GatewayOutcome.ScaleAnswers | services/execution-service/src/k8s-client.ts:660-758 | It succeeds if and only if its patch was sent, arrived, found the object untouched and a count to replace; what every other answer means |
| GatewayOutcome.ScaleApplied | services/execution-service/src/k8s-client.ts:670-744 | An accepted scaling acts on the object it read: a count in [1, 20], at most 5 away, no autoscaler found |
| GatewayOutcome.ScaleRefusedOrLost | services/execution-service/src/k8s-client.ts:720-758 | A concurrent write turns a scaling away, as STALE_TARGET if and only if an object is left; EXECUTION_FAILED hides a write if and only if the patch was sent undisturbed, a count exists and the answer was lost |
| GatewayRuns.NoLostUpdate | services/execution-service/src/k8s-client.ts:308-500 | In every interleaving of calls and outside writers, each accepted patch is the one decided for the very object it replaced |
| GatewayRuns.ScalingBounded | services/execution-service/src/k8s-client.ts:256-290 | In every such run each accepted scaling moves the count it replaces by at most 5, into [1, 20], with the autoscaler listing available and naming no other target |
| GatewayRuns.CountsStayIn | services/execution-service/src/k8s-client.ts:670-744 | While nobody else changes the count, concurrent scalings and rollbacks never take it out of [1, 20] |
| GatewayRefinement.RollbackIsARun | services/execution-service/src/k8s-client.ts:301-530 | A rollback call with the writes of others between its steps is a run of the interleaved system that leaves the same history |
| GatewayRefinement.ScaleIsARun | services/execution-service/src/k8s-client.ts:660-760 | So is a scaling call |
| ExecutionStore.Store.ClaimExecution | packages/database/src/repository.ts:621-710 | The claim transaction and the re-read after a conflict, on the rows |
| ExecutionStore.Store.UpdateExecution | packages/database/src/repository.ts:712-755 | The update of a row, refused across tenants |
| ExecutionStore.GrantedIff | packages/database/src/repository.ts:640-709 | A claim is granted as new if and only if the key is new, or CLAIMED and either unleased or one's own |
| ExecutionStore.FirstClaimAnswers | packages/database/src/repository.ts:640-654 | The first claim of a key is granted and creates its row, CLAIMED in the first attempt |
| ExecutionStore.UpdateEffect | packages/database/src/repository.ts:712-755 | What an update of a row changes |
| ExecutionStore.ClaimAnswers | packages/database/src/repository.ts:656-684 | What every stored status is answered with, and what a grant changes |
| ExecutionStore.AbortedClaimAnswers | packages/database/src/repository.ts:686-708 | A claim whose transaction was aborted grants nothing: it is refused if and only if the row is under another worker's unexpired lease, whatever its status, and rethrown if and only if there is no row |
| ExecutionStore.OneGrantPerLease | packages/database/src/repository.ts:640-709 | While a granted lease runs no other worker is granted the key |
| ExecutionProtocol.InvRun | services/execution-service/src/index.ts:160-246 | Every run keeps the invariant that ties rows, leases, phases of workers and counted grants together |
| ExecutionProtocol.LeaseExclusive | packages/database/src/repository.ts:640-709 | In every run no two workers hold an unexpired claim on one key, and `attempt` counts the granted claims |
| ExecutionProtocol.HeldLeaseStops | packages/database/src/repository.ts:669-708 | In every run, while a worker holds an unexpired claim no other worker gets past its own claim for the key, aborted or not |
| ExecutionProtocol.NeverClaimedAgain | services/execution-service/src/index.ts:177-297 | Once a key has left CLAIMED no run returns it there, and no claim is granted any more |
| ExecutionProtocol.CrashedStays | services/execution-service/src/index.ts:160-262 | After a crash no run has the worker start or issue anything any more |
| ExecutionProtocol.AtMostOneMutation | services/execution-service/src/index.ts:160-262 | In every run whose EXECUTING writes land while the lease runs, a key is mutated at most once, whatever crashes, timeouts, lost outcome writes and reconciliations occur |
| ExecutionProtocol.MarkSafeIff | services/execution-service/src/index.ts:231-246 | A worker may start its cluster call, whether its write landed in time or not, without risking that a second call is started if and only if the key had no call, no other live worker holds the lease, and the row is settled or gets marked |
| ExecutionProtocol.MutationSafeIff | services/execution-service/src/index.ts:231-262 | The same for mutations: no second one can ever be issued if and only if no other call of the key has issued one or still may, no other live worker holds the lease, and the row is settled or gets marked |
| ExecutionProtocol.TimelyMarkSafe | services/execution-service/src/index.ts:231-246 | A timely write always meets that condition |
| ExecutionProtocol.LostMarkDuplicates | services/execution-service/src/index.ts:241-246 | A run in which a lost write lets two workers mutate one key |
| ExecutionProtocol.LateMarkDuplicates | services/execution-service/src/index.ts:241-246 | A run in which every write lands, one of them late, and two workers mutate one key |
| ExecutionService.Service.PerformExecution | services/execution-service/src/index.ts:98-373 | Branch by branch, the answer, rows, incidents and proposal status, under any loss of the writes whose errors are swallowed and with no other writer between its steps |
| ExecutionService.Service.ReconcileExecution | services/execution-service/src/index.ts:379-478 | Branch by branch, the answer, rows and incidents, whichever of its two writes fail and with no other writer between its steps |
| ExecutionService.OutcomesAgree | services/execution-service/src/index.ts:231-372 | With no other writer, a newly claimed execution that returns leaves answer, row and incident in one of the three agreeing combinations if and only if both writes of the outcome arrive and the claimed row is of the caller's tenant; on a row of another tenant it leaves CLAIMED |
| ExecutionService.OutcomeMeans | services/execution-service/src/index.ts:255-372 | Success, timeout and failure of the cluster call are what answer, row, incident and proposal then say, with the hash and the code that came with them; of the incident nothing but state and version changes |
| ExecutionService.RejectedIff | services/execution-service/src/index.ts:98-372 | The exact condition of every reason for which a call is rejected |
| ExecutionService.RejectedYetExecuted | services/execution-service/src/index.ts:300-324 | For two of those reasons the cluster call was made all the same: the row holds its outcome, the incident stays EXECUTING |
| ExecutionService.SettledAfterRace | services/execution-service/src/index.ts:316-347 | If somebody else has moved the incident by then, a success that the table does not allow there rejects, and any other outcome is escalated where the table allows that |
| ExecutionService.FirstClaimTenant | services/execution-service/src/index.ts:108-120 | Whose row a first claim creates |
| ExecutionService.ExecutionFrame | services/execution-service/src/index.ts:98-373 | Other rows and other incidents are left alone |
| ExecutionService.WritesOnlyWhenCleared | services/execution-service/src/index.ts:98-238 | A call writes anything only with an approved proposal before its deadline, an incident of the caller's tenant and a claim that lets it through; it moves the incident only from a state that may start executing |
| ExecutionService.AnswersWithoutWriting | services/execution-service/src/index.ts:130-219 | What an answer without a write rests on: SUCCESS on a stored success of row or proposal, UNKNOWN on a row that is EXECUTING or UNKNOWN, FAILED on a failed row, EXPIRED exactly on a passed deadline |
| ExecutionService.HeldLeaseWritesNothing | packages/database/src/repository.ts:669-708 | Under another worker's unexpired lease a call writes nothing, whether its claim is aborted or not |
| ExecutionService.ReplayFrom | services/execution-service/src/index.ts:177-219 | A row that is marked or settled is answered by its status: EXECUTING and UNKNOWN with RECONCILIATION_REQUIRED, SUCCEEDED with SUCCESS, FAILED with its code or EXECUTION_FAILED; nothing is written |
| ExecutionService.ReplayIsIdempotent | services/execution-service/src/index.ts:98-219 | After an execution stored its outcome on a row of its tenant, any later call for the key, by any worker, writes nothing; it repeats the status if and only if incident, tenant, deadline and an aborted claim do not stop it, and otherwise rejects or reports the deadline |
| ExecutionService.LastExecutionIff | services/execution-service/src/index.ts:231-297 | No later call for the key ever writes anything if and only if the row was of the caller's tenant and at least one of the writes EXECUTING and outcome arrived |
| ExecutionService.ForeignClaimRepeats | packages/database/src/repository.ts:636-741 | Two calls without any fault, the first naming another tenant: the second changes the cluster, answers SUCCESS, leaves the row CLAIMED, and another worker is granted the key |
| ExecutionService.ReconcileConfirms | services/execution-service/src/index.ts:406-449 | With no fault and no other writer, a reconciliation from UNKNOWN that reads a template ends in SUCCEEDED, SUCCEEDED, VERIFYING if and only if the expected hash is the live one or, with none expected, the target revision is absent or the live one; in every other case the row is FAILED |
| ExecutionService.ReconcileOutcome | services/execution-service/src/index.ts:421-470 | From any state, a reconciliation that reads a template and can write the row settles the row by what it read; the incident follows where the table lets it, and only then is the outcome the answer |
| ExecutionService.ReconcileReadsFirst | services/execution-service/src/index.ts:384-470 | When a reconciliation throws, and that it writes only after reading the template of a rollback's target; without a full write it answers UNKNOWN |
| ExecutionService.ConfirmationCertifiesIff | services/execution-service/src/index.ts:421-433 | Whatever confirms an ambiguous execution has one and the same live hash if and only if a hash is expected, and then exactly that hash confirms; with no expected hash and no target revision every live template confirms |
| ExecutionService.AnyHashConfirms | services/execution-service/src/index.ts:421-449 | Two different live hashes, each of which would confirm the same ambiguous execution |
| ExecutionService.DesiredNeverWritten | services/execution-service/src/index.ts:241-297 | No execution ever stores an expected hash, so it can only come from the proposal |
| ExecutionService.ReconcileAgreesIff | services/execution-service/src/index.ts:406-470 | With no other writer, a reconciliation from UNKNOWN keeps answer, row and incident in agreement if and only if the cluster was unreadable, or a template was read and either the row could not be written or the live state matched and the incident could be moved; on a mismatch row and incident part, and a live object without a template is answered FAILED while both stay UNKNOWN |
| ExecutionService.MismatchParts | services/execution-service/src/index.ts:450-464 | Such a mismatch, with no fault |
| ExecutionRefinement.PerformIsARun | services/execution-service/src/index.ts:98-372 | One uninterrupted execution is a run of the protocol: it leaves the same rows (up to hash and error code), and starts, issues or leaves running exactly the cluster call that the service does |
| ExecutionRefinement.ReconcileIsAStep | services/execution-service/src/index.ts:384-470 | A reconciliation leaves the rows alone or is the protocol's step |
| SingleFlight.InvRun | services/execution-service/src/index.ts:59-96 | Every run keeps table and cache exact: the pending run of a key is the one in the table, the cached result is that of its fulfilled run |
| SingleFlight.OnePending | services/execution-service/src/index.ts:59-96 | In every run of the service at most one performExecution per key is pending |
| SingleFlight.FulfilledIsLast | services/execution-service/src/index.ts:88-91 | Once one has fulfilled, none ever starts again for its key |
| SingleFlight.StartsIff | services/execution-service/src/index.ts:66-86 | A call starts a run if and only if every earlier one for the key was rejected and released |
| SingleFlight.CallEffect | services/execution-service/src/index.ts:66-86 | A call that starts a run registers it at once under its key; any other call changes nothing |
| SingleFlight.FulfilledLife | services/execution-service/src/index.ts:88-95 | When a run has fulfilled and its callbacks have run, every later call is given its result |
| SingleFlight.RejectedLife | services/execution-service/src/index.ts:88-95 | When a run has rejected and its callback has run, the next call for the key starts a new one |
| SingleFlight.AnswersLastRun | services/execution-service/src/index.ts:66-95 | Every other caller is given the outcome of the last run of its key |
| SingleFlight.ExecutionService.ExecuteProposal | services/execution-service/src/index.ts:59-96 | The two maps after a call, and which run the caller joins |
| Lifecycle.OutcomeNeedsExecution | packages/event-schema/src/index.ts:275-306 | No run reaches VERIFYING, UNKNOWN, NOT_RECOVERED, EXECUTION_FAILED or RECONCILIATION_REQUIRED before an EXECUTING |
| Lifecycle.FirstExecutionCleared | packages/event-schema/src/index.ts:275-306 | The first EXECUTING of a run follows directly on a proposed, awaiting, approved or automatically cleared remediation |
| Lifecycle.FirstExecutionGated | packages/event-schema/src/index.ts:275-306 | Every EXECUTING is preceded by REMEDIATION_PROPOSED, AWAITING_APPROVAL or AUTO_EXECUTION_READY |
| Lifecycle.ApprovedFromAwaiting | packages/event-schema/src/index.ts:275-306 | APPROVED is entered only from AWAITING_APPROVAL |
| IncidentDb.IncidentTable.TransitionState | packages/database/src/repository.ts:199-279 | Refusals in their order, and otherwise the new row: version plus one, resolution time set once |
| IncidentDb.IncidentTable.UpdateIncident | packages/database/src/repository.ts:874-912 | The stored state is never moved by an update |
| IncidentDb.TransitionEffect | packages/database/src/repository.ts:199-279 | An accepted transition follows the table, counts one version exactly when the state changes, and keeps tenant and first resolution |
| IncidentDb.RefusedIff | packages/database/src/repository.ts:199-240 | The exact condition of each refusal of a transition |
| IncidentDb.ResolutionTime | packages/database/src/repository.ts:241-262 | The recovery time stored by the first resolution is the time since the creation in whole seconds, rounded, and at least one |
| IncidentStore.DbWriteFollows | services/incident-engine/src/repository.ts:46-57 | Whatever the live object holds when an update finally runs, the next queued write is accepted and moves the row along the history of memory |
| IncidentStore.DrainedAgrees | services/incident-engine/src/repository.ts:46-57 | Draining a queue refuses nothing and ends with the row equal to memory in tenant, state and version |
| IncidentStore.LastUpdateStored | packages/database/src/repository.ts:874-912 | After draining, the row holds the severity and recovery time that the last queued update read from the live object |
| IncidentStore.LegalHistoryMeans | services/incident-engine/src/repository.ts:212-267 | The version is 1 plus the number of changes, and the state-change entries of the timeline spell a legal path from DETECTED |
| IncidentStore.WrittenConsistent | services/incident-engine/src/repository.ts:46-57 | A queued write is never refused, leaves the row at a point of memory's past, and at the end at its present |
| IncidentStore.MovedConsistent | services/incident-engine/src/repository.ts:212-267 | A transition in memory and its queued write keep the story of the incident consistent |
| IncidentStore.IncidentRepository.QueueDbWrite | services/incident-engine/src/repository.ts:46-57 | An update, link or timeline write joins the end of its incident's queue; every incident's story stays consistent |
| IncidentStore.IncidentRepository.CreateIncident | services/incident-engine/src/repository.ts:63-130 | A new incident, its first write queued before anything else, all others untouched |
| IncidentStore.IncidentRepository.TransitionState | services/incident-engine/src/repository.ts:212-267 | The checks of memory; on success the new state and version, the timeline entry and the queued writes, on a refusal nothing at all; every incident's story stays consistent |
| IncidentStore.IncidentRepository.LinkEvent | services/incident-engine/src/repository.ts:314-336 | The event is linked once, and every incident's story stays consistent |
| IncidentStore.IncidentRepository.UpdateIncident | services/incident-engine/src/repository.ts:342-349 | Any object is taken and its update queued; memory stays in step with the queue if and only if its tenant, state, version and resolution are those of the object it replaces |
| IncidentStore.StaleUpdateDiverges | services/incident-engine/src/repository.ts:342-349 | After handing back an object in another state the queue drains without a refusal to a row that differs from it |
| IncidentStore.IncidentRepository.RunWrite | services/incident-engine/src/repository.ts:46-57 | Running the next queued write at any later time is never refused and keeps every incident's story consistent |
| Policy.ApprovalAuthority | packages/auth/src/roles.ts:28-90 | Who may approve what, exactly; authority only shrinks as the risk grows |
| Policy.AllowedIff | services/policy-engine/src/index.ts:20-160 | Which actions are allowed, in which environments, with which parameters |
| Policy.DeniedMeans | services/policy-engine/src/index.ts:125-175 | Under which rule everything else is denied |
| Policy.DerivedRisk | services/policy-engine/src/index.ts:23-95 | The risk without a claim, exactly |
| Policy.AllowedMeans | services/policy-engine/src/index.ts:176-245 | Which rule and how many approvers go with an effective risk |
| Policy.ClaimOnlyRaises | services/policy-engine/src/index.ts:125-245 | The claimed risk is advisory: it never changes whether a proposal is allowed, and a higher claim never lowers effective risk, quorum or the demand for a human; the effective risk is below neither the claim nor the risk found without one, and is one of the two |
| Policy.RiskFloor | services/policy-engine/src/index.ts:23-108 | In production a restart is at least MEDIUM and everything else at least HIGH; elsewhere everything but a restart is at least MEDIUM; more than ten replicas are CRITICAL |
| Policy.ProductionGate | services/policy-engine/src/index.ts:146-245 | Where the allow-list sees production, a human must approve if and only if the environment is not the empty string or the risk is at least HIGH |
| Policy.UngatedProductionRollback | services/policy-engine/src/index.ts:146-245 | A proposal in that gap |
| Policy.UngatedIff | services/policy-engine/src/index.ts:129-245 | Exactly for which allowed proposals the evaluator asks for no human approval |
| Policy.EvaluationStable | services/remediation-engine/src/index.ts:52-60 | Writing the evaluated risk back into the proposal does not change later evaluations |
| Policy.ProposalHashBinds | services/remediation-engine/src/index.ts:21-30 | Equal proposal hashes if and only if action, target, environment and parameters are equal |
| Policy.EqualHashEqualVerdict | services/remediation-engine/src/index.ts:21-30 | Proposals with equal hashes and equal claimed risk are judged alike |
| Quorum.ProposalTable.AddApproval | packages/database/src/repository.ts:529-615 | The refusals in their order, and otherwise the appended approval and the status |
| Quorum.PreparedIff | services/remediation-engine/src/index.ts:52-83 | An approver reaches the transaction if and only if the policy allows the proposal, some role of the approver may approve its effective risk, and the deadline read is ahead |
| Quorum.PreparedMeans | services/remediation-engine/src/index.ts:52-108 | Which refusal stops an approver before the transaction, and what the approval that is sent says |
| Quorum.RecordedIff | packages/database/src/repository.ts:529-608 | An approval is recorded if and only if tenant, hash and deadline are right and its subject is new, whatever the status of the proposal; APPROVED is stored if and only if the approvals are then as many as asked for |
| Quorum.NotRecordedBecause | packages/database/src/repository.ts:541-575 | The exact condition of each refusal of the transaction |
| Quorum.RemediationEngine.ApproveProposal | services/remediation-engine/src/index.ts:36-155 | An uninterrupted approval: policy, role and deadline checks, transaction, move of the incident, and the second status write |
| Quorum.IncidentAfterApproval | services/remediation-engine/src/index.ts:110-133 | An incident nobody else moves goes from AWAITING_APPROVAL to APPROVED on a sufficient approval and from REMEDIATION_PROPOSED to AWAITING_APPROVAL on any; everything else of it stays |
| Quorum.IncidentMovedMeanwhile | services/remediation-engine/src/index.ts:110-133 | And where it goes, or that the call fails, for every state somebody else has moved it to since it was read |
| Quorum.InvRun | services/remediation-engine/src/index.ts:36-189 | Every interleaving of approvals and rejections keeps the invariant on approvals, sessions and status, whatever hash the row stores |
| Quorum.ApprovalIsARun | services/remediation-engine/src/index.ts:36-155 | One uninterrupted approval is such a run, and leaves the row that `approveProposal` leaves |
| Quorum.ProposalTable.RecordProposal | packages/database/src/repository.ts:300-368 | The stored row with its fallbacks for tenant, hash, deadline and status; a second row for an id or idempotency key is a duplicate |
| Quorum.ApprovalsProper | packages/database/src/repository.ts:529-615 | In every run from any PROPOSED row the approvals have distinct subjects, each with the row's hash and tenant, no later than its deadline, by someone authorised for the effective risk of what was read under that hash; a stored APPROVED means as many as the policy asked of a giver, and at least one |
| Quorum.QuorumOfGenuineApprovals | services/remediation-engine/src/index.ts:52-155 | If the row stores the hash that approvers compute for a proposal, every approval in every run is for its very content and by someone authorised for its effective risk, and a stored APPROVED stands for at least max(1, policy quorum) of them |
| Quorum.CriticalNeedsTwoAdmins | services/remediation-engine/src/index.ts:52-155 | APPROVED on a CRITICAL action other than a pod restart means that two platform administrators with different subjects approved it |
| Quorum.ApprovableIff | packages/database/src/repository.ts:300-325 | An approval can be recorded on a stored proposal, in time, if and only if the caller supplied the hash that the approver computes and the stored tenant is the approver's |
| Quorum.FallbackNeverComputed | packages/database/src/repository.ts:303-311 | The fallback hash of one proposal and the approver's hash of another are never equal |
| Quorum.FallbackHashBinds | packages/database/src/repository.ts:303-311 | The fallback hash binds action, target, parameters, risk and environment |
| Quorum.FallbackAdmitsNone | packages/database/src/repository.ts:300-325 | From a proposal recorded without a hash no run records an approval or stores APPROVED, whatever approvers read |
| Quorum.MismatchAdmitsNone | packages/database/src/repository.ts:541-561 | The same for every run in which each approver's hash or tenant mismatches |
| Quorum.RowFrame | packages/database/src/repository.ts:481-615 | Tenant, hash and deadline never change, and approvals are only appended |
| Quorum.ApprovedLastsIff | packages/database/src/repository.ts:481-491 | A stored APPROVED survives every continuation without a rejection if and only if no earlier approver still owes the write of PENDING_APPROVAL |
| Quorum.LatePendingOverwrites | services/remediation-engine/src/index.ts:109-152 | A run from a PROPOSED row in which a late PENDING_APPROVAL replaces APPROVED |
| Quorum.RejectedThenApproved | services/remediation-engine/src/index.ts:157-189 | A run in which a rejected proposal becomes APPROVED |
| AuditChain.EventHashBinds | packages/security/src/audit-hasher.ts:23-40 | With an injective digest an event hash determines the previous hash and the payload up to its defaults |
| AuditChain.DefaultedIff | packages/security/src/audit-hasher.ts:23-40 | Payloads are equal up to defaults if and only if their fields are, but for absent, empty and false ones |
| AuditChain.VerifyChain | packages/security/src/audit-hasher.ts:45-61 | The loop accepts if and only if every record is linked to the one before and carries its own hash |
| AuditChain.AcceptedAreRecorded | services/compliance-service/src/index.ts:112-157 | The chains that verification accepts are exactly those that recording produces |
| AuditChain.ComplianceService.RecordAuditEvent | services/compliance-service/src/index.ts:99-157 | Recording appends one linked record, and `lastHash` stays the head |
| AuditChain.ComplianceService.VerifyAuditIntegrity | services/compliance-service/src/index.ts:215-217 | The service's own chain always verifies |
| AuditChain.HeadDeterminesChain | packages/security/src/audit-hasher.ts:45-61 | Two accepted chains have the same head if and only if they have the same length and equal records up to defaults |
| AuditChain.HashesDistinct | packages/security/src/audit-hasher.ts:45-61 | No hash occurs twice in an accepted chain |
| AuditChain.EditDetected | packages/security/src/audit-hasher.ts:45-61 | An edited payload is accepted if and only if it differs only in filled-in defaults |
| Correlation.CorrelationEngine.CorrelateEvent | services/correlation-engine/src/index.ts:40-217 | The lookup, and then the candidate loop, the score, the severity upgrade and the new incident on whatever the repository holds by the time the lookup returns |
| Correlation.OpensIff | services/correlation-engine/src/index.ts:56-172 | An identified event opens an incident if and only if no open one of its tenant, service and environment is young enough |
| Correlation.LookupFinds | services/incident-engine/src/repository.ts:191-209 | Which incidents a lookup finds, also for an event that leaves service or environment open |
| Correlation.NewIncident | services/correlation-engine/src/index.ts:174-217 | What a new incident holds, with its severity exactly: SEV-1 for CRITICAL, SEV-2 for ERROR or an alarm, SEV-3 otherwise |
| Correlation.UnresolvedIff | services/correlation-engine/src/index.ts:40-54 | Outside demo mode exactly the events that leave service, environment or cluster open are turned away |
| Correlation.JoinsFirst | services/correlation-engine/src/index.ts:80-172 | Otherwise the first such incident absorbs it |
| Correlation.FirstTakerMeans | services/correlation-engine/src/index.ts:80-172 | In any mode a call joins the first candidate that holds the event already or scores at least 50 |
| Correlation.EvidenceWeights | services/correlation-engine/src/index.ts:97-135 | What an agreement in each field adds to the score, all else being equal; absent fields never agree |
| Correlation.StormOpensOne | services/correlation-engine/src/index.ts:40-217 | A storm of events for one target, dated at most the window after the first arrived and handled one call after the other, yields exactly one incident |
| Correlation.StormOpensPerEarlyLookup | services/correlation-engine/src/index.ts:56-217 | When the calls of a storm overlap in any way, the new incidents are as many as the lookups before the first creation, so one if and only if no second lookup came before it; all but the first hold a single event |
| Correlation.OverlapOpensTwo | services/correlation-engine/src/index.ts:56-217 | Two overlapping calls, even with one and the same event, open two incidents |
| Correlation.AbsorbedHistory | services/incident-engine/src/repository.ts:314-336 | Its events have no repeats and are exactly those that arrived, and its severity only escalates |
| Correlation.AbsorbedSeverity | services/correlation-engine/src/index.ts:151-156 | With distinct ids the severity ends at the worst that any event demands |
| Correlation.StormSeverity | services/correlation-engine/src/index.ts:151-187 | The one incident of a storm is at least as severe as each of its events demands |
| Verification.SamplePods | agents/verification/src/index.ts:106-168 | The sampling loop reports the counters of the sample that ends the window, and of no other |
| Verification.LastAttemptMeans | agents/verification/src/index.ts:106-168 | The window ends at the first sample that is all ready, or else at the last attempt |
| Verification.VerifyRecovery | agents/verification/src/index.ts:87-302 | The fail-closed verdict over the last sample and the two probes |
| Verification.MeasureMeans | agents/verification/src/index.ts:124-148 | The counters mean what they are read for: all pods ready, and no restarts beyond any baseline |
| Verification.MeasureAdds | agents/verification/src/index.ts:124-148 | Each counter is the sum over the pods of what it is named for |
| Verification.SamplesAllowed | agents/verification/src/index.ts:106-110 | How many samples a window allows |
| Verification.VerifiedIff | agents/verification/src/index.ts:233-281 | VERIFIED if and only if, in the sample that ends the window, some pod is not being deleted and every such pod runs, has containers, all ready, and no more restarts than its baseline, and memory and error rate are fine; the exact limits after rounding |
| Verification.UnknownIff | agents/verification/src/index.ts:233-262 | UNKNOWN if and only if no sample was taken, the one that ends the window failed, or required telemetry is missing; earlier samples do not matter |
| Verification.VerdictCounts | agents/verification/src/index.ts:106-302 | The counters of a verdict are those of the sample that ends the window, or all zero |
| Verification.WindowDecides | agents/verification/src/index.ts:106-110 | A negative sampling window takes no sample and is UNKNOWN; any other takes between one and five |
| Verification.RoundingRefuses | agents/verification/src/index.ts:190-275 | An error rate of 0.097 and a memory use just below 400 MiB are not recovered |

## Left out

- Strings are sequences of Unicode scalar values: lone surrogates are not modelled, nor is `undefined` inside a JSON value.
- Lower-casing is that of ASCII letters; service and environment names with other letters are not covered.
- SHA-256 is an injective function from texts to texts; its collisions and its hexadecimal form are not modelled.
- Transactions are atomic steps; retries, isolation anomalies, `include` clauses and the legacy `RemediationRecord` mirror are left out.
- A claim that aborts is taken to have written nothing, and an execution row is identified with its idempotency key.
- ExecutionService.Service.PerformExecution: writes of other workers or of a reconciliation between its awaits are not inputs; the races of workers on the row are in ExecutionProtocol. A tenant context with an empty tenant is taken for no context.
- ExecutionService.Service.ReconcileExecution: writes of others between its reads and its writes are not inputs.
- ExecutionProtocol.AtMostOneMutation: a worker id stands for one process, in which the single flight admits one execution per key at a time.
- SingleFlight: `performExecution` also fills the cache itself just before it returns; the model fills it in the `.then` step only, and hands a caller in between the same run.
- ExecutionRefinement.PerformIsARun: an uninterrupted call is matched with a run; interleaved calls are runs by themselves, since every step of the protocol is one database or cluster operation of a call.
- The clock that the protocol and the quorum read only moves forward, and is the same for everyone.
- IncidentStore: `getIncidentAsync`, `transitionStateAsync` and `createIncidentAsync` bypass the queue and are not modelled; nor are I/O errors of queued writes. The result covers `(tenant, state, version)`; severity and times may differ while the queue drains.
- Quorum.QuorumOfGenuineApprovals: readers see the stored risk, which no write changes; the rest of what they read may have been edited. `Quorum.ApprovalsProper` needs neither this nor the stored hash. The recorded `role` is the approver's first one, which need not be the one that authorised.
- Quorum.RemediationEngine.ApproveProposal: the closing `updateIncident`, which never moves a state, is left out.
- Quorum.ProposalTable.RecordProposal: a missing parameters object is hashed as `null`; a missing incident and the mirrored legacy row are left out.
- Actions named like an inherited property of the registry object are left out; the schema admits six action names.
- K8sGateway: one Deployment; pointers into arrays, `NaN` revisions (never chosen, though they can disturb the order a sort leaves), defaulting and admission by the server, and annotation objects with a `toString` of their own are not modelled. A template whose metadata has a shape the Kubernetes types exclude is refused.
- K8sGateway.Gateway.RollbackDeployment: the Kubernetes client is taken to give the status of a refusal as `statusCode` or in the message, which is all that the test for a conflict reads; messages, images and log lines are not part of the answer.
- `restartPod`, `getRolloutHistory`, credentials and the list of events: no branching beyond what the two mutations show.
- Correlation.StormOpensPerEarlyLookup: the other writers of a run are correlation calls; incidents that are resolved meanwhile, and a creation that becomes visible later than it is made, as with a database, are not steps.
- Correlation: positions in the repository stand for object references; the branch for a repository without indexed lookup, titles and timeline entries are left out. The API wires the engine to the database repository instead of the in-memory one: there `eventIds` is always read as empty, so duplicates are not recognised, and the severity upgrade is never stored.
- Verification: the network calls behind the probes and the waiting between samples are inputs; a sampling window is an integer; error rates are reals, so the last bits of a double's rounding are not modelled.
- AuditChain: payload objects are values, so a caller that changes an object after recording it is not modelled; nor are the copies in the database and in blob storage.
- HTTP server, console, model gateway, investigation agents, JWT and webhook checks, sanitizer, reports, notifications, telemetry, Terraform and Rego files.
