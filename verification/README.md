# Private cloud control plane: a verified model

A Dafny model of the parts of the control plane that must not go wrong when processes crash, messages repeat, replies
are lost and leases move: the persisted saga engine and its eight capabilities, the leased and fenced workflow store
with governed replay, the provider that honours request ids, request acceptance, projection, command ingress, and the
algorithms these rest on.

`dafny verify dfyconfig.toml` checks everything.

## How it is put together

Every database transaction is one atomic step over map-valued tables; time is a clock that never goes back; provider
replies, delivery order, redelivery, crashes and stalls are arbitrary. Each layer has a specification written as
functions on values, theorems about whole runs of it, and, where the program updates things in place, a class whose
methods are proved equal to those functions.

| Layer | Specification | Theorems over runs | In place |
|---|---|---|---|
| Saga engine, capabilities | `Stages`, `SagaEngine` | `SagaRuns`, `EarnedSuccess` | `LifecycleWorkflow` |
| Workflow store, governed replay | `WorkflowTables`, `Orchestrator` | `Fencing`, `RowRuns`, `GovernedReplay`, `Letters`, `Turns` | `WorkflowStore` |
| Provider, with the orchestrator | `Provider` | `Provider`, `Effects`, `Observations`, `Takeovers`, `ReplayedCreates`, `LostWork` | `FakeProvider` |
| Acceptance, projection, replay requests | `ControlTables`, `Platform` | `Conservation`, `Catalogued`, `Quota`, `Revival`, `ReplayedMarker`, `PurgeChain`, `Consistency`, `EndToEnd`, `Projection`, `Consumption` | `ControlPlaneStore`, `ProjectionStore` |
| Runs that show a property failing | `Continuations`, `Episodes` | `Scenarios` | |
| Ingress | `Ingress` | `Ingress`, `GovernedReplay` | `Ingress` |
| Algorithms | `Ipv4`, `Vmid`, `PageCursor`, `Canonical`, `Registry` | the same | `Ipv4`, `Vmid`, `Registry` |

Three transition systems carry the main results. `Orchestrator` is the workflow store under every interleaving of
deliveries, claims, commits, expiries and governed replays; a worker is only the tickets it was granted, which it may
present at any later time or never, and a claim may take any ready row. `Effects` adds the provider: the mutations
workers have in flight, and the queries they make. `Platform` closes the loop from an accepted request to its projected
outcome, governed replay included; where a result holds only of runs in which no replay is asked for, its contract says
`WithoutReplay(inputs)`. For the quota, for purged instances and for the busy marker, `Quota`, `Revival` and
`ReplayedMarker` say exactly when the result survives replay. `LifecycleWorkflow.TurnIsThreeSteps` ties a turn of the
worker class to steps of `Orchestrator`, `Ingress.Peer.Perform` ties every step of `Orchestrator` to calls of the store
class, and `Consumption` ties the cursors of `Platform` to consumers that re-read and are rewound.

Histories (`grants`, `commits`, `histories`, `executed`, `created`, `origins`) record the past for the theorems; no step
reads them. Identifiers are natural numbers minted fresh; content stands for its hash, which is taken to be injective;
the jitter is a real in [0, 1).

## Where the code does less than it seems to

Stated as theorems, following the code:

- Reopening a workflow by governed replay clears its provider resource (`workflow-store.ts:806`), so a replayed
  operation of any capability but create never calls the provider again and can only fail
  (`RowRuns.ReplayedOperationsOnlyFail`). The comment at `workflow-store.ts:223` assumes that only creates are replayed;
  retry exhaustion dead-letters every capability.
- A governed replay also rewrites the correlation id (`workflow-store.ts:276`), which the deterministic provider compares
  (`fake-provider.ts:721`). A create exhausts its retries only past a submission the provider remembers, so reopened
  under another correlation id it never succeeds (`ReplayedCreates.ReopenedUnderAnotherIdNeverSucceeds`); its submission is
  answered if and only if the ids agree (`ReplayedCreates.RepeatedSubmissionIsAnswered`). Every create that polls can be
  driven there (`LostWork.CreateCanBeStranded`).
- The provider leaves the fencing token out of a repeated request only when the context is at its top level
  (`fake-provider.ts:173`). After a takeover, create and power are answered from the cache; resize, snapshot, retention
  and purge never succeed although the provider applied them (`Takeovers.TakeoverNeverSucceeds`, `Takeovers.RepeatedCallIsAnswered`), and any
  of them that is about to call can be driven there (`LostWork.NestedWorkCanBeLost`).
- The provider looks its cache up, waits, and then applies (`fake-provider.ts:723`): two overlapping calls with one
  request id both apply, if both work (`Provider.OverlapAppliesTwice`). At-most-once therefore holds of all the ways given
  calls can go if and only if none of them overlap (`Provider.AtMostOnceExactly`); one machine per instance always holds.
- A stored `failed` is shown as `manual_review` exactly when its failure's category is an unknown outcome or a review
  (`EndToEnd.ReadModelAgrees`).
- A row parked between two polls is stored as `retry_wait` but shown as `running` (`EndToEnd.ShownWaitIsBackoff`).
- A projected event is applied to its instance whatever its state is: progress makes it `provisioning`
  (`projection-store.ts:298-355`) and a terminal event clears the busy marker without comparing operations
  (`projection-store.ts:391-411`). `requestDeadLetterReplay` (`control-plane-store.ts:1589-1700`) checks no instance state
  either. So with replay, an instance that was purged can come back and exceed its project's quota
  (`Scenarios.ReplayExceedsQuota`), and an instance at work can be shown idle (`Scenarios.ReplayUnmarksInstance`). The
  quota is kept if and only if what comes back would pass the check of a create (`Quota.QuotaIsKeptExactly`), and is kept
  if nothing of an instance can act when it becomes purged (`Revival.RestingPurgesKeepQuota`); a purged instance is final
  if and only if nothing of it can act any more (`Revival.PurgedIsFinalExactly`); the marker is exact if and only if no
  event of another operation ends on it (`ReplayedMarker.MarkerSurvivesExactly`).
- Key order is a locale's (`index.ts:78`), which may not tell two keys apart; two bodies that mean the same then hash
  differently. Canonical forms are exact if and only if the keys of each object are told apart
  (`Canonical.CanonicalFormIsExact`).
- The address quota of a project bounds the leases held on the whole network (`control-plane-store.ts:1879`); the model
  does the same. Nothing in the repository calls `releaseIpv4Lease`, so a quarantined address is never handed back.

## Model

| member | source | states |
|---|---|---|
| Stages.MutationStagesAreTheMutatingRoles | packages/application/src/lifecycle-workflow.ts:81-85 | The declared mutation lists name exactly the stages at which the transition tables issue a mutation, for all eight capabilities |
| Stages.EdgesDescend | packages/application/src/workflow-stage.ts:46-81 | Every forward edge of every capability stays in its graph and descends in rank |
| Stages.ProgressRises | packages/application/src/workflow-stage.ts:110-138 | Progress percentages never fall along the graph |
| Stages.MutationsAreOnEveryPath | packages/application/src/lifecycle-workflow.ts:782-817 | No path past a mutation stage avoids it |
| SagaRuns.RunIsSound | packages/application/src/lifecycle-workflow.ts:187-227 | Every row of a run: status and stage agree, a task is held exactly while polling, the resource is known where needed, retries are counted only where repeating is harmless |
| SagaRuns.CommitSpendsPotential | packages/application/src/lifecycle-workflow.ts:344-375 | Each commit but a repeated poll lowers a measure of stage rank, then retries left |
| SagaRuns.RunsAreBounded | packages/application/src/lifecycle-workflow.ts:344-490 | Runs end: their length is bounded by the graph, the retries and the number of still-running replies |
| SagaRuns.CommitsFromAdmission | packages/application/src/lifecycle-workflow.ts:344-490 | At most eight commits per stage and per still-running reply from admission to the end |
| SagaRuns.WaitIsBounded | packages/application/src/lifecycle-workflow.ts:463-485 | A backoff is shorter than its ceiling and over before the retry budget is |
| SagaRuns.StreakIsBounded | packages/application/src/lifecycle-workflow.ts:418-490 | A streak of failures has at most seven waits, all over within fifteen minutes of the first, together shorter than 61.5 s |
| SagaRuns.ExhaustionIsExact | packages/application/src/lifecycle-workflow.ts:427-461 | Retries are given up exactly on the eighth failure in a row or past the budget, off mutation stages |
| SagaRuns.MutationRetriedOnlyIfMisclassified | packages/application/src/lifecycle-workflow.ts:392-415 | A failed mutation is retried or exhausted if and only if its error claims to be both a protocol error and retryable |
| SagaRuns.ConstructedErrorsAreClassified | packages/provider-sdk/src/provider-errors.ts:49-58 | The constructor builds such an error if and only if its caller asks for a retryable protocol error |
| SagaRuns.NoMutationIsRetried | packages/application/src/lifecycle-workflow.ts:392-490 | Over a run, no row waits for retry, counts a retry or is dead-lettered for exhaustion at a mutation stage |
| SagaRuns.WithoutResourceOnlyFailure | packages/application/src/lifecycle-workflow.ts:699-706 | A run of a non-create that starts without a resource makes no provider call and fails in two commits |
| EarnedSuccess.SuccessIsEarned | packages/application/src/lifecycle-workflow.ts:234-375 | A succeeded run won every mutation by its own success reply or its own task polled to success, then passed its closing check; or is a purge that found nothing |
| EarnedSuccess.LostTaskIsUnreachable | packages/application/src/lifecycle-workflow.ts:238-248 | The lost-task failure of polling and the unsupported-stage failure are never committed |
| Fencing.RunsAreFenced | packages/postgres-adapter/src/workflow-store.ts:377-463 | The lease and token invariant holds after every sequence of events, whichever ready row each claim takes |
| Fencing.FencingHolds | packages/postgres-adapter/src/workflow-store.ts:1009-1041 | Tokens per instance strictly increase over claims and over commits; at most one operation and token can commit on an instance at any time |
| Fencing.EndedRowsChangeOnlyByReplay | packages/postgres-adapter/src/workflow-store.ts:730-870 | A row that has ended is changed only by reopening a failed one under a matching authorization |
| Fencing.SharedWorkerIdsStillFence | packages/postgres-adapter/src/workflow-store.ts:1009-1041 | Of two processes with one worker id, the second's claim makes the first unable to commit |
| RowRuns.RowsAreSagaRuns | packages/postgres-adapter/src/workflow-store.ts:474-620 | Every stored row is the end of a valid saga run of the command its event was issued with |
| RowRuns.StoredRowsAreSound | packages/postgres-adapter/src/workflow-store.ts:474-507 | The row invariant of a run holds of every stored row over every interleaving |
| RowRuns.StoredSuccessIsEarned | packages/application/src/lifecycle-workflow.ts:881-926 | Every stored success was earned by commits made since the row was admitted or reopened |
| RowRuns.CommitsFindTheirReceipt | packages/postgres-adapter/src/workflow-store.ts:575-620 | A worker that holds its lease can always commit: the receipt and command checks cannot fail |
| RowRuns.ReplayedOperationsOnlyFail | packages/postgres-adapter/src/workflow-store.ts:795-815 | A replayed non-create never calls the provider, never succeeds, and fails within two commits |
| GovernedReplay.RunsAreGoverned | packages/postgres-adapter/src/workflow-store.ts:230-306 | Authorizations, letters, receipts and row generations stay in step after every sequence of events |
| GovernedReplay.GenerationCountsReplays | packages/postgres-adapter/src/workflow-store.ts:730-870 | A row's replay generation is the number of its completed replay requests |
| GovernedReplay.OneAuthorizationOutstanding | packages/postgres-adapter/src/workflow-store.ts:258-303 | At most one authorization per dead letter is outstanding, for the letter's generation |
| GovernedReplay.GenuineReplayReopens | packages/postgres-adapter/src/workflow-store.ts:730-870 | A matching authorized delivery always reopens: the state-conflict branch is unreachable for it |
| GovernedReplay.MismatchOnlyQuarantines | packages/postgres-adapter/src/workflow-store.ts:873-898 | A delivery without authorization changes at most the poison record at its own coordinates |
| GovernedReplay.PoisonBlocksNothing | packages/postgres-adapter/src/workflow-store.ts:730-898 | Poison left by mismatched deliveries never changes the outcome of the genuine one |
| GovernedReplay.EachGenerationAdmitsOnce | packages/postgres-adapter/src/workflow-store.ts:651-727 | Over a run, each event and generation starts or reopens a workflow at most once |
| Provider.OneMachinePerInstance | packages/provider-adapters/src/fake-provider.ts:308-338 | Never two machines for one instance, for any requests, overlapping or not |
| Provider.AppliedAtMostOnce | packages/provider-adapters/src/fake-provider.ts:714-794 | No request id is applied twice when calls sharing it do not overlap |
| Provider.OverlapAppliesTwice | packages/provider-adapters/src/fake-provider.ts:723-793 | Whatever was called before, a call that begins while one with its request id waits and nothing is cached can end with both applied |
| Provider.AtMostOnceExactly | packages/provider-adapters/src/fake-provider.ts:714-794 | However the same calls are scripted and finish, no request id is applied twice, if and only if none of them overlap |
| Provider.ObservationIsExact | packages/provider-adapters/src/fake-provider.ts:393-424 | An observation reports a machine, proves it owned and disagrees with a sizing exactly when the provider holds it, with those markers, at another sizing |
| Provider.ExecuteStaysHome | packages/provider-adapters/src/fake-provider.ts:828-859 | A request that names its own instance in its markers touches no other instance's machine |
| Effects.StagesHaveTheirOwnKeys | packages/application/src/lifecycle-workflow.ts:626-645 | Different mutation stages of one operation present different request ids |
| Effects.RunsAreComposed | packages/application/src/lifecycle-workflow.ts:269-331 | Answers, cached results, rows and histories stay grounded in what the provider applied |
| Effects.OneMachinePerInstanceAlways | packages/provider-adapters/src/fake-provider.ts:308-338 | Over crashes, lost replies, takeovers, overlap and replay: one machine per instance, and no row names another instance's machine |
| Effects.CallsStayHome | packages/provider-adapters/src/fake-provider.ts:828-859 | A provider step made for a worker changes no machine or snapshot of another instance |
| Effects.StepsApplyAtMostOnce | packages/provider-adapters/src/fake-provider.ts:714-794 | Each operation's step is applied at most once over a run whose calls for one step do not overlap |
| Effects.SucceededStepsAppliedOnce | packages/application/src/lifecycle-workflow.ts:269-375 | A succeeded operation had each of its mutations applied exactly once, unless it is a purge that found nothing |
| Effects.RepeatedStepIsRecognised | packages/provider-adapters/src/fake-provider.ts:173-181 | A repeated step is answered from the cache exactly when it carries the same correlation id and is flat or from the same claim |
| Observations.HeardWasSo | packages/application/src/lifecycle-workflow.ts:234-254 | What a worker's query told it is what the provider held at that point of the run, after the row was claimed |
| Observations.SuccessWasSo | packages/application/src/lifecycle-workflow.ts:881-926 | Every stored success was so: at some point the provider held just what the command asks for on the row's machine, and for a purge no such machine |
| Letters.ReplaysFollowExhaustion | packages/postgres-adapter/src/workflow-store.ts:510-564 | Over every run, a letter that can still be replayed and has a row was written by the exhausted retries that ended the row's run |
| Takeovers.TakeoverNeverSucceeds | packages/provider-adapters/src/fake-provider.ts:714-794 | Over every run, a resize, snapshot, retention or purge claimed anew after the provider dealt with its mutation waits there or ends failed or for review, and is never replayed |
| Takeovers.RepeatedCallIsAnswered | packages/provider-adapters/src/fake-provider.ts:173-181 | Over every run, a claim's repeated call is answered from the cache if and only if the capability is create or power or the claim is the one that asked |
| Takeovers.RunsTrail | packages/postgres-adapter/src/workflow-store.ts:377-463 | No claim of a row's generation is ahead of the row, and one at its mutation stage names the same machine |
| ReplayedCreates.RunsAgree | packages/postgres-adapter/src/workflow-store.ts:274-281 | Over every run, all answers to a create's submission, and the row that rests on one, carry the correlation id it is remembered under |
| ReplayedCreates.ReopenedUnderAnotherIdNeverSucceeds | packages/postgres-adapter/src/workflow-store.ts:274-281 | Over every run, a create that exhausted its retries and was reopened under another correlation id waits at its submission or ends failed or for review, and is never replayed again |
| ReplayedCreates.RepeatedSubmissionIsAnswered | packages/provider-adapters/src/fake-provider.ts:714-740 | Over every run, a repeated create submission is answered from the cache if and only if the correlation ids agree, and is otherwise stored as failed |
| LostWork.NestedWorkCanBeLost | packages/application/src/lifecycle-workflow.ts:187-227 | From every state, a nested mutation about to be called has a continuation after which its operation never succeeds |
| LostWork.CreateCanBeStranded | packages/postgres-adapter/src/workflow-store.ts:730-870 | From every state, a create that polls or observes and was never dead-lettered has a continuation, by an outage and a replay, after which it never succeeds |
| Platform.RunsAreLinked | packages/postgres-adapter/src/projection-store.ts:249-522 | Over every run with replay, commands, operations, rows, events and replay requests belong together |
| Platform.ProjectionNeverBlocks | packages/postgres-adapter/src/projection-store.ts:61-71 | The next event of an instance can always be applied: its transaction never throws |
| Consistency.RunsAreConsistent | packages/postgres-adapter/src/projection-store.ts:298-522 | Without replay, requests, rows, event queues, cursors and read models stay consistent over every run |
| EndToEnd.BusyMarkerIsExact | packages/postgres-adapter/src/instance-guard.ts:62-116 | Without replay, the active operation is o exactly while o is accepted and its terminal event is not projected |
| EndToEnd.OneUnfinishedOperation | packages/postgres-adapter/src/instance-guard.ts:62-116 | Without replay, no instance has two unfinished operations |
| EndToEnd.ReadModelAgrees | packages/postgres-adapter/src/projection-store.ts:298-522 | Without replay, with its queue projected, an operation shows its stored stage; a stored review is never shown failed, and a stored failure is shown as a review exactly by category |
| EndToEnd.ShownWaitIsBackoff | packages/application/src/lifecycle-workflow.ts:350-358 | Which parked rows are shown as waiting |
| ReplayedMarker.MarkerSurvivesExactly | packages/postgres-adapter/src/projection-store.ts:391-411 | With replay, the marker is exact at every point of a run if and only if no step projects a terminal event onto an instance busy with another operation |
| Scenarios.ReplayUnmarksInstance | packages/postgres-adapter/src/projection-store.ts:470-522 | A run in which a replayed create's second failure leaves an instance unmarked while another operation is at work on it |
| Conservation.RunsAreKept | packages/postgres-adapter/src/control-plane-store.ts:2046-2189 | Over every run with replay: addresses, snapshot names and counts, idempotency records, outbox and documents are exact, and purged instances idle |
| Catalogued.CreateIsAcceptedExactly | packages/postgres-adapter/src/control-plane-store.ts:1769-1903 | A create is accepted if and only if its entries are on offer, every quota has room and an address is left; every other gets the error of its reason |
| Catalogued.CreatesAreCatalogued | packages/postgres-adapter/src/control-plane-store.ts:1769-1828 | Every create command ever published is for an enabled project, image, flavor and network of one active profile, at the flavor's sizing, with an address of the pool |
| Quota.QuotaIsKeptExactly | packages/postgres-adapter/src/control-plane-store.ts:1838-1864 | With replay, every project is within quota at every point if and only if each purged instance an event brings back would then pass the check of a create |
| Quota.QuotaIsConserved | packages/postgres-adapter/src/control-plane-store.ts:1838-1864 | Without replay, instance count and desired CPU, memory and disk of every project stay within quota through creates, resizes and purges |
| Scenarios.ReplayExceedsQuota | packages/postgres-adapter/src/projection-store.ts:298-355 | A run in which a replay brings a purged instance back and its project exceeds its quota |
| Conservation.AddressesAreUnique | packages/postgres-adapter/src/control-plane-store.ts:1879-1903 | No two leases in use on a network share an address |
| Conservation.RunsMoveOn | packages/postgres-adapter/src/control-plane-store.ts:705-735 | Lease states only move forward, a desired disk never shrinks, idempotency records stay |
| Conservation.RepeatedRequestIsRecalled | packages/postgres-adapter/src/control-plane-store.ts:1732-1755 | Once accepted, an equal repeat returns the same response marked replayed at every later point, another body is refused, and neither changes anything |
| Revival.PurgedIsFinalExactly | packages/postgres-adapter/src/control-plane-store.ts:1589-1700 | With replay, a purged instance stays as it is however the run goes on if and only if all its commands are delivered, over and not replayable, and no other event waits |
| Revival.PurgedIsFinal | packages/postgres-adapter/src/control-plane-store.ts:1357-1405 | Without replay, a purged instance never changes again |
| Revival.RestingPurgesKeepQuota | packages/postgres-adapter/src/control-plane-store.ts:1838-1864 | With replay, if nothing of an instance can act when it becomes purged, every project stays within quota |
| PurgeChain.PurgeFollowsVerification | packages/application/src/purge-instance-workflow.ts:94-118 | Within a run, the purge stages are reached only through a committed observation of the owned machine |
| PurgeChain.PurgesAreGuarded | packages/postgres-adapter/src/control-plane-store.ts:1381-1405 | With replay, every worker able to purge acts for an operation accepted while its instance was idle, retained and past its deadline, and claimed it after ownership was verified |
| PurgeChain.PurgedWasSeenAbsent | packages/application/src/purge-instance-workflow.ts:139-160 | With replay, an instance is shown as purged only after a purge of it ended on an observation that did not report its machine |
| PurgeChain.PurgedMachineWasGone | packages/application/src/purge-instance-workflow.ts:139-160 | With replay, an instance shown as purged has a purge whose row names a machine the provider did not hold at some point of the run |
| Projection.EachEventAppliedOnceInOrder | packages/postgres-adapter/src/projection-store.ts:226-249 | Under rewinds, repeats and other writers of the same tables, events are applied in log order, each exactly once |
| Projection.ReadingIsFolding | packages/postgres-adapter/src/projection-store.ts:61-71 | In-order reading with any rewinds and repeats leaves the tables of applying each event once |
| Projection.ReadingToTheEnd | packages/postgres-adapter/src/projection-store.ts:226-249 | A reader at the end of the log holds the fold of the whole log |
| Consumption.ConsumersMakePlatformRuns | packages/postgres-adapter/src/projection-store.ts:226-249 | Consumers that read, re-read and are rewound while everything else goes on make a run of the platform, with their receipts as its cursors |
| Consumption.ReadsNeverBlock | packages/postgres-adapter/src/projection-store.ts:61-71 | Every read moves on: it is a duplicate or projects the next event |
| Ingress.CommandConsumer.AdmitCommand | packages/postgres-adapter/src/workflow-store.ts:216-227 | Admission leaves a receipt, or a poison record when it rejects; an error leaves nothing |
| Ingress.CommandConsumer.Handle | apps/provisioning-orchestrator/src/app/command-consumer.ts:69-121 | Success leaves a receipt or poison record; an error whose commit did not go through leaves nothing |
| Ingress.CommandConsumer.Exhausted | apps/provisioning-orchestrator/src/app/command-consumer.ts:123-173 | Infrastructure errors are thrown on and write nothing; a disposition given is durable |
| Ingress.KafkaConsumerRunner.HandleWithRetry | packages/messaging/src/kafka-consumer.ts:290-329 | The handler runs at most the configured number of times, and never for an undecodable record |
| Ingress.KafkaConsumerRunner.EachMessage | packages/messaging/src/kafka-consumer.ts:224-283 | The offset moves past a record only once it is disposed of, and always when the call succeeds |
| Ingress.KafkaConsumerRunner.Consume | packages/messaging/src/kafka-consumer.ts:224-283 | Over faults, lost commits, restarts and any steps of others, every record below the committed offset has its receipt or poison record |
| Ingress.StepsKeepDispositions | packages/postgres-adapter/src/workflow-store.ts:216-359 | No step of the orchestrator takes a receipt or a poison record away |
| Ingress.Peer.Perform | packages/postgres-adapter/src/workflow-store.ts:216-620 | Every step of the orchestrator is performed by the store's own methods, a delivery with the resource the store finds |
| WorkflowStore.WorkflowStore.ReadyWorkflow | packages/postgres-adapter/src/workflow-store.ts:630-648 | Returns the ready row due first and oldest, and nothing only if no row is ready |
| WorkflowStore.WorkflowStore.ClaimNext | packages/postgres-adapter/src/workflow-store.ts:377-463 | Performs the claim of the first ready row under the next token, or changes nothing |
| WorkflowStore.WorkflowStore.AssertLease | packages/postgres-adapter/src/workflow-store.ts:1009-1041 | Passes exactly for the current token under the caller's live lease |
| WorkflowStore.WorkflowStore.ReleaseLease | packages/postgres-adapter/src/workflow-store.ts:1231-1243 | Ends the lease and keeps its token |
| WorkflowStore.WorkflowStore.Checkpoint | packages/postgres-adapter/src/workflow-store.ts:474-507 | Performs the checkpoint transaction, or throws and changes nothing |
| WorkflowStore.WorkflowStore.Complete | packages/postgres-adapter/src/workflow-store.ts:575-620 | Performs the completion transaction, settling the receipt, or throws and changes nothing |
| WorkflowStore.WorkflowStore.DeadLetterWorkflow | packages/postgres-adapter/src/workflow-store.ts:510-564 | Performs the dead-letter transaction, or throws and changes nothing |
| WorkflowStore.WorkflowStore.WriteDeadLetter | packages/postgres-adapter/src/workflow-store.ts:1044-1123 | Writes or reopens the evidence and never replaces the retained payload |
| WorkflowStore.WorkflowStore.InsertReceipt | packages/postgres-adapter/src/workflow-store.ts:901-926 | Inserts once per event and generation, and fails when the coordinates belong to another receipt |
| WorkflowStore.WorkflowStore.AdmitOriginalDelivery | packages/postgres-adapter/src/workflow-store.ts:651-727 | Performs original admission with the resource of the oldest row that knows one |
| WorkflowStore.WorkflowStore.AdmitReplayRequest | packages/postgres-adapter/src/workflow-store.ts:230-306 | Performs the replay decision transaction |
| WorkflowStore.WorkflowStore.AdmitAuthorizedReplayCommand | packages/postgres-adapter/src/workflow-store.ts:730-870 | Performs the replay admission transaction |
| WorkflowStore.WorkflowStore.QuarantineRecord | packages/postgres-adapter/src/workflow-store.ts:309-335 | Keeps the first poison record of a coordinate |
| WorkflowStore.WorkflowStore.DeadLetterCommand | packages/postgres-adapter/src/workflow-store.ts:338-359 | Keeps a failing command once per event and generation |
| LifecycleWorkflow.LifecycleWorkflow.RunOne | packages/application/src/lifecycle-workflow.ts:187-227 | A turn claims the first ready row of its action and commits exactly the engine's decision on it |
| LifecycleWorkflow.LifecycleWorkflow.PollTask | packages/application/src/lifecycle-workflow.ts:234-254 | Commits the polling decision, or throws having written nothing |
| LifecycleWorkflow.LifecycleWorkflow.HandleMutationResult | packages/application/src/lifecycle-workflow.ts:269-331 | Commits the classification of a mutation result |
| LifecycleWorkflow.LifecycleWorkflow.HandleTaskResult | packages/application/src/lifecycle-workflow.ts:344-375 | Commits the classification of a task result |
| LifecycleWorkflow.LifecycleWorkflow.HandleProviderError | packages/application/src/lifecycle-workflow.ts:392-415 | Commits the recovery of a transport error |
| LifecycleWorkflow.LifecycleWorkflow.RetryOrDeadLetter | packages/application/src/lifecycle-workflow.ts:418-490 | Commits a backoff within the budget, or the dead letter |
| LifecycleWorkflow.LifecycleWorkflow.Progress | packages/application/src/lifecycle-workflow.ts:499-552 | Checkpoints a stage, carrying the resource forward |
| LifecycleWorkflow.LifecycleWorkflow.FinishFailure | packages/application/src/lifecycle-workflow.ts:583-616 | Ends the workflow failed or for review |
| LifecycleWorkflow.LifecycleWorkflow.ExecuteCreate | packages/application/src/lifecycle-workflow.ts:782-817 | The create table performs the engine's decision at every stage |
| LifecycleWorkflow.LifecycleWorkflow.ObserveCreate | packages/application/src/lifecycle-workflow.ts:881-926 | Completes only an owned, running machine |
| LifecycleWorkflow.LifecycleWorkflow.ExecutePower | packages/application/src/power-instance-workflow.ts:71-94 | The power table performs the engine's decision at every stage |
| LifecycleWorkflow.LifecycleWorkflow.ObservePower | packages/application/src/power-instance-workflow.ts:128-184 | Completes only an owned machine in the requested power state |
| LifecycleWorkflow.LifecycleWorkflow.ExecuteResize | packages/application/src/resize-instance-workflow.ts:53-75 | The resize table performs the engine's decision at every stage |
| LifecycleWorkflow.LifecycleWorkflow.ObserveResize | packages/application/src/resize-instance-workflow.ts:107-177 | Completes an owned machine unless it measures another sizing |
| LifecycleWorkflow.LifecycleWorkflow.ExecuteSnapshot | packages/application/src/snapshot-workflow.ts:73-95 | The snapshot table performs the engine's decision at every stage |
| LifecycleWorkflow.LifecycleWorkflow.ObserveSnapshot | packages/application/src/snapshot-workflow.ts:143-183 | Completes a create that is listed, a delete that is not, and any rollback |
| LifecycleWorkflow.LifecycleWorkflow.ExecuteRetention | packages/application/src/retain-instance-workflow.ts:54-76 | The retention table performs the engine's decision at every stage |
| LifecycleWorkflow.LifecycleWorkflow.ObserveRetention | packages/application/src/retain-instance-workflow.ts:104-154 | Completes only an owned machine, recording its power state |
| LifecycleWorkflow.LifecycleWorkflow.ExecutePurge | packages/application/src/purge-instance-workflow.ts:59-83 | The purge table performs the engine's decision at every stage |
| LifecycleWorkflow.LifecycleWorkflow.VerifyOwnership | packages/application/src/purge-instance-workflow.ts:94-118 | Goes on to destroy only a provably owned machine |
| LifecycleWorkflow.LifecycleWorkflow.ObserveAbsence | packages/application/src/purge-instance-workflow.ts:139-160 | Completes only when the machine is not reported |
| LifecycleWorkflow.TurnIsThreeSteps | packages/application/src/lifecycle-workflow.ts:187-227 | A turn of the worker is a claim, time passing and a commit of the orchestrator |
| ControlPlaneStore.ControlPlaneStore.FindReplayedResponse | packages/postgres-adapter/src/control-plane-store.ts:1732-1755 | Finds the stored response of an equal request, and the conflict of another |
| ControlPlaneStore.ControlPlaneStore.LockInstanceForMutation | packages/postgres-adapter/src/instance-guard.ts:62-116 | Returns the row exactly when it is the project's, idle and mutable |
| ControlPlaneStore.ControlPlaneStore.AssertQuotaHeadroom | packages/postgres-adapter/src/control-plane-store.ts:1838-1864 | Passes exactly when the create fits in every dimension |
| ControlPlaneStore.ControlPlaneStore.AssertResizeQuotaHeadroom | packages/postgres-adapter/src/control-plane-store.ts:626-658 | Passes exactly when the difference fits in every dimension |
| ControlPlaneStore.ControlPlaneStore.ReserveIpv4Address | packages/postgres-adapter/src/control-plane-store.ts:1879-1903 | Reserves the lowest free address within the address quota |
| ControlPlaneStore.ControlPlaneStore.AcceptCreate | packages/postgres-adapter/src/control-plane-store.ts:232-260 | Performs the create acceptance transaction |
| ControlPlaneStore.ControlPlaneStore.AcceptPowerAction | packages/postgres-adapter/src/control-plane-store.ts:272-425 | Performs the power acceptance transaction |
| ControlPlaneStore.ControlPlaneStore.AcceptResize | packages/postgres-adapter/src/control-plane-store.ts:436-618 | Performs the resize acceptance transaction |
| ControlPlaneStore.ControlPlaneStore.AcceptSnapshotCreate | packages/postgres-adapter/src/control-plane-store.ts:760-864 | Performs the snapshot acceptance transaction |
| ControlPlaneStore.ControlPlaneStore.AcceptSnapshotAction | packages/postgres-adapter/src/control-plane-store.ts:874-976 | Performs the rollback and delete acceptance transactions |
| ControlPlaneStore.ControlPlaneStore.AcceptRetention | packages/postgres-adapter/src/control-plane-store.ts:1175-1338 | Performs the retention acceptance transaction, taking the lease out of use |
| ControlPlaneStore.ControlPlaneStore.AcceptPurge | packages/postgres-adapter/src/control-plane-store.ts:1357-1536 | Performs the purge acceptance transaction behind its three guards |
| ControlPlaneStore.ControlPlaneStore.ReleaseIpv4Lease | packages/postgres-adapter/src/control-plane-store.ts:705-735 | Advances a lease one way only |
| ProjectionStore.ProjectionStore.ApplyWorkflowEvent | packages/postgres-adapter/src/projection-store.ts:61-71 | Applies an event with its receipt once, or throws for a missing row and changes nothing |
| ProjectionStore.ProjectionStore.ApplyReplayResolved | packages/postgres-adapter/src/projection-store.ts:249-296 | Settles the replay request an answer names |
| ProjectionStore.ProjectionStore.ApplyProgress | packages/postgres-adapter/src/projection-store.ts:298-355 | Projects a progress event |
| ProjectionStore.ProjectionStore.ApplyCompleted | packages/postgres-adapter/src/projection-store.ts:369-457 | Projects a success and settles its snapshot |
| ProjectionStore.ProjectionStore.ApplyFailed | packages/postgres-adapter/src/projection-store.ts:470-522 | Projects a failure or a review |
| ProjectionStore.ProjectionStore.SettleSnapshot | packages/postgres-adapter/src/projection-store.ts:548-587 | Makes the operation's snapshot available, or removes a deleted one |
| FakeProvider.FakeProvider.BeginMutation | packages/provider-adapters/src/fake-provider.ts:714-758 | Performs everything a mutation does before its delay |
| FakeProvider.FakeProvider.FinishMutation | packages/provider-adapters/src/fake-provider.ts:758-794 | Performs everything after it, without a second cache lookup |
| FakeProvider.FakeProvider.Run | packages/provider-adapters/src/fake-provider.ts:828-848 | Checks ownership and applies the mutation |
| FakeProvider.FakeProvider.SubmitCreateInstance | packages/provider-adapters/src/fake-provider.ts:308-338 | Returns the instance's machine, creating it at most once |
| FakeProvider.FakeProvider.ChangeInstance | packages/provider-adapters/src/fake-provider.ts:341-364 | Configures, resizes, retains or powers one owned machine |
| FakeProvider.FakeProvider.ChangeSnapshot | packages/provider-adapters/src/fake-provider.ts:511-580 | Takes, rolls back or removes a snapshot of one owned machine |
| FakeProvider.FakeProvider.PurgeInstance | packages/provider-adapters/src/fake-provider.ts:608-638 | Removes one owned machine with its index and snapshots |
| FakeProvider.FakeProvider.AcceptWork | packages/provider-adapters/src/fake-provider.ts:796-808 | Opens a task under a fresh id |
| FakeProvider.FakeProvider.GetTask | packages/provider-adapters/src/fake-provider.ts:367-390 | Reports running until the polls are used up |
| FakeProvider.FakeProvider.ListedSnapshots | packages/provider-adapters/src/fake-provider.ts:511-531 | Lists an owned machine's snapshots, and refuses any other as a protocol error |
| Ipv4.ParsePrint | packages/domain/src/index.ts:185-196 | Every address is the parse of its print |
| Ipv4.PrintParse | packages/domain/src/index.ts:185-196 | Every text that parses is the print of its address, so comparing spellings compares addresses |
| Ipv4.StrictIpv4 | packages/domain/src/index.ts:185-196 | Reads exactly the four-octet texts |
| Ipv4.AllocateIpv4 | packages/domain/src/index.ts:136-172 | Walks the pool to the allocation |
| Ipv4.AllocationIsLowestFree | packages/domain/src/index.ts:136-172 | The result is the lowest address strictly between network and broadcast (section 3.2.1.3 of RFC 1122) that is neither gateway, excluded nor leased; failure means there is none |
| Vmid.ParseInvertsPrinters | packages/provider-adapters/src/proxmox-provider.ts:248-317 | Parsing a label inverts both printers exactly for labels without an empty field |
| Vmid.FindOwnedOrFreeVmid | packages/provider-adapters/src/proxmox-provider.ts:1356-1379 | Probes once around the range from the seed |
| Vmid.ProbesDiffer | packages/provider-adapters/src/proxmox-provider.ts:1370-1375 | No identifier is probed twice |
| Vmid.ProbesCover | packages/provider-adapters/src/proxmox-provider.ts:1370-1375 | Every reserved identifier is probed |
| Vmid.ExhaustionIsExact | packages/provider-adapters/src/proxmox-provider.ts:1370-1379 | The search fails exactly when all identifiers are occupied and none is owned |
| Vmid.RepeatedCreateFindsItsVm | packages/provider-adapters/src/proxmox-provider.ts:1356-1379 | A repeated create returns the identifier it first took, also after a retention trailer |
| PageCursor.BytesRoundTrip | packages/postgres-adapter/src/page-cursor.ts:47-50 | base64url (section 5 of RFC 4648) decoding inverts encoding |
| PageCursor.CursorRoundTrip | packages/postgres-adapter/src/page-cursor.ts:63-80 | An issued cursor decodes to its position exactly within the bounds, and is refused otherwise |
| PageCursor.PageIsSegment | packages/postgres-adapter/src/page-cursor.ts:94-106 | A page holds exactly the rows after its cursor up to the next one |
| PageCursor.FixedWalkIsTheTable | packages/postgres-adapter/src/control-plane-store.ts:2394-2414 | Following the cursors over a fixed table ends and returns every row once, in order |
| PageCursor.NoRowTwice | packages/postgres-adapter/src/control-plane-store.ts:2612-2620 | No row is returned twice while others are inserted or raised between pages |
| PageCursor.UntouchedRowsAreReturnedOnce | packages/postgres-adapter/src/control-plane-store.ts:2612-2620 | Every row untouched during a complete walk is returned on exactly one page |
| Canonical.CanonicalFormIsExact | packages/domain/src/index.ts:69-101 | For every order of keys: a value shares its canonical form with all values that differ only in key order and undefined members if and only if the keys of each object are told apart; it never shares it with others |
| Canonical.UnresolvedHasTwoForms | packages/domain/src/index.ts:78 | Where keys are not told apart, a value that means the same and has another form |
| Canonical.CanonicalFormIsIdempotent | packages/domain/src/index.ts:69-86 | Canonicalising twice is canonicalising once |
| Registry.WorkflowRegistry.RunOne | packages/application/src/workflow-registry.ts:67-79 | Offers turns in rotation and stops at the first executor that works |
| Registry.IdleMeansAllIdle | packages/application/src/workflow-registry.ts:67-79 | A call that serves nobody has offered every executor its turn |
| Registry.ServedWithinN | packages/application/src/workflow-registry.ts:67-79 | An executor that stays ready is served within n calls, whatever the others do |

## Left out

- HTTP, gRPC and module wiring, the web client, health probes, authentication, role and SSH-key checks, sessions.
- Telemetry, trace carriers, audit rows, metrics and logging; `stamp` stands for causation, time and trace fields.
- SQL, replication and broker internals: tables are maps, a transaction is one step, delivery is at least once. Row locks are not modelled; a claim of any ready row stands for one that skips locked rows.
- Field-by-field payload validators and command routing: a record is taken to be valid, foreign or undecodable.
- Hashing and random identifiers: content stands for its hash, identifiers are minted fresh.
- Time: a worker's clock is never ahead of the database's when it commits (`MayCommit` in `Orchestrator`).
- Quota.QuotaIsConserved: runs in which no replay is asked for, for the reason shown by `Scenarios.ReplayExceedsQuota`; `Quota.QuotaIsKeptExactly` is about all runs. Acceptance transactions run one at a time and quotas are fixed; the create path reads usage without locking the project.
- Revival.PurgedIsFinal: runs in which no replay is asked for; `Revival.PurgedIsFinalExactly` is about all runs.
- EndToEnd.BusyMarkerIsExact: runs in which no replay is asked for, for the reason shown by `Scenarios.ReplayUnmarksInstance`; `ReplayedMarker.MarkerSurvivesExactly` is about all runs. That run also has two unfinished operations on one instance.
- EndToEnd.ReadModelAgrees: runs in which no replay is asked for; a reopened row is shown as failed until its first commit is projected.
- Platform.RunsAreLinked: the read model an operator picks a dead letter from is not modelled; any letter may be asked for at any time.
- Effects.StepsApplyAtMostOnce: runs whose calls for one step do not overlap, for the reason shown by `Provider.AtMostOnceExactly`.
- Observations.SuccessWasSo: the provider is the deterministic one, whose tasks only succeed; machines do not change by themselves.
- Takeovers.RepeatedCallIsAnswered: operations that were never replayed; a replayed non-create never calls (`RowRuns.ReplayedOperationsOnlyFail`), and for a replayed create the submission is `ReplayedCreates.RepeatedSubmissionIsAnswered`.
- GovernedReplay.RunsAreGoverned: exhausted deliveries are those of issued commands at generation 0; a forged generation that is dead-lettered is not modelled.
- WorkflowStore.WorkflowStore.AdmitAuthorizedReplayCommand: relies on the unique index over replay requests, which `GovernedReplay.AuthorizationIsUnique` shows every run respects.
- Provider: evidence ids, call records and network settings; `Provider.Execute` dispatches snapshot mutations on their data.
- ControlTables: observed-state columns, drift, hostnames, images' other fields, retention policy editing, the checks of `requestDeadLetterReplay` on dead-letter documents, and the dead-letter and snapshot read documents.
- ProjectionStore.ProjectionStore.ApplyReplayResolved: settles the request row; the dead-letter document it also rewrites is not modelled.
- Vmid: JSON text is a printer and a parser that invert each other; the seed of the probe is a parameter.
- PageCursor: timestamps are milliseconds, the precision a cursor carries; lists ordered by an ascending slug are the mirror image.
- Canonical: numbers are integers, and JSON text is not modelled beyond the value it denotes.
- Reconciliation sweeps, drift classification, the Proxmox HTTP calls and the Terraform adapter.
