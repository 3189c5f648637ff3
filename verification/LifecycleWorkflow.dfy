/**
 * The worker: claims a row, performs exactly one step of its capability and commits it through the
 * store. Every path is proved to commit the decision of `SagaEngine.Decide`, which the theorems
 * about runs are stated over. The provider's answer, the clock and the jitter are parameters.
 */
module LifecycleWorkflow {
  import opened Prelude
  import opened Stages
  import opened SagaEngine
  import opened WorkflowTables
  import opened Orchestrator
  import opened SagaRuns
  import S = WorkflowStore

  /** What committing a transition under a ticket leaves, and the error it throws. */
  function Outcome(t: Tables, c: Ticket, transition: Transition, now: Time): (Tables, Option<StoreError>) {
    var committed := Commit(t, c.operationId, c.worker, c.token, transition, now);
    (S.Left(t, committed), S.ErrorOf(committed))
  }

  /** The interaction a claimed row makes. */
  function CallFor(c: Ticket): Call
    requires c.row.saga.stage.At?
  {
    CallOf(ActionOf(c.row.command), c.row.saga, c.row.saga.stage.stage)
  }

  /**
   * A step either threw a transport error, having written nothing, such that recovering from that
   * error is the row's decision; or it committed the decision itself.
   */
  ghost predicate Performs(before: Tables, after: Tables, c: Ticket, reply: Reply, at: Time, random: real, now: Time,
                           thrown: Option<TransportError>, error: Option<StoreError>)
    requires c.row.saga.stage.At? && Fits(CallFor(c), reply)
  {
    if thrown.Some? then
      && after == before && error.None?
      && DecisionOf(c, reply, at, random)
         == ProviderErrorOutcome(ActionOf(c.row.command), c.row.saga, c.row.saga.stage.stage, thrown.value, at, random)
    else (after, error) == Outcome(before, c, DecisionOf(c, reply, at, random), now)
  }

  const MISSING_RESOURCE := TransportError(ProtocolError, false)

  class LifecycleWorkflow {
    const store: S.WorkflowStore
    const workerId: nat
    const action: Action

    constructor (store: S.WorkflowStore, workerId: nat, action: Action)
      ensures this.store == store && this.workerId == workerId && this.action == action
    {
      this.store, this.workerId, this.action := store, workerId, action;
    }

    // ----- Commits ---------------------------------------------------------------------------

    /** Commits a stage, carrying the claimed resource forward when the step names none. */
    method Progress(c: Ticket, stage: Stage, resource: Option<nat>, task: TaskUpdate, nextAttemptAt: Option<Time>,
                    retry: Option<Retry>, now: Time) returns (error: Option<StoreError>)
      modifies store
      ensures var carried := if resource.Some? then resource else c.row.saga.resource;
              (store.State(), error)
              == Outcome(old(store.State()), c, Transition.Progress(stage, carried, task, nextAttemptAt, retry), now)
    {
      var carried := if resource.Some? then resource else c.row.saga.resource;
      error := store.Checkpoint(c.operationId, c.worker, c.token,
                                Transition.Progress(stage, carried, task, nextAttemptAt, retry), now);
    }

    method FinishFailure(c: Ticket, failure: Failure, review: bool, now: Time) returns (error: Option<StoreError>)
      modifies store
      ensures (store.State(), error) == Outcome(old(store.State()), c, Stop(review, failure), now)
    {
      error := store.Complete(c.operationId, c.worker, c.token, Stop(review, failure), now);
    }

    method Fail(c: Ticket, code: FailureCode, now: Time) returns (error: Option<StoreError>)
      modifies store
      ensures (store.State(), error) == Outcome(old(store.State()), c, SagaEngine.Fail(code), now)
    {
      error := FinishFailure(c, Failure(Permanent, code), false, now);
    }

    method ManualReview(c: Ticket, code: FailureCode, now: Time) returns (error: Option<StoreError>)
      modifies store
      ensures (store.State(), error) == Outcome(old(store.State()), c, Review(code), now)
    {
      error := FinishFailure(c, Failure(ManualReviewCategory, code), true, now);
    }

    method Finish(c: Ticket, lifecycle: Lifecycle, evidence: Option<Evidence>, now: Time) returns (error: Option<StoreError>)
      modifies store
      ensures (store.State(), error) == Outcome(old(store.State()), c, Succeed(lifecycle, evidence), now)
    {
      error := store.Complete(c.operationId, c.worker, c.token, Succeed(lifecycle, evidence), now);
    }

    // ----- Results ---------------------------------------------------------------------------

    method HandleMutationResult(c: Ticket, result: Option<MutationResult>, polling: Stage, next: Stage, now: Time)
      returns (error: Option<StoreError>)
      modifies store
      ensures (store.State(), error)
              == Outcome(old(store.State()), c, MutationOutcome(c.row.saga, result, polling, next), now)
    {
      if result.None? {
        error := Fail(c, ProviderResultMissing, now);
        return;
      }
      var r := result.value;
      if r.state.ResultUnknown? {
        error := FinishFailure(c, FailureValue(r.failure, ProviderUnknown), true, now);
        return;
      }
      if r.state.ResultRejected? {
        error := FinishFailure(c, FailureValue(r.failure, ProviderRejected), false, now);
        return;
      }
      var resource := PresentReference(r.resource, c.row.saga.resource);
      if resource.None? {
        error := Fail(c, ProviderResourceIdMissing, now);
        return;
      }
      if r.state.ResultAccepted? {
        var task := PresentReference(r.task, None);
        if task.None? {
          error := Fail(c, ProviderTaskReferenceMissing, now);
          return;
        }
        error := Progress(c, polling, resource, SetTask(task.value), None, None, now);
        return;
      }
      if r.state.ResultSucceeded? {
        error := Progress(c, next, resource, KeepTask, None, None, now);
        return;
      }
      error := Fail(c, ProviderResultStateInvalid, now);
    }

    method HandleTaskResult(c: Ticket, state: TaskState, failure: Option<ProviderFailure>, next: Stage, task: nat,
                            at: Time, now: Time) returns (error: Option<StoreError>)
      requires c.row.saga.stage.At?
      modifies store
      ensures (store.State(), error)
              == Outcome(old(store.State()), c,
                         TaskOutcome(c.row.saga, c.row.saga.stage.stage, task, state, failure, next, at), now)
    {
      if state.TaskQueued? || state.TaskRunning? {
        error := Progress(c, c.row.saga.stage.stage, None, SetTask(task), Some(at + TASK_POLL_DELAY_MS), None, now);
        return;
      }
      if state.TaskSucceeded? {
        error := Progress(c, next, None, ClearTask, None, None, now);
        return;
      }
      if state.TaskUnknown? {
        error := FinishFailure(c, Failure(UnknownOutcome, ProviderTaskUnknown), true, now);
        return;
      }
      error := FinishFailure(c, FailureValue(failure, ProviderTaskFailed), false, now);
    }

    // ----- Recovery --------------------------------------------------------------------------

    /** Waits a jittered backoff within the budget, or gives the command up to governed replay. */
    method RetryOrDeadLetter(c: Ticket, transport: TransportError, at: Time, random: real, now: Time)
      returns (error: Option<StoreError>)
      requires c.row.saga.stage.At?
      modifies store
      ensures (store.State(), error)
              == Outcome(old(store.State()), c,
                         SagaEngine.RetryOrDeadLetter(c.row.saga, c.row.saga.stage.stage, transport, at, random), now)
    {
      var startedAt := c.row.saga.retryStartedAt.GetOr(at);
      var attempt := c.row.saga.stageAttempt + 1;
      var remaining := startedAt + RETRY_BUDGET_MS - at;
      if attempt >= MAXIMUM_RETRY_ATTEMPTS || remaining <= 0 {
        error := store.DeadLetterWorkflow(c.operationId, c.worker, c.token,
          Exhaust(attempt, Failure(Transient, WorkflowRetryExhausted), transport.code), now);
        return;
      }
      var delay := BackoffDelay(attempt, random, remaining);
      error := Progress(c, c.row.saga.stage.stage, None, KeepTask, Some(at + delay),
                        Some(Retry(attempt, startedAt, transport.code)), now);
    }

    /** Never retries a mutation whose outcome is unknown. */
    method HandleProviderError(c: Ticket, transport: TransportError, at: Time, random: real, now: Time)
      returns (error: Option<StoreError>)
      requires c.row.saga.stage.At?
      modifies store
      ensures (store.State(), error)
              == Outcome(old(store.State()), c,
                         ProviderErrorOutcome(ActionOf(c.row.command), c.row.saga, c.row.saga.stage.stage, transport, at, random),
                         now)
    {
      if c.row.saga.stage.stage in MutationStages(ActionOf(c.row.command)) && !transport.code.ProtocolError? {
        error := FinishFailure(c, Failure(UnknownOutcome, ProviderTransport(transport.code)), true, now);
        return;
      }
      if transport.retryable {
        error := RetryOrDeadLetter(c, transport, at, random, now);
        return;
      }
      error := Fail(c, ProviderProtocolError, now);
    }

    // ----- Steps that call the provider ------------------------------------------------------

    /** Issues a mutation, once the resource it needs is known. */
    method SubmitMutation(c: Ticket, answer: Call -> Reply, polling: Stage, next: Stage, at: Time, random: real, now: Time)
      returns (thrown: Option<TransportError>, error: Option<StoreError>)
      requires c.row.saga.stage.At? && Fits(CallFor(c), answer(CallFor(c)))
      requires RoleOf(ActionOf(c.row.command), c.row.saga.stage.stage) == Mutating(polling, next)
      modifies store
      ensures Performs(old(store.State()), store.State(), c, answer(CallFor(c)), at, random, now, thrown, error)
    {
      thrown, error := None, None;
      if !c.row.saga.stage.stage.SubmittingCreate? && c.row.saga.resource.None? {
        thrown := Some(MISSING_RESOURCE);
        return;
      }
      var reply := answer(MutationCall);
      if reply.Transport? {
        thrown := Some(reply.error);
        return;
      }
      error := HandleMutationResult(c, reply.result, polling, next, now);
    }

    /** Asks about the task in flight. */
    method PollTask(c: Ticket, answer: Call -> Reply, next: Stage, at: Time, random: real, now: Time)
      returns (thrown: Option<TransportError>, error: Option<StoreError>)
      requires c.row.saga.stage.At? && Fits(CallFor(c), answer(CallFor(c)))
      requires RoleOf(ActionOf(c.row.command), c.row.saga.stage.stage) == Polling(next)
      modifies store
      ensures Performs(old(store.State()), store.State(), c, answer(CallFor(c)), at, random, now, thrown, error)
    {
      thrown, error := None, None;
      if c.row.saga.task.None? {
        error := Fail(c, ProviderTaskReferenceMissing, now);
        return;
      }
      var task := c.row.saga.task.value;
      var reply := answer(TaskCall(task));
      if reply.Transport? {
        thrown := Some(reply.error);
        return;
      }
      error := HandleTaskResult(c, reply.state, reply.failure, next, task, at, now);
    }

    /** The observation a closing or verifying stage makes, or the error it throws. */
    method Observe(c: Ticket, answer: Call -> Reply) returns (thrown: Option<TransportError>, observation: Option<Observation>)
      requires c.row.saga.stage.At? && Fits(CallFor(c), answer(CallFor(c)))
      requires var role := RoleOf(ActionOf(c.row.command), c.row.saga.stage.stage);
               role.Verifying? || (role.Closing? && !IsSnapshotAction(ActionOf(c.row.command)))
      ensures thrown.Some? ==>
                if c.row.saga.resource.None? then thrown.value == MISSING_RESOURCE
                else answer(ObserveCall) == Transport(thrown.value)
      ensures thrown.None? ==> c.row.saga.resource.Some? && answer(ObserveCall) == Observed(observation)
    {
      thrown, observation := None, None;
      if c.row.saga.resource.None? {
        thrown := Some(MISSING_RESOURCE);
        return;
      }
      var reply := answer(ObserveCall);
      if reply.Transport? {
        thrown := Some(reply.error);
        return;
      }
      observation := reply.observation;
    }

    /** Proves that the machine exists, is ours and runs. */
    method ObserveCreate(c: Ticket, answer: Call -> Reply, at: Time, random: real, now: Time)
      returns (thrown: Option<TransportError>, error: Option<StoreError>)
      requires c.row.saga.stage == At(Observing) && c.row.command.data.CreateData? && Fits(CallFor(c), answer(CallFor(c)))
      modifies store
      ensures Performs(old(store.State()), store.State(), c, answer(CallFor(c)), at, random, now, thrown, error)
    {
      var observation;
      error := None;
      thrown, observation := Observe(c, answer);
      if thrown.Some? {
        return;
      }
      if !ProvesOwned(observation) || observation.value.power != PowerRunning {
        error := ManualReview(c, CreateObservationAmbiguous, now);
        return;
      }
      error := Finish(c, Active, Some(Evidence(true, PowerRunning, MeasuredSizing(observation.value.measured), true)), now);
    }

    /** Proves that the owned machine reached the requested power state. */
    method ObservePower(c: Ticket, answer: Call -> Reply, at: Time, random: real, now: Time)
      returns (thrown: Option<TransportError>, error: Option<StoreError>)
      requires c.row.saga.stage == At(ObservingPower) && c.row.command.data.PowerData? && Fits(CallFor(c), answer(CallFor(c)))
      modifies store
      ensures Performs(old(store.State()), store.State(), c, answer(CallFor(c)), at, random, now, thrown, error)
    {
      var observation;
      error := None;
      thrown, observation := Observe(c, answer);
      if thrown.Some? {
        return;
      }
      var expected := ExpectedPower(c.row.command.data.request);
      if !ProvesOwned(observation) {
        error := ManualReview(c, PowerObservationAmbiguous, now);
        return;
      }
      if observation.value.power != expected {
        error := ManualReview(c, PowerStateNotReached, now);
        return;
      }
      error := Finish(c, Active, Some(Evidence(true, expected, None, true)), now);
    }

    /** Accepts a machine that reports no sizing, but not one that reports another sizing. */
    method ObserveResize(c: Ticket, answer: Call -> Reply, at: Time, random: real, now: Time)
      returns (thrown: Option<TransportError>, error: Option<StoreError>)
      requires c.row.saga.stage == At(ObservingResize) && c.row.command.data.ResizeData? && Fits(CallFor(c), answer(CallFor(c)))
      modifies store
      ensures Performs(old(store.State()), store.State(), c, answer(CallFor(c)), at, random, now, thrown, error)
    {
      var observation;
      error := None;
      thrown, observation := Observe(c, answer);
      if thrown.Some? {
        return;
      }
      if !ProvesOwned(observation) {
        error := ManualReview(c, ResizeObservationAmbiguous, now);
        return;
      }
      var measured, target := observation.value.measured, c.row.command.data.target;
      if measured.Some? && measured.value.cpu.Some?
         && (measured.value.cpu.value != target.cpu || measured.value.memory != Some(target.memory)
             || measured.value.disk != Some(target.disk)) {
        error := ManualReview(c, ResizeNotApplied, now);
        return;
      }
      error := Finish(c, Active, Some(Evidence(true, PowerUnknown, MeasuredSizing(measured), true)), now);
    }

    /** Checks the provider's listing; a rollback leaves it as it was and is not checked. */
    method ObserveSnapshot(c: Ticket, answer: Call -> Reply, at: Time, random: real, now: Time)
      returns (thrown: Option<TransportError>, error: Option<StoreError>)
      requires c.row.saga.stage == At(ObservingSnapshot) && IsSnapshotAction(ActionOf(c.row.command))
      requires Fits(CallFor(c), answer(CallFor(c)))
      modifies store
      ensures Performs(old(store.State()), store.State(), c, answer(CallFor(c)), at, random, now, thrown, error)
    {
      thrown, error := None, None;
      if c.row.saga.resource.None? {
        thrown := Some(MISSING_RESOURCE);
        return;
      }
      var reply := answer(ListCall);
      if reply.Transport? {
        thrown := Some(reply.error);
        return;
      }
      if !c.row.command.data.SnapshotRollbackData? {
        var present := c.row.command.data.name in reply.names;
        if present != c.row.command.data.SnapshotCreateData? {
          error := ManualReview(c, SnapshotStateNotReached, now);
          return;
        }
      }
      error := Finish(c, Active, None, now);
    }

    /** The machine must still exist and be ours; its power state is only recorded. */
    method ObserveRetention(c: Ticket, answer: Call -> Reply, at: Time, random: real, now: Time)
      returns (thrown: Option<TransportError>, error: Option<StoreError>)
      requires c.row.saga.stage == At(ObservingRetention) && c.row.command.data.RetentionData?
      requires Fits(CallFor(c), answer(CallFor(c)))
      modifies store
      ensures Performs(old(store.State()), store.State(), c, answer(CallFor(c)), at, random, now, thrown, error)
    {
      var observation;
      error := None;
      thrown, observation := Observe(c, answer);
      if thrown.Some? {
        return;
      }
      if !ProvesOwned(observation) {
        error := ManualReview(c, RetentionObservationAmbiguous, now);
        return;
      }
      var power := observation.value.power;
      var recorded := if power.PowerStopped? || power.PowerRunning? then power else PowerUnknown;
      error := Finish(c, Retained, Some(Evidence(true, recorded, None, true)), now);
    }

    /** Refuses to destroy what is not provably ours; absence is already the goal. */
    method VerifyOwnership(c: Ticket, answer: Call -> Reply, at: Time, random: real, now: Time)
      returns (thrown: Option<TransportError>, error: Option<StoreError>)
      requires c.row.saga.stage == At(VerifyingPurge) && c.row.command.data.PurgeData? && Fits(CallFor(c), answer(CallFor(c)))
      modifies store
      ensures Performs(old(store.State()), store.State(), c, answer(CallFor(c)), at, random, now, thrown, error)
    {
      var observation;
      error := None;
      thrown, observation := Observe(c, answer);
      if thrown.Some? {
        return;
      }
      if !ReportsPresent(observation) {
        error := Finish(c, Purged, Some(Evidence(false, PowerUnknown, None, false)), now);
        return;
      }
      if !ProvesOwned(observation) {
        error := ManualReview(c, PurgeOwnershipNotProven, now);
        return;
      }
      error := Progress(c, SubmittingPurge, None, KeepTask, None, None, now);
    }

    /** Only a failed lookup proves that the machine is gone. */
    method ObserveAbsence(c: Ticket, answer: Call -> Reply, at: Time, random: real, now: Time)
      returns (thrown: Option<TransportError>, error: Option<StoreError>)
      requires c.row.saga.stage == At(ObservingPurge) && c.row.command.data.PurgeData? && Fits(CallFor(c), answer(CallFor(c)))
      modifies store
      ensures Performs(old(store.State()), store.State(), c, answer(CallFor(c)), at, random, now, thrown, error)
    {
      var observation;
      error := None;
      thrown, observation := Observe(c, answer);
      if thrown.Some? {
        return;
      }
      if ReportsPresent(observation) {
        error := ManualReview(c, PurgeNotConfirmed, now);
        return;
      }
      error := Finish(c, Purged, Some(Evidence(false, PowerUnknown, None, false)), now);
    }

    // ----- The capabilities' transition tables -----------------------------------------------

    /** The first step of every capability makes no call. */
    method StartSaga(c: Ticket, answer: Call -> Reply, first: Stage, at: Time, random: real, now: Time)
      returns (thrown: Option<TransportError>, error: Option<StoreError>)
      requires c.row.saga.stage.At? && Fits(CallFor(c), answer(CallFor(c)))
      requires RoleOf(ActionOf(c.row.command), c.row.saga.stage.stage) == Start(first)
      modifies store
      ensures Performs(old(store.State()), store.State(), c, answer(CallFor(c)), at, random, now, thrown, error)
    {
      thrown := None;
      error := Progress(c, first, None, KeepTask, None, None, now);
    }

    /** A stage the capability does not handle fails its workflow. */
    method RejectStage(c: Ticket, answer: Call -> Reply, at: Time, random: real, now: Time)
      returns (thrown: Option<TransportError>, error: Option<StoreError>)
      requires c.row.saga.stage.At? && Fits(CallFor(c), answer(CallFor(c)))
      requires RoleOf(ActionOf(c.row.command), c.row.saga.stage.stage).Foreign?
      modifies store
      ensures Performs(old(store.State()), store.State(), c, answer(CallFor(c)), at, random, now, thrown, error)
    {
      thrown := None;
      error := Fail(c, WorkflowStageInvalid, now);
    }

    method ExecuteCreate(c: Ticket, answer: Call -> Reply, at: Time, random: real, now: Time)
      returns (thrown: Option<TransportError>, error: Option<StoreError>)
      requires c.row.saga.stage.At? && c.row.command.data.CreateData? && Fits(CallFor(c), answer(CallFor(c)))
      modifies store
      ensures Performs(old(store.State()), store.State(), c, answer(CallFor(c)), at, random, now, thrown, error)
    {
      match c.row.saga.stage.stage {
        case Accepted => thrown, error := StartSaga(c, answer, SubmittingCreate, at, random, now);
        case SubmittingCreate => thrown, error := SubmitMutation(c, answer, PollingCreate, Configuring, at, random, now);
        case PollingCreate => thrown, error := PollTask(c, answer, Configuring, at, random, now);
        case Configuring => thrown, error := SubmitMutation(c, answer, PollingConfiguration, Starting, at, random, now);
        case PollingConfiguration => thrown, error := PollTask(c, answer, Starting, at, random, now);
        case Starting => thrown, error := SubmitMutation(c, answer, PollingStart, Observing, at, random, now);
        case PollingStart => thrown, error := PollTask(c, answer, Observing, at, random, now);
        case Observing => thrown, error := ObserveCreate(c, answer, at, random, now);
        case _ => thrown, error := RejectStage(c, answer, at, random, now);
      }
    }

    method ExecutePower(c: Ticket, answer: Call -> Reply, at: Time, random: real, now: Time)
      returns (thrown: Option<TransportError>, error: Option<StoreError>)
      requires c.row.saga.stage.At? && c.row.command.data.PowerData? && Fits(CallFor(c), answer(CallFor(c)))
      modifies store
      ensures Performs(old(store.State()), store.State(), c, answer(CallFor(c)), at, random, now, thrown, error)
    {
      match c.row.saga.stage.stage {
        case Accepted => thrown, error := StartSaga(c, answer, SubmittingPower, at, random, now);
        case SubmittingPower => thrown, error := SubmitMutation(c, answer, PollingPower, ObservingPower, at, random, now);
        case PollingPower => thrown, error := PollTask(c, answer, ObservingPower, at, random, now);
        case ObservingPower => thrown, error := ObservePower(c, answer, at, random, now);
        case _ => thrown, error := RejectStage(c, answer, at, random, now);
      }
    }

    method ExecuteResize(c: Ticket, answer: Call -> Reply, at: Time, random: real, now: Time)
      returns (thrown: Option<TransportError>, error: Option<StoreError>)
      requires c.row.saga.stage.At? && c.row.command.data.ResizeData? && Fits(CallFor(c), answer(CallFor(c)))
      modifies store
      ensures Performs(old(store.State()), store.State(), c, answer(CallFor(c)), at, random, now, thrown, error)
    {
      match c.row.saga.stage.stage {
        case Accepted => thrown, error := StartSaga(c, answer, SubmittingResize, at, random, now);
        case SubmittingResize => thrown, error := SubmitMutation(c, answer, PollingResize, ObservingResize, at, random, now);
        case PollingResize => thrown, error := PollTask(c, answer, ObservingResize, at, random, now);
        case ObservingResize => thrown, error := ObserveResize(c, answer, at, random, now);
        case _ => thrown, error := RejectStage(c, answer, at, random, now);
      }
    }

    method ExecuteSnapshot(c: Ticket, answer: Call -> Reply, at: Time, random: real, now: Time)
      returns (thrown: Option<TransportError>, error: Option<StoreError>)
      requires c.row.saga.stage.At? && IsSnapshotAction(ActionOf(c.row.command)) && Fits(CallFor(c), answer(CallFor(c)))
      modifies store
      ensures Performs(old(store.State()), store.State(), c, answer(CallFor(c)), at, random, now, thrown, error)
    {
      match c.row.saga.stage.stage {
        case Accepted => thrown, error := StartSaga(c, answer, SubmittingSnapshot, at, random, now);
        case SubmittingSnapshot =>
          thrown, error := SubmitMutation(c, answer, PollingSnapshot, ObservingSnapshot, at, random, now);
        case PollingSnapshot => thrown, error := PollTask(c, answer, ObservingSnapshot, at, random, now);
        case ObservingSnapshot => thrown, error := ObserveSnapshot(c, answer, at, random, now);
        case _ => thrown, error := RejectStage(c, answer, at, random, now);
      }
    }

    method ExecuteRetention(c: Ticket, answer: Call -> Reply, at: Time, random: real, now: Time)
      returns (thrown: Option<TransportError>, error: Option<StoreError>)
      requires c.row.saga.stage.At? && c.row.command.data.RetentionData? && Fits(CallFor(c), answer(CallFor(c)))
      modifies store
      ensures Performs(old(store.State()), store.State(), c, answer(CallFor(c)), at, random, now, thrown, error)
    {
      match c.row.saga.stage.stage {
        case Accepted => thrown, error := StartSaga(c, answer, SubmittingRetention, at, random, now);
        case SubmittingRetention =>
          thrown, error := SubmitMutation(c, answer, PollingRetention, ObservingRetention, at, random, now);
        case PollingRetention => thrown, error := PollTask(c, answer, ObservingRetention, at, random, now);
        case ObservingRetention => thrown, error := ObserveRetention(c, answer, at, random, now);
        case _ => thrown, error := RejectStage(c, answer, at, random, now);
      }
    }

    method ExecutePurge(c: Ticket, answer: Call -> Reply, at: Time, random: real, now: Time)
      returns (thrown: Option<TransportError>, error: Option<StoreError>)
      requires c.row.saga.stage.At? && c.row.command.data.PurgeData? && Fits(CallFor(c), answer(CallFor(c)))
      modifies store
      ensures Performs(old(store.State()), store.State(), c, answer(CallFor(c)), at, random, now, thrown, error)
    {
      match c.row.saga.stage.stage {
        case Accepted => thrown, error := StartSaga(c, answer, VerifyingPurge, at, random, now);
        case VerifyingPurge => thrown, error := VerifyOwnership(c, answer, at, random, now);
        case SubmittingPurge => thrown, error := SubmitMutation(c, answer, PollingPurge, ObservingPurge, at, random, now);
        case PollingPurge => thrown, error := PollTask(c, answer, ObservingPurge, at, random, now);
        case ObservingPurge => thrown, error := ObserveAbsence(c, answer, at, random, now);
        case _ => thrown, error := RejectStage(c, answer, at, random, now);
      }
    }

    method Execute(c: Ticket, answer: Call -> Reply, at: Time, random: real, now: Time)
      returns (thrown: Option<TransportError>, error: Option<StoreError>)
      requires c.row.saga.stage.At? && Fits(CallFor(c), answer(CallFor(c)))
      modifies store
      ensures Performs(old(store.State()), store.State(), c, answer(CallFor(c)), at, random, now, thrown, error)
    {
      match c.row.command.data {
        case CreateData(_) => thrown, error := ExecuteCreate(c, answer, at, random, now);
        case PowerData(_) => thrown, error := ExecutePower(c, answer, at, random, now);
        case ResizeData(_) => thrown, error := ExecuteResize(c, answer, at, random, now);
        case RetentionData(_) => thrown, error := ExecuteRetention(c, answer, at, random, now);
        case PurgeData(_) => thrown, error := ExecutePurge(c, answer, at, random, now);
        case _ => thrown, error := ExecuteSnapshot(c, answer, at, random, now);
      }
    }

    // ----- One turn --------------------------------------------------------------------------

    /** Executes a claimed row and recovers from a transport error it throws. */
    method Advance(c: Ticket, answer: Call -> Reply, at: Time, random: real, now: Time) returns (error: Option<StoreError>)
      requires c.row.saga.stage.At? && Fits(CallFor(c), answer(CallFor(c)))
      modifies store
      ensures (store.State(), error) == Outcome(old(store.State()), c, DecisionOf(c, answer(CallFor(c)), at, random), now)
    {
      var thrown;
      thrown, error := Execute(c, answer, at, random, now);
      if thrown.Some? {
        error := HandleProviderError(c, thrown.value, at, random, now);
      }
    }

    /**
     * One turn of the worker: claims the first ready row of its action, if there is one, and
     * commits the decision taken on it, at a later time. `ticket` is the claim that was made.
     */
    method RunOne(leaseMs: Time, answer: Call -> Reply, claimedAt: Time, at: Time, random: real, now: Time)
      returns (ran: Result<bool, StoreError>, ticket: Option<Ticket>)
      requires forall call :: Fits(call, answer(call))
      modifies store
      ensures ticket.None? ==> store.State() == old(store.State())
      ensures ran == Ok(false) ==> ticket.None? && forall op :: !Ready(old(store.State()), op, workerId, action, claimedAt)
      ensures ticket.Some? ==>
                var op := ticket.value.operationId;
                && FirstReady(old(store.State()), op, workerId, action, claimedAt)
                && var claimed := Claim(old(store.State()), op, workerId, leaseMs, claimedAt);
                   && claimed.Ok? && op in claimed.value.workflows
                   && ticket.value == TicketFor(claimed.value, op, workerId)
                   && var (left, error) := Outcome(claimed.value, ticket.value,
                        if ticket.value.row.saga.stage.At?
                        then DecisionOf(ticket.value, answer(CallFor(ticket.value)), at, random)
                        else SagaEngine.Fail(WorkflowStageInvalid), now);
                      store.State() == left && ran == (if error.None? then Ok(true) else Err(error.value))
    {
      ticket := None;
      var claimed := store.ClaimNext(workerId, leaseMs, action, claimedAt);
      if claimed.Err? {
        ran := Err(claimed.error);
        return;
      }
      if claimed.value.None? {
        ran := Ok(false);
        return;
      }
      var (op, row) := claimed.value.value;
      var c := Ticket(op, workerId, row.token, row);
      ticket := Some(c);
      var error;
      if row.saga.stage.At? {
        error := Advance(c, answer, at, random, now);
      } else {
        error := Fail(c, WorkflowStageInvalid, now);
      }
      ran := if error.None? then Ok(true) else Err(error.value);
    }
  }

  /**
   * A turn of the worker is a claim, time passing, and a commit of the orchestrator: what is proved
   * about every interleaving of those steps holds of every interleaving of turns.
   */
  lemma TurnIsThreeSteps(s: Orc, op: nat, worker: nat, leaseMs: Time, answer: Call -> Reply, at: Time, random: real, now: Time)
    requires op in s.tables.workflows && op in s.histories
    requires FirstReady(s.tables, op, worker, s.tables.workflows[op].action, s.now)
    requires MINIMUM_LEASE_MS <= leaseMs <= MAXIMUM_LEASE_MS && s.now <= now && at <= now && 0.0 <= random < 1.0
    requires Claim(s.tables, op, worker, leaseMs, s.now).Ok? && s.tables.workflows[op].saga.stage.At?
    requires forall call :: Fits(call, answer(call)) && Admissible(answer(call))
    ensures var claimed := Claim(s.tables, op, worker, leaseMs, s.now).value;
            var c := TicketFor(claimed, op, worker);
            var afterClaim := Step(s, WorkerClaims(op, worker, leaseMs));
            var later := Step(afterClaim, Tick(now));
            && afterClaim.tables == claimed && c in later.tickets
            && c.row.saga.stage.At? && Fits(CallFor(c), answer(CallFor(c)))
            && Step(later, WorkerCommits(c, answer(CallFor(c)), at, random)).tables
               == Outcome(claimed, c, DecisionOf(c, answer(CallFor(c)), at, random), now).0
  {
    var claimed := Claim(s.tables, op, worker, leaseMs, s.now).value;
    var c := TicketFor(claimed, op, worker);
    var later := Step(Step(s, WorkerClaims(op, worker, leaseMs)), Tick(now));
    assert c in later.tickets;
    assert MayCommit(later, c, answer(CallFor(c)), at, random);
  }
}
