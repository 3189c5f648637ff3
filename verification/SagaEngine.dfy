/**
 * The reusable half of a lifecycle saga: given a claimed row and what the provider answered,
 * which state change the worker commits. Nothing here writes; `WorkflowTables` commits.
 */
module SagaEngine {
  import opened Prelude
  import opened Stages

  /** Milliseconds. */
  type Time = int

  const TASK_POLL_DELAY_MS: Time := 500
  const MAXIMUM_RETRY_ATTEMPTS: nat := 8
  const RETRY_BUDGET_MS: Time := 900_000
  const RETRY_BACKOFF_BASE_MS: Time := 500
  const RETRY_BACKOFF_CEILING_MS: Time := 30_000

  // ----- The accepted command ---------------------------------------------------------------

  datatype Sizing = Sizing(cpu: nat, memory: nat, disk: nat)

  datatype PowerRequest = StartPower | ShutdownPower | StopPower | RebootPower

  datatype CommandData =
    | CreateData(sizing: Sizing)
    | PowerData(request: PowerRequest)
    | ResizeData(target: Sizing)
    | SnapshotCreateData(snapshotId: nat, name: nat)
    | SnapshotRollbackData(snapshotId: nat, name: nat)
    | SnapshotDeleteData(snapshotId: nat, name: nat)
    | RetentionData(deadline: Time)
    | PurgeData(deadline: Time)

  /**
   * A lifecycle command. A governed replay rewrites its attribution and keeps everything else:
   * `correlation` is the correlation id, `stamp` stands for the causation, time and trace fields.
   */
  datatype Command = Command(
    operationId: nat,
    eventId: nat,
    instanceId: nat,
    projectId: nat,
    createOperationId: nat,
    data: CommandData,
    correlation: nat,
    stamp: nat)

  /** The capability a command's schema names. */
  function ActionOf(command: Command): Action {
    match command.data
    case CreateData(_) => CreateInstance
    case PowerData(_) => PowerInstance
    case ResizeData(_) => ResizeInstance
    case SnapshotCreateData(_, _) => CreateSnapshot
    case SnapshotRollbackData(_, _) => RollbackSnapshot
    case SnapshotDeleteData(_, _) => DeleteSnapshot
    case RetentionData(_) => RetainInstance
    case PurgeData(_) => PurgeInstance
  }

  // ----- What a provider may answer ----------------------------------------------------------

  /** A string field of a reply that may be empty; the source tests it for truthiness. */
  datatype Reference = Blank | Ref(id: nat)

  /** The provider's failure vocabulary. */
  datatype ProviderCategory =
    | ProviderValidation | ProviderQuota | ProviderAuthentication | ProviderAuthorization
    | ProviderConflict | ProviderTransient | ProviderUnknownOutcome | ProviderCompensation
    | ProviderManualReview | ProviderNotFound | ProviderOther

  /** The event contract's failure vocabulary. */
  datatype Category =
    | Validation | Authorization | Conflict | Transient | UnknownOutcome
    | CompensationFailure | ManualReviewCategory | Permanent

  datatype TransportCode = Unavailable | DeadlineExceeded | Aborted | ProtocolError

  datatype FailureCode =
    | ProviderTaskReferenceMissing | ProviderResultMissing | ProviderUnknown | ProviderRejected
    | ProviderResourceIdMissing | ProviderResultStateInvalid | ProviderTaskUnknown
    | ProviderTaskFailed | ProviderTransport(code: TransportCode) | ProviderProtocolError
    | WorkflowRetryExhausted | WorkflowStageInvalid | CreateObservationAmbiguous
    | PowerObservationAmbiguous | PowerStateNotReached | ResizeObservationAmbiguous
    | ResizeNotApplied | SnapshotStateNotReached | RetentionObservationAmbiguous
    | PurgeOwnershipNotProven | PurgeNotConfirmed | SuppliedByProvider(id: nat)

  datatype Failure = Failure(category: Category, code: FailureCode)

  datatype ProviderFailure = ProviderFailure(category: ProviderCategory, code: Option<nat>)

  datatype ResultState = ResultAccepted | ResultSucceeded | ResultRejected | ResultUnknown | ResultOther

  datatype MutationResult = MutationResult(
    state: ResultState,
    resource: Option<Reference>,
    task: Option<Reference>,
    failure: Option<ProviderFailure>)

  datatype TaskState = TaskQueued | TaskRunning | TaskSucceeded | TaskUnknown | TaskFailed | TaskOther

  datatype PowerState = PowerUnknown | PowerRunning | PowerStopped | PowerSuspended

  datatype Ownership = Ownership(complete: bool, matches: bool)

  /** Sizing a provider may or may not have measured. */
  datatype Measured = Measured(cpu: Option<nat>, memory: Option<nat>, disk: Option<nat>)

  datatype Observation = Observation(
    present: bool,
    ownership: Option<Ownership>,
    power: PowerState,
    measured: Option<Measured>)

  datatype TransportError = TransportError(code: TransportCode, retryable: bool)

  /** The error constructor's default, which the gRPC client also applies. */
  function TransportErrorOf(code: TransportCode): TransportError {
    TransportError(code, !code.ProtocolError?)
  }

  /** One provider interaction as the worker sees it. */
  datatype Reply =
    | NoReply
    | Transport(error: TransportError)
    | Mutation(result: Option<MutationResult>)
    | Task(state: TaskState, failure: Option<ProviderFailure>)
    | Observed(observation: Option<Observation>)
    | Listed(names: set<nat>)

  // ----- The claimed row ---------------------------------------------------------------------

  datatype Status = Running | RetryWait | Succeeded | Failed | ManualReview

  /** The columns of a workflow row that its own transitions read and write. */
  datatype Saga = Saga(
    status: Status,
    stage: PersistedStage,
    resource: Option<nat>,
    task: Option<nat>,
    stageAttempt: nat,
    retryStartedAt: Option<Time>,
    nextAttemptAt: Time)

  predicate IsLive(status: Status) {
    status.Running? || status.RetryWait?
  }

  /** A row as admission writes it. */
  function FreshSaga(resource: Option<nat>, now: Time): Saga {
    Saga(Running, At(Accepted), resource, None, 0, None, now)
  }

  /** Claiming a row marks it running and leaves its position alone. */
  function ClaimedSaga(saga: Saga): Saga {
    saga.(status := Running)
  }

  // ----- What a worker commits ---------------------------------------------------------------

  datatype Lifecycle = Pending | Provisioning | Active | Deleting | Retained | PurgePending | Purged
                     | LifecycleFailed | LifecycleReview

  datatype Retry = Retry(attempt: nat, startedAt: Time, errorCode: TransportCode)

  datatype TaskUpdate = KeepTask | ClearTask | SetTask(task: nat)

  /** The observed block of a completion event; `sizing` is absent when nothing was measured. */
  datatype Evidence = Evidence(present: bool, power: PowerState, sizing: Option<Sizing>, markerMatch: bool)

  datatype Transition =
    | Progress(stage: Stage, resource: Option<nat>, task: TaskUpdate, nextAttemptAt: Option<Time>,
        retry: Option<Retry>)
    | Succeed(lifecycle: Lifecycle, evidence: Option<Evidence>)
    | Stop(review: bool, failure: Failure)
    | Exhaust(attempts: nat, failure: Failure, lastError: TransportCode)

  /** The row after the transition commits at `now`. */
  function Applied(saga: Saga, transition: Transition, now: Time): Saga {
    match transition
    case Progress(stage, resource, task, nextAttemptAt, retry) =>
      Saga(
        if nextAttemptAt.Some? then RetryWait else Running,
        At(stage),
        if resource.Some? then resource else saga.resource,
        match task case KeepTask => saga.task case ClearTask => None case SetTask(t) => Some(t),
        if retry.Some? then retry.value.attempt else 0,
        if retry.Some? then Some(retry.value.startedAt) else None,
        nextAttemptAt.GetOr(now))
    case Succeed(_, _) =>
      saga.(status := Succeeded, stage := Completed, nextAttemptAt := now)
    case Stop(review, _) =>
      saga.(status := if review then ManualReview else Failed,
            stage := if review then EndedInReview else EndedFailed,
            nextAttemptAt := now)
    case Exhaust(attempts, _, _) =>
      saga.(status := Failed, stage := EndedFailed, stageAttempt := attempts, nextAttemptAt := now)
  }

  // ----- Decisions ---------------------------------------------------------------------------

  function CategoryOf(category: Option<ProviderCategory>): Category {
    match category
    case Some(ProviderValidation) => Validation
    case Some(ProviderQuota) => Validation
    case Some(ProviderAuthentication) => Authorization
    case Some(ProviderAuthorization) => Authorization
    case Some(ProviderConflict) => Conflict
    case Some(ProviderTransient) => Transient
    case Some(ProviderUnknownOutcome) => UnknownOutcome
    case Some(ProviderCompensation) => CompensationFailure
    case Some(ProviderManualReview) => ManualReviewCategory
    case _ => Permanent
  }

  function FailureValue(failure: Option<ProviderFailure>, defaultCode: FailureCode): Failure {
    match failure
    case None => Failure(CategoryOf(None), defaultCode)
    case Some(ProviderFailure(category, code)) =>
      Failure(CategoryOf(Some(category)), if code.Some? then SuppliedByProvider(code.value) else defaultCode)
  }

  function Fail(code: FailureCode): Transition {
    Stop(false, Failure(Permanent, code))
  }

  function Review(code: FailureCode): Transition {
    Stop(true, Failure(ManualReviewCategory, code))
  }

  /** A commit to `stage` that carries the claimed resource forward when it names none. */
  function Advance(saga: Saga, stage: Stage, resource: Option<nat>, task: TaskUpdate): Transition {
    Progress(stage, if resource.Some? then resource else saga.resource, task, None, None)
  }

  /** `value ?? fallback`, then the truthiness test: the empty string is no identifier. */
  function PresentReference(value: Option<Reference>, fallback: Option<nat>): Option<nat> {
    match value
    case None => fallback
    case Some(Blank) => None
    case Some(Ref(id)) => Some(id)
  }

  function MutationOutcome(saga: Saga, result: Option<MutationResult>, polling: Stage, next: Stage): Transition {
    if result.None? then Fail(ProviderResultMissing)
    else if result.value.state.ResultUnknown? then Stop(true, FailureValue(result.value.failure, ProviderUnknown))
    else if result.value.state.ResultRejected? then Stop(false, FailureValue(result.value.failure, ProviderRejected))
    else
      var resource := PresentReference(result.value.resource, saga.resource);
      var task := PresentReference(result.value.task, None);
      if resource.None? then Fail(ProviderResourceIdMissing)
      else if result.value.state.ResultAccepted? then
        if task.None? then Fail(ProviderTaskReferenceMissing)
        else Advance(saga, polling, resource, SetTask(task.value))
      else if result.value.state.ResultSucceeded? then Advance(saga, next, resource, KeepTask)
      else Fail(ProviderResultStateInvalid)
  }

  function TaskOutcome(saga: Saga, stage: Stage, task: nat, state: TaskState, failure: Option<ProviderFailure>,
                       next: Stage, at: Time): Transition {
    match state
    case TaskQueued => Progress(stage, saga.resource, SetTask(task), Some(at + TASK_POLL_DELAY_MS), None)
    case TaskRunning => Progress(stage, saga.resource, SetTask(task), Some(at + TASK_POLL_DELAY_MS), None)
    case TaskSucceeded => Advance(saga, next, None, ClearTask)
    case TaskUnknown => Stop(true, Failure(UnknownOutcome, ProviderTaskUnknown))
    case _ => Stop(false, FailureValue(failure, ProviderTaskFailed))
  }

  /** The ceiling of the backoff before the given attempt is repeated. */
  function BackoffCeiling(attempt: nat): Time
    requires 1 <= attempt
  {
    Min(RETRY_BACKOFF_CEILING_MS, RETRY_BACKOFF_BASE_MS * PowerOfTwo(attempt - 1))
  }

  function PowerOfTwo(n: nat): nat {
    if n == 0 then 1 else 2 * PowerOfTwo(n - 1)
  }

  /** Full jitter: a random fraction of the ceiling, cut off at the end of the retry budget. */
  function BackoffDelay(attempt: nat, random: real, remaining: Time): Time
    requires 1 <= attempt
  {
    Min((random * (BackoffCeiling(attempt) as real)).Floor, remaining)
  }

  function RetryOrDeadLetter(saga: Saga, stage: Stage, error: TransportError, at: Time, random: real): Transition {
    var startedAt := saga.retryStartedAt.GetOr(at);
    var attempt := saga.stageAttempt + 1;
    var remaining := startedAt + RETRY_BUDGET_MS - at;
    if attempt >= MAXIMUM_RETRY_ATTEMPTS || remaining <= 0 then
      Exhaust(attempt, Failure(Transient, WorkflowRetryExhausted), error.code)
    else
      Progress(stage, saga.resource, KeepTask, Some(at + BackoffDelay(attempt, random, remaining)),
        Some(Retry(attempt, startedAt, error.code)))
  }

  function ProviderErrorOutcome(action: Action, saga: Saga, stage: Stage, error: TransportError, at: Time, random: real)
    : Transition
  {
    if stage in MutationStages(action) && !error.code.ProtocolError? then
      Stop(true, Failure(UnknownOutcome, ProviderTransport(error.code)))
    else if error.retryable then RetryOrDeadLetter(saga, stage, error, at, random)
    else Fail(ProviderProtocolError)
  }

  predicate ProvesOwned(observation: Option<Observation>) {
    observation.Some? && observation.value.present && observation.value.ownership.Some?
    && observation.value.ownership.value.complete && observation.value.ownership.value.matches
  }

  predicate ReportsPresent(observation: Option<Observation>) {
    observation.Some? && observation.value.present
  }

  function ExpectedPower(request: PowerRequest): PowerState {
    if request.StartPower? || request.RebootPower? then PowerRunning else PowerStopped
  }

  predicate SizingDisagrees(measured: Option<Measured>, target: Sizing) {
    measured.Some? && measured.value.cpu.Some?
    && (measured.value.cpu.value != target.cpu
        || measured.value.memory != Some(target.memory)
        || measured.value.disk != Some(target.disk))
  }

  function MeasuredSizing(measured: Option<Measured>): Option<Sizing> {
    if measured.Some? && measured.value.cpu.Some? && measured.value.memory.Some? && measured.value.disk.Some?
    then Some(Sizing(measured.value.cpu.value, measured.value.memory.value, measured.value.disk.value))
    else None
  }

  /** The last stage of each capability: prove the result by looking at the provider. */
  function ClosingOutcome(command: Command, reply: Reply): Transition
    requires ActionOf(command) in {CreateInstance, PowerInstance, ResizeInstance, RetainInstance, PurgeInstance}
      ==> reply.Observed?
    requires IsSnapshotAction(ActionOf(command)) ==> reply.Listed?
  {
    match command.data
    case CreateData(_) =>
      if ProvesOwned(reply.observation) && reply.observation.value.power.PowerRunning? then
        Succeed(Active, Some(Evidence(true, PowerRunning, MeasuredSizing(reply.observation.value.measured), true)))
      else Review(CreateObservationAmbiguous)
    case PowerData(request) =>
      if !ProvesOwned(reply.observation) then Review(PowerObservationAmbiguous)
      else if reply.observation.value.power != ExpectedPower(request) then Review(PowerStateNotReached)
      else Succeed(Active, Some(Evidence(true, ExpectedPower(request), None, true)))
    case ResizeData(target) =>
      if !ProvesOwned(reply.observation) then Review(ResizeObservationAmbiguous)
      else if SizingDisagrees(reply.observation.value.measured, target) then Review(ResizeNotApplied)
      else Succeed(Active, Some(Evidence(true, PowerUnknown, MeasuredSizing(reply.observation.value.measured), true)))
    case SnapshotCreateData(_, name) =>
      if name in reply.names then Succeed(Active, None) else Review(SnapshotStateNotReached)
    case SnapshotRollbackData(_, _) => Succeed(Active, None)
    case SnapshotDeleteData(_, name) =>
      if name !in reply.names then Succeed(Active, None) else Review(SnapshotStateNotReached)
    case RetentionData(_) =>
      if ProvesOwned(reply.observation) then
        var power := reply.observation.value.power;
        Succeed(Retained, Some(Evidence(true, if power.PowerSuspended? then PowerUnknown else power, None, true)))
      else Review(RetentionObservationAmbiguous)
    case PurgeData(_) =>
      if ReportsPresent(reply.observation) then Review(PurgeNotConfirmed) else PurgeCompleted()
  }

  function PurgeCompleted(): Transition {
    Succeed(Purged, Some(Evidence(false, PowerUnknown, None, false)))
  }

  function VerifyingOutcome(saga: Saga, observation: Option<Observation>, next: Stage): Transition {
    if !ReportsPresent(observation) then PurgeCompleted()
    else if !ProvesOwned(observation) then Review(PurgeOwnershipNotProven)
    else Advance(saga, next, None, KeepTask)
  }

  // ----- One claim ---------------------------------------------------------------------------

  /** The provider interaction a claim makes before it commits. */
  datatype Call = NoCall | MutationCall | TaskCall(task: nat) | ObserveCall | ListCall

  /** Whether the call names a provider resource the row has not recorded. */
  predicate ResourceMissing(action: Action, saga: Saga, stage: Stage) {
    var role := RoleOf(action, stage);
    saga.resource.None? && !stage.SubmittingCreate? && (role.Mutating? || role.Verifying? || role.Closing?)
  }

  function CallOf(action: Action, saga: Saga, stage: Stage): Call {
    if ResourceMissing(action, saga, stage) then NoCall
    else match RoleOf(action, stage)
      case Start(_) => NoCall
      case Mutating(_, _) => MutationCall
      case Polling(_) => if saga.task.Some? then TaskCall(saga.task.value) else NoCall
      case Verifying(_) => ObserveCall
      case Closing => if IsSnapshotAction(action) then ListCall else ObserveCall
      case Foreign => NoCall
  }

  /** The shapes a call can come back with. Any call can fail in transport. */
  predicate Fits(call: Call, reply: Reply) {
    match call
    case NoCall => reply.NoReply?
    case MutationCall => reply.Mutation? || reply.Transport?
    case TaskCall(_) => reply.Task? || reply.Transport?
    case ObserveCall => reply.Observed? || reply.Transport?
    case ListCall => reply.Listed? || reply.Transport?
  }

  /** What the worker commits for a claimed row, given the provider's reply. */
  function Decide(command: Command, saga: Saga, stage: Stage, reply: Reply, at: Time, random: real): Transition
    requires Fits(CallOf(ActionOf(command), saga, stage), reply)
  {
    var action := ActionOf(command);
    if ResourceMissing(action, saga, stage) then
      ProviderErrorOutcome(action, saga, stage, TransportError(ProtocolError, false), at, random)
    else if reply.Transport? then
      ProviderErrorOutcome(action, saga, stage, reply.error, at, random)
    else match RoleOf(action, stage)
      case Start(first) => Advance(saga, first, None, KeepTask)
      case Mutating(polling, next) => MutationOutcome(saga, reply.result, polling, next)
      case Polling(next) =>
        if saga.task.None? then Fail(ProviderTaskReferenceMissing)
        else TaskOutcome(saga, stage, saga.task.value, reply.state, reply.failure, next, at)
      case Verifying(next) => VerifyingOutcome(saga, reply.observation, next)
      case Closing => ClosingOutcome(command, reply)
      case Foreign => Fail(WorkflowStageInvalid)
  }
}
