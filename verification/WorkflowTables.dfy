/**
 * The orchestrator's tables and what each transaction of the workflow store does to them.
 * One function per transaction; `WorkflowStore` performs the same transactions step by step.
 * A transaction that throws leaves the tables unchanged and is an `Err` here.
 */
module WorkflowTables {
  import opened Prelude
  import opened Stages
  import opened SagaEngine

  const MINIMUM_LEASE_MS: Time := 5_000
  const MAXIMUM_LEASE_MS: Time := 300_000

  datatype Workflow = Workflow(
    eventId: nat,
    instanceId: nat,
    action: Action,
    command: Command,
    generation: nat,
    attempt: nat,
    token: nat,
    createdAt: Time,
    failure: Option<Failure>,
    lastError: Option<TransportCode>,
    saga: Saga)

  datatype Lease = Lease(owner: nat, token: nat, until: Time)

  /** Broker coordinates of one record; the command topic is the only one consumed here. */
  datatype Coordinates = Coordinates(partition: nat, offset: nat)

  datatype Delivery = Delivery(at: Coordinates, generation: nat, outboxId: Option<nat>)

  datatype ReplayRequested = ReplayRequested(
    requestId: nat,
    requestEventId: nat,
    originalEventId: nat,
    operationId: nat,
    instanceId: nat,
    correlation: nat,
    stamp: nat)

  /** Commands and replay requests carry unrelated event ids, so their receipts never collide. */
  datatype ReceiptKey = CommandReceipt(eventId: nat, generation: nat) | RequestReceipt(eventId: nat, generation: nat)

  /** The canonical hash is injective, so the content stands for it. */
  datatype Digest = CommandDigest(command: Command) | RequestDigest(request: ReplayRequested)

  datatype Receipt = Receipt(digest: Digest, at: Coordinates, done: bool)

  datatype DeadLetterStatus = Open | ReplayPending | Replayed

  /** `supported` says whether the retained payload still satisfies its schema's contract. */
  datatype DeadLetter = DeadLetter(
    original: Command,
    supported: bool,
    attempts: nat,
    replayAllowed: bool,
    generation: nat,
    status: DeadLetterStatus)

  /** A decided replay request; an authorization names the one record that may consume it. */
  datatype Decision =
    | Refused
    | Authorized(generation: nat, digest: Command, outboxId: nat)
    | Consumed(generation: nat, digest: Command, outboxId: nat)

  datatype ReplayRow = ReplayRow(request: ReplayRequested, decision: Decision)

  datatype RejectionCode = IdentityConflict | Unauthorized | StateConflict

  datatype PoisonCode = Undecodable | Rejected(code: RejectionCode)

  /** The workflow events, in the order the projection consumes them for one instance. */
  datatype Event =
    | Progressed(operationId: nat, stage: Stage, waiting: bool)
    | MutationCompleted(operationId: nat, lifecycle: Lifecycle, evidence: Option<Evidence>)
    | MutationFailed(operationId: nat, failure: Failure, unsafe: bool)
    | ReplayResolved(operationId: nat, requestId: nat, originalEventId: nat, completed: bool, generation: nat)

  /** A restored command in the outbox; its position is its outbox id. */
  datatype Republished = Republished(command: Command, generation: nat)

  datatype Tables = Tables(
    workflows: map<nat, Workflow>,
    leases: map<nat, Lease>,
    receipts: map<ReceiptKey, Receipt>,
    deadLetters: map<nat, DeadLetter>,
    replays: map<nat, ReplayRow>,
    poison: map<Coordinates, PoisonCode>,
    events: map<nat, seq<Event>>,
    republished: seq<Republished>)

  function EmptyTables(): Tables {
    Tables(map[], map[], map[], map[], map[], map[], map[], [])
  }

  datatype StoreError =
    | InvalidLeaseRequest | StaleToken | LeaseLost | ReceiptMissing | InvalidCommand
    | ConstraintViolated | RowMissing

  datatype Admission = AdmissionAccepted | AdmissionDuplicate | AdmissionRejected(code: RejectionCode)

  datatype ReplayAnswer = ReplayAccepted | ReplayDuplicate | ReplayRejected

  // ----- Shared steps ------------------------------------------------------------------------

  function EventsOf(events: map<nat, seq<Event>>, instanceId: nat): seq<Event> {
    if instanceId in events then events[instanceId] else []
  }

  function Append(events: map<nat, seq<Event>>, instanceId: nat, event: Event): map<nat, seq<Event>> {
    events[instanceId := EventsOf(events, instanceId) + [event]]
  }

  function Quarantined(poison: map<Coordinates, PoisonCode>, at: Coordinates, code: PoisonCode)
    : map<Coordinates, PoisonCode>
  {
    if at in poison then poison else poison[at := code]
  }

  /** Whether another receipt already claims these broker coordinates. */
  ghost predicate CoordinatesTaken(receipts: map<ReceiptKey, Receipt>, key: ReceiptKey, at: Coordinates) {
    exists other :: other in receipts && other != key && receipts[other].at == at
  }

  /** The event that a transition publishes in the transaction that makes it. */
  function EventOf(operationId: nat, transition: Transition): Event {
    match transition
    case Progress(stage, _, _, _, retry) => Progressed(operationId, stage, retry.Some?)
    case Succeed(lifecycle, evidence) => MutationCompleted(operationId, lifecycle, evidence)
    case Stop(review, failure) => MutationFailed(operationId, failure, review)
    case Exhaust(_, failure, _) => MutationFailed(operationId, failure, false)
  }

  // ----- Claiming ----------------------------------------------------------------------------

  predicate LeaseFree(leases: map<nat, Lease>, instanceId: nat, worker: nat, now: Time) {
    instanceId in leases ==> leases[instanceId].until <= now || leases[instanceId].owner == worker
  }

  predicate Ready(t: Tables, operationId: nat, worker: nat, action: Action, now: Time) {
    && operationId in t.workflows
    && t.workflows[operationId].action == action
    && IsLive(t.workflows[operationId].saga.status)
    && t.workflows[operationId].saga.nextAttemptAt <= now
    && LeaseFree(t.leases, t.workflows[operationId].instanceId, worker, now)
  }

  predicate NoLaterThan(w: Workflow, other: Workflow) {
    || w.saga.nextAttemptAt < other.saga.nextAttemptAt
    || (w.saga.nextAttemptAt == other.saga.nextAttemptAt && w.createdAt <= other.createdAt)
  }

  /** The row the claim query returns: ready, and first by due time and then by age. */
  ghost predicate FirstReady(t: Tables, operationId: nat, worker: nat, action: Action, now: Time) {
    && Ready(t, operationId, worker, action, now)
    && forall other | other in t.workflows && Ready(t, other, worker, action, now) ::
         NoLaterThan(t.workflows[operationId], t.workflows[other])
  }

  function NextToken(leases: map<nat, Lease>, instanceId: nat): nat {
    if instanceId in leases then leases[instanceId].token + 1 else 1
  }

  /** Takes the lease under a new token and marks the row as being worked on. */
  function ClaimRow(t: Tables, operationId: nat, worker: nat, leaseMs: Time, now: Time): Tables
    requires operationId in t.workflows
  {
    var w := t.workflows[operationId];
    var token := NextToken(t.leases, w.instanceId);
    t.(leases := t.leases[w.instanceId := Lease(worker, token, now + leaseMs)],
       workflows := t.workflows[operationId :=
         w.(attempt := w.attempt + 1, token := token, saga := ClaimedSaga(w.saga))])
  }

  /**
   * The claim transaction once the query has returned a row: a stored command that does not match
   * the row's action fails the claim before any provider call.
   */
  function Claim(t: Tables, operationId: nat, worker: nat, leaseMs: Time, now: Time): Result<Tables, StoreError>
    requires operationId in t.workflows
  {
    if ActionOf(t.workflows[operationId].command) != t.workflows[operationId].action then Err(InvalidCommand)
    else Ok(ClaimRow(t, operationId, worker, leaseMs, now))
  }

  // ----- Committing --------------------------------------------------------------------------

  /** The fence: current token, own lease, not expired. */
  predicate HoldsLease(t: Tables, operationId: nat, worker: nat, token: nat, now: Time) {
    && operationId in t.workflows
    && t.workflows[operationId].token == token
    && t.workflows[operationId].instanceId in t.leases
    && var lease := t.leases[t.workflows[operationId].instanceId];
       lease.owner == worker && lease.token == token && now < lease.until
  }

  function FenceError(t: Tables, operationId: nat, token: nat): StoreError {
    if operationId !in t.workflows || t.workflows[operationId].token != token then StaleToken else LeaseLost
  }

  function Released(leases: map<nat, Lease>, instanceId: nat, now: Time): map<nat, Lease>
    requires instanceId in leases
  {
    leases[instanceId := leases[instanceId].(until := now)]
  }

  /** The row, its explaining event and the released lease: what every commit writes. */
  function CommitRow(t: Tables, operationId: nat, w: Workflow, event: Event, now: Time): Tables
    requires w.instanceId in t.leases
  {
    t.(workflows := t.workflows[operationId := w],
       events := Append(t.events, w.instanceId, event),
       leases := Released(t.leases, w.instanceId, now))
  }

  function Checkpoint(t: Tables, operationId: nat, worker: nat, token: nat, transition: Transition, now: Time)
    : Result<Tables, StoreError>
    requires transition.Progress?
  {
    if !HoldsLease(t, operationId, worker, token, now) then Err(FenceError(t, operationId, token))
    else
      var w := t.workflows[operationId];
      var lastError := if transition.retry.Some? then Some(transition.retry.value.errorCode) else None;
      Ok(CommitRow(t, operationId, w.(saga := Applied(w.saga, transition, now), lastError := lastError),
                   EventOf(operationId, transition), now))
  }

  /** Ending a workflow also marks the receipt it was admitted under as done. */
  function Settled(t: Tables, w: Workflow): map<ReceiptKey, Receipt>
    requires CommandReceipt(w.eventId, w.generation) in t.receipts
  {
    var key := CommandReceipt(w.eventId, w.generation);
    t.receipts[key := t.receipts[key].(done := true)]
  }

  function Complete(t: Tables, operationId: nat, worker: nat, token: nat, transition: Transition, now: Time)
    : Result<Tables, StoreError>
    requires transition.Succeed? || transition.Stop?
  {
    if !HoldsLease(t, operationId, worker, token, now) then Err(FenceError(t, operationId, token))
    else
      var w := t.workflows[operationId];
      if CommandReceipt(w.eventId, w.generation) !in t.receipts then Err(ReceiptMissing)
      else
        var failure := if transition.Stop? then Some(transition.failure) else None;
        Ok(CommitRow(t, operationId, w.(saga := Applied(w.saga, transition, now), failure := failure),
                     EventOf(operationId, transition), now).(receipts := Settled(t, w)))
  }

  /** Writes or reopens the governed evidence; the original payload of an existing row is kept. */
  function WithDeadLetter(deadLetters: map<nat, DeadLetter>, command: Command, supported: bool, attempts: nat,
                          replayAllowed: bool, generation: nat): map<nat, DeadLetter>
  {
    deadLetters[command.eventId :=
      if command.eventId in deadLetters then
        deadLetters[command.eventId].(attempts := attempts, replayAllowed := replayAllowed, generation := generation,
                                      status := Open)
      else DeadLetter(command, supported, attempts, replayAllowed, generation, Open)]
  }

  function DeadLetterWorkflow(t: Tables, operationId: nat, worker: nat, token: nat, transition: Transition, now: Time)
    : Result<Tables, StoreError>
    requires transition.Exhaust?
  {
    if !HoldsLease(t, operationId, worker, token, now) then Err(FenceError(t, operationId, token))
    else
      var w := t.workflows[operationId];
      if ActionOf(w.command) != w.action then Err(InvalidCommand)
      else if CommandReceipt(w.eventId, w.generation) !in t.receipts then Err(ReceiptMissing)
      else
        Ok(CommitRow(t, operationId,
                     w.(saga := Applied(w.saga, transition, now),
                        failure := Some(transition.failure),
                        lastError := Some(transition.lastError)),
                     EventOf(operationId, transition), now)
           .(receipts := Settled(t, w),
             deadLetters := WithDeadLetter(t.deadLetters, w.command, true, transition.attempts, true, w.generation)))
  }

  /** The transaction a worker runs for its decision. */
  function Commit(t: Tables, operationId: nat, worker: nat, token: nat, transition: Transition, now: Time)
    : Result<Tables, StoreError>
  {
    match transition
    case Progress(_, _, _, _, _) => Checkpoint(t, operationId, worker, token, transition, now)
    case Exhaust(_, _, _) => DeadLetterWorkflow(t, operationId, worker, token, transition, now)
    case _ => Complete(t, operationId, worker, token, transition, now)
  }

  // ----- Admission ---------------------------------------------------------------------------

  /** The oldest row of the instance that has recorded a provider resource. */
  predicate Inherits(t: Tables, instanceId: nat, resource: Option<nat>) {
    if resource.None? then
      forall op | op in t.workflows :: t.workflows[op].instanceId == instanceId ==> t.workflows[op].saga.resource.None?
    else
      exists op | op in t.workflows :: IsOldestKnown(t, instanceId, op) && t.workflows[op].saga.resource == resource
  }

  predicate IsOldestKnown(t: Tables, instanceId: nat, op: nat) {
    && op in t.workflows && t.workflows[op].instanceId == instanceId && t.workflows[op].saga.resource.Some?
    && forall other | other in t.workflows ::
         t.workflows[other].instanceId == instanceId && t.workflows[other].saga.resource.Some? ==>
           t.workflows[op].createdAt <= t.workflows[other].createdAt
  }

  function AdmittedRow(command: Command, generation: nat, resource: Option<nat>, now: Time): Workflow {
    Workflow(command.eventId, command.instanceId, ActionOf(command), command, generation, 0, 0, now, None, None,
             FreshSaga(resource, now))
  }

  /** A unique index keeps two operations from sharing a command event. */
  ghost predicate EventTaken(t: Tables, eventId: nat) {
    exists op :: op in t.workflows && t.workflows[op].eventId == eventId
  }

  /** Records the delivery once; `None` when the receipt was there already. */
  ghost function Receive(receipts: map<ReceiptKey, Receipt>, key: ReceiptKey, digest: Digest, at: Coordinates, done: bool)
    : Result<Option<map<ReceiptKey, Receipt>>, StoreError>
  {
    if key in receipts then Ok(None)
    else if CoordinatesTaken(receipts, key, at) then Err(ConstraintViolated)
    else Ok(Some(receipts[key := Receipt(digest, at, done)]))
  }

  ghost function AdmitOriginal(t: Tables, command: Command, delivery: Delivery, inherited: Option<nat>, now: Time)
    : Result<(Tables, Admission), StoreError>
  {
    var key := CommandReceipt(command.eventId, delivery.generation);
    var duplicate := command.operationId in t.workflows;
    var received := Receive(t.receipts, key, CommandDigest(command), delivery.at, duplicate);
    if received.Err? then Err(received.error)
    else if received.value.None? then Ok((t, AdmissionDuplicate))
    else if duplicate then Ok((t.(receipts := received.value.value), AdmissionDuplicate))
    else if EventTaken(t, command.eventId) then Err(ConstraintViolated)
    else
      var resource := if ActionOf(command).CreateInstance? then None else inherited;
      Ok((t.(receipts := received.value.value,
             workflows := t.workflows[command.operationId := AdmittedRow(command, delivery.generation, resource, now)]),
          AdmissionAccepted))
  }

  /** The three things an original delivery can do: nothing, leave a receipt, or start the workflow. */
  lemma AdmitOriginalOutcome(t: Tables, command: Command, delivery: Delivery, inherited: Option<nat>, now: Time)
    ensures var outcome := AdmitOriginal(t, command, delivery, inherited, now);
            var key := CommandReceipt(command.eventId, delivery.generation);
            var receipts := t.receipts[key := Receipt(CommandDigest(command), delivery.at, command.operationId in t.workflows)];
            var resource := if ActionOf(command).CreateInstance? then None else inherited;
            || outcome.Err?
            || (outcome.value == (t, AdmissionDuplicate) && key in t.receipts)
            || (&& outcome.value == (t.(receipts := receipts), AdmissionDuplicate)
                && key !in t.receipts && command.operationId in t.workflows)
            || (&& outcome.value
                   == (t.(receipts := receipts,
                          workflows := t.workflows[command.operationId :=
                            AdmittedRow(command, delivery.generation, resource, now)]),
                       AdmissionAccepted)
                && key !in t.receipts && command.operationId !in t.workflows && !EventTaken(t, command.eventId))
  {
  }

  // ----- Governed replay ---------------------------------------------------------------------

  /** The replayed command keeps its identity and takes the request's attribution. */
  function Restamped(command: Command, request: ReplayRequested): Command {
    command.(correlation := request.correlation, stamp := request.stamp)
  }

  ghost predicate GenerationTaken(t: Tables, eventId: nat, generation: nat) {
    exists id :: id in t.replays && t.replays[id].request.originalEventId == eventId
              && !t.replays[id].decision.Refused? && t.replays[id].decision.generation == generation
  }

  ghost predicate RequestTaken(t: Tables, request: ReplayRequested) {
    || request.requestId in t.replays
    || (exists id :: id in t.replays && t.replays[id].request.requestEventId == request.requestEventId)
  }

  predicate Replayable(t: Tables, eventId: nat) {
    && eventId in t.deadLetters
    && t.deadLetters[eventId].replayAllowed
    && t.deadLetters[eventId].status.Open?
    && t.deadLetters[eventId].supported
  }

  function RequestKey(request: ReplayRequested, delivery: Delivery): ReceiptKey {
    RequestReceipt(request.requestEventId, delivery.generation)
  }

  /** A request that cannot be honoured is answered, and its refusal is kept. */
  function Refuse(t: Tables, request: ReplayRequested, delivery: Delivery): Tables {
    var generation := if request.originalEventId in t.deadLetters
                      then t.deadLetters[request.originalEventId].generation else 0;
    t.(receipts := t.receipts[RequestKey(request, delivery) := Receipt(RequestDigest(request), delivery.at, true)],
       replays := t.replays[request.requestId := ReplayRow(request, Refused)],
       events := Append(t.events, request.instanceId,
                        ReplayResolved(request.operationId, request.requestId, request.originalEventId, false, generation)))
  }

  /** An honoured request republishes the retained command under the next generation. */
  function Authorize(t: Tables, request: ReplayRequested, delivery: Delivery): Tables
    requires Replayable(t, request.originalEventId)
  {
    var letter := t.deadLetters[request.originalEventId];
    var generation := letter.generation + 1;
    var replayed := Restamped(letter.original, request);
    t.(receipts := t.receipts[RequestKey(request, delivery) := Receipt(RequestDigest(request), delivery.at, true)],
       replays := t.replays[request.requestId :=
         ReplayRow(request, Authorized(generation, replayed, |t.republished|))],
       republished := t.republished + [Republished(replayed, generation)],
       deadLetters := t.deadLetters[request.originalEventId :=
         letter.(generation := generation, status := ReplayPending)])
  }

  ghost function AdmitReplayRequest(t: Tables, request: ReplayRequested, delivery: Delivery)
    : Result<(Tables, ReplayAnswer), StoreError>
  {
    var received := Receive(t.receipts, RequestKey(request, delivery), RequestDigest(request), delivery.at, true);
    if received.Err? then Err(received.error)
    else if received.value.None? then Ok((t, ReplayDuplicate))
    else if RequestTaken(t, request) then Err(ConstraintViolated)
    else if !Replayable(t, request.originalEventId) then Ok((Refuse(t, request, delivery), ReplayRejected))
    else if GenerationTaken(t, request.originalEventId, t.deadLetters[request.originalEventId].generation + 1) then
      Err(ConstraintViolated)
    else Ok((Authorize(t, request, delivery), ReplayAccepted))
  }

  /** What a replay request can do: nothing, be refused, or be authorized. */
  lemma ReplayRequestOutcome(t: Tables, request: ReplayRequested, delivery: Delivery)
    ensures var outcome := AdmitReplayRequest(t, request, delivery);
            || outcome.Err?
            || outcome.value == (t, ReplayDuplicate)
            || (outcome.value == (Refuse(t, request, delivery), ReplayRejected) && !RequestTaken(t, request)
                && !Replayable(t, request.originalEventId) && RequestKey(request, delivery) !in t.receipts)
            || (Replayable(t, request.originalEventId) && !RequestTaken(t, request)
                && !GenerationTaken(t, request.originalEventId, t.deadLetters[request.originalEventId].generation + 1)
                && outcome.value == (Authorize(t, request, delivery), ReplayAccepted)
                && RequestKey(request, delivery) !in t.receipts)
  {
  }

  /** The outstanding authorization that this physical record matches in every respect. */
  predicate Matches(t: Tables, requestId: nat, command: Command, delivery: Delivery) {
    && requestId in t.replays
    && t.replays[requestId].request.originalEventId == command.eventId
    && t.replays[requestId].decision
       == Authorized(delivery.generation, command, delivery.outboxId.GetOr(0))
    && delivery.outboxId.Some?
  }

  function Reject(t: Tables, delivery: Delivery, code: RejectionCode): (Tables, Admission) {
    (t.(poison := Quarantined(t.poison, delivery.at, Rejected(code))), AdmissionRejected(code))
  }

  /** Reopening forgets every provider handle: the request id alone decides the effect. */
  function Reopened(w: Workflow, command: Command, generation: nat, now: Time): Workflow {
    w.(command := command, generation := generation, attempt := 0, failure := None, lastError := None,
       saga := FreshSaga(None, now))
  }

  predicate Reopenable(t: Tables, command: Command, generation: nat) {
    command.operationId in t.workflows ==>
      && t.workflows[command.operationId].eventId == command.eventId
      && t.workflows[command.operationId].saga.status.Failed?
      && generation == t.workflows[command.operationId].generation + 1
  }

  predicate PendingLetter(t: Tables, eventId: nat, generation: nat) {
    && eventId in t.deadLetters
    && t.deadLetters[eventId].status.ReplayPending?
    && t.deadLetters[eventId].generation == generation
  }

  ghost function AdmitReplayCommand(t: Tables, command: Command, delivery: Delivery, now: Time)
    : Result<(Tables, Admission), StoreError>
  {
    var key := CommandReceipt(command.eventId, delivery.generation);
    if key in t.receipts then
      if t.receipts[key].digest == CommandDigest(command) then Ok((t, AdmissionDuplicate))
      else Ok(Reject(t, delivery, IdentityConflict))
    else if !(exists id :: Matches(t, id, command, delivery)) then Ok(Reject(t, delivery, Unauthorized))
    else
      var id :| Matches(t, id, command, delivery);
      if !Reopenable(t, command, delivery.generation) then Ok(Reject(t, delivery, StateConflict))
      else if CoordinatesTaken(t.receipts, key, delivery.at) then Err(ConstraintViolated)
      else if command.operationId !in t.workflows && EventTaken(t, command.eventId) then Err(ConstraintViolated)
      else if !PendingLetter(t, command.eventId, delivery.generation) then Err(RowMissing)
      else Ok((Reopen(t, id, command, delivery, now), AdmissionAccepted))
  }

  function Reopen(t: Tables, id: nat, command: Command, delivery: Delivery, now: Time): Tables
    requires Matches(t, id, command, delivery) && PendingLetter(t, command.eventId, delivery.generation)
  {
    var row := if command.operationId in t.workflows
               then Reopened(t.workflows[command.operationId], command, delivery.generation, now)
               else AdmittedRow(command, delivery.generation, None, now);
    var decision := t.replays[id].decision;
    var request := t.replays[id].request;
    t.(receipts := t.receipts[CommandReceipt(command.eventId, delivery.generation) :=
         Receipt(CommandDigest(command), delivery.at, false)],
       workflows := t.workflows[command.operationId := row],
       deadLetters := t.deadLetters[command.eventId := t.deadLetters[command.eventId].(status := Replayed)],
       replays := t.replays[id := ReplayRow(request, Consumed(decision.generation, decision.digest, decision.outboxId))],
       events := Append(t.events, request.instanceId,
                        ReplayResolved(request.operationId, id, request.originalEventId, true, delivery.generation)))
  }

  /** The three things a replay delivery can do: nothing, leave a poison record, or reopen. */
  lemma ReplayCommandOutcome(t: Tables, command: Command, delivery: Delivery, now: Time) returns (id: nat)
    ensures var outcome := AdmitReplayCommand(t, command, delivery, now);
            || outcome.Err?
            || outcome.value == (t, AdmissionDuplicate)
            || (outcome.value.1.AdmissionRejected? && outcome.value == Reject(t, delivery, outcome.value.1.code))
            || (&& Matches(t, id, command, delivery)
                && Reopenable(t, command, delivery.generation)
                && PendingLetter(t, command.eventId, delivery.generation)
                && CommandReceipt(command.eventId, delivery.generation) !in t.receipts
                && (command.operationId !in t.workflows ==> !EventTaken(t, command.eventId))
                && outcome.value == (Reopen(t, id, command, delivery, now), AdmissionAccepted))
  {
    id := 0;
    if exists k :: Matches(t, k, command, delivery) {
      id :| Matches(t, id, command, delivery)
        && (AdmitReplayCommand(t, command, delivery, now).Ok?
            && AdmitReplayCommand(t, command, delivery, now).value.1.AdmissionAccepted? ==>
              && PendingLetter(t, command.eventId, delivery.generation)
              && AdmitReplayCommand(t, command, delivery, now).value.0 == Reopen(t, id, command, delivery, now));
    }
  }

  // ----- Exhausted deliveries ----------------------------------------------------------------

  ghost function DeadLetterCommand(t: Tables, command: Command, supported: bool, delivery: Delivery, attempts: nat,
                                   replayAllowed: bool)
    : Result<(Tables, bool), StoreError>
  {
    var key := CommandReceipt(command.eventId, delivery.generation);
    var received := Receive(t.receipts, key, CommandDigest(command), delivery.at, true);
    if received.Err? then Err(received.error)
    else if received.value.None? then Ok((t, false))
    else
      Ok((t.(receipts := received.value.value,
             deadLetters := WithDeadLetter(t.deadLetters, command, supported, attempts, replayAllowed, delivery.generation)),
          true))
  }
}
