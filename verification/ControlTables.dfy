/**
 * The control API's tables: what each acceptance transaction decides and writes, and what each
 * workflow event does to them when it is projected. A refused request is an `Err` and writes
 * nothing. `ControlPlaneStore` and `ProjectionStore` perform the same transactions in place.
 */
module ControlTables {
  import opened Prelude
  import opened Stages
  import opened SagaEngine
  import opened Domain
  import opened Sums
  import opened WorkflowTables
  import Ipv4

  const MILLISECONDS_PER_HOUR: Time := 3_600_000

  // ----- Rows --------------------------------------------------------------------------------

  datatype Instance = Instance(
    projectId: nat,
    desired: Sizing,
    powerOn: bool,
    lifecycle: Lifecycle,
    active: Option<nat>,
    createOperationId: nat,
    retentionDeadline: Option<Time>,
    purgeEligible: bool)

  /** The read document of an instance. */
  datatype Document = Document(
    lifecycle: Lifecycle,
    active: Option<nat>,
    retentionDeadline: Option<Time>,
    purgeEligible: bool)

  datatype OperationState = OpAccepted | OpRunning | OpRetryWait | OpSucceeded | OpFailed | OpReview

  /** An operation row; its read document carries the same fields. */
  datatype Operation = Operation(
    projectId: nat,
    action: Action,
    instanceId: nat,
    snapshotId: Option<nat>,
    state: OperationState,
    stage: PersistedStage,
    percent: nat,
    manualReview: bool)

  datatype LeaseState = LeaseActive | LeaseQuarantined | LeaseReleased

  datatype AddressLease = AddressLease(networkId: nat, address: string, state: LeaseState)

  datatype SnapshotState = SnapCreating | SnapAvailable | SnapRollingBack | SnapDeleting

  datatype Snapshot = Snapshot(projectId: nat, instanceId: nat, name: nat, state: SnapshotState)

  /** A key is scoped to its actor, project and action; purges use one administrative project. */
  datatype Scope = Scope(actor: nat, project: Option<nat>, action: Action, key: nat)

  datatype AcceptedMutation = AcceptedMutation(operationId: nat, targetId: nat, at: Time, replayed: bool)

  datatype Record = Record(hash: nat, response: AcceptedMutation)

  datatype IntentStatus = IntentAccepted | IntentCompleted | IntentRejected

  /** An operator's request to replay a dead letter, and what the orchestrator answered. */
  datatype ReplayIntent = ReplayIntent(request: ReplayRequested, status: IntentStatus)

  datatype Control = Control(
    instances: map<nat, Instance>,
    documents: map<nat, Document>,
    operations: map<nat, Operation>,
    leases: map<nat, AddressLease>,
    snapshots: map<nat, Snapshot>,
    records: map<Scope, Record>,
    outbox: seq<Command>,
    intents: map<nat, ReplayIntent>)

  function EmptyControl(): Control {
    Control(map[], map[], map[], map[], map[], map[], [], map[])
  }

  // ----- Catalog -----------------------------------------------------------------------------

  datatype Image = Image(enabled: bool, profileActive: bool, networkId: nat)

  datatype Flavor = Flavor(enabled: bool, sizing: Sizing)

  datatype Network = Network(enabled: bool, pool: Ipv4.Pool)

  datatype Quota = Quota(instances: nat, sizing: Sizing, addresses: nat, snapshots: nat)

  /** Rows that acceptance only reads: projects (and whether enabled), catalog, quotas, policy. */
  datatype Catalog = Catalog(
    projects: map<nat, bool>,
    images: map<nat, Image>,
    flavors: map<nat, Flavor>,
    networks: map<nat, Network>,
    quotas: map<nat, Quota>,
    retentionHours: nat,
    releaseOnRetain: bool)

  // ----- Requests ----------------------------------------------------------------------------

  /** Who asks, in which project, under which key, and the hash of what is asked. */
  datatype Caller = Caller(actor: nat, projectId: nat, key: nat, hash: nat)

  datatype Wish =
    | CreateWish(imageId: nat, flavorId: nat, networkId: nat)
    | PowerWish(instanceId: nat, request: PowerRequest)
    | ResizeWish(instanceId: nat, flavorId: nat, disk: Option<nat>)
    | SnapshotWish(instanceId: nat, name: nat)
    | RollbackWish(instanceId: nat, snapshotId: nat)
    | DeleteWish(instanceId: nat, snapshotId: nat)
    | RetainWish(instanceId: nat)
    | PurgeWish(instanceId: nat, confirmation: nat)

  /** Identifiers minted for one acceptance. `target` names a new instance or a new snapshot. */
  datatype Minted = Minted(operationId: nat, eventId: nat, target: nat, correlation: nat, stamp: nat)

  function ActionWished(wish: Wish): Action {
    match wish
    case CreateWish(_, _, _) => CreateInstance
    case PowerWish(_, _) => PowerInstance
    case ResizeWish(_, _, _) => ResizeInstance
    case SnapshotWish(_, _) => CreateSnapshot
    case RollbackWish(_, _) => RollbackSnapshot
    case DeleteWish(_, _) => DeleteSnapshot
    case RetainWish(_) => RetainInstance
    case PurgeWish(_, _) => PurgeInstance
  }

  function ScopeOf(caller: Caller, wish: Wish): Scope {
    Scope(caller.actor, if wish.PurgeWish? then None else Some(caller.projectId), ActionWished(wish), caller.key)
  }

  // ----- Quota -------------------------------------------------------------------------------

  datatype Dimension = Instances | Cpu | Memory | Disk

  function Measure(sizing: Sizing, dimension: Dimension): nat {
    match dimension
    case Instances => 1
    case Cpu => sizing.cpu
    case Memory => sizing.memory
    case Disk => sizing.disk
  }

  function Limit(quota: Quota, dimension: Dimension): nat {
    if dimension.Instances? then quota.instances else Measure(quota.sizing, dimension)
  }

  /** What an instance counts for; a purged one has given its resources back. */
  function Charge(instance: Instance, projectId: nat, dimension: Dimension): nat {
    if instance.projectId == projectId && !instance.lifecycle.Purged? then Measure(instance.desired, dimension) else 0
  }

  function Charges(instances: map<nat, Instance>, projectId: nat, dimension: Dimension): map<nat, nat> {
    map i | i in instances :: Charge(instances[i], projectId, dimension)
  }

  ghost function Usage(c: Control, projectId: nat, dimension: Dimension): nat {
    Sum(Charges(c.instances, projectId, dimension))
  }

  ghost predicate CreateFits(c: Control, quota: Quota, projectId: nat, sizing: Sizing) {
    forall dimension: Dimension :: Usage(c, projectId, dimension) + Measure(sizing, dimension) <= Limit(quota, dimension)
  }

  /** A resize is charged the difference; it does not count the instance again. */
  ghost predicate ResizeFits(c: Control, quota: Quota, projectId: nat, current: Sizing, target: Sizing) {
    forall dimension: Dimension | dimension != Instances ::
      Usage(c, projectId, dimension) - Measure(current, dimension) + Measure(target, dimension) <= Limit(quota, dimension)
  }

  // ----- Addresses and snapshots -------------------------------------------------------------

  predicate Held(lease: AddressLease) {
    !lease.state.LeaseReleased?
  }

  function HeldOn(leases: map<nat, AddressLease>, networkId: nat): set<nat> {
    set i | i in leases && leases[i].networkId == networkId && Held(leases[i])
  }

  function HeldAddresses(leases: map<nat, AddressLease>, networkId: nat): set<string> {
    set i | i in leases && leases[i].networkId == networkId && Held(leases[i]) :: leases[i].address
  }

  /** The address quota of the project bounds the leases held on the whole network. */
  function ReserveAddress(c: Control, quota: Quota, network: Network, networkId: nat): Result<string, DomainError> {
    if |HeldOn(c.leases, networkId)| + 1 > quota.addresses then Err(QuotaExceeded)
    else Ipv4.Allocate(network.pool, HeldAddresses(c.leases, networkId))
  }

  function SnapshotsOf(c: Control, projectId: nat): set<nat> {
    set s | s in c.snapshots && c.snapshots[s].projectId == projectId
  }

  predicate NameTaken(c: Control, instanceId: nat, name: nat) {
    exists s | s in c.snapshots :: c.snapshots[s].instanceId == instanceId && c.snapshots[s].name == name
  }

  // ----- The guard ---------------------------------------------------------------------------

  /** The instance row a mutation may change: of this project, idle, and in a mutable state. */
  function LockForMutation(c: Control, projectId: nat, instanceId: nat): Result<Instance, DomainError> {
    if instanceId !in c.instances || c.instances[instanceId].projectId != projectId then Err(InstanceNotFound)
    else if c.instances[instanceId].active.Some? then Err(InstanceBusy)
    else if !c.instances[instanceId].lifecycle.Active? && !c.instances[instanceId].lifecycle.LifecycleFailed? then
      Err(InstanceBusy)
    else Ok(c.instances[instanceId])
  }

  // ----- Plans -------------------------------------------------------------------------------

  /** What an acceptance writes besides its operation, idempotency record and outbox row. */
  datatype Plan = Plan(
    instanceId: nat,
    instance: Instance,
    targetId: nat,
    snapshotId: Option<nat>,
    leases: map<nat, AddressLease>,
    snapshots: map<nat, Snapshot>,
    data: CommandData)

  function CatalogError(catalog: Catalog, caller: Caller, wish: Wish): Option<DomainError>
    requires wish.CreateWish?
  {
    if caller.projectId !in catalog.projects then Some(ProjectNotFound)
    else if !catalog.projects[caller.projectId] then Some(ProjectAccessDenied)
    else if wish.imageId !in catalog.images || !catalog.images[wish.imageId].enabled
         || wish.flavorId !in catalog.flavors || !catalog.flavors[wish.flavorId].enabled
         || wish.networkId !in catalog.networks || !catalog.networks[wish.networkId].enabled
         || caller.projectId !in catalog.quotas then Some(ValidationFailed)
    else if !catalog.images[wish.imageId].profileActive then Some(ProfileDisabled)
    else if catalog.images[wish.imageId].networkId != wish.networkId then Some(ValidationFailed)
    else None
  }

  ghost function PlanCreate(c: Control, catalog: Catalog, caller: Caller, wish: Wish, ids: Minted): Result<Plan, DomainError>
    requires wish.CreateWish?
  {
    var refused := CatalogError(catalog, caller, wish);
    if refused.Some? then Err(refused.value)
    else
      var quota, sizing := catalog.quotas[caller.projectId], catalog.flavors[wish.flavorId].sizing;
      if !CreateFits(c, quota, caller.projectId, sizing) then Err(QuotaExceeded)
      else
        var address := ReserveAddress(c, quota, catalog.networks[wish.networkId], wish.networkId);
        if address.Err? then Err(address.error)
        else
          var instance := Instance(caller.projectId, sizing, true, Pending, Some(ids.operationId), ids.operationId, None, false);
          Ok(Plan(ids.target, instance, ids.target, None,
                  c.leases[ids.target := AddressLease(wish.networkId, address.value, LeaseActive)], c.snapshots,
                  CreateData(sizing)))
  }

  function PlanPower(c: Control, caller: Caller, wish: Wish, ids: Minted): Result<Plan, DomainError>
    requires wish.PowerWish?
  {
    var locked := LockForMutation(c, caller.projectId, wish.instanceId);
    if locked.Err? then Err(locked.error)
    else
      var on := wish.request.StartPower? || wish.request.RebootPower?;
      Ok(Plan(wish.instanceId, locked.value.(active := Some(ids.operationId), powerOn := on), wish.instanceId, None,
              c.leases, c.snapshots, PowerData(wish.request)))
  }

  /** Three floors for the disk: its present size, the flavor's minimum, and what was asked for. */
  function ResizeTarget(current: Sizing, flavor: Sizing, disk: Option<nat>): Sizing {
    Sizing(flavor.cpu, flavor.memory, Max(Max(current.disk, flavor.disk), disk.GetOr(0)) as nat)
  }

  ghost function PlanResize(c: Control, catalog: Catalog, caller: Caller, wish: Wish, ids: Minted): Result<Plan, DomainError>
    requires wish.ResizeWish?
  {
    var locked := LockForMutation(c, caller.projectId, wish.instanceId);
    if locked.Err? then Err(locked.error)
    else if wish.flavorId !in catalog.flavors || !catalog.flavors[wish.flavorId].enabled then Err(ValidationFailed)
    else
      var current := locked.value.desired;
      var target := ResizeTarget(current, catalog.flavors[wish.flavorId].sizing, wish.disk);
      var refused := ValidateResize(current, target.(disk := wish.disk.GetOr(target.disk)));
      if refused.Some? then Err(refused.value)
      else if caller.projectId !in catalog.quotas then Err(ProjectNotFound)
      else if !ResizeFits(c, catalog.quotas[caller.projectId], caller.projectId, current, target) then Err(QuotaExceeded)
      else
        Ok(Plan(wish.instanceId, locked.value.(active := Some(ids.operationId), desired := target), wish.instanceId, None,
                c.leases, c.snapshots, ResizeData(target)))
  }

  function PlanSnapshot(c: Control, catalog: Catalog, caller: Caller, wish: Wish, ids: Minted): Result<Plan, DomainError>
    requires wish.SnapshotWish?
  {
    var locked := LockForMutation(c, caller.projectId, wish.instanceId);
    if locked.Err? then Err(locked.error)
    else if caller.projectId !in catalog.quotas then Err(ProjectNotFound)
    else if |SnapshotsOf(c, caller.projectId)| + 1 > catalog.quotas[caller.projectId].snapshots then Err(QuotaExceeded)
    else if NameTaken(c, wish.instanceId, wish.name) then Err(ValidationFailed)
    else
      var snapshot := Snapshot(caller.projectId, wish.instanceId, wish.name, SnapCreating);
      Ok(Plan(wish.instanceId, locked.value.(active := Some(ids.operationId)), ids.target, Some(ids.target),
              c.leases, c.snapshots[ids.target := snapshot], SnapshotCreateData(ids.target, wish.name)))
  }

  /** The provider knows a snapshot by the name it was taken under. */
  function PlanSnapshotAction(c: Control, caller: Caller, wish: Wish, ids: Minted): Result<Plan, DomainError>
    requires wish.RollbackWish? || wish.DeleteWish?
  {
    var locked := LockForMutation(c, caller.projectId, wish.instanceId);
    if locked.Err? then Err(locked.error)
    else if wish.snapshotId !in c.snapshots then Err(SnapshotNotFound)
    else if c.snapshots[wish.snapshotId].instanceId != wish.instanceId then Err(SnapshotOwnershipMismatch)
    else if !c.snapshots[wish.snapshotId].state.SnapAvailable? then Err(InstanceBusy)
    else
      var snapshot := c.snapshots[wish.snapshotId];
      var state := if wish.RollbackWish? then SnapRollingBack else SnapDeleting;
      var data := if wish.RollbackWish? then SnapshotRollbackData(wish.snapshotId, snapshot.name)
                  else SnapshotDeleteData(wish.snapshotId, snapshot.name);
      Ok(Plan(wish.instanceId, locked.value.(active := Some(ids.operationId)), wish.snapshotId, Some(wish.snapshotId),
              c.leases, c.snapshots[wish.snapshotId := snapshot.(state := state)], data))
  }

  /** Retention takes an active lease out of use at once, for good or until the purge. */
  function LeasesAfterRetention(leases: map<nat, AddressLease>, instanceId: nat, release: bool): map<nat, AddressLease> {
    if instanceId in leases && leases[instanceId].state.LeaseActive?
    then leases[instanceId := leases[instanceId].(state := if release then LeaseReleased else LeaseQuarantined)]
    else leases
  }

  function PlanRetention(c: Control, catalog: Catalog, caller: Caller, wish: Wish, ids: Minted, now: Time)
    : Result<Plan, DomainError>
    requires wish.RetainWish?
  {
    var locked := LockForMutation(c, caller.projectId, wish.instanceId);
    if locked.Err? then Err(locked.error)
    else
      var deadline := now + catalog.retentionHours * MILLISECONDS_PER_HOUR;
      var instance := locked.value.(active := Some(ids.operationId), lifecycle := Deleting,
                                    retentionDeadline := Some(deadline), purgeEligible := false);
      Ok(Plan(wish.instanceId, instance, wish.instanceId, None,
              LeasesAfterRetention(c.leases, wish.instanceId, catalog.releaseOnRetain), c.snapshots,
              RetentionData(deadline)))
  }

  predicate Purgeable(instance: Instance, now: Time) {
    instance.active.None? && instance.lifecycle.Retained?
    && instance.retentionDeadline.Some? && instance.retentionDeadline.value <= now
  }

  function PlanPurge(c: Control, wish: Wish, ids: Minted, now: Time): Result<Plan, DomainError>
    requires wish.PurgeWish?
  {
    if wish.instanceId !in c.instances then Err(InstanceNotFound)
    else if !Purgeable(c.instances[wish.instanceId], now) then Err(InstanceBusy)
    else
      var instance := c.instances[wish.instanceId];
      Ok(Plan(wish.instanceId,
              instance.(active := Some(ids.operationId), lifecycle := PurgePending, purgeEligible := true),
              wish.instanceId, None, c.leases, c.snapshots, PurgeData(instance.retentionDeadline.value)))
  }

  ghost function PlanOf(c: Control, catalog: Catalog, caller: Caller, wish: Wish, ids: Minted, now: Time)
    : Result<Plan, DomainError>
  {
    match wish
    case CreateWish(_, _, _) => PlanCreate(c, catalog, caller, wish, ids)
    case PowerWish(_, _) => PlanPower(c, caller, wish, ids)
    case ResizeWish(_, _, _) => PlanResize(c, catalog, caller, wish, ids)
    case SnapshotWish(_, _) => PlanSnapshot(c, catalog, caller, wish, ids)
    case RollbackWish(_, _) => PlanSnapshotAction(c, caller, wish, ids)
    case DeleteWish(_, _) => PlanSnapshotAction(c, caller, wish, ids)
    case RetainWish(_) => PlanRetention(c, catalog, caller, wish, ids, now)
    case PurgeWish(_, _) => PlanPurge(c, wish, ids, now)
  }

  // ----- Acceptance --------------------------------------------------------------------------

  /** The command published for an accepted request. */
  function CommandFor(plan: Plan, ids: Minted): Command {
    Command(ids.operationId, ids.eventId, plan.instanceId, plan.instance.projectId, plan.instance.createOperationId,
            plan.data, ids.correlation, ids.stamp)
  }

  function ResponseFor(plan: Plan, ids: Minted, now: Time): AcceptedMutation {
    AcceptedMutation(ids.operationId, plan.targetId, now, false)
  }

  /** A new instance gets a document; an existing one's document is marked busy at once. */
  function DocumentAfter(documents: map<nat, Document>, plan: Plan): map<nat, Document> {
    if plan.data.CreateData? then
      documents[plan.instanceId := Document(plan.instance.lifecycle, plan.instance.active, None, false)]
    else if plan.instanceId in documents then
      documents[plan.instanceId := documents[plan.instanceId].(active := plan.instance.active)]
    else documents
  }

  /** Everything one accepted request writes, in one transaction. */
  function Carry(c: Control, plan: Plan, scope: Scope, hash: nat, ids: Minted, now: Time): Control {
    Control(
      c.instances[plan.instanceId := plan.instance],
      DocumentAfter(c.documents, plan),
      c.operations[ids.operationId :=
        Operation(plan.instance.projectId, scope.action, plan.instanceId, plan.snapshotId, OpAccepted, At(Accepted), 0,
                  false)],
      plan.leases,
      plan.snapshots,
      c.records[scope := Record(hash, ResponseFor(plan, ids, now))],
      c.outbox + [CommandFor(plan, ids)],
      c.intents)
  }

  /** The stored answer to a repeated key, or a refusal if the key was used for something else. */
  function Recall(c: Control, scope: Scope, hash: nat): Option<Result<AcceptedMutation, DomainError>> {
    if scope !in c.records then None
    else if c.records[scope].hash != hash then Some(Err(IdempotencyConflict))
    else Some(Ok(c.records[scope].response.(replayed := true)))
  }

  ghost function Accept(c: Control, catalog: Catalog, caller: Caller, wish: Wish, ids: Minted, now: Time)
    : Result<(Control, AcceptedMutation), DomainError>
  {
    var scope := ScopeOf(caller, wish);
    if wish.PurgeWish? && wish.confirmation != wish.instanceId then Err(ValidationFailed)
    else
      var recalled := Recall(c, scope, caller.hash);
      if recalled.Some? then
        if recalled.value.Err? then Err(recalled.value.error) else Ok((c, recalled.value.value))
      else
        var plan := PlanOf(c, catalog, caller, wish, ids, now);
        if plan.Err? then Err(plan.error)
        else Ok((Carry(c, plan.value, scope, caller.hash, ids, now), ResponseFor(plan.value, ids, now)))
  }

  /** The explicit lease transition: forwards only. */
  function ReleaseLease(leases: map<nat, AddressLease>, instanceId: nat, release: bool)
    : (map<nat, AddressLease>, Option<LeaseState>)
  {
    if instanceId !in leases then (leases, None)
    else
      var state := leases[instanceId].state;
      var next := if release then LeaseReleased else LeaseQuarantined;
      if state.LeaseReleased? || state == next then (leases, Some(state))
      else (leases[instanceId := leases[instanceId].(state := next)], Some(next))
  }

  // ----- Projection --------------------------------------------------------------------------

  predicate NeedsReview(failure: Failure, unsafe: bool) {
    failure.category.UnknownOutcome? || failure.category.ManualReviewCategory? || unsafe
  }

  /** A finished snapshot operation leaves its snapshot available, or removes it. */
  function SettledSnapshots(snapshots: map<nat, Snapshot>, operation: Operation): map<nat, Snapshot> {
    if operation.snapshotId.None? then snapshots
    else
      var id := operation.snapshotId.value;
      if operation.action.DeleteSnapshot? then snapshots - {id}
      else if id in snapshots then snapshots[id := snapshots[id].(state := SnapAvailable)]
      else snapshots
  }

  /** The operation after an event about it. */
  function OperationAfter(operation: Operation, event: Event): Operation {
    match event
    case Progressed(_, stage, waiting) =>
      operation.(state := if waiting then OpRetryWait else OpRunning, stage := At(stage),
                 percent := ProgressPercent(At(stage)))
    case MutationCompleted(_, _, _) =>
      operation.(state := OpSucceeded, stage := Completed, percent := ProgressPercent(Completed), manualReview := false)
    case MutationFailed(_, failure, unsafe) =>
      var review := NeedsReview(failure, unsafe);
      operation.(state := if review then OpReview else OpFailed, stage := if review then EndedInReview else EndedFailed,
                 manualReview := review)
    case ReplayResolved(_, _, _, _, _) => operation
  }

  /** The instance after an event about its operation: terminal events make it idle. */
  function InstanceAfter(instance: Instance, event: Event): Instance {
    match event
    case Progressed(_, _, _) => instance.(lifecycle := Provisioning)
    case MutationCompleted(_, lifecycle, _) => instance.(lifecycle := lifecycle, active := None)
    case MutationFailed(_, failure, unsafe) =>
      instance.(lifecycle := if NeedsReview(failure, unsafe) then LifecycleReview else LifecycleFailed, active := None)
    case ReplayResolved(_, _, _, _, _) => instance
  }

  /** The document follows its row; retention fields are read back from the row on success only. */
  function DocumentAfterEvent(document: Document, instance: Instance, event: Event): Document {
    match event
    case Progressed(_, _, _) => document.(lifecycle := instance.lifecycle)
    case MutationCompleted(_, _, _) =>
      Document(instance.lifecycle, None, instance.retentionDeadline, instance.purgeEligible)
    case MutationFailed(_, _, _) => document.(lifecycle := instance.lifecycle, active := None)
    case ReplayResolved(_, _, _, _, _) => document
  }

  /** The row an event is about exists: the replay request it resolves, or its instance and operation. */
  predicate Projectable(c: Control, instanceId: nat, event: Event) {
    if event.ReplayResolved? then
      event.requestId in c.intents && c.intents[event.requestId].request.originalEventId == event.originalEventId
    else instanceId in c.instances && instanceId in c.documents && event.operationId in c.operations
  }

  function IntentsAfter(intents: map<nat, ReplayIntent>, id: nat, completed: bool): map<nat, ReplayIntent>
    requires id in intents
  {
    intents[id := intents[id].(status := if completed then IntentCompleted else IntentRejected)]
  }

  /** Applies one event; a missing row makes the transaction throw, which changes nothing. */
  function Project(c: Control, instanceId: nat, event: Event): Control {
    if !Projectable(c, instanceId, event) then c
    else if event.ReplayResolved? then c.(intents := IntentsAfter(c.intents, event.requestId, event.completed))
    else
      var instance := InstanceAfter(c.instances[instanceId], event);
      var operation := c.operations[event.operationId];
      c.(instances := c.instances[instanceId := instance],
         documents := c.documents[instanceId := DocumentAfterEvent(c.documents[instanceId], instance, event)],
         operations := c.operations[event.operationId := OperationAfter(operation, event)],
         snapshots := if event.MutationCompleted? then SettledSnapshots(c.snapshots, operation) else c.snapshots)
  }
}
