/**
 * The control plane store: acceptance transactions performed on the control tables in place. Each
 * is proved to leave and answer what `ControlTables.Accept` says, which `Conservation` and
 * `EndToEnd` reason about. Identifiers and the time are parameters.
 */
module ControlPlaneStore {
  import opened Prelude
  import opened Stages
  import opened SagaEngine
  import opened Domain
  import opened Sums
  import opened ControlTables
  import Ipv4

  /** What a transaction leaves and answers. */
  ghost function Outcome(c: Control, accepted: Result<(Control, AcceptedMutation), DomainError>)
    : (Control, Result<AcceptedMutation, DomainError>)
  {
    if accepted.Ok? then (accepted.value.0, Ok(accepted.value.1)) else (c, Err(accepted.error))
  }

  class ControlPlaneStore {
    const catalog: Catalog
    var instances: map<nat, Instance>
    var documents: map<nat, Document>
    var operations: map<nat, Operation>
    var leases: map<nat, AddressLease>
    var snapshots: map<nat, Snapshot>
    var records: map<Scope, Record>
    var outbox: seq<Command>
    var intents: map<nat, ReplayIntent>

    ghost function State(): Control
      reads this
    {
      Control(instances, documents, operations, leases, snapshots, records, outbox, intents)
    }

    constructor (catalog: Catalog)
      ensures State() == EmptyControl() && this.catalog == catalog
    {
      this.catalog := catalog;
      instances, documents, operations, leases := map[], map[], map[], map[];
      snapshots, records, outbox, intents := map[], map[], [], map[];
    }

    // ----- Reads -----------------------------------------------------------------------------

    /** The stored response of an accepted request, marked replayed; a reused key is a conflict. */
    method FindReplayedResponse(scope: Scope, hash: nat) returns (found: Option<Result<AcceptedMutation, DomainError>>)
      ensures found == Recall(State(), scope, hash)
    {
      if scope !in records {
        return None;
      }
      if records[scope].hash != hash {
        return Some(Err(IdempotencyConflict));
      }
      return Some(Ok(records[scope].response.(replayed := true)));
    }

    /** The instance, if it is in the project, idle and in a mutable state. */
    method LockInstanceForMutation(projectId: nat, instanceId: nat) returns (locked: Result<Instance, DomainError>)
      ensures locked == LockForMutation(State(), projectId, instanceId)
    {
      if instanceId !in instances || instances[instanceId].projectId != projectId {
        return Err(InstanceNotFound);
      }
      var row := instances[instanceId];
      if row.active.Some? {
        return Err(InstanceBusy);
      }
      if row.lifecycle != Active && row.lifecycle != LifecycleFailed {
        return Err(InstanceBusy);
      }
      return Ok(row);
    }

    /** The total of one column over the project's instances that are not purged. */
    method UsageOf(projectId: nat, dimension: Dimension) returns (total: nat)
      ensures total == Usage(State(), projectId, dimension)
    {
      var rest := instances;
      total := 0;
      while rest.Keys != {}
        invariant Sum(Charges(instances, projectId, dimension)) == total + Sum(Charges(rest, projectId, dimension))
        decreases |rest|
      {
        var i :| i in rest.Keys;
        SumWithout(Charges(rest, projectId, dimension), i);
        assert Charges(rest, projectId, dimension) - {i} == Charges(rest - {i}, projectId, dimension);
        total := total + Charge(rest[i], projectId, dimension);
        rest := rest - {i};
      }
      assert Charges(rest, projectId, dimension) == map[];
    }

    method AssertQuotaHeadroom(projectId: nat, quota: Quota, sizing: Sizing) returns (fits: bool)
      ensures fits <==> CreateFits(State(), quota, projectId, sizing)
    {
      var count := UsageOf(projectId, Instances);
      var cpu := UsageOf(projectId, Cpu);
      var memory := UsageOf(projectId, Memory);
      var disk := UsageOf(projectId, Disk);
      fits := count + 1 <= quota.instances && cpu + sizing.cpu <= quota.sizing.cpu
              && memory + sizing.memory <= quota.sizing.memory && disk + sizing.disk <= quota.sizing.disk;
      if fits {
        forall dimension: Dimension
          ensures Usage(State(), projectId, dimension) + Measure(sizing, dimension) <= Limit(quota, dimension)
        {
          match dimension
          case Instances =>
          case Cpu =>
          case Memory =>
          case Disk =>
        }
      }
    }

    method AssertResizeQuotaHeadroom(projectId: nat, quota: Quota, current: Sizing, target: Sizing) returns (fits: bool)
      ensures fits <==> ResizeFits(State(), quota, projectId, current, target)
    {
      var cpu := UsageOf(projectId, Cpu);
      var memory := UsageOf(projectId, Memory);
      var disk := UsageOf(projectId, Disk);
      fits := cpu - current.cpu + target.cpu <= quota.sizing.cpu
              && memory - current.memory + target.memory <= quota.sizing.memory
              && disk - current.disk + target.disk <= quota.sizing.disk;
      if fits {
        forall dimension: Dimension | dimension != Instances
          ensures Usage(State(), projectId, dimension) - Measure(current, dimension) + Measure(target, dimension)
               <= Limit(quota, dimension)
        {
          match dimension
          case Cpu =>
          case Memory =>
          case Disk =>
        }
      }
    }

    /** The lowest free address of the network, within the address quota. */
    method ReserveIpv4Address(quota: Quota, networkId: nat) returns (address: Result<string, DomainError>)
      requires networkId in catalog.networks
      ensures address == ReserveAddress(State(), quota, catalog.networks[networkId], networkId)
    {
      var held := HeldOn(leases, networkId);
      if |held| + 1 > quota.addresses {
        return Err(QuotaExceeded);
      }
      address := Ipv4.AllocateIpv4(catalog.networks[networkId].pool, HeldAddresses(leases, networkId));
    }

    method LoadAcceptanceContext(caller: Caller, wish: Wish) returns (refused: Option<DomainError>)
      requires wish.CreateWish?
      ensures refused == CatalogError(catalog, caller, wish)
    {
      if caller.projectId !in catalog.projects {
        return Some(ProjectNotFound);
      }
      if !catalog.projects[caller.projectId] {
        return Some(ProjectAccessDenied);
      }
      if wish.imageId !in catalog.images || !catalog.images[wish.imageId].enabled
         || wish.flavorId !in catalog.flavors || !catalog.flavors[wish.flavorId].enabled
         || wish.networkId !in catalog.networks || !catalog.networks[wish.networkId].enabled
         || caller.projectId !in catalog.quotas {
        return Some(ValidationFailed);
      }
      if !catalog.images[wish.imageId].profileActive {
        return Some(ProfileDisabled);
      }
      if catalog.images[wish.imageId].networkId != wish.networkId {
        return Some(ValidationFailed);
      }
      return None;
    }

    // ----- Writes ----------------------------------------------------------------------------

    /** The operation, its document, the idempotency record and the outbox command. */
    method WriteOperation(plan: Plan, scope: Scope, hash: nat, ids: Minted, now: Time) returns (accepted: AcceptedMutation)
      requires plan.leases == leases && plan.snapshots == snapshots
      modifies this
      ensures State() == Carry(old(State()), plan, scope, hash, ids, now) && accepted == ResponseFor(plan, ids, now)
    {
      accepted := AcceptedMutation(ids.operationId, plan.targetId, now, false);
      operations := operations[ids.operationId :=
        Operation(plan.instance.projectId, scope.action, plan.instanceId, plan.snapshotId, OpAccepted, At(Accepted), 0, false)];
      instances := instances[plan.instanceId := plan.instance];
      if plan.data.CreateData? {
        documents := documents[plan.instanceId := Document(plan.instance.lifecycle, plan.instance.active, None, false)];
      } else if plan.instanceId in documents {
        documents := documents[plan.instanceId := documents[plan.instanceId].(active := plan.instance.active)];
      }
      records := records[scope := Record(hash, accepted)];
      outbox := outbox + [CommandFor(plan, ids)];
    }

    // ----- Acceptance ------------------------------------------------------------------------

    method AcceptCreate(caller: Caller, wish: Wish, ids: Minted, now: Time) returns (accepted: Result<AcceptedMutation, DomainError>)
      requires wish.CreateWish?
      modifies this
      ensures (State(), accepted) == Outcome(old(State()), Accept(old(State()), catalog, caller, wish, ids, now))
    {
      var scope := ScopeOf(caller, wish);
      var replayed := FindReplayedResponse(scope, caller.hash);
      if replayed.Some? {
        return replayed.value;
      }
      var refused := LoadAcceptanceContext(caller, wish);
      if refused.Some? {
        return Err(refused.value);
      }
      var quota, sizing := catalog.quotas[caller.projectId], catalog.flavors[wish.flavorId].sizing;
      var fits := AssertQuotaHeadroom(caller.projectId, quota, sizing);
      if !fits {
        return Err(QuotaExceeded);
      }
      var address := ReserveIpv4Address(quota, wish.networkId);
      if address.Err? {
        return Err(address.error);
      }
      leases := leases[ids.target := AddressLease(wish.networkId, address.value, LeaseActive)];
      var instance := Instance(caller.projectId, sizing, true, Pending, Some(ids.operationId), ids.operationId, None, false);
      var response := WriteOperation(Plan(ids.target, instance, ids.target, None, leases, snapshots, CreateData(sizing)),
                                     scope, caller.hash, ids, now);
      return Ok(response);
    }

    method AcceptPowerAction(caller: Caller, wish: Wish, ids: Minted, now: Time)
      returns (accepted: Result<AcceptedMutation, DomainError>)
      requires wish.PowerWish?
      modifies this
      ensures (State(), accepted) == Outcome(old(State()), Accept(old(State()), catalog, caller, wish, ids, now))
    {
      var scope := ScopeOf(caller, wish);
      var replayed := FindReplayedResponse(scope, caller.hash);
      if replayed.Some? {
        return replayed.value;
      }
      var locked := LockInstanceForMutation(caller.projectId, wish.instanceId);
      if locked.Err? {
        return Err(locked.error);
      }
      var on := wish.request == StartPower || wish.request == RebootPower;
      var instance := locked.value.(active := Some(ids.operationId), powerOn := on);
      var response := WriteOperation(
        Plan(wish.instanceId, instance, wish.instanceId, None, leases, snapshots, PowerData(wish.request)),
        scope, caller.hash, ids, now);
      return Ok(response);
    }

    method AcceptResize(caller: Caller, wish: Wish, ids: Minted, now: Time)
      returns (accepted: Result<AcceptedMutation, DomainError>)
      requires wish.ResizeWish?
      modifies this
      ensures (State(), accepted) == Outcome(old(State()), Accept(old(State()), catalog, caller, wish, ids, now))
    {
      var scope := ScopeOf(caller, wish);
      var replayed := FindReplayedResponse(scope, caller.hash);
      if replayed.Some? {
        return replayed.value;
      }
      var locked := LockInstanceForMutation(caller.projectId, wish.instanceId);
      if locked.Err? {
        return Err(locked.error);
      }
      if wish.flavorId !in catalog.flavors || !catalog.flavors[wish.flavorId].enabled {
        return Err(ValidationFailed);
      }
      var current := locked.value.desired;
      var target := ResizeTarget(current, catalog.flavors[wish.flavorId].sizing, wish.disk);
      var refused := ValidateResize(current, target.(disk := wish.disk.GetOr(target.disk)));
      if refused.Some? {
        return Err(refused.value);
      }
      if caller.projectId !in catalog.quotas {
        return Err(ProjectNotFound);
      }
      var fits := AssertResizeQuotaHeadroom(caller.projectId, catalog.quotas[caller.projectId], current, target);
      if !fits {
        return Err(QuotaExceeded);
      }
      var instance := locked.value.(active := Some(ids.operationId), desired := target);
      var response := WriteOperation(
        Plan(wish.instanceId, instance, wish.instanceId, None, leases, snapshots, ResizeData(target)),
        scope, caller.hash, ids, now);
      return Ok(response);
    }

    method AcceptSnapshotCreate(caller: Caller, wish: Wish, ids: Minted, now: Time)
      returns (accepted: Result<AcceptedMutation, DomainError>)
      requires wish.SnapshotWish?
      modifies this
      ensures (State(), accepted) == Outcome(old(State()), Accept(old(State()), catalog, caller, wish, ids, now))
    {
      var scope := ScopeOf(caller, wish);
      var replayed := FindReplayedResponse(scope, caller.hash);
      if replayed.Some? {
        return replayed.value;
      }
      var locked := LockInstanceForMutation(caller.projectId, wish.instanceId);
      if locked.Err? {
        return Err(locked.error);
      }
      if caller.projectId !in catalog.quotas {
        return Err(ProjectNotFound);
      }
      var used := set s | s in snapshots && snapshots[s].projectId == caller.projectId;
      assert used == SnapshotsOf(State(), caller.projectId);
      if |used| + 1 > catalog.quotas[caller.projectId].snapshots {
        return Err(QuotaExceeded);
      }
      if exists s | s in snapshots :: snapshots[s].instanceId == wish.instanceId && snapshots[s].name == wish.name {
        return Err(ValidationFailed);
      }
      snapshots := snapshots[ids.target := Snapshot(caller.projectId, wish.instanceId, wish.name, SnapCreating)];
      var response := WriteOperation(
        Plan(wish.instanceId, locked.value.(active := Some(ids.operationId)), ids.target, Some(ids.target), leases, snapshots,
             SnapshotCreateData(ids.target, wish.name)),
        scope, caller.hash, ids, now);
      return Ok(response);
    }

    method AcceptSnapshotAction(caller: Caller, wish: Wish, ids: Minted, now: Time)
      returns (accepted: Result<AcceptedMutation, DomainError>)
      requires wish.RollbackWish? || wish.DeleteWish?
      modifies this
      ensures (State(), accepted) == Outcome(old(State()), Accept(old(State()), catalog, caller, wish, ids, now))
    {
      var scope := ScopeOf(caller, wish);
      var replayed := FindReplayedResponse(scope, caller.hash);
      if replayed.Some? {
        return replayed.value;
      }
      var locked := LockInstanceForMutation(caller.projectId, wish.instanceId);
      if locked.Err? {
        return Err(locked.error);
      }
      var id := wish.snapshotId;
      if id !in snapshots {
        return Err(SnapshotNotFound);
      }
      if snapshots[id].instanceId != wish.instanceId {
        return Err(SnapshotOwnershipMismatch);
      }
      if snapshots[id].state != SnapAvailable {
        return Err(InstanceBusy);
      }
      var name := snapshots[id].name;
      snapshots := snapshots[id := snapshots[id].(state := if wish.RollbackWish? then SnapRollingBack else SnapDeleting)];
      var data := if wish.RollbackWish? then SnapshotRollbackData(id, name) else SnapshotDeleteData(id, name);
      var response := WriteOperation(
        Plan(wish.instanceId, locked.value.(active := Some(ids.operationId)), id, Some(id), leases, snapshots, data),
        scope, caller.hash, ids, now);
      return Ok(response);
    }

    method AcceptRetention(caller: Caller, wish: Wish, ids: Minted, now: Time)
      returns (accepted: Result<AcceptedMutation, DomainError>)
      requires wish.RetainWish?
      modifies this
      ensures (State(), accepted) == Outcome(old(State()), Accept(old(State()), catalog, caller, wish, ids, now))
    {
      var scope := ScopeOf(caller, wish);
      var replayed := FindReplayedResponse(scope, caller.hash);
      if replayed.Some? {
        return replayed.value;
      }
      var locked := LockInstanceForMutation(caller.projectId, wish.instanceId);
      if locked.Err? {
        return Err(locked.error);
      }
      var deadline := now + catalog.retentionHours * MILLISECONDS_PER_HOUR;
      var instance := locked.value.(active := Some(ids.operationId), lifecycle := Deleting,
                                    retentionDeadline := Some(deadline), purgeEligible := false);
      if wish.instanceId in leases && leases[wish.instanceId].state.LeaseActive? {
        var state := if catalog.releaseOnRetain then LeaseReleased else LeaseQuarantined;
        leases := leases[wish.instanceId := leases[wish.instanceId].(state := state)];
      }
      var response := WriteOperation(
        Plan(wish.instanceId, instance, wish.instanceId, None, leases, snapshots, RetentionData(deadline)),
        scope, caller.hash, ids, now);
      return Ok(response);
    }

    /** The three guards of a purge, all before any command is published. */
    method AcceptPurge(caller: Caller, wish: Wish, ids: Minted, now: Time) returns (accepted: Result<AcceptedMutation, DomainError>)
      requires wish.PurgeWish?
      modifies this
      ensures (State(), accepted) == Outcome(old(State()), Accept(old(State()), catalog, caller, wish, ids, now))
    {
      if wish.confirmation != wish.instanceId {
        return Err(ValidationFailed);
      }
      var scope := ScopeOf(caller, wish);
      var replayed := FindReplayedResponse(scope, caller.hash);
      if replayed.Some? {
        return replayed.value;
      }
      if wish.instanceId !in instances {
        return Err(InstanceNotFound);
      }
      var instance := instances[wish.instanceId];
      if instance.active.Some? {
        return Err(InstanceBusy);
      }
      if instance.lifecycle != Retained {
        return Err(InstanceBusy);
      }
      if instance.retentionDeadline.None? || instance.retentionDeadline.value > now {
        return Err(InstanceBusy);
      }
      var pending := instance.(active := Some(ids.operationId), lifecycle := PurgePending, purgeEligible := true);
      var response := WriteOperation(
        Plan(wish.instanceId, pending, wish.instanceId, None, leases, snapshots, PurgeData(instance.retentionDeadline.value)),
        scope, caller.hash, ids, now);
      return Ok(response);
    }

    /** Moves a lease to the next state of its one-way progression, if it is not already there. */
    method ReleaseIpv4Lease(instanceId: nat, release: bool) returns (state: Option<LeaseState>)
      modifies this`leases
      ensures (leases, state) == ReleaseLease(old(leases), instanceId, release)
    {
      if instanceId !in leases {
        return None;
      }
      var target := if release then LeaseReleased else LeaseQuarantined;
      var lease := leases[instanceId];
      if lease.state == LeaseReleased || lease.state == target {
        return Some(lease.state);
      }
      leases := leases[instanceId := lease.(state := target)];
      return Some(target);
    }
  }
}
