/**
 * What every acceptance, projection and lease release keeps, over whole runs of the platform, with
 * governed replay: addresses, snapshots, idempotency records and the one-way fields of an instance.
 * `Quota` says what becomes of the quota.
 */
module Conservation {
  import opened Prelude
  import opened Stages
  import opened SagaEngine
  import opened SagaRuns
  import opened WorkflowTables
  import opened Orchestrator
  import opened Fencing
  import opened RowRuns
  import opened Domain
  import opened Sums
  import opened ControlTables
  import opened Platform
  import Ipv4

  // ----- Control steps -----------------------------------------------------------------------

  /** Fresh identifiers, as `Platform.Fresh` provides them to the control tables. */
  predicate FreshIn(c: Control, wish: Wish, ids: Minted) {
    && ids.operationId !in c.operations
    && (wish.CreateWish? ==> ids.target !in c.instances)
    && (wish.SnapshotWish? ==> ids.target !in c.snapshots)
  }

  /** The tables after an acceptance that was carried out. */
  ghost predicate Accepts(c: Control, d: Control, catalog: Catalog, caller: Caller, wish: Wish, ids: Minted, now: Time) {
    && FreshIn(c, wish, ids) && ScopeOf(caller, wish) !in c.records
    && PlanOf(c, catalog, caller, wish, ids, now).Ok?
    && d == Carry(c, PlanOf(c, catalog, caller, wish, ids, now).value, ScopeOf(caller, wish), caller.hash, ids, now)
  }

  /** The tables after projecting an event, which need not be about the active operation. */
  ghost predicate Projects(c: Control, d: Control, i: nat, event: Event) {
    Projectable(c, i, event) && d == Project(c, i, event)
  }

  /** What a step of the platform does to the control tables. */
  datatype Move =
    | NoMove
    | AcceptMove(caller: Caller, wish: Wish, ids: Minted, now: Time)
    | ProjectMove(i: nat, event: Event)
    | AskMove(request: ReplayRequested)
    | ReleaseMove(instanceId: nat, release: bool)

  ghost predicate Moves(c: Control, d: Control, catalog: Catalog, move: Move) {
    match move
    case NoMove => d == c
    case AcceptMove(caller, wish, ids, now) => Accepts(c, d, catalog, caller, wish, ids, now)
    case ProjectMove(i, event) => Projects(c, d, i, event)
    case AskMove(request) => d == c.(intents := c.intents[request.requestId := ReplayIntent(request, IntentAccepted)])
    case ReleaseMove(i, release) => d == c.(leases := ReleaseLease(c.leases, i, release).0)
  }

  lemma RequestMoves(s: Platform, catalog: Catalog, caller: Caller, wish: Wish, ids: Minted) returns (move: Move)
    requires Fresh(s, wish, ids)
    ensures move.NoMove? || move.AcceptMove?
    ensures Moves(s.control, Submitted(s, catalog, caller, wish, ids).control, catalog, move)
  {
    move := NoMove;
    if Submitted(s, catalog, caller, wish, ids) != s {
      move := AcceptMove(caller, wish, ids, s.orc.now);
    }
  }

  lemma StepMoves(s: Platform, catalog: Catalog, input: PlatformInput) returns (move: Move)
    requires Linked(s)
    ensures Moves(s.control, PlatformStep(s, catalog, input).control, catalog, move)
  {
    move := NoMove;
    if PlatformEnabled(s, input) {
      match input
      case Request(caller, wish, ids) =>
        move := RequestMoves(s, catalog, caller, wish, ids);
      case ProjectNext(i) =>
        NextIsProjectable(s, i);
        move := ProjectMove(i, Queue(s, i)[Cursor(s, i)]);
      case RequestReplay(request) =>
        move := AskMove(request);
      case Release(i, release) =>
        move := ReleaseMove(i, release);
      case Work(_) =>
    }
  }

  // ----- Purged instances --------------------------------------------------------------------

  /** The event records that a purge found the machine gone. */
  predicate RecordsPurge(event: Event) {
    event.MutationCompleted? && event.lifecycle.Purged?
  }

  /** Projected onto a purged instance, the event brings it back. */
  predicate Disturbs(event: Event) {
    !event.ReplayResolved? && !RecordsPurge(event)
  }

  ghost predicate PurgedIdle(c: Control) {
    forall i | i in c.instances && c.instances[i].lifecycle.Purged? :: c.instances[i].active.None?
  }

  lemma PlansDoNotPurge(c: Control, catalog: Catalog, caller: Caller, wish: Wish, ids: Minted, now: Time)
    requires PlanOf(c, catalog, caller, wish, ids, now).Ok?
    ensures var plan := PlanOf(c, catalog, caller, wish, ids, now).value;
            !plan.instance.lifecycle.Purged?
            && (!wish.CreateWish? ==> plan.instanceId in c.instances && !c.instances[plan.instanceId].lifecycle.Purged?)
  {
    match wish
    case CreateWish(_, _, _) =>
    case _ =>
  }

  lemma MoveKeepsPurgedIdle(c: Control, d: Control, catalog: Catalog, move: Move)
    requires Moves(c, d, catalog, move) && PurgedIdle(c)
    ensures PurgedIdle(d)
  {
    if move.AcceptMove? {
      PlansDoNotPurge(c, catalog, move.caller, move.wish, move.ids, move.now);
    }
  }

  /** A purged instance stays as it is unless an event that disturbs it is projected onto it. */
  lemma UndisturbedStays(c: Control, d: Control, catalog: Catalog, move: Move, i: nat)
    requires Moves(c, d, catalog, move) && PurgedIdle(c) && i in c.instances && c.instances[i].lifecycle.Purged?
    requires move.ProjectMove? && move.i == i ==> !Disturbs(move.event)
    ensures i in d.instances && d.instances[i] == c.instances[i]
  {
    if move.AcceptMove? {
      PlansDoNotPurge(c, catalog, move.caller, move.wish, move.ids, move.now);
      PlanShape(c, catalog, move.caller, move.wish, move.ids, move.now);
    }
  }

  // ----- Addresses ---------------------------------------------------------------------------

  /** No two leases in use on a network share an address. */
  ghost predicate AddressesDistinct(c: Control) {
    forall i, j | i in c.leases && j in c.leases && i != j
      && c.leases[i].networkId == c.leases[j].networkId && Held(c.leases[i]) && Held(c.leases[j]) ::
      c.leases[i].address != c.leases[j].address
  }

  function LeaseRank(state: LeaseState): nat {
    match state
    case LeaseActive => 0
    case LeaseQuarantined => 1
    case LeaseReleased => 2
  }

  /** Leases keep their network and address and only move forwards. */
  ghost predicate LeasesForward(c: Control, d: Control) {
    forall i | i in c.leases ::
      && i in d.leases && d.leases[i].networkId == c.leases[i].networkId && d.leases[i].address == c.leases[i].address
      && LeaseRank(c.leases[i].state) <= LeaseRank(d.leases[i].state)
  }

  /** Only instances have leases, so a new instance's lease replaces none. */
  ghost predicate LeasesHaveInstances(c: Control) {
    forall i | i in c.leases :: i in c.instances
  }

  /** An address just allocated is not in use. */
  lemma AllocatedIsFree(pool: Ipv4.Pool, leased: set<string>)
    requires Ipv4.Allocate(pool, leased).Ok?
    ensures Ipv4.Allocate(pool, leased).value !in leased
  {
    var block := Ipv4.BlockOf(pool).value;
    Ipv4.BlocksFit(pool);
    var k := Ipv4.StopsAt(block, pool, leased);
  }

  lemma CreateLeases(c: Control, catalog: Catalog, caller: Caller, wish: Wish, ids: Minted)
    requires wish.CreateWish? && PlanCreate(c, catalog, caller, wish, ids).Ok?
    ensures var plan := PlanCreate(c, catalog, caller, wish, ids).value;
            && ids.target in plan.leases && plan.leases == c.leases[ids.target := plan.leases[ids.target]]
            && plan.leases[ids.target].address !in HeldAddresses(c.leases, plan.leases[ids.target].networkId)
  {
    AllocatedIsFree(catalog.networks[wish.networkId].pool, HeldAddresses(c.leases, wish.networkId));
  }

  lemma OtherPlansLeases(c: Control, catalog: Catalog, caller: Caller, wish: Wish, ids: Minted, now: Time)
    requires !wish.CreateWish? && PlanOf(c, catalog, caller, wish, ids, now).Ok?
    ensures var plan := PlanOf(c, catalog, caller, wish, ids, now).value;
            plan.leases == c.leases
            || (wish.RetainWish?
                && plan.leases == LeasesAfterRetention(c.leases, wish.instanceId, catalog.releaseOnRetain))
  {
    match wish
    case PowerWish(_, _) =>
    case _ =>
  }

  lemma AddingKeepsAddresses(c: Control, d: Control, id: nat)
    requires AddressesDistinct(c) && LeasesHaveInstances(c) && id !in c.instances
    requires id in d.leases && d.leases == c.leases[id := d.leases[id]]
    requires d.leases[id].address !in HeldAddresses(c.leases, d.leases[id].networkId)
    requires forall i | i in c.instances :: i in d.instances
    requires id in d.instances
    ensures AddressesDistinct(d) && LeasesHaveInstances(d) && LeasesForward(c, d)
  {
    forall j | j in c.leases && c.leases[j].networkId == d.leases[id].networkId && Held(c.leases[j])
      ensures c.leases[j].address != d.leases[id].address
    {
      assert c.leases[j].address in HeldAddresses(c.leases, d.leases[id].networkId);
    }
  }

  lemma AcceptKeepsAddresses(c: Control, d: Control, catalog: Catalog, move: Move)
    requires move.AcceptMove? && Moves(c, d, catalog, move) && AddressesDistinct(c) && LeasesHaveInstances(c)
    ensures AddressesDistinct(d) && LeasesHaveInstances(d) && LeasesForward(c, d)
  {
    PlanShape(c, catalog, move.caller, move.wish, move.ids, move.now);
    if move.wish.CreateWish? {
      CreateLeases(c, catalog, move.caller, move.wish, move.ids);
      AddingKeepsAddresses(c, d, move.ids.target);
    } else {
      OtherPlansLeases(c, catalog, move.caller, move.wish, move.ids, move.now);
    }
  }

  lemma ReleaseKeepsAddresses(c: Control, d: Control, i: nat, release: bool)
    requires d == c.(leases := ReleaseLease(c.leases, i, release).0) && AddressesDistinct(c) && LeasesHaveInstances(c)
    ensures AddressesDistinct(d) && LeasesHaveInstances(d) && LeasesForward(c, d)
  {
  }

  // ----- Desired disks -----------------------------------------------------------------------

  ghost predicate DisksKept(c: Control, d: Control) {
    forall i | i in c.instances ::
      i in d.instances && c.instances[i].desired.disk <= d.instances[i].desired.disk
      && d.instances[i].projectId == c.instances[i].projectId
      && d.instances[i].createOperationId == c.instances[i].createOperationId
  }

  lemma PlansKeepDisks(c: Control, catalog: Catalog, caller: Caller, wish: Wish, ids: Minted, now: Time)
    requires !wish.CreateWish? && PlanOf(c, catalog, caller, wish, ids, now).Ok?
    ensures var plan := PlanOf(c, catalog, caller, wish, ids, now).value;
            plan.instanceId in c.instances
            && c.instances[plan.instanceId].desired.disk <= plan.instance.desired.disk
            && (!wish.ResizeWish? ==> plan.instance.desired == c.instances[plan.instanceId].desired)
  {
    match wish
    case ResizeWish(_, _, _) =>
    case _ =>
  }

  lemma MoveKeepsDisks(c: Control, d: Control, catalog: Catalog, move: Move)
    requires Moves(c, d, catalog, move)
    ensures DisksKept(c, d)
  {
    if move.AcceptMove? {
      PlanShape(c, catalog, move.caller, move.wish, move.ids, move.now);
      if !move.wish.CreateWish? {
        PlansKeepDisks(c, catalog, move.caller, move.wish, move.ids, move.now);
      }
    }
  }

  // ----- Snapshots ---------------------------------------------------------------------------

  /** No two snapshots of an instance share a name. */
  ghost predicate NamesDistinct(c: Control) {
    forall s, s' | s in c.snapshots && s' in c.snapshots && s != s' && c.snapshots[s].instanceId == c.snapshots[s'].instanceId ::
      c.snapshots[s].name != c.snapshots[s'].name
  }

  ghost predicate SnapshotsWithinQuota(c: Control, catalog: Catalog) {
    forall p | p in catalog.quotas :: |SnapshotsOf(c, p)| <= catalog.quotas[p].snapshots
  }

  lemma PlanSnapshots(c: Control, catalog: Catalog, caller: Caller, wish: Wish, ids: Minted, now: Time)
    requires PlanOf(c, catalog, caller, wish, ids, now).Ok?
    ensures var plan := PlanOf(c, catalog, caller, wish, ids, now).value;
            || plan.snapshots == c.snapshots
            || (wish.SnapshotWish?
                && plan.snapshots == c.snapshots[ids.target := Snapshot(caller.projectId, wish.instanceId, wish.name, SnapCreating)]
                && !NameTaken(c, wish.instanceId, wish.name) && caller.projectId in catalog.quotas
                && |SnapshotsOf(c, caller.projectId)| + 1 <= catalog.quotas[caller.projectId].snapshots)
            || (exists id, state :: id in c.snapshots && plan.snapshots == c.snapshots[id := c.snapshots[id].(state := state)])
  {
    match wish
    case RollbackWish(_, id) =>
      assert PlanOf(c, catalog, caller, wish, ids, now).value.snapshots == c.snapshots[id := c.snapshots[id].(state := SnapRollingBack)];
    case DeleteWish(_, id) =>
      assert PlanOf(c, catalog, caller, wish, ids, now).value.snapshots == c.snapshots[id := c.snapshots[id].(state := SnapDeleting)];
    case _ =>
  }

  lemma SubsetsAreSmaller<T>(a: set<T>, b: set<T>)
    requires a <= b
    ensures |a| <= |b|
  {
    assert b == a + (b - a);
  }

  lemma CountAfterAdding(c: Control, d: Control, id: nat, snapshot: Snapshot, p: nat)
    requires id !in c.snapshots && d.snapshots == c.snapshots[id := snapshot]
    ensures |SnapshotsOf(d, p)| == |SnapshotsOf(c, p)| + if p == snapshot.projectId then 1 else 0
  {
    if p == snapshot.projectId {
      assert SnapshotsOf(d, p) == SnapshotsOf(c, p) + {id};
    } else {
      assert SnapshotsOf(d, p) == SnapshotsOf(c, p);
    }
  }

  lemma AddingKeepsCounts(c: Control, d: Control, catalog: Catalog, id: nat, snapshot: Snapshot)
    requires SnapshotsWithinQuota(c, catalog) && id !in c.snapshots && d.snapshots == c.snapshots[id := snapshot]
    requires snapshot.projectId in catalog.quotas
    requires |SnapshotsOf(c, snapshot.projectId)| + 1 <= catalog.quotas[snapshot.projectId].snapshots
    ensures SnapshotsWithinQuota(d, catalog)
  {
    forall p | p in catalog.quotas
      ensures |SnapshotsOf(d, p)| <= catalog.quotas[p].snapshots
    {
      CountAfterAdding(c, d, id, snapshot, p);
    }
  }

  lemma AddingKeepsNames(c: Control, d: Control, id: nat, snapshot: Snapshot)
    requires NamesDistinct(c) && id !in c.snapshots && d.snapshots == c.snapshots[id := snapshot]
    requires !NameTaken(c, snapshot.instanceId, snapshot.name)
    ensures NamesDistinct(d)
  {
  }

  lemma ChangingKeepsSnapshots(c: Control, d: Control, catalog: Catalog, id: nat, state: SnapshotState)
    requires NamesDistinct(c) && SnapshotsWithinQuota(c, catalog) && id in c.snapshots
    requires d.snapshots == c.snapshots[id := c.snapshots[id].(state := state)]
    ensures NamesDistinct(d) && SnapshotsWithinQuota(d, catalog)
  {
    assert forall p :: SnapshotsOf(d, p) == SnapshotsOf(c, p);
  }

  lemma AcceptKeepsSnapshots(c: Control, d: Control, catalog: Catalog, move: Move)
    requires move.AcceptMove? && Moves(c, d, catalog, move) && NamesDistinct(c) && SnapshotsWithinQuota(c, catalog)
    ensures NamesDistinct(d) && SnapshotsWithinQuota(d, catalog)
  {
    PlanSnapshots(c, catalog, move.caller, move.wish, move.ids, move.now);
    if d.snapshots == c.snapshots {
      assert forall p :: SnapshotsOf(d, p) == SnapshotsOf(c, p);
    } else if move.wish.SnapshotWish? {
      var snapshot := Snapshot(move.caller.projectId, move.wish.instanceId, move.wish.name, SnapCreating);
      AddingKeepsCounts(c, d, catalog, move.ids.target, snapshot);
      AddingKeepsNames(c, d, move.ids.target, snapshot);
    } else {
      var id, state :| id in c.snapshots && d.snapshots == c.snapshots[id := c.snapshots[id].(state := state)];
      ChangingKeepsSnapshots(c, d, catalog, id, state);
    }
  }

  lemma ProjectKeepsSnapshots(c: Control, d: Control, catalog: Catalog, i: nat, event: Event)
    requires Projects(c, d, i, event) && NamesDistinct(c) && SnapshotsWithinQuota(c, catalog)
    ensures NamesDistinct(d) && SnapshotsWithinQuota(d, catalog)
  {
    forall p | p in catalog.quotas
      ensures |SnapshotsOf(d, p)| <= catalog.quotas[p].snapshots
    {
      assert SnapshotsOf(d, p) <= SnapshotsOf(c, p);
      SubsetsAreSmaller(SnapshotsOf(d, p), SnapshotsOf(c, p));
    }
  }

  // ----- Idempotency -------------------------------------------------------------------------

  ghost predicate Recorded(c: Control, op: nat) {
    exists scope :: scope in c.records && c.records[scope].response.operationId == op
  }

  ghost predicate Published(c: Control, op: nat) {
    exists k :: 0 <= k < |c.outbox| && c.outbox[k].operationId == op
  }

  /** Scopes and operations correspond one to one. */
  ghost predicate ScopesExact(c: Control) {
    && (forall scope | scope in c.records ::
          c.records[scope].response.operationId in c.operations && !c.records[scope].response.replayed)
    && (forall scope, scope' | scope in c.records && scope' in c.records && scope != scope' ::
          c.records[scope].response.operationId != c.records[scope'].response.operationId)
    && (forall op | op in c.operations :: Recorded(c, op))
  }

  /** Operations and published commands correspond one to one. */
  ghost predicate OutboxExact(c: Control) {
    && (forall k | 0 <= k < |c.outbox| :: c.outbox[k].operationId in c.operations)
    && (forall j, k | 0 <= j < k < |c.outbox| :: c.outbox[j].operationId != c.outbox[k].operationId)
    && (forall op | op in c.operations :: Published(c, op))
  }

  ghost predicate RecordsExact(c: Control) {
    ScopesExact(c) && OutboxExact(c)
  }

  ghost predicate RecordsStay(c: Control, d: Control) {
    forall scope | scope in c.records :: scope in d.records && d.records[scope] == c.records[scope]
  }

  lemma CarryKeepsScopes(c: Control, plan: Plan, scope: Scope, hash: nat, ids: Minted, now: Time)
    requires ScopesExact(c) && scope !in c.records && ids.operationId !in c.operations
    ensures var d := Carry(c, plan, scope, hash, ids, now); ScopesExact(d) && RecordsStay(c, d)
  {
    var d := Carry(c, plan, scope, hash, ids, now);
    assert d.records[scope].response.operationId == ids.operationId;
    forall op | op in d.operations
      ensures Recorded(d, op)
    {
      if op != ids.operationId {
        assert Recorded(c, op);
        var own :| own in c.records && c.records[own].response.operationId == op;
        assert d.records[own] == c.records[own];
      }
    }
  }

  lemma CarryKeepsOutbox(c: Control, plan: Plan, scope: Scope, hash: nat, ids: Minted, now: Time)
    requires OutboxExact(c) && ids.operationId !in c.operations
    ensures OutboxExact(Carry(c, plan, scope, hash, ids, now))
  {
    var d := Carry(c, plan, scope, hash, ids, now);
    assert d.outbox[|c.outbox|].operationId == ids.operationId;
    forall op | op in d.operations
      ensures Published(d, op)
    {
      if op != ids.operationId {
        assert Published(c, op);
        var k :| 0 <= k < |c.outbox| && c.outbox[k].operationId == op;
        assert d.outbox[k] == c.outbox[k];
      }
    }
  }

  lemma SameOrdersKeepRecords(c: Control, d: Control)
    requires RecordsExact(c) && d.records == c.records && d.outbox == c.outbox && d.operations.Keys == c.operations.Keys
    ensures RecordsExact(d)
  {
    forall op | op in d.operations
      ensures Recorded(d, op) && Published(d, op)
    {
      assert op in c.operations.Keys;
      assert Recorded(c, op) && Published(c, op);
    }
    assert forall op :: op in c.operations.Keys ==> op in d.operations.Keys;
  }

  lemma MoveKeepsRecords(c: Control, d: Control, catalog: Catalog, move: Move)
    requires Moves(c, d, catalog, move) && RecordsExact(c)
    ensures RecordsExact(d) && RecordsStay(c, d)
  {
    if move.AcceptMove? {
      var plan := PlanOf(c, catalog, move.caller, move.wish, move.ids, move.now).value;
      CarryKeepsScopes(c, plan, ScopeOf(move.caller, move.wish), move.caller.hash, move.ids, move.now);
      CarryKeepsOutbox(c, plan, ScopeOf(move.caller, move.wish), move.caller.hash, move.ids, move.now);
    } else {
      assert d.operations.Keys == c.operations.Keys;
      SameOrdersKeepRecords(c, d);
    }
  }

  /** A repeated key is answered from its record and changes nothing; a reused one is refused. */
  lemma RepeatChangesNothing(c: Control, catalog: Catalog, caller: Caller, wish: Wish, ids: Minted, now: Time)
    requires ScopeOf(caller, wish) in c.records && !(wish.PurgeWish? && wish.confirmation != wish.instanceId)
    ensures var record := c.records[ScopeOf(caller, wish)];
            Accept(c, catalog, caller, wish, ids, now)
            == if record.hash == caller.hash then Ok((c, record.response.(replayed := true))) else Err(IdempotencyConflict)
  {
  }

  // ----- Documents ---------------------------------------------------------------------------

  /** The read document shows the row's marker always, and its lifecycle whenever it is idle. */
  ghost predicate DocumentsAgree(c: Control) {
    && c.documents.Keys == c.instances.Keys
    && (forall i | i in c.instances ::
          && i in c.documents && c.documents[i].active == c.instances[i].active
          && (c.instances[i].active.None? ==> c.documents[i].lifecycle == c.instances[i].lifecycle))
  }

  lemma CarryKeepsDocuments(c: Control, plan: Plan, scope: Scope, hash: nat, ids: Minted, now: Time)
    requires DocumentsAgree(c) && plan.instance.active.Some?
    requires !plan.data.CreateData? ==> plan.instanceId in c.instances
    ensures DocumentsAgree(Carry(c, plan, scope, hash, ids, now))
  {
    var d := Carry(c, plan, scope, hash, ids, now);
    assert plan.instanceId in c.instances.Keys ==> plan.instanceId in c.documents.Keys;
    assert d.documents.Keys == c.documents.Keys + {plan.instanceId};
  }

  lemma ProjectKeepsDocuments(c: Control, d: Control, i: nat, event: Event)
    requires Projects(c, d, i, event) && DocumentsAgree(c)
    ensures DocumentsAgree(d)
  {
    assert d.documents.Keys == c.documents.Keys && d.instances.Keys == c.instances.Keys;
  }

  lemma MoveKeepsDocuments(c: Control, d: Control, catalog: Catalog, move: Move)
    requires Moves(c, d, catalog, move) && DocumentsAgree(c)
    ensures DocumentsAgree(d)
  {
    match move
    case NoMove =>
    case AcceptMove(caller, wish, ids, now) =>
      PlanShape(c, catalog, caller, wish, ids, now);
      CarryKeepsDocuments(c, PlanOf(c, catalog, caller, wish, ids, now).value, ScopeOf(caller, wish), caller.hash, ids, now);
    case ProjectMove(i, event) => ProjectKeepsDocuments(c, d, i, event);
    case AskMove(_) =>
    case ReleaseMove(_, _) =>
  }

  // ----- Every run ---------------------------------------------------------------------------

  ghost predicate Kept(c: Control, catalog: Catalog) {
    && PurgedIdle(c) && AddressesDistinct(c) && LeasesHaveInstances(c)
    && NamesDistinct(c) && SnapshotsWithinQuota(c, catalog) && RecordsExact(c) && DocumentsAgree(c)
  }

  lemma MoveKeepsAddresses(c: Control, d: Control, catalog: Catalog, move: Move)
    requires Moves(c, d, catalog, move) && AddressesDistinct(c) && LeasesHaveInstances(c)
    ensures AddressesDistinct(d) && LeasesHaveInstances(d) && LeasesForward(c, d)
  {
    match move
    case NoMove =>
    case AcceptMove(_, _, _, _) => AcceptKeepsAddresses(c, d, catalog, move);
    case ProjectMove(i, event) =>
    case AskMove(_) =>
    case ReleaseMove(i, release) => ReleaseKeepsAddresses(c, d, i, release);
  }

  lemma MoveKeepsSnapshots(c: Control, d: Control, catalog: Catalog, move: Move)
    requires Moves(c, d, catalog, move) && NamesDistinct(c) && SnapshotsWithinQuota(c, catalog)
    ensures NamesDistinct(d) && SnapshotsWithinQuota(d, catalog)
  {
    match move
    case NoMove =>
    case AcceptMove(_, _, _, _) => AcceptKeepsSnapshots(c, d, catalog, move);
    case ProjectMove(i, event) => ProjectKeepsSnapshots(c, d, catalog, i, event);
    case AskMove(_) => assert forall p :: SnapshotsOf(d, p) == SnapshotsOf(c, p);
    case ReleaseMove(_, _) => assert forall p :: SnapshotsOf(d, p) == SnapshotsOf(c, p);
  }

  lemma MoveKeepsAll(c: Control, d: Control, catalog: Catalog, move: Move)
    requires Moves(c, d, catalog, move) && Kept(c, catalog)
    ensures Kept(d, catalog) && LeasesForward(c, d) && DisksKept(c, d) && RecordsStay(c, d)
  {
    MoveKeepsPurgedIdle(c, d, catalog, move);
    MoveKeepsAddresses(c, d, catalog, move);
    MoveKeepsSnapshots(c, d, catalog, move);
    MoveKeepsRecords(c, d, catalog, move);
    MoveKeepsDocuments(c, d, catalog, move);
    MoveKeepsDisks(c, d, catalog, move);
  }

  lemma EmptyIsKept(catalog: Catalog)
    ensures Kept(EmptyControl(), catalog)
  {
    assert forall p :: SnapshotsOf(EmptyControl(), p) == {};
  }

  /**
   * After any sequence of requests, replays, workflow steps, projections and lease releases: no
   * address in use is shared, snapshot names and counts are in bounds, each idempotency scope has
   * exactly one operation and one published command, and purged instances are idle.
   */
  lemma {:induction false} RunsAreKept(start: Time, catalog: Catalog, inputs: seq<PlatformInput>)
    ensures Kept(PlatformRun(start, catalog, inputs).control, catalog)
  {
    if inputs == [] {
      EmptyIsKept(catalog);
    } else {
      var before := inputs[..|inputs| - 1];
      RunsAreKept(start, catalog, before);
      RunsAreLinked(start, catalog, before);
      var s := PlatformRun(start, catalog, before);
      var move := StepMoves(s, catalog, inputs[|inputs| - 1]);
      MoveKeepsAll(s.control, PlatformStep(s, catalog, inputs[|inputs| - 1]).control, catalog, move);
    }
  }

  /** Two instances never hold the same address on a network. */
  lemma AddressesAreUnique(start: Time, catalog: Catalog, inputs: seq<PlatformInput>, i: nat, j: nat)
    requires var leases := PlatformRun(start, catalog, inputs).control.leases;
             && i in leases && j in leases && leases[i].networkId == leases[j].networkId
             && leases[i].address == leases[j].address && Held(leases[i]) && Held(leases[j])
    ensures i == j
  {
    RunsAreKept(start, catalog, inputs);
  }

  /** From one point of a run to a later one. */
  ghost predicate MovesOn(c: Control, d: Control) {
    LeasesForward(c, d) && DisksKept(c, d) && RecordsStay(c, d)
  }

  lemma MovesOnChains(c: Control, d: Control, e: Control)
    requires MovesOn(c, d) && MovesOn(d, e)
    ensures MovesOn(c, e)
  {
  }

  /**
   * Between any two points of a run: leases only move forward, an instance's desired disk never
   * shrinks and its project and creating operation never change, and idempotency records stay.
   */
  lemma {:induction false} RunsMoveOn(start: Time, catalog: Catalog, inputs: seq<PlatformInput>, n: nat)
    requires n <= |inputs|
    ensures MovesOn(PlatformRun(start, catalog, inputs[..n]).control, PlatformRun(start, catalog, inputs).control)
    decreases |inputs|
  {
    if n == |inputs| {
      assert inputs[..n] == inputs;
    } else {
      var before := inputs[..|inputs| - 1];
      assert before[..n] == inputs[..n];
      RunsMoveOn(start, catalog, before, n);
      RunsAreKept(start, catalog, before);
      RunsAreLinked(start, catalog, before);
      var s := PlatformRun(start, catalog, before);
      var move := StepMoves(s, catalog, inputs[|inputs| - 1]);
      MoveKeepsAll(s.control, PlatformStep(s, catalog, inputs[|inputs| - 1]).control, catalog, move);
      MovesOnChains(PlatformRun(start, catalog, inputs[..n]).control, s.control,
                    PlatformStep(s, catalog, inputs[|inputs| - 1]).control);
    }
  }

  /**
   * Idempotent acceptance over a run: once a request has been accepted, the same request is
   * answered with the same response marked replayed at every later point, a different request
   * under its key is refused, and neither changes anything.
   */
  lemma RepeatedRequestIsRecalled(start: Time, catalog: Catalog, inputs: seq<PlatformInput>, n: nat,
                                  caller: Caller, wish: Wish, ids: Minted, now: Time)
    requires n <= |inputs| && ScopeOf(caller, wish) in PlatformRun(start, catalog, inputs[..n]).control.records
    requires !(wish.PurgeWish? && wish.confirmation != wish.instanceId)
    ensures var first := PlatformRun(start, catalog, inputs[..n]).control.records[ScopeOf(caller, wish)];
            var c := PlatformRun(start, catalog, inputs).control;
            Accept(c, catalog, caller, wish, ids, now)
            == if first.hash == caller.hash then Ok((c, first.response.(replayed := true))) else Err(IdempotencyConflict)
  {
    RunsMoveOn(start, catalog, inputs, n);
    RepeatChangesNothing(PlatformRun(start, catalog, inputs).control, catalog, caller, wish, ids, now);
  }
}
