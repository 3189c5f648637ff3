/**
 * Two runs that replay a dead letter. In one a purged instance comes back and its project exceeds its
 * quota; in the other an instance is left unmarked while an operation is at work on it.
 */
module Scenarios {
  import opened Prelude
  import opened Stages
  import opened SagaEngine
  import opened SagaRuns
  import opened WorkflowTables
  import opened Orchestrator
  import opened RowRuns
  import opened GovernedReplay
  import opened Domain
  import opened Sums
  import opened ControlTables
  import opened Platform
  import opened Turns
  import opened Continuations
  import opened Conservation
  import opened Quota
  import opened EndToEnd
  import opened ReplayedMarker
  import opened Revival
  import opened Episodes
  import Ipv4

  // ----- One project with room for one instance ----------------------------------------------

  const SIZE := Sizing(1, 1, 1)

  /** Four addresses, the first of them the gateway as well as the network. */
  function Addresses(): Ipv4.Pool {
    Ipv4.Pool(Ipv4.Print(0), Some(30), Ipv4.Print(0), [])
  }

  const PROJECT_QUOTA := Quota(1, SIZE, 1, 0)

  /** Retained instances may be purged at once, and give their address back. */
  function SmallCatalog(): Catalog {
    Catalog(map[1 := true], map[1 := Image(true, true, 1)], map[1 := Flavor(true, SIZE)],
            map[1 := Network(true, Addresses())], map[1 := PROJECT_QUOTA], 0, true)
  }

  lemma PoolIsWellFormed()
    ensures Ipv4.BlockOf(Addresses()) == Some(Ipv4.Block(0, 4))
  {
    Ipv4.ParsePrint(0);
    assert Ipv4.PowerOf2(2) == 4;
    assert Ipv4.Parse("").None? by {
      assert Ipv4.Split("") == [""];
    }
  }

  lemma FirstIsFree(pool: Ipv4.Pool)
    requires Ipv4.BlockOf(pool) == Some(Ipv4.Block(0, 4)) && pool.exclusions == [] && Ipv4.Parse(pool.gateway) != Some(1)
    ensures Ipv4.Allocate(pool, {}).Ok?
  {
    var address := Ipv4.AllocationIsLowestFree(pool, {});
    assert Ipv4.Free(Ipv4.Block(0, 4), pool, {}, 1);
  }

  lemma AddressIsFree()
    ensures Ipv4.Allocate(Addresses(), {}).Ok?
  {
    PoolIsWellFormed();
    Ipv4.ParsePrint(0);
    FirstIsFree(Addresses());
  }

  // ----- Replies -----------------------------------------------------------------------------

  const TAKEN_ON := Mutation(Some(MutationResult(ResultAccepted, Some(Ref(7)), Some(Ref(9)), None)))
  const DONE := Mutation(Some(MutationResult(ResultSucceeded, None, None, None)))
  const OUTAGE := Transport(TransportErrorOf(Unavailable))
  const OWNED := Observed(Some(Observation(true, Some(Ownership(true, true)), PowerStopped, None)))
  const GONE := Observed(None)

  /** A create is taken on, and its task cannot be polled for a quarter of an hour. */
  function FailingCreate(): Cues {
    Then(NoReply, 0, Then(TAKEN_ON, 0, Then(OUTAGE, 0, Then(OUTAGE, RETRY_BUDGET_MS, End))))
  }

  function Retaining(now: Time): Cues {
    Then(NoReply, now, Then(DONE, now, Then(OWNED, now, End)))
  }

  function Purging(now: Time): Cues {
    Then(NoReply, now, Then(GONE, now, End))
  }

  /** A replayed create whose submission is lost. */
  function LosingCreate(now: Time): Cues {
    Then(NoReply, now, Then(OUTAGE, now, End))
  }

  lemma NoJitter(attempt: nat)
    requires 1 <= attempt
    ensures BackoffDelay(attempt, 0.0, RETRY_BUDGET_MS) <= 0 && 0 <= BackoffDelay(attempt, 0.0, RETRY_BUDGET_MS)
  {
    assert 0.0 * (BackoffCeiling(attempt) as real) == 0.0;
  }

  lemma CreateFails(command: Command, instance: Instance)
    requires command.data.CreateData?
    ensures Playable(command, FreshSaga(None, 0), 0, FailingCreate()) && Exhausts(command, FreshSaga(None, 0), 0, FailingCreate())
    ensures var saga := PlayedSaga(command, FreshSaga(None, 0), 0, FailingCreate());
            saga.status.Failed? && saga.resource == Some(7)
    ensures PlayedInstance(command, instance, FreshSaga(None, 0), 0, FailingCreate())
            == instance.(lifecycle := LifecycleFailed, active := None)
    ensures EndTime(0, FailingCreate()) == RETRY_BUDGET_MS
  {
    NoJitter(1);
    var first := FailingCreate();
    var submitting := NextSaga(command, FreshSaga(None, 0), 0, first);
    assert submitting == Saga(Running, At(SubmittingCreate), None, None, 0, None, 0);
    var polling := NextSaga(command, submitting, 0, first.rest);
    assert polling == Saga(Running, At(PollingCreate), Some(7), Some(9), 0, None, 0);
    var waiting := NextSaga(command, polling, 0, first.rest.rest);
    assert waiting == Saga(RetryWait, At(PollingCreate), Some(7), Some(9), 1, Some(0), 0);
    assert FirstTransition(command, waiting, 0, first.rest.rest.rest).Exhaust?;
  }

  /** One reply of a list, and what follows from the rest. */
  lemma Unfold(command: Command, instance: Instance, saga: Saga, now: Time, cues: Cues)
    requires cues.Then? && CanPlay(command, saga, now, cues)
    requires Playable(command, NextSaga(command, saga, now, cues), cues.time, cues.rest)
    ensures Playable(command, saga, now, cues) && EndTime(now, cues) == EndTime(cues.time, cues.rest)
    ensures var next := NextSaga(command, saga, now, cues);
            var event := EventOf(command.operationId, FirstTransition(command, saga, now, cues));
            && PlayedSaga(command, saga, now, cues) == PlayedSaga(command, next, cues.time, cues.rest)
            && PlayedInstance(command, instance, saga, now, cues)
               == PlayedInstance(command, InstanceAfter(instance, event), next, cues.time, cues.rest)
            && (Exhausts(command, saga, now, cues)
                <==> FirstTransition(command, saga, now, cues).Exhaust? || Exhausts(command, next, cues.time, cues.rest))
  {
  }

  lemma RetentionSucceeds(command: Command, instance: Instance, now: Time)
    requires command.data.RetentionData?
    ensures Playable(command, FreshSaga(Some(7), now), now, Retaining(now))
    ensures !Exhausts(command, FreshSaga(Some(7), now), now, Retaining(now))
    ensures PlayedSaga(command, FreshSaga(Some(7), now), now, Retaining(now)).resource == Some(7)
    ensures PlayedInstance(command, instance, FreshSaga(Some(7), now), now, Retaining(now))
            == instance.(lifecycle := Retained, active := None)
    ensures EndTime(now, Retaining(now)) == now
  {
    var cues, busy := Retaining(now), instance.(lifecycle := Provisioning);
    var submitting := Saga(Running, At(SubmittingRetention), Some(7), None, 0, None, now);
    var observing := Saga(Running, At(ObservingRetention), Some(7), None, 0, None, now);
    assert NextSaga(command, FreshSaga(Some(7), now), now, cues) == submitting;
    assert NextSaga(command, submitting, now, cues.rest) == observing;
    Unfold(command, busy, observing, now, cues.rest.rest);
    Unfold(command, busy, submitting, now, cues.rest);
    Unfold(command, instance, FreshSaga(Some(7), now), now, cues);
  }

  lemma PurgeSucceeds(command: Command, instance: Instance, now: Time)
    requires command.data.PurgeData?
    ensures Playable(command, FreshSaga(Some(7), now), now, Purging(now))
    ensures !Exhausts(command, FreshSaga(Some(7), now), now, Purging(now))
    ensures PlayedSaga(command, FreshSaga(Some(7), now), now, Purging(now)).resource == Some(7)
    ensures PlayedInstance(command, instance, FreshSaga(Some(7), now), now, Purging(now))
            == instance.(lifecycle := Purged, active := None)
    ensures EndTime(now, Purging(now)) == now
  {
    var cues, busy := Purging(now), instance.(lifecycle := Provisioning);
    var verifying := Saga(Running, At(VerifyingPurge), Some(7), None, 0, None, now);
    assert NextSaga(command, FreshSaga(Some(7), now), now, cues) == verifying;
    Unfold(command, busy, verifying, now, cues.rest);
    Unfold(command, instance, FreshSaga(Some(7), now), now, cues);
  }

  lemma ReplayIsLost(command: Command, instance: Instance, now: Time)
    requires command.data.CreateData?
    ensures Playable(command, FreshSaga(None, now), now, LosingCreate(now))
    ensures PlayedInstance(command, instance, FreshSaga(None, now), now, LosingCreate(now))
            == instance.(lifecycle := LifecycleReview, active := None)
  {
    var cues, busy := LosingCreate(now), instance.(lifecycle := Provisioning);
    var submitting := Saga(Running, At(SubmittingCreate), None, None, 0, None, now);
    assert NextSaga(command, FreshSaga(None, now), now, cues) == submitting;
    Unfold(command, busy, submitting, now, cues.rest);
    Unfold(command, instance, FreshSaga(None, now), now, cues);
  }

  // ----- The requests ------------------------------------------------------------------------

  /** All that the project has is purged, and no address is in use. */
  ghost predicate Vacant(c: Control) {
    && (c.instances == map[] || (c.instances.Keys == {1} && c.instances[1].lifecycle.Purged?))
    && HeldOn(c.leases, 1) == {} && HeldAddresses(c.leases, 1) == {}
  }

  lemma VacantUsesNothing(c: Control, dimension: Dimension)
    requires Vacant(c)
    ensures Usage(c, 1, dimension) == 0
  {
    var none: map<nat, Instance> := map[];
    assert Charges(none, 1, dimension) == map[];
    if c.instances != map[] {
      assert c.instances == none[1 := c.instances[1]];
      ChargesUpdate(none, 1, c.instances[1], 1, dimension);
    }
  }

  lemma CreateIsLetIn(c: Control)
    requires Vacant(c)
    ensures CreateFits(c, PROJECT_QUOTA, 1, SIZE)
    ensures ReserveAddress(c, PROJECT_QUOTA, Network(true, Addresses()), 1).Ok?
  {
    AddressIsFree();
    forall dimension: Dimension
      ensures Usage(c, 1, dimension) + Measure(SIZE, dimension) <= Limit(PROJECT_QUOTA, dimension)
    {
      VacantUsesNothing(c, dimension);
    }
  }

  /** Everything in the small catalog can be used. */
  lemma CatalogIsUsable(caller: Caller)
    requires caller.projectId == 1
    ensures var catalog := SmallCatalog();
            && CatalogError(catalog, caller, CreateWish(1, 1, 1)).None?
            && catalog.quotas[1] == PROJECT_QUOTA && catalog.flavors[1].sizing == SIZE
            && catalog.networks[1] == Network(true, Addresses())
  {
  }

  lemma CreateIsPlanned(c: Control, ids: Minted, now: Time) returns (plan: Plan)
    requires Vacant(c)
    ensures PlanOf(c, SmallCatalog(), Caller(1, 1, ids.operationId, 0), CreateWish(1, 1, 1), ids, now) == Ok(plan)
    ensures plan.instanceId == ids.target && plan.data == CreateData(SIZE)
    ensures plan.instance == Instance(1, SIZE, true, Pending, Some(ids.operationId), ids.operationId, None, false)
    ensures plan.leases.Keys == c.leases.Keys + {ids.target} && plan.leases[ids.target].state.LeaseActive?
  {
    CreateIsLetIn(c);
    CatalogIsUsable(Caller(1, 1, ids.operationId, 0));
    plan := PlanOf(c, SmallCatalog(), Caller(1, 1, ids.operationId, 0), CreateWish(1, 1, 1), ids, now).value;
  }

  /** A create is accepted whenever everything the project has is purged. */
  lemma LaunchCreate(s: Platform, ids: Minted) returns (more: seq<PlatformInput>, t: Platform, plan: Plan)
    requires Linked(s) && Vacant(s.control) && Fresh(s, CreateWish(1, 1, 1), ids)
    requires Scope(1, Some(1), CreateInstance, ids.operationId) !in s.control.records && Inherits(s.orc.tables, ids.target, None)
    ensures t == Continued(s, SmallCatalog(), more) && Linked(t)
    ensures Launched(s, t, plan, Scope(1, Some(1), CreateInstance, ids.operationId), 0, ids, None)
    ensures plan.instanceId == ids.target && plan.data == CreateData(SIZE)
    ensures plan.instance == Instance(1, SIZE, true, Pending, Some(ids.operationId), ids.operationId, None, false)
    ensures plan.leases.Keys == s.control.leases.Keys + {ids.target} && plan.leases[ids.target].state.LeaseActive?
  {
    plan := CreateIsPlanned(s.control, ids, s.orc.now);
    more, t := Launch(s, SmallCatalog(), Caller(1, 1, ids.operationId, 0), CreateWish(1, 1, 1), ids, plan, None);
  }

  // ----- A create given up -------------------------------------------------------------------

  const KEY: Scope := Scope(1, Some(1), CreateInstance, 1)

  /** Instance 1 has failed and is idle; its create has a letter that is open to replay. */
  ghost predicate CreateLost(s: Platform) {
    && Calm(s, 1) && s.orc.now == RETRY_BUDGET_MS
    && s.control.instances == map[1 := Instance(1, SIZE, true, LifecycleFailed, None, 1, None, false)]
    && s.control.operations.Keys == {1} && s.control.records.Keys == {KEY} && s.control.intents == map[]
    && s.control.leases.Keys == {1} && s.control.leases[1].state.LeaseActive?
    && s.orc.issued.Keys == {1} && s.orc.issued[1].instanceId == 1 && s.orc.issued[1].operationId == 1
    && s.orc.issued[1].eventId == 1
    && s.orc.issued[1].data.CreateData?
    && s.orc.tables.workflows.Keys == {1} && s.orc.tables.workflows[1].instanceId == 1
    && s.orc.tables.workflows[1].saga.resource == Some(7) && Replayable(s.orc.tables, 1)
    && (forall k | 0 <= k < |Queue(s, 1)| :: Queue(s, 1)[k].operationId == 1)
  }

  /** The state once the create has been delivered. */
  ghost predicate CreateLaunched(s: Platform) {
    && Calm(s, 1) && s.orc.now == 0 && Queue(s, 1) == []
    && s.control.instances == map[1 := Instance(1, SIZE, true, Pending, Some(1), 1, None, false)]
    && s.control.operations.Keys == {1} && s.control.records.Keys == {KEY} && s.control.intents == map[]
    && s.control.leases.Keys == {1} && s.control.leases[1].state.LeaseActive?
    && s.orc.issued.Keys == {1} && s.orc.issued[1].instanceId == 1 && s.orc.issued[1].operationId == 1
    && s.orc.issued[1].eventId == 1
    && s.orc.issued[1].data.CreateData?
    && s.orc.tables.workflows == map[1 := AdmittedRow(s.orc.issued[1], 0, None, 0)]
    && s.orc.tables.deadLetters == map[]
  }

  lemma LaunchedCreate(s: Platform, t: Platform, plan: Plan, ids: Minted)
    requires s == InitialPlatform(0) && ids == Minted(1, 1, 1, 0, 0)
    requires plan.instanceId == 1 && plan.data == CreateData(SIZE)
    requires plan.instance == Instance(1, SIZE, true, Pending, Some(1), 1, None, false)
    requires plan.leases.Keys == s.control.leases.Keys + {1} && plan.leases[1].state.LeaseActive?
    requires Launched(s, t, plan, KEY, 0, ids, None)
    ensures CreateLaunched(t)
  {
    assert t.orc.issued == map[1 := CommandFor(plan, ids)];
    assert t.control.leases.Keys == {1};
  }

  /** At the start everything is vacant and a create can be accepted. */
  lemma StartIsVacant(s: Platform, ids: Minted)
    requires s == InitialPlatform(0) && ids == Minted(1, 1, 1, 0, 0)
    ensures Vacant(s.control) && Inherits(s.orc.tables, 1, None) && Fresh(s, CreateWish(1, 1, 1), ids)
    ensures s.control.records == map[] && s.orc.now == 0
  {
    assert HeldOn(s.control.leases, 1) == {} && HeldAddresses(s.control.leases, 1) == {};
  }

  lemma StartIsLinked(s: Platform)
    requires s == InitialPlatform(0)
    ensures Linked(s)
  {
    RunsAreLinked(0, SmallCatalog(), []);
    assert s == PlatformRun(0, SmallCatalog(), []);
  }

  lemma CreateIsLaunched(s: Platform) returns (inputs: seq<PlatformInput>, t: Platform)
    requires s == InitialPlatform(0)
    ensures t == Continued(s, SmallCatalog(), inputs) && Linked(t) && CreateLaunched(t)
  {
    var ids := Minted(1, 1, 1, 0, 0);
    var plan;
    StartIsLinked(s);
    StartIsVacant(s, ids);
    inputs, t, plan := LaunchCreate(s, ids);
    LaunchedCreate(s, t, plan, ids);
  }

  /** What the failing create leaves in its row, its instance and its letter. */
  lemma FailedCreate(s: Platform, t: Platform)
    requires CreateLaunched(s) && Played(s, t, 1, 1, FailingCreate())
    ensures OnlyRow(s, t, 1, 1, s.orc.issued[1].eventId) && OnlyAbout(s, t, 1, 1)
    ensures t.orc.tables.workflows[1].saga.resource == Some(7) && t.orc.now == RETRY_BUDGET_MS
    ensures t.control.instances[1] == Instance(1, SIZE, true, LifecycleFailed, None, 1, None, false)
    ensures Replayable(t.orc.tables, s.orc.issued[1].eventId)
  {
    CreateFails(s.orc.tables.workflows[1].command, s.control.instances[1]);
  }

  lemma FailedCreateIsLost(s: Platform, t: Platform)
    requires CreateLaunched(s) && Calm(t, 1)
    requires OnlyRow(s, t, 1, 1, 1) && OnlyAbout(s, t, 1, 1)
    requires t.orc.tables.workflows[1].saga.resource == Some(7) && t.orc.now == RETRY_BUDGET_MS
    requires t.control.instances[1] == Instance(1, SIZE, true, LifecycleFailed, None, 1, None, false)
    requires Replayable(t.orc.tables, 1)
    ensures CreateLost(t)
  {
    assert t.orc.tables.workflows.Keys == {1};
  }

  lemma LaunchedCreateFails(s: Platform)
    requires CreateLaunched(s)
    ensures 1 in s.orc.tables.workflows && s.orc.tables.workflows[1].instanceId == 1
    ensures Playable(s.orc.tables.workflows[1].command, s.orc.tables.workflows[1].saga, s.orc.now, FailingCreate())
  {
    CreateFails(s.orc.tables.workflows[1].command, s.control.instances[1]);
  }

  lemma CreateIsLost(s: Platform) returns (inputs: seq<PlatformInput>, t: Platform)
    requires s == InitialPlatform(0)
    ensures t == Continued(s, SmallCatalog(), inputs) && Linked(t) && CreateLost(t)
  {
    var first, u := CreateIsLaunched(s);
    LaunchedCreateFails(u);
    var rest;
    rest, t := Play(u, SmallCatalog(), 1, 1, FailingCreate());
    FailedCreate(u, t);
    FailedCreateIsLost(u, t);
    AfterSplit(s, SmallCatalog(), first, rest);
    inputs := first + rest;
  }

  // ----- The first run: over quota -----------------------------------------------------------

  /** All rows are of instance 1, and each knows the machine. */
  predicate RowsKnow(t: Tables) {
    forall op | op in t.workflows :: t.workflows[op].instanceId == 1 && t.workflows[op].saga.resource == Some(7)
  }

  /** Nothing but instance 1 has been touched, in n operations, and its create may be replayed. */
  ghost predicate Chapter(s: Platform, n: nat, instance: Instance, lease: LeaseState) {
    && Calm(s, 1) && s.orc.now == RETRY_BUDGET_MS && s.control.instances == map[1 := instance]
    && (forall op | op in s.control.operations :: op <= n)
    && (forall scope | scope in s.control.records :: scope.key <= n)
    && (forall e | e in s.orc.issued :: e <= n) && 1 in s.orc.issued && s.orc.issued[1].instanceId == 1
    && s.control.leases.Keys == {1} && s.control.leases[1].state == lease
    && 1 in s.orc.tables.workflows && RowsKnow(s.orc.tables) && Replayable(s.orc.tables, 1)
  }

  const LOST := Instance(1, SIZE, true, LifecycleFailed, None, 1, None, false)
  const RETAINED := Instance(1, SIZE, true, Retained, None, 1, Some(RETRY_BUDGET_MS), false)
  const PURGED := Instance(1, SIZE, true, Purged, None, 1, Some(RETRY_BUDGET_MS), true)

  lemma LostIsAChapter(s: Platform)
    requires CreateLost(s)
    ensures Chapter(s, 1, LOST, LeaseActive)
  {
    assert forall op | op in s.control.operations :: op in s.control.operations.Keys;
    assert forall scope | scope in s.control.records :: scope in s.control.records.Keys;
    assert forall e | e in s.orc.issued :: e in s.orc.issued.Keys;
    assert forall op | op in s.orc.tables.workflows :: op in s.orc.tables.workflows.Keys;
  }

  lemma MachineIsInherited(t: Tables)
    requires RowsKnow(t) && 1 in t.workflows
    ensures Inherits(t, 1, Some(7))
  {
    var inherited := InheritsSomething(t, 1);
    assert inherited == Some(7);
  }

  lemma RetentionIsAccepted(s: Platform) returns (plan: Plan)
    requires Chapter(s, 1, LOST, LeaseActive)
    ensures IsAccepted(s, SmallCatalog(), Caller(1, 1, 2, 0), RetainWish(1), Minted(2, 2, 0, 0, 0), plan)
    ensures plan.instanceId == 1 && plan.data.RetentionData?
    ensures plan.leases.Keys == {1} && plan.leases[1].state.LeaseReleased?
    ensures plan.instance == Instance(1, SIZE, true, Deleting, Some(2), 1, Some(RETRY_BUDGET_MS), false)
  {
    plan := PlanRetention(s.control, SmallCatalog(), Caller(1, 1, 2, 0), RetainWish(1), Minted(2, 2, 0, 0, 0), s.orc.now).value;
  }

  lemma PurgeIsAccepted(s: Platform) returns (plan: Plan)
    requires Chapter(s, 2, RETAINED, LeaseReleased)
    ensures IsAccepted(s, SmallCatalog(), Caller(1, 1, 3, 0), PurgeWish(1, 1), Minted(3, 3, 0, 0, 0), plan)
    ensures plan.instanceId == 1 && plan.data.PurgeData? && plan.leases == s.control.leases
    ensures plan.instance == Instance(1, SIZE, true, PurgePending, Some(3), 1, Some(RETRY_BUDGET_MS), true)
  {
    plan := PlanPurge(s.control, PurgeWish(1, 1), Minted(3, 3, 0, 0, 0), s.orc.now).value;
  }

  /** The row of a command just delivered to an instance whose machine is known. */
  ghost predicate Delivered(s: Platform, u: Platform, plan: Plan, scope: Scope, ids: Minted) {
    && plan.instanceId == 1 && !plan.data.CreateData? && ids.operationId == ids.eventId == scope.key
    && Launched(s, u, plan, scope, 0, ids, Some(7))
  }

  lemma DeliveredRow(s: Platform, u: Platform, plan: Plan, scope: Scope, ids: Minted)
    requires s.orc.now == RETRY_BUDGET_MS && Delivered(s, u, plan, scope, ids)
    ensures u.orc.now == RETRY_BUDGET_MS && ids.operationId in u.orc.tables.workflows
    ensures var w := u.orc.tables.workflows[ids.operationId];
            && w.instanceId == 1 && w.saga == FreshSaga(Some(7), RETRY_BUDGET_MS) && w.command.data == plan.data
  {
  }

  lemma DeliveredInstance(s: Platform, u: Platform, instance: Instance, plan: Plan, scope: Scope, ids: Minted)
    requires Calm(s, 1) && s.control.instances == map[1 := instance] && Delivered(s, u, plan, scope, ids)
    ensures Calm(u, 1) && u.control.instances == map[1 := plan.instance]
  {
  }

  lemma OnlyOneInstance(m: map<nat, Instance>, m': map<nat, Instance>)
    requires m.Keys == {1} && 1 in m' && m' == m[1 := m'[1]]
    ensures m' == map[1 := m'[1]]
  {
    assert m'.Keys == {1};
  }

  lemma ChapterNumbers(s: Platform, u: Platform, t: Platform, n: nat, instance: Instance, lease: LeaseState,
                       plan: Plan, scope: Scope, ids: Minted, e: nat)
    requires Chapter(s, n, instance, lease) && Delivered(s, u, plan, scope, ids) && ids.operationId == n + 1
    requires OnlyRow(u, t, n + 1, 1, e)
    ensures forall op | op in t.control.operations :: op <= n + 1
    ensures forall scope | scope in t.control.records :: scope.key <= n + 1
  {
    forall op | op in t.control.operations
      ensures op <= n + 1
    {
      assert op in u.control.operations.Keys;
    }
    assert t.control.records == s.control.records[scope := u.control.records[scope]];
  }

  /** And of the orchestrator's. */
  lemma ChapterRows(s: Platform, u: Platform, t: Platform, n: nat, instance: Instance, lease: LeaseState,
                    plan: Plan, scope: Scope, ids: Minted, e: nat)
    requires Chapter(s, n, instance, lease) && Delivered(s, u, plan, scope, ids) && ids.operationId == n + 1
    requires 1 <= n && OnlyRow(u, t, n + 1, 1, e) && t.orc.tables.workflows[n + 1].saga.resource == Some(7)
    requires t.orc.tables.deadLetters == u.orc.tables.deadLetters
    ensures (forall e | e in t.orc.issued :: e <= n + 1) && 1 in t.orc.issued && t.orc.issued[1].instanceId == 1
    ensures 1 in t.orc.tables.workflows && RowsKnow(t.orc.tables) && Replayable(t.orc.tables, 1)
  {
    assert ids.eventId == n + 1 && n + 1 != 1;
  }

  /** The next operation of the instance, accepted, delivered and played to its end. */
  lemma NextChapter(s: Platform, u: Platform, t: Platform, n: nat, instance: Instance, lease: LeaseState,
                    plan: Plan, scope: Scope, ids: Minted, cues: Cues)
    requires 1 <= n && Chapter(s, n, instance, lease) && Delivered(s, u, plan, scope, ids) && ids.operationId == n + 1
    requires plan.leases.Keys == {1} && Calm(t, 1) && Played(u, t, n + 1, 1, cues)
    requires var w := u.orc.tables.workflows[n + 1];
             && !Exhausts(w.command, w.saga, u.orc.now, cues) && EndTime(u.orc.now, cues) == RETRY_BUDGET_MS
             && PlayedSaga(w.command, w.saga, u.orc.now, cues).resource == Some(7)
    ensures 1 in t.control.instances && Chapter(t, n + 1, t.control.instances[1], plan.leases[1].state)
    ensures var w := u.orc.tables.workflows[n + 1];
            1 in u.control.instances
            && t.control.instances[1] == PlayedInstance(w.command, u.control.instances[1], w.saga, u.orc.now, cues)
  {
    var e := u.orc.tables.workflows[n + 1].command.eventId;
    DeliveredRow(s, u, plan, scope, ids);
    DeliveredInstance(s, u, instance, plan, scope, ids);
    OnlyOneInstance(u.control.instances, t.control.instances);
    ChapterNumbers(s, u, t, n, instance, lease, plan, scope, ids, e);
    ChapterRows(s, u, t, n, instance, lease, plan, scope, ids, e);
  }

  lemma RetentionIsCarriedOut(s: Platform) returns (more: seq<PlatformInput>, t: Platform)
    requires Linked(s) && Chapter(s, 1, LOST, LeaseActive)
    ensures t == Continued(s, SmallCatalog(), more) && Linked(t) && Chapter(t, 2, RETAINED, LeaseReleased)
  {
    var ids, cues := Minted(2, 2, 0, 0, 0), Retaining(RETRY_BUDGET_MS);
    var plan := RetentionIsAccepted(s);
    MachineIsInherited(s.orc.tables);
    var first, u := Launch(s, SmallCatalog(), Caller(1, 1, 2, 0), RetainWish(1), ids, plan, Some(7));
    var scope := ScopeOf(Caller(1, 1, 2, 0), RetainWish(1));
    DeliveredRow(s, u, plan, scope, ids);
    DeliveredInstance(s, u, LOST, plan, scope, ids);
    RetentionSucceeds(u.orc.tables.workflows[2].command, plan.instance, RETRY_BUDGET_MS);
    var rest;
    rest, t := Play(u, SmallCatalog(), 2, 1, cues);
    NextChapter(s, u, t, 1, LOST, LeaseActive, plan, scope, ids, cues);
    AfterSplit(s, SmallCatalog(), first, rest);
    more := first + rest;
  }

  lemma PurgeIsCarriedOut(s: Platform) returns (more: seq<PlatformInput>, t: Platform)
    requires Linked(s) && Chapter(s, 2, RETAINED, LeaseReleased)
    ensures t == Continued(s, SmallCatalog(), more) && Linked(t) && Chapter(t, 3, PURGED, LeaseReleased)
  {
    var ids, cues := Minted(3, 3, 0, 0, 0), Purging(RETRY_BUDGET_MS);
    var plan := PurgeIsAccepted(s);
    MachineIsInherited(s.orc.tables);
    var first, u := Launch(s, SmallCatalog(), Caller(1, 1, 3, 0), PurgeWish(1, 1), ids, plan, Some(7));
    var scope := ScopeOf(Caller(1, 1, 3, 0), PurgeWish(1, 1));
    DeliveredRow(s, u, plan, scope, ids);
    DeliveredInstance(s, u, RETAINED, plan, scope, ids);
    PurgeSucceeds(u.orc.tables.workflows[3].command, plan.instance, RETRY_BUDGET_MS);
    var rest;
    rest, t := Play(u, SmallCatalog(), 3, 1, cues);
    NextChapter(s, u, t, 2, RETAINED, LeaseReleased, plan, scope, ids, cues);
    AfterSplit(s, SmallCatalog(), first, rest);
    more := first + rest;
  }

  lemma OneAfterTheOther(s: Platform, first: seq<PlatformInput>, u: Platform, second: seq<PlatformInput>, t: Platform)
    returns (both: seq<PlatformInput>)
    requires u == Continued(s, SmallCatalog(), first) && t == Continued(u, SmallCatalog(), second)
    ensures t == Continued(s, SmallCatalog(), both)
  {
    AfterSplit(s, SmallCatalog(), first, second);
    both := first + second;
  }

  /** The instance has been created, retained and purged, and the letter of its create is still open. */
  lemma PurgedWithOpenLetter(s: Platform) returns (inputs: seq<PlatformInput>, t: Platform)
    requires s == InitialPlatform(0)
    ensures t == Continued(s, SmallCatalog(), inputs) && Linked(t) && Chapter(t, 3, PURGED, LeaseReleased)
  {
    var first, lost := CreateIsLost(s);
    LostIsAChapter(lost);
    var second, retained := RetentionIsCarriedOut(lost);
    var third;
    third, t := PurgeIsCarriedOut(retained);
    var both := OneAfterTheOther(s, first, lost, second, retained);
    inputs := OneAfterTheOther(s, both, retained, third, t);
  }

  lemma PurgedIsVacant(s: Platform)
    requires Chapter(s, 3, PURGED, LeaseReleased)
    ensures Vacant(s.control) && Fresh(s, CreateWish(1, 1, 1), Minted(4, 4, 2, 0, 0))
    ensures Scope(1, Some(1), CreateInstance, 4) !in s.control.records && Inherits(s.orc.tables, 2, None)
  {
    assert HeldOn(s.control.leases, 1) == {} && HeldAddresses(s.control.leases, 1) == {};
  }

  /** The quota has been given to a second instance. */
  ghost predicate Replaced(t: Platform) {
    && t.control.instances.Keys == {1, 2} && t.control.instances[1] == PURGED
    && t.control.instances[2] == Instance(1, SIZE, true, Pending, Some(4), 4, None, false)
    && 1 in t.orc.issued && t.orc.issued[1].instanceId == 1 && Replayable(t.orc.tables, 1)
  }

  lemma SecondIsCreated(s: Platform) returns (more: seq<PlatformInput>, t: Platform)
    requires Linked(s) && Chapter(s, 3, PURGED, LeaseReleased)
    ensures t == Continued(s, SmallCatalog(), more) && Linked(t) && Replaced(t)
  {
    PurgedIsVacant(s);
    var plan;
    more, t, plan := LaunchCreate(s, Minted(4, 4, 2, 0, 0));
    LaunchedSecond(s, t, plan);
  }

  lemma LaunchedSecond(s: Platform, t: Platform, plan: Plan)
    requires Chapter(s, 3, PURGED, LeaseReleased) && plan.instanceId == 2
    requires plan.instance == Instance(1, SIZE, true, Pending, Some(4), 4, None, false)
    requires Launched(s, t, plan, Scope(1, Some(1), CreateInstance, 4), 0, Minted(4, 4, 2, 0, 0), None)
    ensures Replaced(t)
  {
  }

  lemma ReplacedIsIdle(t: Platform)
    requires Replaced(t)
    ensures PurgedIdle(t.control) && IsPurged(t, 1)
  {
  }

  lemma LetterIsNotSpent(t: Platform)
    requires Replaced(t)
    ensures !AtRest(t, 1)
  {
    assert !Spent(t.orc.tables, 1, t.orc.issued[1].operationId);
  }

  /** Both instances count once the first is back. */
  lemma BothCount(c: Control, d: Control)
    requires c.instances.Keys == {1, 2} && c.instances[1] == PURGED
    requires c.instances[2] == Instance(1, SIZE, true, Pending, Some(4), 4, None, false)
    requires 1 in d.instances && d.instances == c.instances[1 := d.instances[1]]
    requires !d.instances[1].lifecycle.Purged? && d.instances[1].projectId == 1
    ensures Usage(d, 1, Instances) == 2 && !WithinQuota(d, SmallCatalog())
  {
    var none: map<nat, Instance> := map[];
    assert d.instances == none[1 := d.instances[1]][2 := d.instances[2]];
    ChargesUpdate(none, 1, d.instances[1], 1, Instances);
    ChargesUpdate(none[1 := d.instances[1]], 2, d.instances[2], 1, Instances);
    assert Charges(none, 1, Instances) == map[];
    assert Usage(d, 1, Instances) > Limit(SmallCatalog().quotas[1], Instances);
  }

  /**
   * Neither purges nor quotas survive a replay unconditionally. In this run an instance's create is
   * given up and dead-lettered, the instance is retained and purged, its quota goes to another one,
   * and then the create is replayed: the purged instance is back, and the project over its quota.
   */
  lemma ReplayExceedsQuota() returns (inputs: seq<PlatformInput>, n: nat)
    ensures n <= |inputs| && IsPurged(PlatformRun(0, SmallCatalog(), inputs[..n]), 1)
    ensures !IsPurged(PlatformRun(0, SmallCatalog(), inputs), 1)
    ensures !WithinQuota(PlatformRun(0, SmallCatalog(), inputs).control, SmallCatalog())
  {
    var s := InitialPlatform(0);
    var first, purged := PurgedWithOpenLetter(s);
    var second, replaced := SecondIsCreated(purged);
    var before := OneAfterTheOther(s, first, purged, second, replaced);
    ReplacedIsIdle(replaced);
    LetterIsNotSpent(replaced);
    var more := NotAtRestRevives(replaced, SmallCatalog(), 1);
    RunContinues(0, SmallCatalog(), [], before);
    RunContinues(0, SmallCatalog(), before, more);
    assert [] + before == before;
    inputs, n := before + more, |before|;
    assert inputs[..n] == before;
    RunsMoveOn(0, SmallCatalog(), inputs, n);
    BothCount(replaced.control, PlatformRun(0, SmallCatalog(), inputs).control);
  }

  // ----- The second run: unmarked ------------------------------------------------------------

  const BUSY := LOST.(active := Some(2))

  /** The second operation is at work on the instance, which is marked with it. */
  ghost predicate SecondAtWork(s: Platform) {
    && Calm(s, 1) && s.control.instances == map[1 := BUSY]
    && 2 in s.control.operations && InstanceOf(s, 2) == 1
    && 2 in s.orc.tables.workflows && s.orc.tables.workflows[2].instanceId == 1
    && IsLive(s.orc.tables.workflows[2].saga.status)
    && (forall k | 0 <= k < |Queue(s, 1)| :: Queue(s, 1)[k].operationId == 1)
  }

  /** The letter of the first can be replayed. */
  predicate FirstReplayable(s: Orc) {
    && 1 in s.issued && s.issued[1].instanceId == 1 && s.issued[1].operationId == 1 && s.issued[1].data.CreateData?
    && 1 in s.tables.workflows && s.tables.workflows[1].instanceId == 1 && Replayable(s.tables, 1)
  }

  lemma StartIsAccepted(s: Platform) returns (plan: Plan)
    requires CreateLost(s)
    ensures IsAccepted(s, SmallCatalog(), Caller(1, 1, 2, 0), PowerWish(1, StartPower), Minted(2, 2, 0, 0, 0), plan)
    ensures plan.instanceId == 1 && plan.data == PowerData(StartPower) && plan.instance == BUSY
  {
    assert 2 !in s.control.operations.Keys && 2 !in s.orc.issued.Keys;
    plan := PlanPower(s.control, Caller(1, 1, 2, 0), PowerWish(1, StartPower), Minted(2, 2, 0, 0, 0)).value;
  }

  lemma LaunchedStart(s: Platform, t: Platform, plan: Plan, scope: Scope)
    requires CreateLost(s) && Launched(s, t, plan, scope, 0, Minted(2, 2, 0, 0, 0), Some(7))
    requires plan.instanceId == 1 && plan.data == PowerData(StartPower) && plan.instance == BUSY
    ensures SecondAtWork(t) && FirstReplayable(t.orc)
  {
    assert t.control.instances == map[1 := BUSY];
    assert 1 in s.orc.tables.workflows.Keys && 1 in s.orc.issued.Keys;
  }

  lemma LostInherits(s: Platform)
    requires CreateLost(s)
    ensures Inherits(s.orc.tables, 1, Some(7))
  {
    assert forall op | op in s.orc.tables.workflows :: op in s.orc.tables.workflows.Keys;
    assert 1 in s.orc.tables.workflows.Keys;
    MachineIsInherited(s.orc.tables);
  }

  lemma SecondIsStarted(s: Platform) returns (more: seq<PlatformInput>, t: Platform)
    requires Linked(s) && CreateLost(s) && s.orc.tables.replays == map[]
    ensures t == Continued(s, SmallCatalog(), more) && Linked(t) && SecondAtWork(t) && FirstReplayable(t.orc)
    ensures t.orc.tables.replays == map[]
  {
    var caller, wish, ids := Caller(1, 1, 2, 0), PowerWish(1, StartPower), Minted(2, 2, 0, 0, 0);
    var plan := StartIsAccepted(s);
    LostInherits(s);
    more, t := Launch(s, SmallCatalog(), caller, wish, ids, plan, Some(7));
    LaunchedStart(s, t, plan, ScopeOf(caller, wish));
  }

  /** The first has been reopened, and the answer to its replay is still to be projected. */
  ghost predicate FirstReopened(s: Platform) {
    && s.control.instances == map[1 := BUSY]
    && Cursor(s, 1) + 1 == |Queue(s, 1)| && Queue(s, 1)[Cursor(s, 1)].ReplayResolved?
    && (1 in s.orc.tables.leases ==> s.orc.tables.leases[1].until <= s.orc.now)
    && 2 in s.control.operations && InstanceOf(s, 2) == 1
    && 2 in s.orc.tables.workflows && s.orc.tables.workflows[2].instanceId == 1
    && IsLive(s.orc.tables.workflows[2].saga.status)
    && FirstStarts(s.orc)
    && (forall k | 0 <= k < |Queue(s, 1)| :: Queue(s, 1)[k].operationId == 1)
  }

  predicate FirstStarts(s: Orc) {
    && 1 in s.tables.workflows && s.tables.workflows[1].instanceId == 1
    && s.tables.workflows[1].saga == FreshSaga(None, s.now) && s.tables.workflows[1].command.data.CreateData?
  }

  lemma ReopeningFirst(s: Platform, t: Platform, id: nat, command: Command, delivery: Delivery)
    requires SecondAtWork(s) && 1 in s.orc.issued && SameIntent(command, s.orc.issued[1])
    requires s.orc.issued[1].operationId == 1 && s.orc.issued[1].data.CreateData?
    requires 1 in s.orc.tables.workflows && s.orc.tables.workflows[1].instanceId == 1
    requires Matches(s.orc.tables, id, command, delivery) && PendingLetter(s.orc.tables, command.eventId, delivery.generation)
    requires s.orc.tables.replays[id].request.instanceId == 1 && s.orc.tables.replays[id].request.operationId == 1
    requires t == s.(orc := t.orc) && t.orc.tables == Reopen(s.orc.tables, id, command, delivery, s.orc.now)
    requires t.orc.now == s.orc.now
    ensures FirstReopened(t)
  {
  }

  /** The replay of the first has been authorized, by the only request there is. */
  ghost predicate FirstPending(s: Platform) {
    && SecondAtWork(s) && 1 in s.orc.issued && s.orc.issued[1].operationId == 1 && s.orc.issued[1].data.CreateData?
    && 1 in s.orc.tables.workflows && s.orc.tables.workflows[1].instanceId == 1
    && 1 in s.orc.tables.deadLetters && s.orc.tables.deadLetters[1].status.ReplayPending?
    && (forall id | id in s.orc.tables.replays ::
          s.orc.tables.replays[id].request.instanceId == 1 && s.orc.tables.replays[id].request.operationId == 1)
  }

  lemma AuthorizedIsPending(s: Platform, t: Platform, request: ReplayRequested, delivery: Delivery)
    requires SecondAtWork(s) && FirstReplayable(s.orc) && s.orc.tables.replays == map[]
    requires request.originalEventId == 1 && request.instanceId == 1 && request.operationId == 1
    requires t == Asked(s, request).(orc := s.orc.(tables := Authorize(s.orc.tables, request, delivery)))
    ensures FirstPending(t)
  {
  }

  lemma FirstIsReopened(s: Platform) returns (more: seq<PlatformInput>, t: Platform)
    requires Linked(s) && FirstPending(s)
    ensures t == Continued(s, SmallCatalog(), more) && Linked(t) && FirstReopened(t)
  {
    assert EventGoverned(s.orc.tables, 1, 1);
    var id, command, delivery := PendingLetterMatches(s.orc, 1);
    PendingLetterReopens(s.orc, id, command, delivery);
    more := [Work(DeliverReplayCommand(command, delivery))];
    WorkAfter(s, SmallCatalog(), DeliverReplayCommand(command, delivery));
    AfterIsLinked(s, SmallCatalog(), more);
    t := Continued(s, SmallCatalog(), more);
    ReopeningFirst(s, t, id, command, delivery);
  }

  lemma ProjectResolution(s: Platform, i: nat) returns (more: seq<PlatformInput>, t: Platform)
    requires Identified(s.orc) && Ordered(s) && EventsExplained(s)
    requires Cursor(s, i) < |Queue(s, i)| && Queue(s, i)[Cursor(s, i)].ReplayResolved?
    ensures t == Continued(s, SmallCatalog(), more) && Resolves(s, t, i, Queue(s, i)[Cursor(s, i)])
  {
    ProjectionEffect(s, i);
    AfterOne(s, SmallCatalog(), ProjectNext(i));
    more, t := [ProjectNext(i)], Projected(s, i);
  }

  lemma ResolvedIsCalm(s: Platform, t: Platform)
    requires FirstReopened(s) && Resolves(s, t, 1, Queue(s, 1)[Cursor(s, 1)])
    ensures SecondAtWork(t) && FirstStarts(t.orc)
  {
  }

  /** The replayed create fails again, and takes the mark of the second operation with it. */
  lemma MarkIsLost(s: Platform, t: Platform)
    requires SecondAtWork(s) && FirstStarts(s.orc) && Played(s, t, 1, 1, LosingCreate(s.orc.now))
    ensures 1 in t.control.instances && t.control.instances[1].active.None?
    ensures 2 in t.control.operations && InstanceOf(t, 2) == 1
    ensures 2 in t.orc.tables.workflows && t.orc.tables.workflows[2].instanceId == 1
    ensures IsLive(t.orc.tables.workflows[2].saga.status)
    ensures forall k | 0 <= k < |Queue(t, 1)| :: Queue(t, 1)[k].operationId == 1
  {
    ReplayIsLost(s.orc.tables.workflows[1].command, s.control.instances[1], s.orc.now);
  }

  lemma UnmarkedIsInexact(t: Platform)
    requires 1 in t.control.instances && t.control.instances[1].active.None?
    requires 2 in t.control.operations && InstanceOf(t, 2) == 1
    requires forall k | 0 <= k < |Queue(t, 1)| :: Queue(t, 1)[k].operationId == 1
    ensures !MarkerExact(t)
  {
    assert forall k: nat :: !FinishedAt(t, 1, 2, k);
    assert !MarkedExactly(t, 1, 2);
  }

  /** The instance is not marked, and an operation is at work on it. */
  ghost predicate Unmarked(s: Platform) {
    && !MarkerExact(s) && ActiveOn(s, 1).None?
    && 2 in s.orc.tables.workflows && s.orc.tables.workflows[2].instanceId == 1
    && IsLive(s.orc.tables.workflows[2].saga.status)
  }

  /** From the state in which both are at work. */
  lemma FirstLoses(s: Platform) returns (more: seq<PlatformInput>, t: Platform)
    requires Linked(s) && SecondAtWork(s) && FirstStarts(s.orc)
    ensures t == Continued(s, SmallCatalog(), more)
    ensures Unmarked(t)
  {
    ReplayIsLost(s.orc.tables.workflows[1].command, s.control.instances[1], s.orc.now);
    more, t := Play(s, SmallCatalog(), 1, 1, LosingCreate(s.orc.now));
    MarkIsLost(s, t);
    UnmarkedIsInexact(t);
  }

  lemma FirstIsAskedFor(s: Platform) returns (more: seq<PlatformInput>, t: Platform)
    requires Linked(s) && SecondAtWork(s) && FirstReplayable(s.orc) && s.orc.tables.replays == map[]
    ensures t == Continued(s, SmallCatalog(), more) && Linked(t) && FirstPending(t)
  {
    var request, delivery;
    more, request, delivery := OpenLetterBecomesPending(s, SmallCatalog(), 1, 0);
    AfterIsLinked(s, SmallCatalog(), more);
    t := Continued(s, SmallCatalog(), more);
    AuthorizedIsPending(s, t, request, delivery);
  }

  lemma LostHasNoReplays(s: Platform)
    requires ReplaysAsked(s) && CreateLost(s)
    ensures s.orc.tables.replays == map[]
  {
    assert forall id | id in s.orc.tables.replays :: id in s.control.intents;
  }

  lemma FirstIsReplayed(s: Platform) returns (more: seq<PlatformInput>, t: Platform)
    requires Linked(s) && SecondAtWork(s) && FirstReplayable(s.orc) && s.orc.tables.replays == map[]
    ensures t == Continued(s, SmallCatalog(), more) && Linked(t) && SecondAtWork(t) && FirstStarts(t.orc)
  {
    var first, pending := FirstIsAskedFor(s);
    var second, reopened := FirstIsReopened(pending);
    var third;
    third, t := ProjectResolution(reopened, 1);
    ResolvedIsCalm(reopened, t);
    AfterIsLinked(reopened, SmallCatalog(), third);
    var both := OneAfterTheOther(s, first, pending, second, reopened);
    more := OneAfterTheOther(s, both, reopened, third, t);
  }

  /** The create is given up, another operation started, and the create replayed. */
  lemma BothGetToWork(s: Platform) returns (inputs: seq<PlatformInput>, t: Platform)
    requires s == InitialPlatform(0)
    ensures t == Continued(s, SmallCatalog(), inputs) && Linked(t) && SecondAtWork(t) && FirstStarts(t.orc)
  {
    var first, lost := CreateIsLost(s);
    LostHasNoReplays(lost);
    var second, busy := SecondIsStarted(lost);
    var third;
    third, t := FirstIsReplayed(busy);
    var both := OneAfterTheOther(s, first, lost, second, busy);
    inputs := OneAfterTheOther(s, both, busy, third, t);
  }

  /**
   * The busy marker does not survive a replay unconditionally either. In this run an instance whose
   * create was given up is started, and the create replayed meanwhile: its second failure leaves the
   * instance unmarked while the start is at work. The next request would be let in beside it.
   */
  lemma ReplayUnmarksInstance() returns (inputs: seq<PlatformInput>)
    ensures Unmarked(PlatformRun(0, SmallCatalog(), inputs))
  {
    var s := InitialPlatform(0);
    var first, both := BothGetToWork(s);
    var second, t := FirstLoses(both);
    inputs := OneAfterTheOther(s, first, both, second, t);
    RunContinues(0, SmallCatalog(), [], inputs);
    assert [] + inputs == inputs;
  }
}
