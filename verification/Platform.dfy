/**
 * The control API, the orchestrator and the projection closed into one loop: requests are accepted,
 * commands delivered (repeatedly, in any order), leased and executed over crashes, the resulting
 * events projected, and dead letters replayed on request. Acceptance transactions run one at a time.
 */
module Platform {
  import opened Prelude
  import opened Stages
  import opened SagaEngine
  import opened SagaRuns
  import opened WorkflowTables
  import opened Orchestrator
  import opened Fencing
  import opened RowRuns
  import opened GovernedReplay
  import opened Domain
  import opened ControlTables

  /** The instance row an accepted request found (none for a create), and when. */
  datatype Origin = Origin(before: Option<Instance>, at: Time)

  /**
   * `applied` counts, for each instance, the events of its queue that have been projected.
   * `origins` records the past; no step reads it.
   */
  datatype Platform = Platform(control: Control, orc: Orc, applied: map<nat, nat>, origins: map<nat, Origin>)

  datatype PlatformInput =
    | Request(caller: Caller, wish: Wish, ids: Minted)
    | RequestReplay(request: ReplayRequested)
    | Work(input: Input)
    | ProjectNext(instanceId: nat)
    | Release(instanceId: nat, release: bool)

  function InitialPlatform(now: Time): Platform {
    Platform(EmptyControl(), Initial(now), map[], map[])
  }

  function Queue(s: Platform, instanceId: nat): seq<Event> {
    EventsOf(s.orc.tables.events, instanceId)
  }

  function Cursor(s: Platform, instanceId: nat): nat {
    if instanceId in s.applied then s.applied[instanceId] else 0
  }

  /** Identifiers are minted fresh. */
  predicate Fresh(s: Platform, wish: Wish, ids: Minted) {
    && ids.operationId !in s.control.operations && ids.eventId !in s.orc.issued
    && (wish.CreateWish? ==> ids.target !in s.control.instances)
    && (wish.SnapshotWish? ==> ids.target !in s.control.snapshots)
  }

  /**
   * An operator asks for the replay of a dead letter, under a fresh request id. The read model the
   * operator looks at is not modelled: any letter may be asked for, at any time.
   */
  predicate Askable(s: Platform, request: ReplayRequested) {
    && request.requestId !in s.control.intents
    && request.originalEventId in s.orc.tables.deadLetters
    && s.orc.tables.deadLetters[request.originalEventId].original.operationId == request.operationId
    && s.orc.tables.deadLetters[request.originalEventId].original.instanceId == request.instanceId
  }

  /** Commands are issued by acceptance, and replay requests by operators; replay commands may be forged. */
  predicate MayWork(s: Platform, work: Input) {
    match work
    case Issue(_) => false
    case DeliverReplayRequest(request, _) =>
      request.requestId in s.control.intents && s.control.intents[request.requestId].request == request
    case _ => true
  }

  predicate PlatformEnabled(s: Platform, input: PlatformInput) {
    match input
    case Request(_, wish, ids) => Fresh(s, wish, ids)
    case RequestReplay(request) => Askable(s, request)
    case Work(work) => MayWork(s, work)
    case ProjectNext(i) => Cursor(s, i) < |Queue(s, i)|
    case Release(_, _) => true
  }

  /** The accepted request's rows, with its command published and its origin noted. */
  function Admitted(s: Platform, control: Control, command: Command): Platform {
    var before := if command.instanceId in s.control.instances then Some(s.control.instances[command.instanceId]) else None;
    Platform(control, s.orc.(issued := s.orc.issued[command.eventId := command]), s.applied,
             s.origins[command.operationId := Origin(before, s.orc.now)])
  }

  /** An accepted request publishes its command; a refusal or a repeat publishes nothing. */
  ghost function Submitted(s: Platform, catalog: Catalog, caller: Caller, wish: Wish, ids: Minted): Platform {
    var outcome := Accept(s.control, catalog, caller, wish, ids, s.orc.now);
    if outcome.Err? || |outcome.value.0.outbox| <= |s.control.outbox| then s
    else Admitted(s, outcome.value.0, outcome.value.0.outbox[|s.control.outbox|])
  }

  function Projected(s: Platform, i: nat): Platform
    requires Cursor(s, i) < |Queue(s, i)|
  {
    s.(control := Project(s.control, i, Queue(s, i)[Cursor(s, i)]), applied := s.applied[i := Cursor(s, i) + 1])
  }

  function Asked(s: Platform, request: ReplayRequested): Platform {
    s.(control := s.control.(intents := s.control.intents[request.requestId := ReplayIntent(request, IntentAccepted)]))
  }

  ghost function PlatformStep(s: Platform, catalog: Catalog, input: PlatformInput): Platform {
    if !PlatformEnabled(s, input) then s
    else match input
      case Request(caller, wish, ids) => Submitted(s, catalog, caller, wish, ids)
      case RequestReplay(request) => Asked(s, request)
      case Work(work) => s.(orc := Step(s.orc, work))
      case ProjectNext(i) => Projected(s, i)
      case Release(i, release) => s.(control := s.control.(leases := ReleaseLease(s.control.leases, i, release).0))
  }

  ghost function PlatformRun(start: Time, catalog: Catalog, inputs: seq<PlatformInput>): Platform {
    if inputs == [] then InitialPlatform(start)
    else PlatformStep(PlatformRun(start, catalog, inputs[..|inputs| - 1]), catalog, inputs[|inputs| - 1])
  }

  lemma RunExtends(start: Time, catalog: Catalog, inputs: seq<PlatformInput>, k: nat)
    requires k < |inputs|
    ensures PlatformRun(start, catalog, inputs[..k + 1])
            == PlatformStep(PlatformRun(start, catalog, inputs[..k]), catalog, inputs[k])
  {
    assert inputs[..k + 1][..k] == inputs[..k];
  }

  // ----- Orders and their rows ---------------------------------------------------------------

  /** Every issued command is the command of one operation on an existing instance. */
  ghost predicate CommandsHaveOperations(s: Platform) {
    forall e | e in s.orc.issued ::
      var command := s.orc.issued[e];
      && command.operationId in s.control.operations
      && s.control.operations[command.operationId].instanceId == command.instanceId
      && s.control.operations[command.operationId].action == ActionOf(command)
      && command.instanceId in s.control.instances && command.instanceId in s.control.documents
  }

  ghost predicate HasCommand(s: Platform, op: nat) {
    exists e :: e in s.orc.issued && s.orc.issued[e].operationId == op
  }

  ghost predicate OperationsHaveCommands(s: Platform) {
    forall op | op in s.control.operations :: HasCommand(s, op)
  }

  ghost predicate Ordered(s: Platform) {
    && CommandsHaveOperations(s) && OperationsHaveCommands(s)
    && s.control.documents.Keys == s.control.instances.Keys
  }

  function InstanceOf(s: Platform, op: nat): nat
    requires op in s.control.operations
  {
    s.control.operations[op].instanceId
  }

  function ActiveOn(s: Platform, i: nat): Option<nat> {
    if i in s.control.instances then s.control.instances[i].active else None
  }

  predicate Terminal(event: Event) {
    event.MutationCompleted? || event.MutationFailed?
  }

  predicate Ended(s: Platform, op: nat) {
    op in s.orc.tables.workflows && !IsLive(s.orc.tables.workflows[op].saga.status)
  }

  // ----- What links the tables ---------------------------------------------------------------

  /** The row's instance and operation, through the command it was issued with. */
  lemma RowsHaveOperations(s: Platform, op: nat)
    requires Identified(s.orc) && CommandsHaveOperations(s) && op in s.orc.tables.workflows
    ensures op in s.control.operations && InstanceOf(s, op) == s.orc.tables.workflows[op].instanceId
    ensures s.control.operations[op].action == s.orc.tables.workflows[op].action
    ensures InstanceOf(s, op) in s.control.instances && InstanceOf(s, op) in s.control.documents
  {
    assert RowIdentity(s.orc, op);
  }

  /** A resolution answers a request that was made; any other event is about a workflow of its instance. */
  predicate Explained(s: Platform, i: nat, event: Event) {
    if event.ReplayResolved? then
      event.requestId in s.control.intents && s.control.intents[event.requestId].request.originalEventId == event.originalEventId
    else
      event.operationId in s.orc.tables.workflows && s.orc.tables.workflows[event.operationId].instanceId == i
  }

  ghost predicate EventsExplained(s: Platform) {
    forall i, k | 0 <= k < |Queue(s, i)| :: Explained(s, i, Queue(s, i)[k])
  }

  ghost predicate CursorsFit(s: Platform) {
    forall i :: Cursor(s, i) <= |Queue(s, i)|
  }

  /** Every replay decided on was asked for. */
  ghost predicate ReplaysAsked(s: Platform) {
    forall id | id in s.orc.tables.replays ::
      id in s.control.intents && s.control.intents[id].request == s.orc.tables.replays[id].request
  }

  ghost predicate Linked(s: Platform) {
    && Invariant(s.orc) && Governed(s.orc)
    && Ordered(s) && EventsExplained(s) && CursorsFit(s) && ReplaysAsked(s)
  }

  /** So the next event of an instance can always be projected: its transaction never throws. */
  lemma NextIsProjectable(s: Platform, i: nat)
    requires Identified(s.orc) && Ordered(s) && EventsExplained(s) && Cursor(s, i) < |Queue(s, i)|
    ensures var event := Queue(s, i)[Cursor(s, i)];
            && Projectable(s.control, i, event)
            && (!event.ReplayResolved? ==> InstanceOf(s, event.operationId) == i)
  {
    var event := Queue(s, i)[Cursor(s, i)];
    assert Explained(s, i, event);
    if !event.ReplayResolved? {
      RowsHaveOperations(s, event.operationId);
    }
  }

  // ----- Orchestrator steps ------------------------------------------------------------------

  ghost predicate RowsKept(s: Orc, t: Orc) {
    forall op | op in s.tables.workflows ::
      op in t.tables.workflows && t.tables.workflows[op].instanceId == s.tables.workflows[op].instanceId
  }

  lemma StepKeepsRows(s: Orc, work: Input)
    ensures RowsKept(s, Step(s, work))
  {
    StepShape(s, work);
  }

  // ----- What a step publishes ---------------------------------------------------------------

  /** Only a request just delivered is added to the replays; what is in there keeps its request. */
  ghost predicate ReplaysGrow(s: Orc, t: Orc, work: Input) {
    forall id | id in t.tables.replays ::
      || (id in s.tables.replays && t.tables.replays[id].request == s.tables.replays[id].request)
      || (work.DeliverReplayRequest? && id == work.request.requestId && t.tables.replays[id].request == work.request)
  }

  /** The event is a commit's, about a row of its instance, or answers a request delivered or decided on. */
  ghost predicate Publishes(s: Orc, t: Orc, work: Input, i: nat, event: Event) {
    && t.tables.events == Append(s.tables.events, i, event)
    && (if !event.ReplayResolved? then
          && work.WorkerCommits?
          && event.operationId in t.tables.workflows && t.tables.workflows[event.operationId].instanceId == i
        else if work.DeliverReplayRequest? then
          event.requestId == work.request.requestId && event.originalEventId == work.request.originalEventId
        else event.requestId in s.tables.replays
             && s.tables.replays[event.requestId].request.originalEventId == event.originalEventId)
  }

  /** What a step means for the events and replays: at most one event, which is explained. */
  ghost predicate EmitsAtMost(s: Orc, t: Orc, work: Input, i: nat, event: Event) {
    && t.issued == s.issued && ReplaysGrow(s, t, work)
    && (t.tables.events == s.tables.events || Publishes(s, t, work, i, event))
  }

  const NOTHING := Progressed(0, Accepted, false)

  lemma RequestWorks(s: Orc, request: ReplayRequested, delivery: Delivery) returns (i: nat, event: Event)
    ensures EmitsAtMost(s, Requested(s, request, delivery), DeliverReplayRequest(request, delivery), i, event)
  {
    ReplayRequestOutcome(s.tables, request, delivery);
    var letters := s.tables.deadLetters;
    i, event := request.instanceId,
      ReplayResolved(request.operationId, request.requestId, request.originalEventId, false,
                     if request.originalEventId in letters then letters[request.originalEventId].generation else 0);
  }

  lemma RedeliveryWorks(s: Orc, command: Command, delivery: Delivery) returns (i: nat, event: Event)
    ensures EmitsAtMost(s, Redelivered(s, command, delivery), DeliverReplayCommand(command, delivery), i, event)
  {
    var id := ReplayCommandOutcome(s.tables, command, delivery, s.now);
    i, event := 0, NOTHING;
    if id in s.tables.replays {
      var request := s.tables.replays[id].request;
      i, event := request.instanceId,
        ReplayResolved(request.operationId, id, request.originalEventId, true, delivery.generation);
    }
  }

  lemma CommitWorks(s: Orc, work: Input) returns (i: nat, event: Event)
    requires Fenced(s) && work.WorkerCommits?
    ensures EmitsAtMost(s, Step(s, work), work, i, event)
  {
    i, event := 0, NOTHING;
    if Enabled(s, work) && Step(s, work) != s {
      CommitIsDecided(s, work);
      var c := work.ticket;
      i, event := c.row.instanceId, EventOf(c.operationId, DecisionOf(c, work.reply, work.decidedAt, work.random));
    }
  }

  lemma StepWorks(s: Orc, work: Input) returns (i: nat, event: Event)
    requires Fenced(s) && !work.Issue?
    ensures EmitsAtMost(s, Step(s, work), work, i, event)
  {
    i, event := 0, NOTHING;
    if work.WorkerCommits? {
      i, event := CommitWorks(s, work);
    } else if Enabled(s, work) {
      match work
      case DeliverCommand(eventId, delivery, inherited) =>
        AdmitOriginalOutcome(s.tables, s.issued[eventId], delivery, inherited, s.now);
      case DeliverReplayRequest(request, delivery) => i, event := RequestWorks(s, request, delivery);
      case DeliverReplayCommand(command, delivery) => i, event := RedeliveryWorks(s, command, delivery);
      case WorkerClaims(op, worker, leaseMs) => ClaimRowEffect(s, op, worker, leaseMs);
      case _ =>
    }
  }

  // ----- Steps keep the links ----------------------------------------------------------------

  lemma StepKeepsGovernance(s: Orc, work: Input)
    requires Invariant(s) && Governed(s)
    ensures Invariant(Step(s, work)) && Governed(Step(s, work))
  {
    StepKeepsFenced(s, work);
    StepKeepsIdentity(s, work);
    StepKeepsRuns(s, work);
    StepGoverns(s, work);
  }

  lemma SameOrdersStay(s: Platform, t: Platform)
    requires Ordered(s) && t.orc.issued == s.orc.issued && t.control.documents.Keys == s.control.documents.Keys
    requires t.control.instances.Keys == s.control.instances.Keys
    requires t.control.operations.Keys == s.control.operations.Keys
    requires forall op | op in s.control.operations ::
               InstanceOf(t, op) == InstanceOf(s, op) && t.control.operations[op].action == s.control.operations[op].action
    ensures Ordered(t)
  {
    forall op | op in t.control.operations
      ensures HasCommand(t, op)
    {
      assert op in s.control.operations.Keys && HasCommand(s, op);
    }
    forall e | e in t.orc.issued
      ensures t.orc.issued[e].operationId in t.control.operations.Keys
      ensures t.orc.issued[e].instanceId in t.control.instances.Keys && t.orc.issued[e].instanceId in t.control.documents.Keys
    {
    }
  }

  lemma WorkExplains(s: Platform, t: Platform, work: Input, own: nat, event: Event)
    requires EventsExplained(s) && ReplaysAsked(s) && MayWork(s, work) && t == s.(orc := t.orc)
    requires RowsKept(s.orc, t.orc) && EmitsAtMost(s.orc, t.orc, work, own, event)
    ensures EventsExplained(t)
  {
    forall i, k | 0 <= k < |Queue(t, i)|
      ensures Explained(t, i, Queue(t, i)[k])
    {
      if k < |Queue(s, i)| {
        assert Queue(t, i)[k] == Queue(s, i)[k] && Explained(s, i, Queue(s, i)[k]);
      }
    }
  }

  lemma WorkKeepsCursors(s: Platform, t: Platform, work: Input, own: nat, event: Event)
    requires CursorsFit(s) && ReplaysAsked(s) && MayWork(s, work) && t == s.(orc := t.orc)
    requires EmitsAtMost(s.orc, t.orc, work, own, event)
    ensures CursorsFit(t) && ReplaysAsked(t)
  {
    forall i
      ensures Cursor(t, i) <= |Queue(t, i)|
    {
      assert Cursor(s, i) <= |Queue(s, i)|;
    }
  }

  lemma WorkKeepsLinked(s: Platform, work: Input)
    requires Linked(s) && MayWork(s, work)
    ensures Linked(s.(orc := Step(s.orc, work)))
  {
    var t := s.(orc := Step(s.orc, work));
    StepKeepsGovernance(s.orc, work);
    StepKeepsRows(s.orc, work);
    var own, event := StepWorks(s.orc, work);
    WorkExplains(s, t, work, own, event);
    WorkKeepsCursors(s, t, work, own, event);
    SameOrdersStay(s, t);
  }

  /** Projecting the next event of an instance moves its cursor, its rows and nothing else. */
  ghost predicate Advances(s: Platform, t: Platform, i: nat, event: Event) {
    var op := event.operationId;
    && Cursor(s, i) < |Queue(s, i)| && event == Queue(s, i)[Cursor(s, i)]
    && t.orc == s.orc && t.applied == s.applied[i := Cursor(s, i) + 1] && t.origins == s.origins
    && !event.ReplayResolved? && op in s.control.operations && InstanceOf(s, op) == i && i in s.control.instances
    && t.control.instances == s.control.instances[i := InstanceAfter(s.control.instances[i], event)]
    && t.control.operations == s.control.operations[op := OperationAfter(s.control.operations[op], event)]
    && t.control.documents.Keys == s.control.documents.Keys && t.control.intents == s.control.intents
  }

  /** Projecting a resolution moves the cursor and settles its request. */
  ghost predicate Resolves(s: Platform, t: Platform, i: nat, event: Event) {
    && Cursor(s, i) < |Queue(s, i)| && event == Queue(s, i)[Cursor(s, i)]
    && t.orc == s.orc && t.applied == s.applied[i := Cursor(s, i) + 1] && t.origins == s.origins
    && event.ReplayResolved? && event.requestId in s.control.intents
    && t.control == s.control.(intents := IntentsAfter(s.control.intents, event.requestId, event.completed))
  }

  lemma ProjectionEffect(s: Platform, i: nat)
    requires Identified(s.orc) && Ordered(s) && EventsExplained(s) && Cursor(s, i) < |Queue(s, i)|
    ensures var event := Queue(s, i)[Cursor(s, i)];
            if event.ReplayResolved? then Resolves(s, Projected(s, i), i, event) else Advances(s, Projected(s, i), i, event)
  {
    NextIsProjectable(s, i);
    var event := Queue(s, i)[Cursor(s, i)];
    if !event.ReplayResolved? {
      assert Projected(s, i).control.documents.Keys == s.control.documents.Keys;
    }
  }

  /** The intents keep their requests. */
  ghost predicate IntentsKept(s: Platform, t: Platform) {
    forall id | id in s.control.intents ::
      id in t.control.intents && t.control.intents[id].request == s.control.intents[id].request
  }

  lemma AdvanceKeepsOrders(s: Platform, t: Platform, i: nat, event: Event)
    requires Advances(s, t, i, event) && Ordered(s)
    ensures Ordered(t)
  {
    assert t.control.instances.Keys == s.control.instances.Keys;
    assert t.control.operations.Keys == s.control.operations.Keys;
    SameOrdersStay(s, t);
  }

  lemma ProjectionKeepsLinked(s: Platform, i: nat)
    requires Linked(s) && Cursor(s, i) < |Queue(s, i)|
    ensures Linked(Projected(s, i)) && IntentsKept(s, Projected(s, i))
  {
    var t, event := Projected(s, i), Queue(s, i)[Cursor(s, i)];
    ProjectionEffect(s, i);
    if event.ReplayResolved? {
      SameOrdersStay(s, t);
    } else {
      AdvanceKeepsOrders(s, t, i, event);
    }
    MovedCursorFits(s, t, i);
    ControlKeepsLinked(s, t);
  }

  lemma MovedCursorFits(s: Platform, t: Platform, i: nat)
    requires CursorsFit(s) && t.orc == s.orc && Cursor(s, i) < |Queue(s, i)| && t.applied == s.applied[i := Cursor(s, i) + 1]
    ensures CursorsFit(t)
  {
    forall j
      ensures Cursor(t, j) <= |Queue(t, j)|
    {
      assert Cursor(s, j) <= |Queue(s, j)|;
    }
  }

  /** Steps that leave the orchestrator alone keep its side of the links. */
  lemma ControlKeepsLinked(s: Platform, t: Platform)
    requires Linked(s) && Ordered(t) && IntentsKept(s, t) && t.orc == s.orc && CursorsFit(t)
    ensures Linked(t)
  {
    forall j, k | 0 <= k < |Queue(t, j)|
      ensures Explained(t, j, Queue(t, j)[k])
    {
      assert Explained(s, j, Queue(s, j)[k]);
    }
  }

  // ----- Acceptance --------------------------------------------------------------------------

  /** What every plan has in common: it makes its instance busy, and found it idle or absent. */
  lemma PlanShape(c: Control, catalog: Catalog, caller: Caller, wish: Wish, ids: Minted, now: Time)
    requires PlanOf(c, catalog, caller, wish, ids, now).Ok?
    ensures var plan := PlanOf(c, catalog, caller, wish, ids, now).value;
            && plan.instance.active == Some(ids.operationId)
            && ActionOf(CommandFor(plan, ids)) == ActionWished(wish)
            && (if wish.CreateWish? then plan.instanceId == ids.target && plan.instance.createOperationId == ids.operationId
                else plan.instanceId in c.instances && c.instances[plan.instanceId].active.None?
                     && plan.instance.projectId == c.instances[plan.instanceId].projectId
                     && plan.instance.createOperationId == c.instances[plan.instanceId].createOperationId)
  {
    match wish
    case CreateWish(_, _, _) =>
    case _ =>
  }

  /** An accepted request adds its operation and command, and makes its instance busy with it. */
  ghost predicate Orders(s: Platform, t: Platform, command: Command) {
    var op, i := command.operationId, command.instanceId;
    && op !in s.control.operations && command.eventId !in s.orc.issued
    && t.orc == s.orc.(issued := s.orc.issued[command.eventId := command]) && t.applied == s.applied
    && ActiveOn(s, i) == None
    && i in t.control.instances && t.control.instances == s.control.instances[i := t.control.instances[i]]
    && t.control.instances[i].active == Some(op)
    && op in t.control.operations && t.control.operations == s.control.operations[op := t.control.operations[op]]
    && t.control.operations[op].instanceId == i && t.control.operations[op].action == ActionOf(command)
    && t.control.operations[op].state.OpAccepted? && t.control.operations[op].stage == At(Accepted)
    && t.control.operations[op].percent == 0
    && t.control.documents.Keys == s.control.documents.Keys + {i} && t.control.intents == s.control.intents
  }

  lemma RequestOrders(s: Platform, catalog: Catalog, caller: Caller, wish: Wish, ids: Minted)
    requires Fresh(s, wish, ids) && s.control.documents.Keys == s.control.instances.Keys
    ensures var t := Submitted(s, catalog, caller, wish, ids);
            || t == s
            || (PlanOf(s.control, catalog, caller, wish, ids, s.orc.now).Ok?
                && Orders(s, t, CommandFor(PlanOf(s.control, catalog, caller, wish, ids, s.orc.now).value, ids)))
  {
    var t := Submitted(s, catalog, caller, wish, ids);
    if t != s {
      var plan := PlanOf(s.control, catalog, caller, wish, ids, s.orc.now).value;
      PlanShape(s.control, catalog, caller, wish, ids, s.orc.now);
      CarryOrders(s, plan, ScopeOf(caller, wish), caller.hash, ids);
    }
  }

  lemma CarryOrders(s: Platform, plan: Plan, scope: Scope, hash: nat, ids: Minted)
    requires ids.operationId !in s.control.operations && ids.eventId !in s.orc.issued
    requires s.control.documents.Keys == s.control.instances.Keys
    requires plan.instance.active == Some(ids.operationId) && ActiveOn(s, plan.instanceId) == None
    requires !plan.data.CreateData? ==> plan.instanceId in s.control.instances
    requires ActionOf(CommandFor(plan, ids)) == scope.action
    ensures Orders(s, Admitted(s, Carry(s.control, plan, scope, hash, ids, s.orc.now), CommandFor(plan, ids)),
                   CommandFor(plan, ids))
  {
    assert plan.instanceId in s.control.instances.Keys ==> plan.instanceId in s.control.documents.Keys;
  }

  lemma OrdersKeepOrdered(s: Platform, t: Platform, command: Command)
    requires Orders(s, t, command) && Ordered(s)
    ensures Ordered(t)
  {
    var op, i := command.operationId, command.instanceId;
    assert t.control.instances.Keys == s.control.instances.Keys + {i};
    assert t.orc.issued[command.eventId] == command;
    forall o | o in t.control.operations
      ensures HasCommand(t, o)
    {
      if o != op {
        assert HasCommand(s, o);
        var e :| e in s.orc.issued && s.orc.issued[e].operationId == o;
        assert t.orc.issued[e] == s.orc.issued[e];
      }
    }
    forall e | e in t.orc.issued
      ensures t.orc.issued[e].instanceId in t.control.instances.Keys && t.orc.issued[e].instanceId in t.control.documents.Keys
    {
    }
  }

  lemma IssueIsAStep(s: Platform, command: Command)
    requires CommandsHaveOperations(s) && command.operationId !in s.control.operations && command.eventId !in s.orc.issued
    ensures Step(s.orc, Issue(command)) == s.orc.(issued := s.orc.issued[command.eventId := command])
  {
    assert Unissued(s.orc, command);
  }

  lemma SameCursorsFit(s: Platform, t: Platform)
    requires CursorsFit(s) && t.orc.tables.events == s.orc.tables.events && t.applied == s.applied
    ensures CursorsFit(t)
  {
    forall j
      ensures Cursor(t, j) <= |Queue(t, j)|
    {
      assert Cursor(s, j) <= |Queue(s, j)|;
    }
  }

  lemma OrdersKeepLinked(s: Platform, t: Platform, command: Command)
    requires Linked(s) && Orders(s, t, command)
    ensures Linked(t)
  {
    IssueIsAStep(s, command);
    StepKeepsGovernance(s.orc, Issue(command));
    OrdersKeepOrdered(s, t, command);
    forall j, k | 0 <= k < |Queue(t, j)|
      ensures Explained(t, j, Queue(t, j)[k])
    {
      assert Explained(s, j, Queue(s, j)[k]);
    }
    SameCursorsFit(s, t);
  }

  lemma RequestKeepsLinked(s: Platform, catalog: Catalog, caller: Caller, wish: Wish, ids: Minted)
    requires Linked(s) && Fresh(s, wish, ids)
    ensures Linked(Submitted(s, catalog, caller, wish, ids))
  {
    RequestOrders(s, catalog, caller, wish, ids);
    var t := Submitted(s, catalog, caller, wish, ids);
    if t != s {
      OrdersKeepLinked(s, t, CommandFor(PlanOf(s.control, catalog, caller, wish, ids, s.orc.now).value, ids));
    }
  }

  // ----- Every run ---------------------------------------------------------------------------

  lemma QuietControlKeepsLinked(s: Platform, t: Platform)
    requires Linked(s) && IntentsKept(s, t)
    requires t == s.(control := s.control.(leases := t.control.leases, intents := t.control.intents))
    ensures Linked(t)
  {
    SameOrdersStay(s, t);
    SameCursorsFit(s, t);
    ControlKeepsLinked(s, t);
  }

  lemma AskingKeepsLinked(s: Platform, request: ReplayRequested)
    requires Linked(s) && Askable(s, request)
    ensures Linked(Asked(s, request))
  {
    QuietControlKeepsLinked(s, Asked(s, request));
  }

  lemma ReleaseKeepsLinked(s: Platform, i: nat, release: bool)
    requires Linked(s)
    ensures Linked(s.(control := s.control.(leases := ReleaseLease(s.control.leases, i, release).0)))
  {
    QuietControlKeepsLinked(s, s.(control := s.control.(leases := ReleaseLease(s.control.leases, i, release).0)));
  }

  lemma PlatformStepKeepsLinked(s: Platform, catalog: Catalog, input: PlatformInput)
    requires Linked(s)
    ensures Linked(PlatformStep(s, catalog, input))
  {
    if PlatformEnabled(s, input) {
      match input
      case Request(caller, wish, ids) => RequestKeepsLinked(s, catalog, caller, wish, ids);
      case Work(work) => WorkKeepsLinked(s, work);
      case ProjectNext(i) => ProjectionKeepsLinked(s, i);
      case RequestReplay(request) => AskingKeepsLinked(s, request);
      case Release(i, release) => ReleaseKeepsLinked(s, i, release);
    }
  }

  /**
   * Over every run, replays included: commands, operations, rows, events and replay requests belong
   * together, so an event is always about a row of its instance or answers a request that was made.
   */
  lemma {:induction false} RunsAreLinked(start: Time, catalog: Catalog, inputs: seq<PlatformInput>)
    ensures Linked(PlatformRun(start, catalog, inputs))
  {
    if inputs == [] {
      RunsAreGoverned(start, []);
    } else {
      var before := inputs[..|inputs| - 1];
      RunsAreLinked(start, catalog, before);
      PlatformStepKeepsLinked(PlatformRun(start, catalog, before), catalog, inputs[|inputs| - 1]);
    }
  }

  /** No event ever blocks the projection: the one that is next can always be applied. */
  lemma ProjectionNeverBlocks(start: Time, catalog: Catalog, inputs: seq<PlatformInput>, i: nat)
    requires var s := PlatformRun(start, catalog, inputs); Cursor(s, i) < |Queue(s, i)|
    ensures var s := PlatformRun(start, catalog, inputs); Projectable(s.control, i, Queue(s, i)[Cursor(s, i)])
  {
    RunsAreLinked(start, catalog, inputs);
    NextIsProjectable(PlatformRun(start, catalog, inputs), i);
  }
}
