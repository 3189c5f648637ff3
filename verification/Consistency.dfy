/**
 * The platform in runs without governed replay: the busy marker, the event queues, the stored rows
 * and the read model agree at every point.
 */
module Consistency {
  import opened Prelude
  import opened Stages
  import opened SagaEngine
  import opened SagaRuns
  import opened WorkflowTables
  import opened Orchestrator
  import opened Fencing
  import opened RowRuns
  import opened GovernedReplay
  import opened Domain
  import opened ControlTables
  import opened Platform

  // ----- The busy marker ---------------------------------------------------------------------

  /** Each event is about a workflow of its instance; a terminal one about a workflow that ended. */
  ghost predicate EventsHaveRows(s: Platform) {
    forall i, k | 0 <= k < |Queue(s, i)| ::
      var event := Queue(s, i)[k];
      && !event.ReplayResolved?
      && event.operationId in s.orc.tables.workflows
      && s.orc.tables.workflows[event.operationId].instanceId == i
      && (Terminal(event) ==> Ended(s, event.operationId))
  }

  /** Events not yet projected are about the active operation; only the last can be terminal. */
  ghost predicate PendingIsActive(s: Platform) {
    && (forall i :: Cursor(s, i) <= |Queue(s, i)|)
    && (forall i, k | Cursor(s, i) <= k < |Queue(s, i)| ::
          && ActiveOn(s, i) == Some(Queue(s, i)[k].operationId)
          && (Terminal(Queue(s, i)[k]) ==> k == |Queue(s, i)| - 1))
  }

  /** A projected terminal event has released its operation. */
  ghost predicate ProjectedIsReleased(s: Platform) {
    forall i, k | 0 <= k < Cursor(s, i) && k < |Queue(s, i)| && Terminal(Queue(s, i)[k]) ::
      ActiveOn(s, i) != Some(Queue(s, i)[k].operationId)
  }

  /** The active operation is one of the instance's; every other one has ended. */
  ghost predicate OthersEnded(s: Platform) {
    && (forall i | i in s.control.instances && s.control.instances[i].active.Some? ::
          var op := s.control.instances[i].active.value;
          op in s.control.operations && InstanceOf(s, op) == i)
    && (forall op | op in s.control.operations && ActiveOn(s, InstanceOf(s, op)) != Some(op) :: Ended(s, op))
  }

  ghost predicate Marked(s: Platform) {
    EventsHaveRows(s) && PendingIsActive(s) && ProjectedIsReleased(s) && OthersEnded(s)
  }

  // ----- Stored and shown positions ----------------------------------------------------------

  /** The last event about an operation. */
  function Last(events: seq<Event>, op: nat): Option<Event> {
    if events == [] then None
    else if events[|events| - 1].operationId == op then Some(events[|events| - 1])
    else Last(events[..|events| - 1], op)
  }

  /** What the last event about an operation says of its workflow row. */
  predicate StoredAs(w: Workflow, last: Option<Event>) {
    match last
    case None => IsLive(w.saga.status) && w.saga.stage == At(Accepted)
    case Some(Progressed(_, stage, _)) => IsLive(w.saga.status) && w.saga.stage == At(stage)
    case Some(MutationCompleted(_, _, _)) => w.saga.status.Succeeded? && w.saga.stage.Completed?
    case Some(MutationFailed(_, failure, unsafe)) =>
      && w.failure == Some(failure)
      && (if unsafe then w.saga.status.ManualReview? && w.saga.stage.EndedInReview?
          else w.saga.status.Failed? && w.saga.stage.EndedFailed?)
    case Some(ReplayResolved(_, _, _, _, _)) => false
  }

  /** What the last projected event about an operation says of its read model. */
  predicate ShownAs(operation: Operation, last: Option<Event>) {
    match last
    case None => operation.state.OpAccepted? && operation.stage == At(Accepted) && operation.percent == 0
    case Some(event) =>
      && operation.state == OperationAfter(operation, event).state
      && operation.stage == OperationAfter(operation, event).stage
      && operation.manualReview == OperationAfter(operation, event).manualReview
      && (!event.MutationFailed? ==> operation.percent == OperationAfter(operation, event).percent)
  }

  ghost predicate RowsStored(s: Platform) {
    forall op | op in s.orc.tables.workflows ::
      StoredAs(s.orc.tables.workflows[op], Last(Queue(s, s.orc.tables.workflows[op].instanceId), op))
  }

  ghost predicate OperationsShown(s: Platform) {
    forall op | op in s.control.operations ::
      var i := InstanceOf(s, op);
      Cursor(s, i) <= |Queue(s, i)| ==> ShownAs(s.control.operations[op], Last(Queue(s, i)[..Cursor(s, i)], op))
  }

  ghost predicate Shown(s: Platform) {
    RowsStored(s) && OperationsShown(s)
  }

  /** No replay has been asked for, so none has been decided on. */
  predicate Unasked(s: Platform) {
    s.control.intents == map[]
  }

  ghost predicate Consistent(s: Platform) {
    Linked(s) && Marked(s) && Shown(s) && Unasked(s)
  }

  /** Runs in which no operator asks for a replay; forged replay commands may still be delivered. */
  predicate WithoutReplay(inputs: seq<PlatformInput>) {
    forall k | 0 <= k < |inputs| :: !inputs[k].RequestReplay?
  }

  lemma {:induction false} LastIsOf(events: seq<Event>, op: nat)
    ensures Last(events, op).Some? ==>
              exists k :: 0 <= k < |events| && events[k] == Last(events, op).value && events[k].operationId == op
    ensures Last(events, op).None? ==> forall k | 0 <= k < |events| :: events[k].operationId != op
  {
    if events != [] {
      LastIsOf(events[..|events| - 1], op);
      if events[|events| - 1].operationId == op {
        assert events[|events| - 1] == Last(events, op).value;
      } else if Last(events, op).Some? {
        var k :| 0 <= k < |events| - 1 && events[..|events| - 1][k] == Last(events, op).value && events[..|events| - 1][k].operationId == op;
        assert events[k] == Last(events, op).value;
      } else {
        assert forall k | 0 <= k < |events| - 1 :: events[k] == events[..|events| - 1][k];
      }
    }
  }

  lemma LastAfter(events: seq<Event>, event: Event, op: nat)
    ensures Last(events + [event], op) == if event.operationId == op then Some(event) else Last(events, op)
  {
    assert (events + [event])[..|events|] == events;
  }

  // ----- Orchestrator steps that publish nothing ---------------------------------------------

  /** Queues stay; rows keep their position; new rows start at the beginning. */
  ghost predicate QueuesKept(s: Orc, t: Orc) {
    && t.tables.events == s.tables.events && t.issued == s.issued
    && (forall op | op in s.tables.workflows ::
          && op in t.tables.workflows
          && t.tables.workflows[op].instanceId == s.tables.workflows[op].instanceId
          && t.tables.workflows[op].saga.stage == s.tables.workflows[op].saga.stage
          && t.tables.workflows[op].failure == s.tables.workflows[op].failure
          && (t.tables.workflows[op].saga.status == s.tables.workflows[op].saga.status
              || (IsLive(s.tables.workflows[op].saga.status) && IsLive(t.tables.workflows[op].saga.status))))
    && (forall op | op in t.tables.workflows && op !in s.tables.workflows ::
          IsLive(t.tables.workflows[op].saga.status) && t.tables.workflows[op].saga.stage == At(Accepted))
  }

  lemma DeliveryKeepsQueues(s: Orc, command: Command, delivery: Delivery, inherited: Option<nat>)
    ensures QueuesKept(s, Delivered(s, command, delivery, inherited))
  {
    AdmitOriginalOutcome(s.tables, command, delivery, inherited, s.now);
  }

  lemma ExhaustionKeepsQueues(s: Orc, command: Command, supported: bool, delivery: Delivery, attempts: nat, allowed: bool)
    ensures QueuesKept(s, Exhausted(s, command, supported, delivery, attempts, allowed))
  {
  }

  lemma ForgeryKeepsQueues(s: Orc, command: Command, delivery: Delivery)
    requires s.tables.replays == map[]
    ensures QueuesKept(s, Redelivered(s, command, delivery))
  {
    MismatchOnlyQuarantines(s.tables, command, delivery, s.now);
  }

  lemma QuietWorkKeepsQueues(s: Orc, work: Input)
    requires !work.WorkerCommits? && !work.Issue? && !work.DeliverReplayRequest? && s.tables.replays == map[]
    ensures QueuesKept(s, Step(s, work))
  {
    if Enabled(s, work) {
      match work
      case DeliverCommand(eventId, delivery, inherited) => DeliveryKeepsQueues(s, s.issued[eventId], delivery, inherited);
      case ExhaustDelivery(eventId, supported, delivery, attempts, allowed) =>
        ExhaustionKeepsQueues(s, s.issued[eventId], supported, delivery, attempts, allowed);
      case DeliverReplayCommand(command, delivery) => ForgeryKeepsQueues(s, command, delivery);
      case WorkerClaims(op, worker, leaseMs) => ClaimRowEffect(s, op, worker, leaseMs);
      case _ =>
    }
  }

  lemma QuietWorkKeepsMarks(s: Platform, t: Platform)
    requires t == s.(orc := t.orc) && QueuesKept(s.orc, t.orc) && Ordered(s) && Marked(s)
    ensures Marked(t)
  {
    assert forall i :: Queue(t, i) == Queue(s, i) && Cursor(t, i) == Cursor(s, i) && ActiveOn(t, i) == ActiveOn(s, i);
    assert forall op :: Ended(s, op) ==> Ended(t, op);
  }

  lemma QuietWorkKeepsShown(s: Platform, t: Platform)
    requires t == s.(orc := t.orc) && QueuesKept(s.orc, t.orc) && EventsHaveRows(s) && Shown(s)
    ensures Shown(t)
  {
    assert forall i :: Queue(t, i) == Queue(s, i) && Cursor(t, i) == Cursor(s, i);
    forall op | op in t.orc.tables.workflows
      ensures StoredAs(t.orc.tables.workflows[op], Last(Queue(t, t.orc.tables.workflows[op].instanceId), op))
    {
      if op !in s.orc.tables.workflows {
        LastIsOf(Queue(s, t.orc.tables.workflows[op].instanceId), op);
      }
    }
  }

  // ----- Commits -----------------------------------------------------------------------------

  /** A live workflow is the active operation of its instance. */
  lemma LiveIsActive(s: Platform, op: nat)
    requires Identified(s.orc) && Ordered(s) && OthersEnded(s)
    requires op in s.orc.tables.workflows && IsLive(s.orc.tables.workflows[op].saga.status)
    ensures ActiveOn(s, s.orc.tables.workflows[op].instanceId) == Some(op)
  {
    RowsHaveOperations(s, op);
  }

  /** A commit appends its event to its instance's queue and moves its own row only. */
  ghost predicate Appends(s: Platform, t: Platform, i: nat, event: Event) {
    var op := event.operationId;
    && t == s.(orc := t.orc) && t.orc.issued == s.orc.issued && !event.ReplayResolved?
    && t.orc.tables.events == Append(s.orc.tables.events, i, event)
    && op in s.orc.tables.workflows && op in t.orc.tables.workflows
    && s.orc.tables.workflows[op].instanceId == i && t.orc.tables.workflows[op].instanceId == i
    && IsLive(s.orc.tables.workflows[op].saga.status)
    && StoredAs(t.orc.tables.workflows[op], Some(event))
    && t.orc.tables.workflows == s.orc.tables.workflows[op := t.orc.tables.workflows[op]]
  }

  lemma CommitAppends(s: Platform, t: Platform, op: nat, e: Entry)
    requires t == s.(orc := t.orc) && CommitsRow(s.orc, t.orc, op, e) && e.saga.status.Running?
    ensures Appends(s, t, s.orc.tables.workflows[op].instanceId, EventOf(op, e.transition))
  {
  }

  lemma AppendedQueues(s: Platform, t: Platform, i: nat, event: Event)
    requires Appends(s, t, i, event)
    ensures forall j :: Queue(t, j) == if j == i then Queue(s, i) + [event] else Queue(s, j)
    ensures forall j :: Cursor(t, j) == Cursor(s, j) && ActiveOn(t, j) == ActiveOn(s, j)
    ensures forall o | o != event.operationId :: Ended(s, o) <==> Ended(t, o)
    ensures Terminal(event) ==> Ended(t, event.operationId)
    ensures !Ended(s, event.operationId)
  {
  }

  lemma AppendKeepsPending(s: Platform, t: Platform, i: nat, event: Event)
    requires Appends(s, t, i, event) && EventsHaveRows(s) && PendingIsActive(s) && ProjectedIsReleased(s)
    requires ActiveOn(s, i) == Some(event.operationId)
    ensures PendingIsActive(t) && ProjectedIsReleased(t)
  {
    AppendedQueues(s, t, i, event);
    forall k | Cursor(s, i) <= k < |Queue(s, i)|
      ensures !Terminal(Queue(s, i)[k])
    {
      assert Queue(s, i)[k].operationId == event.operationId;
    }
  }

  lemma AppendKeepsEvents(s: Platform, t: Platform, i: nat, event: Event)
    requires Appends(s, t, i, event) && EventsHaveRows(s)
    ensures EventsHaveRows(t)
  {
    AppendedQueues(s, t, i, event);
    forall j, k | 0 <= k < |Queue(t, j)|
      ensures var about := Queue(t, j)[k];
              && !about.ReplayResolved? && about.operationId in t.orc.tables.workflows
              && t.orc.tables.workflows[about.operationId].instanceId == j
              && (Terminal(about) ==> Ended(t, about.operationId))
    {
      if j != i || k < |Queue(s, i)| {
        assert Queue(t, j)[k] == Queue(s, j)[k];
      }
    }
  }

  lemma AppendKeepsOthers(s: Platform, t: Platform, i: nat, event: Event)
    requires Appends(s, t, i, event) && Ordered(s) && OthersEnded(s) && ActiveOn(s, i) == Some(event.operationId)
    ensures OthersEnded(t)
  {
    AppendedQueues(s, t, i, event);
    assert event.operationId in s.control.operations && InstanceOf(s, event.operationId) == i;
  }

  lemma AppendKeepsShown(s: Platform, t: Platform, i: nat, event: Event)
    requires Appends(s, t, i, event) && (forall j :: Cursor(s, j) <= |Queue(s, j)|) && Shown(s)
    ensures Shown(t)
  {
    AppendedQueues(s, t, i, event);
    forall other | other in t.orc.tables.workflows
      ensures StoredAs(t.orc.tables.workflows[other], Last(Queue(t, t.orc.tables.workflows[other].instanceId), other))
    {
      LastAfter(Queue(s, i), event, other);
    }
    forall other | other in t.control.operations
      ensures var j := InstanceOf(t, other); Queue(t, j)[..Cursor(t, j)] == Queue(s, j)[..Cursor(s, j)]
    {
    }
  }

  lemma CommitKeepsConsistent(s: Platform, t: Platform, op: nat, e: Entry)
    requires t == s.(orc := t.orc) && CommitsRow(s.orc, t.orc, op, e) && e.saga.status.Running?
    requires Identified(s.orc) && Ordered(s) && Marked(s) && Shown(s)
    ensures Marked(t) && Shown(t)
  {
    var i, event := s.orc.tables.workflows[op].instanceId, EventOf(op, e.transition);
    LiveIsActive(s, op);
    CommitAppends(s, t, op, e);
    AppendKeepsPending(s, t, i, event);
    AppendKeepsEvents(s, t, i, event);
    AppendKeepsOthers(s, t, i, event);
    AppendKeepsShown(s, t, i, event);
  }

  lemma WorkKeepsConsistent(s: Platform, work: Input)
    requires Consistent(s) && MayWork(s, work)
    ensures Marked(s.(orc := Step(s.orc, work))) && Shown(s.(orc := Step(s.orc, work)))
  {
    var t := s.(orc := Step(s.orc, work));
    if work.WorkerCommits? {
      if Enabled(s.orc, work) && t != s {
        var c := work.ticket;
        var e := Entry(c.row.saga, work.reply, work.decidedAt, work.random, s.orc.now,
                       DecisionOf(c, work.reply, work.decidedAt, work.random));
        CommitIsDecided(s.orc, work);
        CommitKeepsConsistent(s, t, c.operationId, e);
      }
    } else {
      QuietWorkKeepsQueues(s.orc, work);
      QuietWorkKeepsMarks(s, t);
      QuietWorkKeepsShown(s, t);
    }
  }

  // ----- Projection --------------------------------------------------------------------------

  /** The projected event is about the active operation. */
  ghost predicate AdvancesActive(s: Platform, t: Platform, i: nat, event: Event) {
    Advances(s, t, i, event) && s.control.instances[i].active == Some(event.operationId)
  }

  lemma ProjectionAdvances(s: Platform, i: nat)
    requires Identified(s.orc) && Ordered(s) && EventsExplained(s) && EventsHaveRows(s) && PendingIsActive(s)
    requires Cursor(s, i) < |Queue(s, i)|
    ensures AdvancesActive(s, Projected(s, i), i, Queue(s, i)[Cursor(s, i)])
  {
    ProjectionEffect(s, i);
    assert ActiveOn(s, i) == Some(Queue(s, i)[Cursor(s, i)].operationId);
  }

  lemma AdvancedCursors(s: Platform, t: Platform, i: nat, event: Event)
    requires AdvancesActive(s, t, i, event)
    ensures forall j :: Queue(t, j) == Queue(s, j) && Cursor(t, j) == Cursor(s, j) + (if j == i then 1 else 0)
    ensures forall j | j != i :: ActiveOn(t, j) == ActiveOn(s, j)
    ensures ActiveOn(t, i) == if Terminal(event) then None else Some(event.operationId)
    ensures forall op :: Ended(s, op) <==> Ended(t, op)
    ensures t.control.operations.Keys == s.control.operations.Keys && t.control.instances.Keys == s.control.instances.Keys
    ensures forall op | op in s.control.operations ::
              InstanceOf(t, op) == InstanceOf(s, op) && t.control.operations[op].action == s.control.operations[op].action
  {
    assert t.control.operations.Keys == s.control.operations.Keys;
    assert t.control.instances.Keys == s.control.instances.Keys;
  }

  lemma AdvanceKeepsPending(s: Platform, t: Platform, i: nat, event: Event)
    requires AdvancesActive(s, t, i, event) && EventsHaveRows(s) && PendingIsActive(s) && ProjectedIsReleased(s)
    ensures EventsHaveRows(t) && PendingIsActive(t) && ProjectedIsReleased(t)
  {
    AdvancedCursors(s, t, i, event);
    assert forall k | 0 <= k < Cursor(s, i) && Terminal(Queue(s, i)[k]) :: Queue(s, i)[k].operationId != event.operationId;
  }

  lemma AdvanceKeepsOthers(s: Platform, t: Platform, i: nat, event: Event)
    requires AdvancesActive(s, t, i, event) && EventsHaveRows(s) && OthersEnded(s)
    ensures OthersEnded(t)
  {
    AdvancedCursors(s, t, i, event);
    assert Terminal(event) ==> Ended(s, event.operationId);
    forall op | op in t.control.operations && ActiveOn(t, InstanceOf(t, op)) != Some(op)
      ensures Ended(t, op)
    {
      assert op in s.control.operations.Keys;
    }
    forall j | j in t.control.instances && t.control.instances[j].active.Some?
      ensures var op := t.control.instances[j].active.value; op in t.control.operations && InstanceOf(t, op) == j
    {
      assert j in s.control.instances.Keys && ActiveOn(s, j) == ActiveOn(t, j);
      assert s.control.instances[j].active.value in t.control.operations.Keys;
    }
  }

  lemma AdvanceKeepsShown(s: Platform, t: Platform, i: nat, event: Event)
    requires AdvancesActive(s, t, i, event) && PendingIsActive(s) && Shown(s)
    ensures Shown(t)
  {
    AdvancedCursors(s, t, i, event);
    forall op | op in t.control.operations
      ensures var j := InstanceOf(t, op); ShownAs(t.control.operations[op], Last(Queue(t, j)[..Cursor(t, j)], op))
    {
      assert op in s.control.operations.Keys;
      AdvancedLast(s, t, i, event, op);
    }
  }

  lemma AdvancedLast(s: Platform, t: Platform, i: nat, event: Event, op: nat)
    requires AdvancesActive(s, t, i, event) && op in s.control.operations && Cursor(s, InstanceOf(s, op)) <= |Queue(s, InstanceOf(s, op))|
    ensures var j := InstanceOf(s, op);
            Cursor(t, j) <= |Queue(t, j)|
            && Last(Queue(t, j)[..Cursor(t, j)], op)
               == if op == event.operationId then Some(event) else Last(Queue(s, j)[..Cursor(s, j)], op)
  {
    assert t.orc.tables.events == s.orc.tables.events;
    if InstanceOf(s, op) == i {
      assert Cursor(t, i) == Cursor(s, i) + 1;
      LastOfPrefix(Queue(s, i), Cursor(s, i), op);
    }
  }

  lemma LastOfPrefix(events: seq<Event>, n: nat, op: nat)
    requires n < |events|
    ensures Last(events[..n + 1], op) == if events[n].operationId == op then Some(events[n]) else Last(events[..n], op)
  {
    assert events[..n + 1] == events[..n] + [events[n]];
    LastAfter(events[..n], events[n], op);
  }

  lemma ProjectionKeepsConsistent(s: Platform, i: nat)
    requires Linked(s) && Marked(s) && Shown(s) && Cursor(s, i) < |Queue(s, i)|
    ensures var t := Projected(s, i); Marked(t) && Shown(t)
  {
    var t, event := Projected(s, i), Queue(s, i)[Cursor(s, i)];
    ProjectionAdvances(s, i);
    AdvanceKeepsPending(s, t, i, event);
    AdvanceKeepsOthers(s, t, i, event);
    AdvanceKeepsShown(s, t, i, event);
  }

  // ----- Acceptance --------------------------------------------------------------------------

  lemma EventsAreOfOperations(s: Platform, i: nat, k: nat)
    requires Identified(s.orc) && Ordered(s) && EventsHaveRows(s) && k < |Queue(s, i)|
    ensures Queue(s, i)[k].operationId in s.control.operations
  {
    RowsHaveOperations(s, Queue(s, i)[k].operationId);
  }

  lemma OrderedViews(s: Platform, t: Platform, command: Command)
    requires Orders(s, t, command)
    ensures forall j :: Queue(t, j) == Queue(s, j) && Cursor(t, j) == Cursor(s, j)
    ensures forall j :: ActiveOn(t, j) == if j == command.instanceId then Some(command.operationId) else ActiveOn(s, j)
    ensures forall o :: Ended(t, o) <==> Ended(s, o)
    ensures forall o | o in s.control.operations :: o in t.control.operations && InstanceOf(t, o) == InstanceOf(s, o)
    ensures forall o | o in t.control.operations && o != command.operationId :: o in s.control.operations
  {
  }

  lemma OrdersKeepPending(s: Platform, t: Platform, command: Command)
    requires Orders(s, t, command) && Identified(s.orc) && Ordered(s)
    requires EventsHaveRows(s) && PendingIsActive(s) && ProjectedIsReleased(s)
    ensures EventsHaveRows(t) && PendingIsActive(t) && ProjectedIsReleased(t)
  {
    OrderedViews(s, t, command);
    forall j, k | 0 <= k < |Queue(s, j)|
      ensures Queue(s, j)[k].operationId != command.operationId
    {
      EventsAreOfOperations(s, j, k);
    }
  }

  lemma OrdersKeepOthers(s: Platform, t: Platform, command: Command)
    requires Orders(s, t, command) && OthersEnded(s)
    ensures OthersEnded(t)
  {
    OrderedViews(s, t, command);
  }

  lemma OrdersKeepShown(s: Platform, t: Platform, command: Command)
    requires Orders(s, t, command) && Identified(s.orc) && Ordered(s) && EventsHaveRows(s) && Shown(s)
    ensures Shown(t)
  {
    assert forall j :: Queue(t, j) == Queue(s, j) && Cursor(t, j) == Cursor(s, j);
    var i, op := command.instanceId, command.operationId;
    if Cursor(s, i) <= |Queue(s, i)| {
      var seen := Queue(s, i)[..Cursor(s, i)];
      forall k | 0 <= k < |seen|
        ensures seen[k].operationId != op
      {
        EventsAreOfOperations(s, i, k);
      }
      LastIsOf(seen, op);
    }
  }

  lemma RequestKeepsConsistent(s: Platform, catalog: Catalog, caller: Caller, wish: Wish, ids: Minted)
    requires Consistent(s) && Fresh(s, wish, ids)
    ensures var t := Submitted(s, catalog, caller, wish, ids); Marked(t) && Shown(t) && Unasked(t)
  {
    RequestOrders(s, catalog, caller, wish, ids);
    var t := Submitted(s, catalog, caller, wish, ids);
    if t != s {
      var command := CommandFor(PlanOf(s.control, catalog, caller, wish, ids, s.orc.now).value, ids);
      OrdersKeepPending(s, t, command);
      OrdersKeepOthers(s, t, command);
      OrdersKeepShown(s, t, command);
    }
  }

  // ----- Every run ---------------------------------------------------------------------------

  lemma ReleaseKeepsConsistent(s: Platform, t: Platform)
    requires Marked(s) && Shown(s) && t == s.(control := s.control.(leases := t.control.leases))
    ensures Marked(t) && Shown(t)
  {
    assert forall j :: Queue(t, j) == Queue(s, j) && Cursor(t, j) == Cursor(s, j) && ActiveOn(t, j) == ActiveOn(s, j);
    assert forall o :: Ended(t, o) <==> Ended(s, o);
    assert forall o | o in s.control.operations :: InstanceOf(t, o) == InstanceOf(s, o);
  }

  lemma PlatformStepKeepsConsistent(s: Platform, catalog: Catalog, input: PlatformInput)
    requires Consistent(s) && !input.RequestReplay?
    ensures Consistent(PlatformStep(s, catalog, input))
  {
    PlatformStepKeepsLinked(s, catalog, input);
    if PlatformEnabled(s, input) {
      match input
      case Request(caller, wish, ids) => RequestKeepsConsistent(s, catalog, caller, wish, ids);
      case Work(work) => WorkKeepsConsistent(s, work);
      case ProjectNext(i) =>
        ProjectionAdvances(s, i);
        ProjectionKeepsConsistent(s, i);
      case Release(i, release) => ReleaseKeepsConsistent(s, PlatformStep(s, catalog, input));
    }
  }

  lemma {:induction false} RunsAreConsistent(start: Time, catalog: Catalog, inputs: seq<PlatformInput>)
    requires WithoutReplay(inputs)
    ensures Consistent(PlatformRun(start, catalog, inputs))
  {
    if inputs == [] {
      RunsAreLinked(start, catalog, []);
    } else {
      var before := inputs[..|inputs| - 1];
      RunsAreConsistent(start, catalog, before);
      PlatformStepKeepsConsistent(PlatformRun(start, catalog, before), catalog, inputs[|inputs| - 1]);
    }
  }
}
