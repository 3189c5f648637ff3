/**
 * Whether a purged instance stays purged. Without governed replay it always does. With it, an
 * operation of the instance that can still act - at work, not yet delivered, or dead-lettered and open
 * to replay - can bring it back at any later time, and nothing else can.
 */
module Revival {
  import opened Prelude
  import opened Stages
  import opened SagaEngine
  import opened SagaRuns
  import opened WorkflowTables
  import opened Orchestrator
  import opened Fencing
  import opened RowRuns
  import opened GovernedReplay
  import opened Domain
  import opened ControlTables
  import opened Platform
  import opened Consistency
  import opened Conservation
  import opened Turns
  import opened Continuations
  import opened Quota

  // ----- At rest -----------------------------------------------------------------------------

  /** A dead letter that no replay can come from any more. */
  predicate LetterSpent(letter: DeadLetter) {
    letter.status.Replayed? || (letter.status.Open? && !(letter.replayAllowed && letter.supported))
  }

  /** The command has been delivered, its workflow is over, and it cannot be replayed. */
  predicate Spent(t: Tables, e: nat, op: nat) {
    && CommandReceipt(e, 0) in t.receipts
    && (op in t.workflows ==> !IsLive(t.workflows[op].saga.status))
    && (e in t.deadLetters ==> LetterSpent(t.deadLetters[e]))
  }

  predicate CommandsSpent(s: Orc, i: nat) {
    forall e | e in s.issued && s.issued[e].instanceId == i :: Spent(s.tables, e, s.issued[e].operationId)
  }

  /** Nothing that is still to be projected brings the instance back. */
  predicate QueueHarmless(s: Platform, i: nat) {
    forall k | Cursor(s, i) <= k < |Queue(s, i)| :: !Disturbs(Queue(s, i)[k])
  }

  /** What can be looked up when an instance has been purged: nothing of it can act any more. */
  predicate AtRest(s: Platform, i: nat) {
    CommandsSpent(s.orc, i) && QueueHarmless(s, i)
  }

  predicate IsPurged(s: Platform, i: nat) {
    i in s.control.instances && s.control.instances[i].lifecycle.Purged?
  }

  // ----- What is at rest stays at rest -------------------------------------------------------

  /** No row of the instance is at work. */
  lemma RowsOfSpentEnded(s: Orc, i: nat, op: nat)
    requires Identified(s) && CommandsSpent(s, i)
    requires op in s.tables.workflows && s.tables.workflows[op].instanceId == i
    ensures !IsLive(s.tables.workflows[op].saga.status)
  {
    assert RowIdentity(s, op);
    var e := s.tables.workflows[op].eventId;
    assert Spent(s.tables, e, s.issued[e].operationId);
  }

  /** The step publishes nothing for the instance but resolutions, and leaves its commands spent. */
  ghost predicate LeavesAtRest(s: Orc, t: Orc, i: nat) {
    && CommandsSpent(t, i)
    && |EventsOf(s.tables.events, i)| <= |EventsOf(t.tables.events, i)|
    && (forall k | 0 <= k < |EventsOf(s.tables.events, i)| ::
          EventsOf(t.tables.events, i)[k] == EventsOf(s.tables.events, i)[k])
    && (forall k | |EventsOf(s.tables.events, i)| <= k < |EventsOf(t.tables.events, i)| ::
          EventsOf(t.tables.events, i)[k].ReplayResolved?)
  }

  /** A command of the instance that is delivered again changes nothing; others concern other rows. */
  lemma DeliveryLeavesAtRest(s: Orc, eventId: nat, delivery: Delivery, inherited: Option<nat>, i: nat)
    requires Identified(s) && CommandsSpent(s, i) && eventId in s.issued && delivery.generation == 0
    ensures LeavesAtRest(s, Delivered(s, s.issued[eventId], delivery, inherited), i)
  {
    AdmitOriginalOutcome(s.tables, s.issued[eventId], delivery, inherited, s.now);
  }

  lemma ExhaustionLeavesAtRest(s: Orc, eventId: nat, supported: bool, delivery: Delivery, attempts: nat, allowed: bool, i: nat)
    requires Identified(s) && CommandsSpent(s, i) && eventId in s.issued && delivery.generation == 0
    ensures LeavesAtRest(s, Exhausted(s, s.issued[eventId], supported, delivery, attempts, allowed), i)
  {
    ExhaustionsKeepRows(s, s.issued[eventId], supported, delivery, attempts, allowed);
  }

  lemma RequestLeavesAtRest(s: Orc, request: ReplayRequested, delivery: Delivery, i: nat)
    requires CommandsSpent(s, i)
    ensures LeavesAtRest(s, Requested(s, request, delivery), i)
  {
    ReplayRequestOutcome(s.tables, request, delivery);
  }

  lemma ReopeningLeavesAtRest(s: Orc, id: nat, command: Command, delivery: Delivery, i: nat)
    requires IssuedOnce(s) && CommandsSpent(s, i) && command.eventId in s.issued && SameIntent(command, s.issued[command.eventId])
    requires Matches(s.tables, id, command, delivery) && PendingLetter(s.tables, command.eventId, delivery.generation)
    ensures LeavesAtRest(s, WithOpened(s, Reopen(s.tables, id, command, delivery, s.now), command.operationId), i)
  {
  }

  /** A replay of the instance would need a letter that is pending. */
  lemma RedeliveryLeavesAtRest(s: Orc, command: Command, delivery: Delivery, i: nat)
    requires Identified(s) && CommandsSpent(s, i)
    ensures LeavesAtRest(s, Redelivered(s, command, delivery), i)
  {
    var id := ReplayCommandOutcome(s.tables, command, delivery, s.now);
    var outcome := AdmitReplayCommand(s.tables, command, delivery, s.now);
    if outcome.Ok? && outcome.value.1.AdmissionAccepted? {
      ReplayIsTheIssuedCommand(s, id, command, delivery);
      ReopeningLeavesAtRest(s, id, command, delivery, i);
    }
  }

  lemma ClaimLeavesAtRest(s: Orc, op: nat, worker: nat, leaseMs: Time, i: nat)
    requires Identified(s) && CommandsSpent(s, i)
    requires op in s.tables.workflows && IsLive(s.tables.workflows[op].saga.status)
    ensures LeavesAtRest(s, Claimed(s, op, worker, leaseMs), i)
  {
    ClaimRowEffect(s, op, worker, leaseMs);
    if s.tables.workflows[op].instanceId == i {
      RowsOfSpentEnded(s, i, op);
    }
    assert RowIdentity(s, op);
  }

  lemma CommitLeavesAtRest(s: Orc, t: Orc, op: nat, e: Entry, i: nat)
    requires Identified(s) && CommandsSpent(s, i) && CommitsRow(s, t, op, e) && e.saga.status.Running?
    ensures LeavesAtRest(s, t, i)
  {
    if s.tables.workflows[op].instanceId == i {
      RowsOfSpentEnded(s, i, op);
    }
    assert RowIdentity(s, op);
    forall own | own in t.issued && t.issued[own].instanceId == i
      ensures Spent(t.tables, own, t.issued[own].operationId)
    {
      assert Spent(s.tables, own, s.issued[own].operationId);
      assert CommandReceipt(own, 0) in t.tables.receipts.Keys;
    }
  }

  lemma CommitStepLeavesAtRest(s: Orc, work: Input, i: nat)
    requires Fenced(s) && Identified(s) && CommandsSpent(s, i) && work.WorkerCommits?
    ensures LeavesAtRest(s, Step(s, work), i)
  {
    if Enabled(s, work) && Step(s, work) != s {
      CommitIsDecided(s, work);
      var c := work.ticket;
      CommitLeavesAtRest(s, Step(s, work), c.operationId,
        Entry(c.row.saga, work.reply, work.decidedAt, work.random, s.now,
              DecisionOf(c, work.reply, work.decidedAt, work.random)), i);
    }
  }

  lemma WorkLeavesAtRest(s: Orc, work: Input, i: nat)
    requires Fenced(s) && Identified(s) && CommandsSpent(s, i) && !work.Issue?
    ensures LeavesAtRest(s, Step(s, work), i)
  {
    if work.WorkerCommits? {
      CommitStepLeavesAtRest(s, work, i);
    } else if Enabled(s, work) {
      match work
      case DeliverCommand(eventId, delivery, inherited) => DeliveryLeavesAtRest(s, eventId, delivery, inherited, i);
      case ExhaustDelivery(eventId, supported, delivery, attempts, allowed) =>
        ExhaustionLeavesAtRest(s, eventId, supported, delivery, attempts, allowed, i);
      case DeliverReplayRequest(request, delivery) => RequestLeavesAtRest(s, request, delivery, i);
      case DeliverReplayCommand(command, delivery) => RedeliveryLeavesAtRest(s, command, delivery, i);
      case WorkerClaims(op, worker, leaseMs) => ClaimLeavesAtRest(s, op, worker, leaseMs, i);
      case _ =>
    }
  }

  lemma WorkKeepsAtRest(s: Platform, work: Input, i: nat)
    requires Fenced(s.orc) && Identified(s.orc) && AtRest(s, i) && MayWork(s, work)
    ensures AtRest(s.(orc := Step(s.orc, work)), i)
  {
    WorkLeavesAtRest(s.orc, work, i);
    var t := s.(orc := Step(s.orc, work));
    forall k | Cursor(t, i) <= k < |Queue(t, i)|
      ensures !Disturbs(Queue(t, i)[k])
    {
      if k < |Queue(s, i)| {
        assert Queue(t, i)[k] == Queue(s, i)[k];
      }
    }
  }

  /** Nothing is accepted for a purged instance. */
  lemma RequestKeepsAtRest(s: Platform, catalog: Catalog, caller: Caller, wish: Wish, ids: Minted, i: nat)
    requires Ordered(s) && Fresh(s, wish, ids) && IsPurged(s, i) && AtRest(s, i)
    ensures AtRest(Submitted(s, catalog, caller, wish, ids), i)
  {
    var t := Submitted(s, catalog, caller, wish, ids);
    if t != s {
      PlansDoNotPurge(s.control, catalog, caller, wish, ids, s.orc.now);
      PlanShape(s.control, catalog, caller, wish, ids, s.orc.now);
      assert Queue(t, i) == Queue(s, i) && Cursor(t, i) == Cursor(s, i);
    }
  }

  lemma ControlKeepsAtRest(s: Platform, t: Platform, i: nat)
    requires AtRest(s, i) && t.orc == s.orc && Cursor(s, i) <= Cursor(t, i)
    ensures AtRest(t, i)
  {
    assert Queue(t, i) == Queue(s, i);
  }

  lemma ProjectionKeepsAtRest(s: Platform, j: nat, i: nat)
    requires AtRest(s, i) && Cursor(s, j) < |Queue(s, j)|
    ensures AtRest(Projected(s, j), i)
  {
    ControlKeepsAtRest(s, Projected(s, j), i);
  }

  lemma StepKeepsAtRest(s: Platform, catalog: Catalog, input: PlatformInput, i: nat)
    requires Fenced(s.orc) && Identified(s.orc) && Ordered(s) && IsPurged(s, i) && AtRest(s, i)
    ensures AtRest(PlatformStep(s, catalog, input), i)
  {
    if PlatformEnabled(s, input) {
      match input
      case Request(caller, wish, ids) => RequestKeepsAtRest(s, catalog, caller, wish, ids, i);
      case Work(work) => WorkKeepsAtRest(s, work, i);
      case ProjectNext(j) => ProjectionKeepsAtRest(s, j, i);
      case _ => ControlKeepsAtRest(s, PlatformStep(s, catalog, input), i);
    }
  }

  ghost predicate SameInstance(s: Platform, t: Platform, i: nat) {
    i in s.control.instances && i in t.control.instances && t.control.instances[i] == s.control.instances[i]
  }

  lemma RequestKeepsPurged(s: Platform, catalog: Catalog, caller: Caller, wish: Wish, ids: Minted, i: nat)
    requires Fresh(s, wish, ids) && PurgedIdle(s.control) && IsPurged(s, i)
    ensures SameInstance(s, Submitted(s, catalog, caller, wish, ids), i)
  {
    var move := RequestMoves(s, catalog, caller, wish, ids);
    UndisturbedStays(s.control, Submitted(s, catalog, caller, wish, ids).control, catalog, move, i);
  }

  lemma ProjectionKeepsPurged(s: Platform, j: nat, i: nat)
    requires Identified(s.orc) && Ordered(s) && EventsExplained(s) && Cursor(s, j) < |Queue(s, j)|
    requires PurgedIdle(s.control) && IsPurged(s, i) && QueueHarmless(s, i)
    ensures SameInstance(s, Projected(s, j), i)
  {
    ProjectionEffect(s, j);
    assert j == i ==> !Disturbs(Queue(s, i)[Cursor(s, i)]);
  }

  lemma StepKeepsPurged(s: Platform, catalog: Catalog, input: PlatformInput, i: nat)
    requires Identified(s.orc) && Ordered(s) && EventsExplained(s)
    requires PurgedIdle(s.control) && IsPurged(s, i) && QueueHarmless(s, i)
    ensures SameInstance(s, PlatformStep(s, catalog, input), i)
  {
    if PlatformEnabled(s, input) {
      match input
      case Request(caller, wish, ids) => RequestKeepsPurged(s, catalog, caller, wish, ids, i);
      case ProjectNext(j) => ProjectionKeepsPurged(s, j, i);
      case _ =>
    }
  }

  // ----- What is not at rest can come back ---------------------------------------------------

  /** The state from which a purged instance is to be brought back. */
  ghost predicate Purgedly(s: Platform, i: nat) {
    Linked(s) && PurgedIdle(s.control) && IsPurged(s, i)
  }

  /** What projecting the events of an instance relies on. */
  ghost predicate Projecting(s: Platform, i: nat) {
    Identified(s.orc) && Ordered(s) && EventsExplained(s) && PurgedIdle(s.control) && IsPurged(s, i)
  }

  /** The instance is purged no longer, and no other instance has changed. */
  predicate BroughtBack(s: Platform, t: Platform, i: nat) {
    && i in t.control.instances && !t.control.instances[i].lifecycle.Purged?
    && t.control.instances == s.control.instances[i := t.control.instances[i]]
  }

  lemma HarmlessProjection(s: Platform, i: nat)
    requires Projecting(s, i) && Cursor(s, i) < |Queue(s, i)| && !Disturbs(Queue(s, i)[Cursor(s, i)])
    ensures var t := Projected(s, i);
            && t.orc == s.orc && t.control.instances == s.control.instances
            && t.control.documents.Keys == s.control.documents.Keys && IntentsKept(s, t)
            && t.control.operations.Keys == s.control.operations.Keys
            && (forall op | op in s.control.operations ::
                  InstanceOf(t, op) == InstanceOf(s, op) && t.control.operations[op].action == s.control.operations[op].action)
            && Cursor(t, i) == Cursor(s, i) + 1
  {
    ProjectionEffect(s, i);
    assert Projected(s, i).control.instances == s.control.instances;
    assert Projected(s, i).control.operations.Keys == s.control.operations.Keys;
  }

  lemma ExplainedStays(s: Platform, t: Platform)
    requires EventsExplained(s) && t.orc == s.orc && IntentsKept(s, t)
    ensures EventsExplained(t)
  {
    forall j, k | 0 <= k < |Queue(t, j)|
      ensures Explained(t, j, Queue(t, j)[k])
    {
      assert Explained(s, j, Queue(s, j)[k]);
    }
  }

  lemma HarmlessProjectionKeeps(s: Platform, i: nat)
    requires Projecting(s, i) && Cursor(s, i) < |Queue(s, i)| && !Disturbs(Queue(s, i)[Cursor(s, i)])
    ensures var t := Projected(s, i);
            Projecting(t, i) && t.control.instances == s.control.instances && Queue(t, i) == Queue(s, i) && Cursor(t, i) == Cursor(s, i) + 1
  {
    HarmlessProjection(s, i);
    SameOrdersStay(s, Projected(s, i));
    ExplainedStays(s, Projected(s, i));
  }

  lemma DisturbedIsNotPurged(instance: Instance, event: Event)
    requires Disturbs(event)
    ensures !InstanceAfter(instance, event).lifecycle.Purged?
  {
  }

  lemma DisturbingNext(s: Platform, catalog: Catalog, i: nat) returns (first: seq<PlatformInput>)
    requires Projecting(s, i) && Cursor(s, i) < |Queue(s, i)| && Disturbs(Queue(s, i)[Cursor(s, i)])
    ensures BroughtBack(s, Continued(s, catalog, first), i)
  {
    first := [ProjectNext(i)];
    AfterOne(s, catalog, ProjectNext(i));
    ProjectionEffect(s, i);
    DisturbedIsNotPurged(s.control.instances[i], Queue(s, i)[Cursor(s, i)]);
  }

  lemma HarmlessNext(s: Platform, catalog: Catalog, i: nat) returns (first: seq<PlatformInput>, t: Platform)
    requires Projecting(s, i) && Cursor(s, i) < |Queue(s, i)| && !Disturbs(Queue(s, i)[Cursor(s, i)])
    ensures t == Continued(s, catalog, first) && Projecting(t, i) && t.control.instances == s.control.instances
    ensures Queue(t, i) == Queue(s, i) && Cursor(t, i) == Cursor(s, i) + 1
  {
    HarmlessProjectionKeeps(s, i);
    AfterOne(s, catalog, ProjectNext(i));
    first, t := [ProjectNext(i)], Projected(s, i);
  }

  /** An event that is yet to be projected brings the instance back when it is. */
  lemma {:induction false} DisturbanceRevives(s: Platform, catalog: Catalog, i: nat, k: nat) returns (more: seq<PlatformInput>)
    requires Projecting(s, i) && Cursor(s, i) <= k < |Queue(s, i)| && Disturbs(Queue(s, i)[k])
    ensures BroughtBack(s, Continued(s, catalog, more), i)
    decreases k - Cursor(s, i)
  {
    if Disturbs(Queue(s, i)[Cursor(s, i)]) {
      more := DisturbingNext(s, catalog, i);
    } else {
      assert k != Cursor(s, i);
      var first, t := HarmlessNext(s, catalog, i);
      assert Cursor(t, i) <= k < |Queue(t, i)| && Disturbs(Queue(t, i)[k]);
      var rest := DisturbanceRevives(t, catalog, i, k);
      AfterSplit(s, catalog, first, rest);
      more := first + rest;
    }
  }

  /** Steps of the orchestrator leave the instance row alone. */
  lemma OrcStepsKeepPurgedly(s: Platform, catalog: Catalog, more: seq<PlatformInput>, i: nat)
    requires Purgedly(s, i)
    requires var t := Continued(s, catalog, more); t == s.(orc := t.orc, control := s.control.(intents := t.control.intents))
    ensures Purgedly(Continued(s, catalog, more), i)
  {
    AfterIsLinked(s, catalog, more);
  }

  /** After a turn that met an outage, the instance has an event more, and it is no success. */
  lemma OutageTurnDisturbs(s: Platform, t: Platform, op: nat, time: Time)
    requires op in s.orc.tables.workflows && s.orc.tables.workflows[op].saga.stage.At?
    requires TakesTurn(s.orc, t.orc, op, Outage(s.orc.tables.workflows[op]), time) && t.applied == s.applied
    ensures var i := s.orc.tables.workflows[op].instanceId;
            |Queue(t, i)| == |Queue(s, i)| + 1 && Disturbs(Queue(t, i)[|Queue(s, i)|]) && Cursor(t, i) == Cursor(s, i)
  {
    OutageNeverSucceeds(s.orc.tables.workflows[op], time);
  }

  lemma LiveIsAtStage(s: Orc, op: nat)
    requires Invariant(s) && op in s.tables.workflows && IsLive(s.tables.workflows[op].saga.status)
    ensures s.tables.workflows[op].saga.stage.At?
  {
    RowIsSound(s, op);
  }

  /** A workflow at work can be made to publish an event that is no success. */
  lemma LivePublishes(s: Platform, catalog: Catalog, op: nat) returns (more: seq<PlatformInput>)
    requires Invariant(s.orc) && op in s.orc.tables.workflows && IsLive(s.orc.tables.workflows[op].saga.status)
    ensures var t, i := Continued(s, catalog, more), s.orc.tables.workflows[op].instanceId;
            && t == s.(orc := t.orc)
            && |Queue(t, i)| == |Queue(s, i)| + 1 && Disturbs(Queue(t, i)[|Queue(s, i)|]) && Cursor(t, i) == Cursor(s, i)
  {
    var w, time := s.orc.tables.workflows[op], DueTime(s.orc, op);
    LiveIsAtStage(s.orc, op);
    OutageNeverSucceeds(w, time);
    more := TurnAfter(s, catalog, op, Outage(w), time);
    TurnEffect(s.orc, op, Outage(w), time);
    OutageTurnDisturbs(s, Continued(s, catalog, more), op, time);
  }

  /** A workflow at work publishes its next event. */
  lemma LiveRevives(s: Platform, catalog: Catalog, i: nat, op: nat) returns (more: seq<PlatformInput>)
    requires Purgedly(s, i) && op in s.orc.tables.workflows
    requires s.orc.tables.workflows[op].instanceId == i && IsLive(s.orc.tables.workflows[op].saga.status)
    ensures BroughtBack(s, Continued(s, catalog, more), i)
  {
    assert Cursor(s, i) <= |Queue(s, i)|;
    var turn := LivePublishes(s, catalog, op);
    OrcStepsKeepPurgedly(s, catalog, turn, i);
    var rest := DisturbanceRevives(Continued(s, catalog, turn), catalog, i, |Queue(s, i)|);
    AfterSplit(s, catalog, turn, rest);
    more := turn + rest;
  }

  /** Inputs that leave a workflow of the instance at work, followed by its next event. */
  lemma StartedRevives(s: Platform, catalog: Catalog, i: nat, op: nat, first: seq<PlatformInput>) returns (more: seq<PlatformInput>)
    requires Purgedly(s, i)
    requires var t := Continued(s, catalog, first); t == s.(orc := t.orc, control := s.control.(intents := t.control.intents))
    requires var rows := Continued(s, catalog, first).orc.tables.workflows;
             op in rows && rows[op].instanceId == i && IsLive(rows[op].saga.status)
    ensures BroughtBack(s, Continued(s, catalog, more), i)
  {
    OrcStepsKeepPurgedly(s, catalog, first, i);
    var rest := LiveRevives(Continued(s, catalog, first), catalog, i, op);
    AfterSplit(s, catalog, first, rest);
    more := first + rest;
  }

  /** A command not yet delivered is delivered. */
  lemma UndeliveredRevives(s: Platform, catalog: Catalog, i: nat, e: nat) returns (more: seq<PlatformInput>)
    requires Purgedly(s, i) && e in s.orc.issued && s.orc.issued[e].instanceId == i
    requires CommandReceipt(e, 0) !in s.orc.tables.receipts
    ensures BroughtBack(s, Continued(s, catalog, more), i)
  {
    assert EventGoverned(s.orc.tables, e, s.orc.issued[e].operationId);
    var at := FreshCoordinates(s.orc.tables.receipts);
    var inherited := InheritsSomething(s.orc.tables, i);
    DeliveryStarts(s.orc, e, at, inherited);
    var deliver := DeliverCommand(e, Delivery(at, 0, None), inherited);
    WorkAfter(s, catalog, deliver);
    more := StartedRevives(s, catalog, i, s.orc.issued[e].operationId, [Work(deliver)]);
  }

  lemma ReopenedIsLive(t: Tables, id: nat, command: Command, delivery: Delivery, now: Time)
    requires Matches(t, id, command, delivery) && PendingLetter(t, command.eventId, delivery.generation)
    ensures var rows := Reopen(t, id, command, delivery, now).workflows;
            && command.operationId in rows && IsLive(rows[command.operationId].saga.status)
            && rows[command.operationId].instanceId
               == if command.operationId in t.workflows then t.workflows[command.operationId].instanceId else command.instanceId
  {
  }

  /** The delivery that reopens the row of a pending letter. */
  lemma PendingStarts(s: Orc, e: nat) returns (deliver: Input)
    requires Invariant(s) && Governed(s) && e in s.issued
    requires e in s.tables.deadLetters && s.tables.deadLetters[e].status.ReplayPending?
    ensures deliver.DeliverReplayCommand?
    ensures var rows, op := Step(s, deliver).tables.workflows, s.issued[e].operationId;
            op in rows && rows[op].instanceId == s.issued[e].instanceId && IsLive(rows[op].saga.status)
  {
    assert EventGoverned(s.tables, e, s.issued[e].operationId);
    var id, command, delivery := PendingLetterMatches(s, e);
    PendingLetterReopens(s, id, command, delivery);
    ReopenedIsLive(s.tables, id, command, delivery, s.now);
    assert RowIdentity(s, command.operationId);
    deliver := DeliverReplayCommand(command, delivery);
  }

  /** A replay that has been authorized is delivered. */
  lemma PendingRevives(s: Platform, catalog: Catalog, i: nat, e: nat) returns (more: seq<PlatformInput>)
    requires Purgedly(s, i) && e in s.orc.issued && s.orc.issued[e].instanceId == i
    requires e in s.orc.tables.deadLetters && s.orc.tables.deadLetters[e].status.ReplayPending?
    ensures BroughtBack(s, Continued(s, catalog, more), i)
  {
    var deliver := PendingStarts(s.orc, e);
    WorkAfter(s, catalog, deliver);
    more := StartedRevives(s, catalog, i, s.orc.issued[e].operationId, [Work(deliver)]);
  }

  /** A letter that is open to replay is asked for. */
  lemma OpenRevives(s: Platform, catalog: Catalog, i: nat, e: nat) returns (more: seq<PlatformInput>)
    requires Purgedly(s, i) && e in s.orc.issued && s.orc.issued[e].instanceId == i && Replayable(s.orc.tables, e)
    ensures BroughtBack(s, Continued(s, catalog, more), i)
  {
    var first, request, delivery := OpenLetterBecomesPending(s, catalog, e, 0);
    OrcStepsKeepPurgedly(s, catalog, first, i);
    var rest := PendingRevives(Continued(s, catalog, first), catalog, i, e);
    AfterSplit(s, catalog, first, rest);
    more := first + rest;
  }

  lemma UnspentRevives(s: Platform, catalog: Catalog, i: nat, e: nat) returns (more: seq<PlatformInput>)
    requires Purgedly(s, i) && e in s.orc.issued && s.orc.issued[e].instanceId == i
    requires !Spent(s.orc.tables, e, s.orc.issued[e].operationId)
    ensures BroughtBack(s, Continued(s, catalog, more), i)
  {
    var t, op := s.orc.tables, s.orc.issued[e].operationId;
    if CommandReceipt(e, 0) !in t.receipts {
      more := UndeliveredRevives(s, catalog, i, e);
    } else if op in t.workflows && IsLive(t.workflows[op].saga.status) {
      assert RowIdentity(s.orc, op);
      more := LiveRevives(s, catalog, i, op);
    } else if t.deadLetters[e].status.ReplayPending? {
      more := PendingRevives(s, catalog, i, e);
    } else {
      more := OpenRevives(s, catalog, i, e);
    }
  }

  /** A purged instance of which something can still act can be brought back. */
  lemma NotAtRestRevives(s: Platform, catalog: Catalog, i: nat) returns (more: seq<PlatformInput>)
    requires Purgedly(s, i) && !AtRest(s, i)
    ensures BroughtBack(s, Continued(s, catalog, more), i)
  {
    if !QueueHarmless(s, i) {
      var k :| Cursor(s, i) <= k < |Queue(s, i)| && Disturbs(Queue(s, i)[k]);
      more := DisturbanceRevives(s, catalog, i, k);
    } else {
      var e :| e in s.orc.issued && s.orc.issued[e].instanceId == i && !Spent(s.orc.tables, e, s.orc.issued[e].operationId);
      more := UnspentRevives(s, catalog, i, e);
    }
  }

  // ----- Exactly -----------------------------------------------------------------------------

  lemma {:induction false} AtRestStaysPurged(s: Platform, catalog: Catalog, more: seq<PlatformInput>, i: nat)
    requires Purgedly(s, i) && AtRest(s, i)
    ensures var t := Continued(s, catalog, more); Purgedly(t, i) && AtRest(t, i) && SameInstance(s, t, i)
  {
    if more != [] {
      var before := more[..|more| - 1];
      AtRestStaysPurged(s, catalog, before, i);
      var t := Continued(s, catalog, before);
      PlatformStepKeepsLinked(t, catalog, more[|more| - 1]);
      StepKeepsAtRest(t, catalog, more[|more| - 1], i);
      StepKeepsPurged(t, catalog, more[|more| - 1], i);
      StepKeepsPurgedIdle(t, catalog, more[|more| - 1]);
    }
  }

  lemma StepKeepsPurgedIdle(s: Platform, catalog: Catalog, input: PlatformInput)
    requires Linked(s) && PurgedIdle(s.control)
    ensures PurgedIdle(PlatformStep(s, catalog, input).control)
  {
    var move := StepMoves(s, catalog, input);
    MoveKeepsPurgedIdle(s.control, PlatformStep(s, catalog, input).control, catalog, move);
  }

  /** However the run goes on, the instance row is never changed again. */
  ghost predicate StaysPurged(start: Time, catalog: Catalog, inputs: seq<PlatformInput>, i: nat) {
    forall more :: SameInstance(PlatformRun(start, catalog, inputs), PlatformRun(start, catalog, inputs + more), i)
  }

  /**
   * With replays: a purged instance stays as it is however the run goes on if and only if nothing of
   * it can act any more - each of its commands has been delivered, its workflow is over, its dead
   * letter cannot be replayed, and no event but that of a purge awaits projection.
   */
  lemma PurgedIsFinalExactly(start: Time, catalog: Catalog, inputs: seq<PlatformInput>, i: nat)
    requires IsPurged(PlatformRun(start, catalog, inputs), i)
    ensures StaysPurged(start, catalog, inputs, i) <==> AtRest(PlatformRun(start, catalog, inputs), i)
  {
    var s := PlatformRun(start, catalog, inputs);
    RunsAreLinked(start, catalog, inputs);
    RunsAreKept(start, catalog, inputs);
    if AtRest(s, i) {
      forall more
        ensures SameInstance(s, PlatformRun(start, catalog, inputs + more), i)
      {
        RunContinues(start, catalog, inputs, more);
        AtRestStaysPurged(s, catalog, more, i);
      }
    } else {
      var more := NotAtRestRevives(s, catalog, i);
      RunContinues(start, catalog, inputs, more);
      assert !SameInstance(s, PlatformRun(start, catalog, inputs + more), i);
    }
  }

  /** In runs without replay, a purged instance stays as it is, with no condition. */
  lemma {:induction false} PurgedIsFinal(start: Time, catalog: Catalog, inputs: seq<PlatformInput>, n: nat, i: nat)
    requires n <= |inputs| && WithoutReplay(inputs) && IsPurged(PlatformRun(start, catalog, inputs[..n]), i)
    ensures SameInstance(PlatformRun(start, catalog, inputs[..n]), PlatformRun(start, catalog, inputs), i)
    decreases |inputs|
  {
    if n == |inputs| {
      assert inputs[..n] == inputs;
    } else {
      var before, last := inputs[..|inputs| - 1], inputs[|inputs| - 1];
      assert before[..n] == inputs[..n];
      PurgedIsFinal(start, catalog, before, n, i);
      RunsAreKept(start, catalog, before);
      RunsAreConsistent(start, catalog, before);
      UnrevivedStays(PlatformRun(start, catalog, before), catalog, last, i);
    }
  }

  lemma UnrevivedProjectionStays(s: Platform, j: nat, i: nat)
    requires Identified(s.orc) && Ordered(s) && EventsExplained(s) && Cursor(s, j) < |Queue(s, j)|
    requires PurgedIdle(s.control) && IsPurged(s, i) && !Revives(s, ProjectNext(j))
    ensures SameInstance(s, Projected(s, j), i)
  {
    ProjectionEffect(s, j);
  }

  lemma UnrevivedStepStays(s: Platform, catalog: Catalog, input: PlatformInput, i: nat)
    requires Identified(s.orc) && Ordered(s) && EventsExplained(s)
    requires PurgedIdle(s.control) && IsPurged(s, i) && !Revives(s, input)
    ensures SameInstance(s, PlatformStep(s, catalog, input), i)
  {
    if PlatformEnabled(s, input) {
      match input
      case Request(caller, wish, ids) => RequestKeepsPurged(s, catalog, caller, wish, ids, i);
      case ProjectNext(j) => UnrevivedProjectionStays(s, j, i);
      case _ =>
    }
  }

  lemma UnrevivedStays(s: Platform, catalog: Catalog, input: PlatformInput, i: nat)
    requires Consistent(s) && PurgedIdle(s.control) && IsPurged(s, i)
    ensures SameInstance(s, PlatformStep(s, catalog, input), i)
  {
    NothingRevives(s, input);
    UnrevivedStepStays(s, catalog, input, i);
  }

  // ----- What this means for the quota -------------------------------------------------------

  /** The n-th step of a run makes the instance purged. */
  ghost predicate BecomesPurged(start: Time, catalog: Catalog, inputs: seq<PlatformInput>, n: nat, i: nat) {
    && n < |inputs| && !IsPurged(PlatformRun(start, catalog, inputs[..n]), i)
    && IsPurged(PlatformRun(start, catalog, inputs[..n + 1]), i)
  }

  /** Whenever an instance becomes purged, nothing of it can act any more. */
  ghost predicate PurgesAreAtRest(start: Time, catalog: Catalog, inputs: seq<PlatformInput>) {
    forall n, i | BecomesPurged(start, catalog, inputs, n, i) :: AtRest(PlatformRun(start, catalog, inputs[..n + 1]), i)
  }

  lemma {:induction false} PurgedSince(start: Time, catalog: Catalog, inputs: seq<PlatformInput>, k: nat, i: nat) returns (n: nat)
    requires k <= |inputs| && IsPurged(PlatformRun(start, catalog, inputs[..k]), i)
    ensures n < k && BecomesPurged(start, catalog, inputs, n, i)
  {
    assert k > 0;
    if IsPurged(PlatformRun(start, catalog, inputs[..k - 1]), i) {
      n := PurgedSince(start, catalog, inputs, k - 1, i);
    } else {
      n := k - 1;
    }
  }

  /** An instance at rest since the n-th point is not brought back by the k-th step. */
  lemma RestingIsNotRevived(start: Time, catalog: Catalog, inputs: seq<PlatformInput>, n: nat, k: nat, i: nat)
    requires n <= k < |inputs| && IsPurged(PlatformRun(start, catalog, inputs[..n]), i)
    requires AtRest(PlatformRun(start, catalog, inputs[..n]), i)
    ensures QueueHarmless(PlatformRun(start, catalog, inputs[..k]), i)
  {
    RunsAreLinked(start, catalog, inputs[..n]);
    RunsAreKept(start, catalog, inputs[..n]);
    RunContinues(start, catalog, inputs[..n], inputs[n..k]);
    assert inputs[..n] + inputs[n..k] == inputs[..k];
    AtRestStaysPurged(PlatformRun(start, catalog, inputs[..n]), catalog, inputs[n..k], i);
  }

  lemma HarmlessIsNoRevival(s: Platform, input: PlatformInput)
    requires input.ProjectNext? && QueueHarmless(s, input.instanceId)
    ensures !Revives(s, input)
  {
  }

  /**
   * The check that keeps the quota, made when an instance becomes purged: if nothing of it can act
   * then, every project stays within its quota however often dead letters are replayed.
   */
  lemma RestingPurgesKeepQuota(start: Time, catalog: Catalog, inputs: seq<PlatformInput>)
    requires PurgesAreAtRest(start, catalog, inputs)
    ensures AlwaysWithinQuota(start, catalog, inputs)
  {
    forall k | 0 <= k < |inputs|
      ensures RevivalFits(start, catalog, inputs, k)
    {
      var s := PlatformRun(start, catalog, inputs[..k]);
      if Revives(s, inputs[k]) {
        var n := PurgedSince(start, catalog, inputs, k, inputs[k].instanceId);
        RestingIsNotRevived(start, catalog, inputs, n + 1, k, inputs[k].instanceId);
        HarmlessIsNoRevival(s, inputs[k]);
      }
    }
    QuotaIsKeptExactly(start, catalog, inputs);
  }
}
