/**
 * The chain that guards destruction, over whole runs with governed replay: a purge is submitted only
 * for an operation accepted while its instance was idle, retained and past its deadline, and only
 * after its run saw the machine present and owned; `purged` is recorded only after it was not seen.
 */
module PurgeChain {
  import opened Prelude
  import opened Stages
  import opened SagaEngine
  import opened SagaRuns
  import opened WorkflowTables
  import opened Orchestrator
  import opened Fencing
  import opened RowRuns
  import opened GovernedReplay
  import opened Domain
  import opened ControlTables
  import opened Platform
  import opened Conservation
  import opened Provider
  import opened Effects
  import opened Observations

  // ----- Within one run ----------------------------------------------------------------------

  /** A commit that verified ownership: the machine was there, and its markers matched. */
  predicate VerifiedOwned(e: Entry) {
    e.saga.stage == At(VerifyingPurge) && e.reply.Observed? && ProvesOwned(e.reply.observation)
  }

  ghost predicate Verified(run: seq<Entry>) {
    exists k :: 0 <= k < |run| && VerifiedOwned(run[k])
  }

  predicate PastVerification(saga: Saga) {
    saga.stage == At(SubmittingPurge) || saga.stage == At(PollingPurge) || saga.stage == At(ObservingPurge)
  }

  lemma VerificationComesFirst(command: Command, e: Entry)
    requires ActionOf(command).PurgeInstance? && Decided(command, e)
    requires Sound(PurgeInstance, e.saga) && e.saga.status.Running? && PastVerification(After(e))
    ensures PastVerification(e.saga) || VerifiedOwned(e)
  {
  }

  lemma {:induction false} PurgeFollowsVerification(command: Command, start: Saga, run: seq<Entry>)
    requires ActionOf(command).PurgeInstance? && ValidRun(command, start, run)
    requires Sound(PurgeInstance, start) && start.stage == At(Accepted)
    requires PastVerification(FinalSaga(start, run))
    ensures Verified(run)
  {
    if run != [] {
      var last := |run| - 1;
      RunIsSound(command, start, run[..last]);
      ClaimKeepsSound(PurgeInstance, FinalSaga(start, run[..last]));
      VerificationComesFirst(command, run[last]);
      if PastVerification(run[last].saga) {
        PurgeFollowsVerification(command, start, run[..last]);
        var k :| 0 <= k < last && VerifiedOwned(run[..last][k]);
        assert VerifiedOwned(run[k]);
      }
    }
  }

  /** The provider did not report the machine as existing. */
  predicate SeenAbsent(e: Entry) {
    e.reply.Observed? && !ReportsPresent(e.reply.observation)
  }

  lemma OnlyAbsencePurges(command: Command, e: Entry)
    requires Decided(command, e) && e.transition.Succeed? && e.transition.lifecycle.Purged?
    ensures ActionOf(command).PurgeInstance? && SeenAbsent(e)
  {
  }

  // ----- Where tickets came from -------------------------------------------------------------

  /** The ticket is what a claim of the row would hand out. */
  ghost predicate ClaimOf(s: Orc, c: Ticket) {
    && c.operationId in s.tables.workflows
    && var w := s.tables.workflows[c.operationId];
       c.row.command == w.command && c.row.saga == ClaimedSaga(w.saga) && IsLive(w.saga.status)
  }

  lemma NewTicketIsClaimed(s: Orc, work: Input, c: Ticket)
    requires c in Step(s, work).tickets && c !in s.tickets
    ensures ClaimOf(s, c)
  {
    StepShape(s, work);
    ClaimRowEffect(s, work.operationId, work.worker, work.leaseMs);
  }

  lemma StepGrants(s: Platform, catalog: Catalog, input: PlatformInput, c: Ticket)
    requires c in PlatformStep(s, catalog, input).orc.tickets && c !in s.orc.tickets
    ensures ClaimOf(s.orc, c)
  {
    match input
    case Work(work) => NewTicketIsClaimed(s.orc, work, c);
    case _ =>
  }

  /** Every ticket was handed out by a claim at some point of the run. */
  lemma {:induction false} TicketWasGranted(start: Time, catalog: Catalog, inputs: seq<PlatformInput>, c: Ticket) returns (n: nat)
    requires c in PlatformRun(start, catalog, inputs).orc.tickets
    ensures n < |inputs| && ClaimOf(PlatformRun(start, catalog, inputs[..n]).orc, c)
  {
    assert inputs != [];
    var before := inputs[..|inputs| - 1];
    if c in PlatformRun(start, catalog, before).orc.tickets {
      n := TicketWasGranted(start, catalog, before, c);
      assert before[..n] == inputs[..n];
    } else {
      n := |inputs| - 1;
      StepGrants(PlatformRun(start, catalog, before), catalog, inputs[n], c);
    }
  }

  // ----- Where operations came from ----------------------------------------------------------

  /** A purge was accepted for an instance that was idle, retained and past its deadline. */
  ghost predicate PurgesOriginate(s: Platform) {
    forall op | op in s.control.operations && s.control.operations[op].action.PurgeInstance? ::
      && op in s.origins && s.origins[op].before.Some?
      && Purgeable(s.origins[op].before.value, s.origins[op].at)
  }

  lemma PurgePlan(c: Control, catalog: Catalog, caller: Caller, wish: Wish, ids: Minted, now: Time)
    requires wish.PurgeWish? && PlanOf(c, catalog, caller, wish, ids, now).Ok?
    ensures var plan := PlanOf(c, catalog, caller, wish, ids, now).value;
            plan.instanceId in c.instances && Purgeable(c.instances[plan.instanceId], now)
  {
  }

  lemma SubmissionOriginates(s: Platform, catalog: Catalog, caller: Caller, wish: Wish, ids: Minted)
    requires Fresh(s, wish, ids) && PurgesOriginate(s)
    ensures PurgesOriginate(Submitted(s, catalog, caller, wish, ids))
  {
    var t := Submitted(s, catalog, caller, wish, ids);
    if t != s && wish.PurgeWish? {
      PurgePlan(s.control, catalog, caller, wish, ids, s.orc.now);
    }
  }

  lemma ProjectionOriginates(s: Platform, t: Platform, i: nat, event: Event)
    requires Advances(s, t, i, event) && PurgesOriginate(s)
    ensures PurgesOriginate(t)
  {
    assert t.control.operations.Keys == s.control.operations.Keys;
  }

  lemma NextOriginates(s: Platform, i: nat)
    requires Identified(s.orc) && Ordered(s) && EventsExplained(s) && Cursor(s, i) < |Queue(s, i)| && PurgesOriginate(s)
    ensures PurgesOriginate(Projected(s, i))
  {
    ProjectionEffect(s, i);
    var event := Queue(s, i)[Cursor(s, i)];
    if !event.ReplayResolved? {
      ProjectionOriginates(s, Projected(s, i), i, event);
    }
  }

  lemma StepOriginates(s: Platform, catalog: Catalog, input: PlatformInput)
    requires Identified(s.orc) && Ordered(s) && EventsExplained(s) && PurgesOriginate(s)
    ensures PurgesOriginate(PlatformStep(s, catalog, input))
  {
    if PlatformEnabled(s, input) {
      match input
      case Request(caller, wish, ids) => SubmissionOriginates(s, catalog, caller, wish, ids);
      case ProjectNext(i) => NextOriginates(s, i);
      case _ =>
    }
  }

  lemma {:induction false} RunsOriginate(start: Time, catalog: Catalog, inputs: seq<PlatformInput>)
    ensures PurgesOriginate(PlatformRun(start, catalog, inputs))
  {
    if inputs != [] {
      var before := inputs[..|inputs| - 1];
      RunsOriginate(start, catalog, before);
      RunsAreLinked(start, catalog, before);
      StepOriginates(PlatformRun(start, catalog, before), catalog, inputs[|inputs| - 1]);
    }
  }

  // ----- Guarded purges ----------------------------------------------------------------------

  /** The worker would ask the provider to destroy a machine. */
  predicate AsksForPurge(c: Ticket) {
    Mutates(c) && RequestOf(c).key.verb.PurgeVm?
  }

  lemma PurgeIsAskedAtOneStage(c: Ticket)
    requires AsksForPurge(c)
    ensures ActionOf(c.row.command).PurgeInstance? && c.row.saga.stage == At(SubmittingPurge)
  {
  }

  /** The row a purge is claimed from has verified its machine in the run it is in. */
  lemma ClaimedPurgeIsVerified(s: Orc, c: Ticket)
    requires RowsRun(s) && ClaimOf(s, c) && AsksForPurge(c)
    ensures c.operationId in s.histories && Verified(s.histories[c.operationId].run)
  {
    PurgeIsAskedAtOneStage(c);
    assert RowRun(s, c.operationId);
    var w, h := s.tables.workflows[c.operationId], s.histories[c.operationId];
    FreshIsSound(PurgeInstance, h.resource, h.admitted);
    PurgeFollowsVerification(w.command, StartOf(h), h.run);
  }

  /** The purge was accepted for an instance that was idle, retained and past its deadline. */
  predicate Originated(s: Platform, op: nat) {
    op in s.origins && s.origins[op].before.Some? && Purgeable(s.origins[op].before.value, s.origins[op].at)
  }

  lemma ClaimedPurgeOriginated(s: Platform, c: Ticket)
    requires Identified(s.orc) && CommandsHaveOperations(s) && PurgesOriginate(s)
    requires ClaimOf(s.orc, c) && AsksForPurge(c)
    ensures Originated(s, c.operationId)
  {
    PurgeIsAskedAtOneStage(c);
    RowsHaveOperations(s, c.operationId);
    assert RowIdentity(s.orc, c.operationId);
  }

  /**
   * Every worker that may ever ask the provider to destroy a machine does so for an operation accepted
   * while its instance was idle, retained and past its retention deadline; and when it claimed the row,
   * a committed observation of the same run had proved the machine present and owned.
   */
  lemma PurgesAreGuarded(start: Time, catalog: Catalog, inputs: seq<PlatformInput>, c: Ticket) returns (n: nat)
    requires c in PlatformRun(start, catalog, inputs).orc.tickets && AsksForPurge(c)
    ensures n < |inputs|
    ensures var s := PlatformRun(start, catalog, inputs[..n]);
            && ClaimOf(s.orc, c) && Originated(s, c.operationId)
            && c.operationId in s.orc.histories && Verified(s.orc.histories[c.operationId].run)
  {
    n := TicketWasGranted(start, catalog, inputs, c);
    RunsAreLinked(start, catalog, inputs[..n]);
    RunsOriginate(start, catalog, inputs[..n]);
    ClaimedPurgeIsVerified(PlatformRun(start, catalog, inputs[..n]).orc, c);
    ClaimedPurgeOriginated(PlatformRun(start, catalog, inputs[..n]), c);
  }

  // ----- What `purged` rests on --------------------------------------------------------------

  /** The operation succeeded in purging, by not seeing the machine. */
  ghost predicate EndedAbsent(s: Orc, op: nat) {
    && op in s.tables.workflows && s.tables.workflows[op].action.PurgeInstance?
    && s.tables.workflows[op].saga.status.Succeeded?
    && op in s.histories && s.histories[op].run != []
    && SeenAbsent(s.histories[op].run[|s.histories[op].run| - 1])
  }

  ghost predicate PurgeEventsProven(s: Platform) {
    forall i, k | 0 <= k < |Queue(s, i)| && RecordsPurge(Queue(s, i)[k]) :: EndedAbsent(s.orc, Queue(s, i)[k].operationId)
  }

  ghost predicate PurgedByEvent(s: Platform, i: nat) {
    exists k :: 0 <= k < Cursor(s, i) && k < |Queue(s, i)| && RecordsPurge(Queue(s, i)[k])
  }

  ghost predicate PurgedInstancesProven(s: Platform) {
    forall i | i in s.control.instances && s.control.instances[i].lifecycle.Purged? :: PurgedByEvent(s, i)
  }

  ghost predicate PurgesProven(s: Platform) {
    PurgeEventsProven(s) && PurgedInstancesProven(s)
  }

  /** A success is never reopened, and its run never extended. */
  lemma SuccessIsKept(s: Orc, work: Input, op: nat)
    requires Fenced(s) && op in s.tables.workflows && s.tables.workflows[op].saga.status.Succeeded? && op in s.histories
    ensures var t := Step(s, work);
            && op in t.tables.workflows && t.tables.workflows[op] == s.tables.workflows[op]
            && op in t.histories && t.histories[op] == s.histories[op]
  {
    EndedRowsChangeOnlyByReplay(s, work, op);
    if work.WorkerCommits? {
      CommitsKeepEndedRuns(s, work, op);
    } else if Enabled(s, work) {
      match work
      case DeliverCommand(eventId, delivery, inherited) =>
        AdmitOriginalOutcome(s.tables, s.issued[eventId], delivery, inherited, s.now);
      case DeliverReplayCommand(command, delivery) =>
        var id := ReplayCommandOutcome(s.tables, command, delivery, s.now);
      case ExhaustDelivery(eventId, supported, delivery, attempts, allowed) =>
        ExhaustionsKeepRows(s, s.issued[eventId], supported, delivery, attempts, allowed);
      case _ =>
    }
  }

  lemma CommitsKeepEndedRuns(s: Orc, work: Input, op: nat)
    requires Fenced(s) && work.WorkerCommits? && op in s.histories
    requires op in s.tables.workflows && !IsLive(s.tables.workflows[op].saga.status)
    ensures op in Step(s, work).histories && Step(s, work).histories[op] == s.histories[op]
  {
    if Enabled(s, work) && Step(s, work) != s {
      CommitIsDecided(s, work);
    }
  }

  lemma ProofIsKept(s: Orc, work: Input, op: nat)
    requires Fenced(s) && EndedAbsent(s, op)
    ensures EndedAbsent(Step(s, work), op)
  {
    SuccessIsKept(s, work, op);
  }

  lemma CommitProvesItsEvent(s: Orc, t: Orc, op: nat, e: Entry)
    requires CommitsRow(s, t, op, e) && Decided(s.tables.workflows[op].command, e) && RowIdentity(s, op)
    requires RecordsPurge(EventOf(op, e.transition))
    ensures EndedAbsent(t, op)
  {
    OnlyAbsencePurges(s.tables.workflows[op].command, e);
  }

  /** An event that records a purge is published by a commit that did not see the machine. */
  lemma PublishedPurgeIsProven(s: Orc, work: Input, i: nat, event: Event)
    requires Fenced(s) && RowsIdentified(s) && work.WorkerCommits? && RecordsPurge(event)
    requires Step(s, work).tables.events == Append(s.tables.events, i, event)
    ensures EndedAbsent(Step(s, work), event.operationId)
  {
    assert EventsOf(Step(s, work).tables.events, i) != EventsOf(s.tables.events, i);
    CommitIsDecided(s, work);
    var c := work.ticket;
    var e := Entry(c.row.saga, work.reply, work.decidedAt, work.random, s.now,
                   DecisionOf(c, work.reply, work.decidedAt, work.random));
    assert RowIdentity(s, c.operationId);
    LastAppended(s.tables.events, c.row.instanceId, EventOf(c.operationId, e.transition), i, event);
    CommitProvesItsEvent(s, Step(s, work), c.operationId, e);
  }

  lemma LastAppended(events: map<nat, seq<Event>>, i: nat, event: Event, j: nat, other: Event)
    requires Append(events, i, event) == Append(events, j, other)
    ensures event == other
  {
    assert |EventsOf(Append(events, j, other), i)| == |EventsOf(events, i)| + 1;
    assert EventsOf(Append(events, i, event), i)[|EventsOf(events, i)|] == event;
  }

  lemma WorkKeepsEventsProven(s: Platform, work: Input, own: nat, event: Event)
    requires Fenced(s.orc) && RowsIdentified(s.orc) && PurgeEventsProven(s) && EmitsAtMost(s.orc, Step(s.orc, work), work, own, event)
    ensures PurgeEventsProven(s.(orc := Step(s.orc, work)))
  {
    var t := s.(orc := Step(s.orc, work));
    forall i, k | 0 <= k < |Queue(t, i)| && RecordsPurge(Queue(t, i)[k])
      ensures EndedAbsent(t.orc, Queue(t, i)[k].operationId)
    {
      if k < |Queue(s, i)| {
        assert Queue(t, i)[k] == Queue(s, i)[k];
        ProofIsKept(s.orc, work, Queue(s, i)[k].operationId);
      } else {
        assert i == own && Queue(t, i)[k] == event;
        PublishedPurgeIsProven(s.orc, work, own, event);
      }
    }
  }

  /** Publishing more takes no evidence away. */
  lemma WorkKeepsInstancesProven(s: Platform, t: Platform, work: Input, own: nat, event: Event)
    requires PurgedInstancesProven(s) && t == s.(orc := t.orc) && EmitsAtMost(s.orc, t.orc, work, own, event)
    ensures PurgedInstancesProven(t)
  {
    forall i | PurgedByEvent(s, i)
      ensures PurgedByEvent(t, i)
    {
      var k :| 0 <= k < Cursor(s, i) && k < |Queue(s, i)| && RecordsPurge(Queue(s, i)[k]);
      assert Queue(t, i)[k] == Queue(s, i)[k];
    }
  }

  lemma WorkKeepsPurges(s: Platform, work: Input)
    requires Fenced(s.orc) && RowsIdentified(s.orc) && PurgesProven(s) && MayWork(s, work)
    ensures PurgesProven(s.(orc := Step(s.orc, work)))
  {
    var own, event := StepWorks(s.orc, work);
    WorkKeepsEventsProven(s, work, own, event);
    WorkKeepsInstancesProven(s, s.(orc := Step(s.orc, work)), work, own, event);
  }

  /** Only an event that records a purge leaves an instance purged. */
  lemma AdvanceKeepsPurges(s: Platform, t: Platform, i: nat, event: Event)
    requires (Advances(s, t, i, event) || Resolves(s, t, i, event)) && PurgesProven(s)
    ensures PurgesProven(t)
  {
    assert forall j :: Queue(t, j) == Queue(s, j) && Cursor(s, j) <= Cursor(t, j);
    assert RecordsPurge(event) ==> RecordsPurge(Queue(t, i)[Cursor(s, i)]) && Cursor(s, i) < Cursor(t, i);
    forall j | j in t.control.instances && t.control.instances[j].lifecycle.Purged?
      ensures PurgedByEvent(t, j)
    {
      if j != i || !RecordsPurge(event) {
        assert PurgedByEvent(s, j);
      }
    }
  }

  lemma SubmissionKeepsPurges(s: Platform, catalog: Catalog, caller: Caller, wish: Wish, ids: Minted)
    requires Fresh(s, wish, ids) && PurgesProven(s)
    ensures PurgesProven(Submitted(s, catalog, caller, wish, ids))
  {
    var t := Submitted(s, catalog, caller, wish, ids);
    if t != s {
      PlansDoNotPurge(s.control, catalog, caller, wish, ids, s.orc.now);
      assert forall j :: Queue(t, j) == Queue(s, j) && Cursor(t, j) == Cursor(s, j);
      assert forall j :: PurgedByEvent(s, j) ==> PurgedByEvent(t, j);
      assert forall op :: EndedAbsent(s.orc, op) ==> EndedAbsent(t.orc, op);
    }
  }

  lemma QuietControlKeepsPurges(s: Platform, t: Platform)
    requires PurgesProven(s)
    requires t == s.(control := s.control.(leases := t.control.leases, intents := t.control.intents))
    ensures PurgesProven(t)
  {
    assert forall j :: Queue(t, j) == Queue(s, j) && Cursor(t, j) == Cursor(s, j);
    assert forall j :: PurgedByEvent(s, j) ==> PurgedByEvent(t, j);
  }

  lemma NextKeepsPurges(s: Platform, i: nat)
    requires Identified(s.orc) && Ordered(s) && EventsExplained(s) && Cursor(s, i) < |Queue(s, i)| && PurgesProven(s)
    ensures PurgesProven(Projected(s, i))
  {
    ProjectionEffect(s, i);
    AdvanceKeepsPurges(s, Projected(s, i), i, Queue(s, i)[Cursor(s, i)]);
  }

  lemma StepKeepsPurges(s: Platform, catalog: Catalog, input: PlatformInput)
    requires Fenced(s.orc) && Identified(s.orc) && Ordered(s) && EventsExplained(s) && PurgesProven(s)
    ensures PurgesProven(PlatformStep(s, catalog, input))
  {
    if PlatformEnabled(s, input) {
      match input
      case Request(caller, wish, ids) => SubmissionKeepsPurges(s, catalog, caller, wish, ids);
      case Work(work) => WorkKeepsPurges(s, work);
      case ProjectNext(i) => NextKeepsPurges(s, i);
      case _ => QuietControlKeepsPurges(s, PlatformStep(s, catalog, input));
    }
  }

  lemma {:induction false} RunsProvePurges(start: Time, catalog: Catalog, inputs: seq<PlatformInput>)
    ensures PurgesProven(PlatformRun(start, catalog, inputs))
  {
    if inputs != [] {
      var before := inputs[..|inputs| - 1];
      RunsProvePurges(start, catalog, before);
      RunsAreLinked(start, catalog, before);
      StepKeepsPurges(PlatformRun(start, catalog, before), catalog, inputs[|inputs| - 1]);
    }
  }

  /**
   * An instance is shown as `purged` only after one of its purge operations ended on an observation
   * that did not report the machine as existing; no replay reopens such an operation.
   */
  lemma PurgedWasSeenAbsent(start: Time, catalog: Catalog, inputs: seq<PlatformInput>, i: nat) returns (op: nat)
    requires var c := PlatformRun(start, catalog, inputs).control; i in c.instances && c.instances[i].lifecycle.Purged?
    ensures EndedAbsent(PlatformRun(start, catalog, inputs).orc, op)
    ensures PlatformRun(start, catalog, inputs).orc.tables.workflows[op].instanceId == i
  {
    RunsAreLinked(start, catalog, inputs);
    RunsProvePurges(start, catalog, inputs);
    op := PurgeBehind(PlatformRun(start, catalog, inputs), i);
  }

  lemma PurgeBehind(s: Platform, i: nat) returns (op: nat)
    requires EventsExplained(s) && PurgesProven(s) && i in s.control.instances && s.control.instances[i].lifecycle.Purged?
    ensures EndedAbsent(s.orc, op) && s.orc.tables.workflows[op].instanceId == i
  {
    assert PurgedByEvent(s, i);
    var k :| 0 <= k < Cursor(s, i) && k < |Queue(s, i)| && RecordsPurge(Queue(s, i)[k]);
    op := Queue(s, i)[k].operationId;
    assert Explained(s, i, Queue(s, i)[k]);
  }

  /**
   * The same orchestrator seen from both sides - fed by the control API and talking to the provider:
   * an instance shown as `purged` has a purge whose row names a machine that the provider did not hold
   * at some point of the run.
   */
  lemma PurgedMachineWasGone(start: Time, catalog: Catalog, inputs: seq<PlatformInput>, calls: seq<CloudInput>, i: nat)
    returns (op: nat, n: nat)
    requires PlatformRun(start, catalog, inputs).orc == CloudRun(start, calls).orc
    requires var c := PlatformRun(start, catalog, inputs).control; i in c.instances && c.instances[i].lifecycle.Purged?
    ensures op in CloudRun(start, calls).orc.tables.workflows && n < |calls|
    ensures var w := CloudRun(start, calls).orc.tables.workflows[op];
            w.instanceId == i && w.saga.resource.Some?
            && w.saga.resource.value !in CloudRun(start, calls[..n]).traffic.world.vms
  {
    op := PurgedWasSeenAbsent(start, catalog, inputs, i);
    n := SuccessWasSo(start, calls, op);
    RunsAreComposed(start, calls);
    assert RowIdentity(CloudRun(start, calls).orc, op);
  }
}
