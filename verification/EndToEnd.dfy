/** What a client may rely on end to end in runs without replay: the busy marker and the read model. */
module EndToEnd {
  import opened Prelude
  import opened Stages
  import opened SagaEngine
  import opened SagaRuns
  import opened WorkflowTables
  import opened Orchestrator
  import opened Fencing
  import opened RowRuns
  import opened Domain
  import opened ControlTables
  import opened Platform
  import opened Consistency

  // ----- The busy marker ---------------------------------------------------------------------

  /** The k-th event of the instance's queue has been projected, and ended the operation. */
  predicate FinishedAt(s: Platform, i: nat, op: nat, k: nat) {
    k < Cursor(s, i) && k < |Queue(s, i)| && Terminal(Queue(s, i)[k]) && Queue(s, i)[k].operationId == op
  }

  /** The operation's terminal event has been projected. */
  ghost predicate Finished(s: Platform, op: nat) {
    op in s.control.operations && exists k: nat :: FinishedAt(s, InstanceOf(s, op), op, k)
  }

  /** An operation that is not its instance's active one has a projected terminal event. */
  lemma InactiveIsFinished(s: Platform, op: nat)
    requires Consistent(s) && op in s.control.operations && ActiveOn(s, InstanceOf(s, op)) != Some(op)
    ensures Finished(s, op)
  {
    var i := InstanceOf(s, op);
    RowsHaveOperations(s, op);
    var events := Queue(s, i);
    assert StoredAs(s.orc.tables.workflows[op], Last(events, op));
    LastIsOf(events, op);
    var k :| 0 <= k < |events| && events[k] == Last(events, op).value && events[k].operationId == op;
    assert Terminal(events[k]);
    assert k < Cursor(s, i);
    assert FinishedAt(s, i, op, k);
  }

  lemma ActiveIsUnfinished(s: Platform, i: nat, op: nat)
    requires Marked(s) && ActiveOn(s, i) == Some(op)
    ensures op in s.control.operations && InstanceOf(s, op) == i && !Finished(s, op)
  {
  }

  lemma MarkerIsExactAt(s: Platform, i: nat, op: nat)
    requires Consistent(s)
    ensures ActiveOn(s, i) == Some(op) <==> op in s.control.operations && InstanceOf(s, op) == i && !Finished(s, op)
  {
    if ActiveOn(s, i) == Some(op) {
      ActiveIsUnfinished(s, i, op);
    }
    if op in s.control.operations && InstanceOf(s, op) == i && ActiveOn(s, i) != Some(op) {
      InactiveIsFinished(s, op);
    }
  }

  /**
   * An instance's active operation is o exactly while o has been accepted for it and o's terminal
   * event has not been projected - across acceptance, admission, leased execution, crashes and
   * redelivery.
   */
  lemma BusyMarkerIsExact(start: Time, catalog: Catalog, inputs: seq<PlatformInput>, i: nat, op: nat)
    requires WithoutReplay(inputs)
    ensures var s := PlatformRun(start, catalog, inputs);
            ActiveOn(s, i) == Some(op) <==> op in s.control.operations && InstanceOf(s, op) == i && !Finished(s, op)
  {
    RunsAreConsistent(start, catalog, inputs);
    MarkerIsExactAt(PlatformRun(start, catalog, inputs), i, op);
  }

  /** So no instance ever has two unfinished operations. */
  lemma OneUnfinishedOperation(start: Time, catalog: Catalog, inputs: seq<PlatformInput>, op: nat, other: nat)
    requires WithoutReplay(inputs)
    requires var s := PlatformRun(start, catalog, inputs);
             && op in s.control.operations && other in s.control.operations
             && InstanceOf(s, op) == InstanceOf(s, other) && !Finished(s, op) && !Finished(s, other)
    ensures op == other
  {
    var s := PlatformRun(start, catalog, inputs);
    BusyMarkerIsExact(start, catalog, inputs, InstanceOf(s, op), op);
    BusyMarkerIsExact(start, catalog, inputs, InstanceOf(s, op), other);
  }

  // ----- The read model ----------------------------------------------------------------------

  /** The whole queue of the instance has been projected. */
  predicate CaughtUp(s: Platform, i: nat) {
    Cursor(s, i) == |Queue(s, i)|
  }

  /** The failure that ended a workflow was one of the two that always ask for a human. */
  predicate AsksForHuman(failure: Option<Failure>) {
    failure.Some? && (failure.value.category.UnknownOutcome? || failure.value.category.ManualReviewCategory?)
  }

  /** How a workflow row and the read model of its operation may look side by side. */
  predicate Agrees(w: Workflow, shown: Operation) {
    match w.saga.status
    case Succeeded => shown.state == OpSucceeded && shown.stage == w.saga.stage && shown.percent == 100
    case ManualReview => shown.state == OpReview && shown.stage == w.saga.stage && shown.manualReview
    case Failed =>
      if AsksForHuman(w.failure) then shown.state == OpReview && shown.stage == EndedInReview && shown.manualReview
      else shown.state == OpFailed && shown.stage == w.saga.stage && !shown.manualReview
    case _ =>
      && shown.stage == w.saga.stage && shown.percent == ProgressPercent(w.saga.stage)
      && shown.state in {OpAccepted, OpRunning, OpRetryWait}
  }

  lemma AgreesAt(w: Workflow, shown: Operation, last: Option<Event>)
    requires StoredAs(w, last) && ShownAs(shown, last)
    ensures Agrees(w, shown)
  {
  }

  lemma ReadModelAgreesAt(s: Platform, op: nat)
    requires Consistent(s) && op in s.orc.tables.workflows && CaughtUp(s, s.orc.tables.workflows[op].instanceId)
    ensures op in s.control.operations && Agrees(s.orc.tables.workflows[op], s.control.operations[op])
  {
    RowsHaveOperations(s, op);
    var i := s.orc.tables.workflows[op].instanceId;
    LastWhenCaughtUp(s, i, op);
    assert RowsStored(s) && OperationsShown(s);
    AgreesAt(s.orc.tables.workflows[op], s.control.operations[op], Last(Queue(s, i), op));
  }

  lemma LastWhenCaughtUp(s: Platform, i: nat, op: nat)
    requires CaughtUp(s, i)
    ensures Last(Queue(s, i)[..Cursor(s, i)], op) == Last(Queue(s, i), op)
  {
    assert Queue(s, i)[..Cursor(s, i)] == Queue(s, i);
  }

  /**
   * Once an instance's queue has been projected, each of its operations shows what is stored: the
   * same stage and progress while it runs and when it succeeded, and never `failed` for a stored
   * `manual_review`. A stored `failed` is shown as `manual_review` exactly when its failure's
   * category is an unknown outcome or a review, and as `failed` otherwise.
   */
  lemma ReadModelAgrees(start: Time, catalog: Catalog, inputs: seq<PlatformInput>, op: nat)
    requires WithoutReplay(inputs)
    requires var s := PlatformRun(start, catalog, inputs);
             op in s.orc.tables.workflows && CaughtUp(s, s.orc.tables.workflows[op].instanceId)
    ensures op in PlatformRun(start, catalog, inputs).control.operations
    ensures var s := PlatformRun(start, catalog, inputs);
            Agrees(s.orc.tables.workflows[op], s.control.operations[op])
  {
    RunsAreConsistent(start, catalog, inputs);
    ReadModelAgreesAt(PlatformRun(start, catalog, inputs), op);
  }

  /**
   * The parked state a client sees is only that of a backoff: a row parked between two polls of a
   * running task is stored as waiting for retry but shown as running.
   */
  lemma ShownWaitIsBackoff(command: Command, e: Entry, shown: Operation)
    requires Sound(ActionOf(command), e.saga) && e.saga.status.Running? && Decided(command, e) && e.transition.Progress?
    ensures After(e).status.RetryWait? <==> Waits(e) || Repolls(e)
    ensures OperationAfter(shown, EventOf(command.operationId, e.transition)).state == OpRetryWait <==> Waits(e)
    ensures OperationAfter(shown, EventOf(command.operationId, e.transition)).state == OpRunning <==> !Waits(e)
  {
    MutationStagesAreTheMutatingRoles(ActionOf(command), e.saga.stage.stage);
  }
}
