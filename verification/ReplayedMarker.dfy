/**
 * The busy marker when dead letters are replayed. A projected terminal event clears the marker of its
 * instance without comparing operations, so the late event of a replayed operation may release one
 * that is still at work. The marker stays exact as long as that does not happen, and no longer.
 */
module ReplayedMarker {
  import opened Prelude
  import opened SagaEngine
  import opened WorkflowTables
  import opened Orchestrator
  import opened RowRuns
  import opened ControlTables
  import opened Platform
  import opened EndToEnd

  ghost predicate MarkedExactly(s: Platform, i: nat, op: nat) {
    ActiveOn(s, i) == Some(op) <==> op in s.control.operations && InstanceOf(s, op) == i && !Finished(s, op)
  }

  /** Every instance is marked busy with exactly its accepted and unfinished operation. */
  ghost predicate MarkerExact(s: Platform) {
    forall i, op :: MarkedExactly(s, i, op)
  }

  /** The step projects a terminal event while another operation than the event's is the active one. */
  predicate ReleasesOther(s: Platform, input: PlatformInput) {
    && input.ProjectNext? && Cursor(s, input.instanceId) < |Queue(s, input.instanceId)|
    && var event := Queue(s, input.instanceId)[Cursor(s, input.instanceId)];
       Terminal(event) && ActiveOn(s, input.instanceId).Some? && ActiveOn(s, input.instanceId).value != event.operationId
  }

  /** Projected events, markers and operations are as they were. */
  ghost predicate SameProjected(s: Platform, t: Platform) {
    && (forall i :: ActiveOn(t, i) == ActiveOn(s, i))
    && (forall i, op, k: nat :: FinishedAt(t, i, op, k) <==> FinishedAt(s, i, op, k))
    && t.control.operations.Keys == s.control.operations.Keys
    && (forall op | op in s.control.operations :: InstanceOf(t, op) == InstanceOf(s, op))
  }

  lemma SameProjectedMarker(s: Platform, t: Platform)
    requires SameProjected(s, t) && MarkerExact(s)
    ensures MarkerExact(t)
  {
    forall i, op
      ensures MarkedExactly(t, i, op)
    {
      assert MarkedExactly(s, i, op);
      assert op in s.control.operations <==> op in t.control.operations.Keys;
      assert Finished(t, op) <==> Finished(s, op);
    }
  }

  /** Projected events stay where they are when more are published. */
  lemma PublishedKeepsFinished(s: Platform, t: Platform, own: nat, event: Event)
    requires CursorsFit(s) && t.applied == s.applied
    requires t.orc.tables.events == s.orc.tables.events || t.orc.tables.events == Append(s.orc.tables.events, own, event)
    ensures forall i, op, k: nat :: FinishedAt(t, i, op, k) <==> FinishedAt(s, i, op, k)
  {
    forall i, op, k: nat
      ensures FinishedAt(t, i, op, k) <==> FinishedAt(s, i, op, k)
    {
      assert Cursor(s, i) <= |Queue(s, i)|;
      assert k < |Queue(s, i)| ==> Queue(t, i)[k] == Queue(s, i)[k];
    }
  }

  lemma WorkedKeepsMarker(s: Platform, t: Platform, work: Input, own: nat, event: Event)
    requires CursorsFit(s) && MarkerExact(s) && t == s.(orc := t.orc) && EmitsAtMost(s.orc, t.orc, work, own, event)
    ensures MarkerExact(t)
  {
    PublishedKeepsFinished(s, t, own, event);
    SameProjectedMarker(s, t);
  }

  lemma WorkKeepsMarker(s: Platform, work: Input)
    requires Linked(s) && MayWork(s, work) && MarkerExact(s)
    ensures MarkerExact(s.(orc := Step(s.orc, work)))
  {
    var own, event := StepWorks(s.orc, work);
    WorkedKeepsMarker(s, s.(orc := Step(s.orc, work)), work, own, event);
  }

  // ----- Acceptance --------------------------------------------------------------------------

  lemma NewOperationIsUnfinished(s: Platform, command: Command, k: nat)
    requires Linked(s) && command.operationId !in s.control.operations
    ensures !FinishedAt(s, command.instanceId, command.operationId, k)
  {
    if FinishedAt(s, command.instanceId, command.operationId, k) {
      assert Explained(s, command.instanceId, Queue(s, command.instanceId)[k]);
      RowsHaveOperations(s, command.operationId);
    }
  }

  lemma OldOperationsKeepFinished(s: Platform, t: Platform, op: nat)
    requires t.orc.tables.events == s.orc.tables.events && t.applied == s.applied
    requires op in s.control.operations && op in t.control.operations && InstanceOf(t, op) == InstanceOf(s, op)
    ensures Finished(t, op) <==> Finished(s, op)
  {
    var i := InstanceOf(s, op);
    assert forall k: nat :: FinishedAt(t, i, op, k) <==> FinishedAt(s, i, op, k);
  }

  lemma OrderedIsUnfinished(s: Platform, t: Platform, command: Command)
    requires Linked(s) && Orders(s, t, command)
    ensures !Finished(t, command.operationId)
  {
    forall k: nat
      ensures !FinishedAt(t, command.instanceId, command.operationId, k)
    {
      NewOperationIsUnfinished(s, command, k);
      assert FinishedAt(t, command.instanceId, command.operationId, k)
         <==> FinishedAt(s, command.instanceId, command.operationId, k);
    }
  }

  lemma OrdersKeepMarker(s: Platform, t: Platform, command: Command)
    requires Linked(s) && Orders(s, t, command) && MarkerExact(s)
    ensures MarkerExact(t)
  {
    forall i, op
      ensures MarkedExactly(t, i, op)
    {
      if op == command.operationId {
        OrderedIsUnfinished(s, t, command);
      } else if op in s.control.operations {
        OldOperationsKeepFinished(s, t, op);
      }
      assert MarkedExactly(s, i, op);
      assert MarkedExactly(s, command.instanceId, op);
    }
  }

  lemma RequestKeepsMarker(s: Platform, catalog: Catalog, caller: Caller, wish: Wish, ids: Minted)
    requires Linked(s) && MarkerExact(s) && Fresh(s, wish, ids)
    ensures MarkerExact(Submitted(s, catalog, caller, wish, ids))
  {
    RequestOrders(s, catalog, caller, wish, ids);
    var t := Submitted(s, catalog, caller, wish, ids);
    if t != s {
      OrdersKeepMarker(s, t, CommandFor(PlanOf(s.control, catalog, caller, wish, ids, s.orc.now).value, ids));
    }
  }

  // ----- Projection --------------------------------------------------------------------------

  /** The next event is projected: cursors and operations of the two states. */
  ghost predicate Passes(s: Platform, t: Platform, i: nat, event: Event) {
    && Cursor(s, i) < |Queue(s, i)| && event == Queue(s, i)[Cursor(s, i)]
    && t.orc == s.orc && t.applied == s.applied[i := Cursor(s, i) + 1]
    && t.control.operations.Keys == s.control.operations.Keys
    && (forall op | op in s.control.operations :: InstanceOf(t, op) == InstanceOf(s, op))
  }

  /** What one more projected event finishes. */
  lemma PassingFinishes(s: Platform, t: Platform, i: nat, event: Event, op: nat)
    requires Passes(s, t, i, event) && (event.ReplayResolved? || (op in s.control.operations && event.operationId == op ==> InstanceOf(s, op) == i))
    ensures Finished(t, op) <==> Finished(s, op) || (op in s.control.operations && Terminal(event) && event.operationId == op)
  {
    assert op in s.control.operations <==> op in t.control.operations.Keys;
    if op in s.control.operations {
      var j := InstanceOf(s, op);
      assert Queue(t, j) == Queue(s, j);
      assert forall k: nat | k != Cursor(s, i) || j != i :: FinishedAt(t, j, op, k) <==> FinishedAt(s, j, op, k);
      assert FinishedAt(t, i, op, Cursor(s, i)) <==> Terminal(event) && event.operationId == op;
    }
  }

  lemma PassingDecides(s: Platform, t: Platform, i: nat, event: Event)
    requires MarkerExact(s) && Passes(s, t, i, event)
    requires !event.ReplayResolved? ==> event.operationId in s.control.operations && InstanceOf(s, event.operationId) == i
    requires forall j | j != i :: ActiveOn(t, j) == ActiveOn(s, j)
    requires ActiveOn(t, i) == if Terminal(event) then None else ActiveOn(s, i)
    requires !(Terminal(event) && ActiveOn(s, i).Some? && ActiveOn(s, i).value != event.operationId)
    ensures MarkerExact(t)
  {
    forall j, op
      ensures MarkedExactly(t, j, op)
    {
      PassingFinishes(s, t, i, event, op);
      assert MarkedExactly(s, j, op);
      assert MarkedExactly(s, i, op);
      assert op in s.control.operations <==> op in t.control.operations.Keys;
    }
  }

  lemma ReleasingBreaks(s: Platform, t: Platform, i: nat, event: Event)
    requires MarkerExact(s) && Passes(s, t, i, event) && ActiveOn(t, i).None?
    requires !event.ReplayResolved? && event.operationId in s.control.operations && InstanceOf(s, event.operationId) == i
    requires ActiveOn(s, i).Some? && ActiveOn(s, i).value != event.operationId
    ensures !MarkerExact(t)
  {
    var other := ActiveOn(s, i).value;
    assert MarkedExactly(s, i, other);
    PassingFinishes(s, t, i, event, other);
    assert other in t.control.operations.Keys;
    assert !MarkedExactly(t, i, other);
  }

  lemma AdvancePasses(s: Platform, t: Platform, i: nat, event: Event)
    requires Advances(s, t, i, event)
    ensures Passes(s, t, i, event)
    ensures forall j | j != i :: ActiveOn(t, j) == ActiveOn(s, j)
    ensures ActiveOn(t, i) == if Terminal(event) then None else ActiveOn(s, i)
  {
    assert t.control.operations.Keys == s.control.operations.Keys;
  }

  lemma ResolutionPasses(s: Platform, t: Platform, i: nat, event: Event)
    requires Resolves(s, t, i, event)
    ensures Passes(s, t, i, event)
    ensures forall j :: ActiveOn(t, j) == ActiveOn(s, j)
  {
  }

  lemma ProjectionDecidesMarker(s: Platform, i: nat)
    requires Linked(s) && MarkerExact(s) && Cursor(s, i) < |Queue(s, i)|
    ensures MarkerExact(Projected(s, i)) <==> !ReleasesOther(s, ProjectNext(i))
  {
    ProjectionEffect(s, i);
    var event := Queue(s, i)[Cursor(s, i)];
    if event.ReplayResolved? {
      ResolutionPasses(s, Projected(s, i), i, event);
    } else {
      AdvancePasses(s, Projected(s, i), i, event);
    }
    if ReleasesOther(s, ProjectNext(i)) {
      ReleasingBreaks(s, Projected(s, i), i, event);
    } else {
      PassingDecides(s, Projected(s, i), i, event);
    }
  }

  // ----- Every run ---------------------------------------------------------------------------

  lemma QuietControlKeepsMarker(s: Platform, t: Platform)
    requires MarkerExact(s)
    requires t == s.(control := s.control.(leases := t.control.leases, intents := t.control.intents))
    ensures MarkerExact(t)
  {
    assert forall i, op, k: nat :: FinishedAt(t, i, op, k) <==> FinishedAt(s, i, op, k);
    SameProjectedMarker(s, t);
  }

  lemma OtherStepsKeepMarker(s: Platform, catalog: Catalog, input: PlatformInput)
    requires Linked(s) && MarkerExact(s) && PlatformEnabled(s, input) && !input.ProjectNext?
    ensures MarkerExact(PlatformStep(s, catalog, input))
  {
    match input
    case Request(caller, wish, ids) => RequestKeepsMarker(s, catalog, caller, wish, ids);
    case Work(work) => WorkKeepsMarker(s, work);
    case RequestReplay(request) => QuietControlKeepsMarker(s, Asked(s, request));
    case Release(_, _) => QuietControlKeepsMarker(s, PlatformStep(s, catalog, input));
  }

  lemma StepDecidesMarker(s: Platform, catalog: Catalog, input: PlatformInput)
    requires Linked(s) && MarkerExact(s)
    ensures MarkerExact(PlatformStep(s, catalog, input)) <==> !ReleasesOther(s, input)
  {
    if PlatformEnabled(s, input) {
      if input.ProjectNext? {
        ProjectionDecidesMarker(s, input.instanceId);
      } else {
        OtherStepsKeepMarker(s, catalog, input);
      }
    }
  }

  ghost predicate AlwaysExact(start: Time, catalog: Catalog, inputs: seq<PlatformInput>) {
    forall n | 0 <= n <= |inputs| :: MarkerExact(PlatformRun(start, catalog, inputs[..n]))
  }

  ghost predicate NeverReleasesOther(start: Time, catalog: Catalog, inputs: seq<PlatformInput>) {
    forall k | 0 <= k < |inputs| :: !ReleasesOther(PlatformRun(start, catalog, inputs[..k]), inputs[k])
  }

  lemma {:induction false} ExactUpTo(start: Time, catalog: Catalog, inputs: seq<PlatformInput>, n: nat)
    requires n <= |inputs| && NeverReleasesOther(start, catalog, inputs)
    ensures MarkerExact(PlatformRun(start, catalog, inputs[..n]))
  {
    if n > 0 {
      ExactUpTo(start, catalog, inputs, n - 1);
      RunExtends(start, catalog, inputs, n - 1);
      RunsAreLinked(start, catalog, inputs[..n - 1]);
      StepDecidesMarker(PlatformRun(start, catalog, inputs[..n - 1]), catalog, inputs[n - 1]);
    }
  }

  /**
   * With replays: the marker is exact at every point of a run if and only if no step of the run
   * projects a terminal event onto an instance whose active operation is another one.
   */
  lemma MarkerSurvivesExactly(start: Time, catalog: Catalog, inputs: seq<PlatformInput>)
    ensures AlwaysExact(start, catalog, inputs) <==> NeverReleasesOther(start, catalog, inputs)
  {
    if NeverReleasesOther(start, catalog, inputs) {
      forall n | 0 <= n <= |inputs|
        ensures MarkerExact(PlatformRun(start, catalog, inputs[..n]))
      {
        ExactUpTo(start, catalog, inputs, n);
      }
    }
    if AlwaysExact(start, catalog, inputs) {
      forall k | 0 <= k < |inputs|
        ensures !ReleasesOther(PlatformRun(start, catalog, inputs[..k]), inputs[k])
      {
        assert MarkerExact(PlatformRun(start, catalog, inputs[..k]));
        assert MarkerExact(PlatformRun(start, catalog, inputs[..k + 1]));
        RunExtends(start, catalog, inputs, k);
        RunsAreLinked(start, catalog, inputs[..k]);
        StepDecidesMarker(PlatformRun(start, catalog, inputs[..k]), catalog, inputs[k]);
      }
    }
  }
}
