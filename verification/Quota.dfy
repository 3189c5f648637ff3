/**
 * Quota over whole runs. Every acceptance is checked against it, and a purge gives its instance's
 * share back. A replay can take that share again without a check: an event of a replayed operation
 * that is projected onto a purged instance brings the instance back. The quota is kept exactly as
 * long as each such instance still fits in it.
 */
module Quota {
  import opened Prelude
  import opened Stages
  import opened SagaEngine
  import opened WorkflowTables
  import opened Orchestrator
  import opened RowRuns
  import opened Domain
  import opened Sums
  import opened ControlTables
  import opened Platform
  import opened Consistency
  import opened Conservation

  // ----- Acceptance --------------------------------------------------------------------------

  /** Every project stays within each of its limits. */
  ghost predicate WithinQuota(c: Control, catalog: Catalog) {
    forall p, dimension: Dimension | p in catalog.quotas ::
      Usage(c, p, dimension) <= Limit(catalog.quotas[p], dimension)
  }

  lemma ChargesUpdate(instances: map<nat, Instance>, i: nat, instance: Instance, p: nat, dimension: Dimension)
    ensures Sum(Charges(instances[i := instance], p, dimension))
            == Sum(Charges(instances, p, dimension)) + Charge(instance, p, dimension)
               - (if i in instances then Charge(instances[i], p, dimension) else 0)
  {
    assert Charges(instances[i := instance], p, dimension)
           == Charges(instances, p, dimension)[i := Charge(instance, p, dimension)];
    SumUpdate(Charges(instances, p, dimension), i, Charge(instance, p, dimension));
  }

  /** An acceptance other than a create or resize leaves what its instance counts for as it was. */
  lemma PlanCharges(c: Control, catalog: Catalog, caller: Caller, wish: Wish, ids: Minted, now: Time,
                    p: nat, dimension: Dimension)
    requires PlanOf(c, catalog, caller, wish, ids, now).Ok? && !wish.CreateWish? && !wish.ResizeWish?
    ensures var plan := PlanOf(c, catalog, caller, wish, ids, now).value;
            plan.instanceId in c.instances
            && Charge(plan.instance, p, dimension) == Charge(c.instances[plan.instanceId], p, dimension)
  {
    match wish
    case PowerWish(_, _) =>
    case _ =>
  }

  lemma CreateCharges(c: Control, catalog: Catalog, caller: Caller, wish: Wish, ids: Minted, p: nat, dimension: Dimension)
    requires wish.CreateWish? && PlanCreate(c, catalog, caller, wish, ids).Ok? && p in catalog.quotas
    ensures var plan := PlanCreate(c, catalog, caller, wish, ids).value;
            Charge(plan.instance, p, dimension) == 0
            || Usage(c, p, dimension) + Charge(plan.instance, p, dimension) <= Limit(catalog.quotas[p], dimension)
  {
  }

  lemma ResizeCharges(c: Control, catalog: Catalog, caller: Caller, wish: Wish, ids: Minted, p: nat, dimension: Dimension)
    requires wish.ResizeWish? && PlanResize(c, catalog, caller, wish, ids).Ok? && p in catalog.quotas
    ensures var plan := PlanResize(c, catalog, caller, wish, ids).value;
            && plan.instanceId in c.instances
            && var before := Charge(c.instances[plan.instanceId], p, dimension);
               Charge(plan.instance, p, dimension) == before
               || Usage(c, p, dimension) - before + Charge(plan.instance, p, dimension) <= Limit(catalog.quotas[p], dimension)
  {
  }

  lemma AcceptKeepsQuota(c: Control, d: Control, catalog: Catalog, move: Move)
    requires move.AcceptMove? && Moves(c, d, catalog, move) && WithinQuota(c, catalog)
    ensures WithinQuota(d, catalog)
  {
    var plan := PlanOf(c, catalog, move.caller, move.wish, move.ids, move.now).value;
    PlanShape(c, catalog, move.caller, move.wish, move.ids, move.now);
    forall p, dimension: Dimension | p in catalog.quotas
      ensures Usage(d, p, dimension) <= Limit(catalog.quotas[p], dimension)
    {
      ChargesUpdate(c.instances, plan.instanceId, plan.instance, p, dimension);
      if move.wish.CreateWish? {
        CreateCharges(c, catalog, move.caller, move.wish, move.ids, p, dimension);
      } else if move.wish.ResizeWish? {
        ResizeCharges(c, catalog, move.caller, move.wish, move.ids, p, dimension);
      } else {
        PlanCharges(c, catalog, move.caller, move.wish, move.ids, move.now, p, dimension);
      }
    }
  }

  // ----- Projection --------------------------------------------------------------------------

  /** The step brings a purged instance back. */
  predicate Revives(s: Platform, input: PlatformInput) {
    && input.ProjectNext? && PlatformEnabled(s, input)
    && input.instanceId in s.control.instances && s.control.instances[input.instanceId].lifecycle.Purged?
    && Disturbs(Queue(s, input.instanceId)[Cursor(s, input.instanceId)])
  }

  /** The instance would be let in by the check a create has to pass. */
  ghost predicate StillFits(c: Control, catalog: Catalog, instance: Instance) {
    instance.projectId in catalog.quotas ==>
      CreateFits(c, catalog.quotas[instance.projectId], instance.projectId, instance.desired)
  }

  /** Projecting onto an instance that is not purged charges nobody more. */
  lemma ProjectionCharges(instance: Instance, event: Event, p: nat, dimension: Dimension)
    requires !instance.lifecycle.Purged?
    ensures Charge(InstanceAfter(instance, event), p, dimension) <= Charge(instance, p, dimension)
  {
  }

  lemma ProjectionKeepsQuota(c: Control, d: Control, catalog: Catalog, i: nat, event: Event)
    requires i in c.instances && d.instances == c.instances[i := InstanceAfter(c.instances[i], event)]
    requires !c.instances[i].lifecycle.Purged? || !Disturbs(event)
    requires WithinQuota(c, catalog)
    ensures WithinQuota(d, catalog)
  {
    forall p, dimension: Dimension | p in catalog.quotas
      ensures Usage(d, p, dimension) <= Limit(catalog.quotas[p], dimension)
    {
      ChargesUpdate(c.instances, i, InstanceAfter(c.instances[i], event), p, dimension);
      if !c.instances[i].lifecycle.Purged? {
        ProjectionCharges(c.instances[i], event, p, dimension);
      }
    }
  }

  /** What a purged instance counts for once an event has brought it back. */
  lemma RevivalCharges(c: Control, d: Control, i: nat, event: Event, p: nat, dimension: Dimension)
    requires i in c.instances && d.instances == c.instances[i := InstanceAfter(c.instances[i], event)]
    requires c.instances[i].lifecycle.Purged? && Disturbs(event)
    ensures var instance := c.instances[i];
            Usage(d, p, dimension)
            == Usage(c, p, dimension) + if p == instance.projectId then Measure(instance.desired, dimension) else 0
  {
    ChargesUpdate(c.instances, i, InstanceAfter(c.instances[i], event), p, dimension);
  }

  lemma RevivalDecidesQuota(c: Control, d: Control, catalog: Catalog, i: nat, event: Event)
    requires i in c.instances && d.instances == c.instances[i := InstanceAfter(c.instances[i], event)]
    requires c.instances[i].lifecycle.Purged? && Disturbs(event) && WithinQuota(c, catalog)
    ensures WithinQuota(d, catalog) <==> StillFits(c, catalog, c.instances[i])
  {
    forall p, dimension: Dimension
      ensures Usage(d, p, dimension)
              == Usage(c, p, dimension) + if p == c.instances[i].projectId then Measure(c.instances[i].desired, dimension) else 0
    {
      RevivalCharges(c, d, i, event, p, dimension);
    }
  }

  // ----- Every run ---------------------------------------------------------------------------

  lemma SameInstancesKeepQuota(c: Control, d: Control, catalog: Catalog)
    requires d.instances == c.instances
    ensures WithinQuota(d, catalog) <==> WithinQuota(c, catalog)
  {
    assert forall p, dimension: Dimension :: Usage(d, p, dimension) == Usage(c, p, dimension);
  }

  lemma AdvanceDecidesQuota(c: Control, d: Control, catalog: Catalog, i: nat, event: Event)
    requires i in c.instances && d.instances == c.instances[i := InstanceAfter(c.instances[i], event)]
    requires WithinQuota(c, catalog)
    ensures WithinQuota(d, catalog)
            <==> (c.instances[i].lifecycle.Purged? && Disturbs(event) ==> StillFits(c, catalog, c.instances[i]))
  {
    if c.instances[i].lifecycle.Purged? && Disturbs(event) {
      RevivalDecidesQuota(c, d, catalog, i, event);
    } else {
      ProjectionKeepsQuota(c, d, catalog, i, event);
    }
  }

  lemma InstancesAfterNext(s: Platform, i: nat)
    requires Identified(s.orc) && Ordered(s) && EventsExplained(s) && Cursor(s, i) < |Queue(s, i)|
    ensures var event, instances := Queue(s, i)[Cursor(s, i)], Projected(s, i).control.instances;
            if event.ReplayResolved? then instances == s.control.instances
            else i in s.control.instances
                 && instances == s.control.instances[i := InstanceAfter(s.control.instances[i], event)]
  {
    ProjectionEffect(s, i);
  }

  lemma NextDecidesQuota(c: Control, d: Control, catalog: Catalog, i: nat, event: Event)
    requires if event.ReplayResolved? then d.instances == c.instances
             else i in c.instances && d.instances == c.instances[i := InstanceAfter(c.instances[i], event)]
    requires WithinQuota(c, catalog)
    ensures WithinQuota(d, catalog)
            <==> (i in c.instances && c.instances[i].lifecycle.Purged? && Disturbs(event) ==> StillFits(c, catalog, c.instances[i]))
  {
    if event.ReplayResolved? {
      SameInstancesKeepQuota(c, d, catalog);
    } else {
      AdvanceDecidesQuota(c, d, catalog, i, event);
    }
  }

  lemma ProjectNextDecidesQuota(s: Platform, catalog: Catalog, i: nat)
    requires Identified(s.orc) && Ordered(s) && EventsExplained(s)
    requires WithinQuota(s.control, catalog) && Cursor(s, i) < |Queue(s, i)|
    ensures WithinQuota(Projected(s, i).control, catalog)
            <==> (Revives(s, ProjectNext(i)) ==> StillFits(s.control, catalog, s.control.instances[i]))
  {
    InstancesAfterNext(s, i);
    NextDecidesQuota(s.control, Projected(s, i).control, catalog, i, Queue(s, i)[Cursor(s, i)]);
  }

  lemma RequestKeepsQuota(s: Platform, catalog: Catalog, caller: Caller, wish: Wish, ids: Minted)
    requires WithinQuota(s.control, catalog) && Fresh(s, wish, ids)
    ensures WithinQuota(Submitted(s, catalog, caller, wish, ids).control, catalog)
  {
    var move := RequestMoves(s, catalog, caller, wish, ids);
    if move.AcceptMove? {
      AcceptKeepsQuota(s.control, Submitted(s, catalog, caller, wish, ids).control, catalog, move);
    }
  }

  lemma StepDecidesQuota(s: Platform, catalog: Catalog, input: PlatformInput)
    requires Linked(s) && WithinQuota(s.control, catalog)
    ensures WithinQuota(PlatformStep(s, catalog, input).control, catalog)
            <==> (Revives(s, input) ==> StillFits(s.control, catalog, s.control.instances[input.instanceId]))
  {
    if PlatformEnabled(s, input) {
      match input
      case Request(caller, wish, ids) => RequestKeepsQuota(s, catalog, caller, wish, ids);
      case ProjectNext(i) => ProjectNextDecidesQuota(s, catalog, i);
      case _ => SameInstancesKeepQuota(s.control, PlatformStep(s, catalog, input).control, catalog);
    }
  }

  lemma EmptyIsWithinQuota(catalog: Catalog)
    ensures WithinQuota(EmptyControl(), catalog)
  {
    forall p, dimension: Dimension
      ensures Usage(EmptyControl(), p, dimension) == 0
    {
      assert Charges(EmptyControl().instances, p, dimension) == map[];
    }
  }

  /** Whatever the k-th step brings back still fits. */
  ghost predicate RevivalFits(start: Time, catalog: Catalog, inputs: seq<PlatformInput>, k: nat)
    requires k < |inputs|
  {
    var s := PlatformRun(start, catalog, inputs[..k]);
    Revives(s, inputs[k]) ==> StillFits(s.control, catalog, s.control.instances[inputs[k].instanceId])
  }

  ghost predicate RevivalsFit(start: Time, catalog: Catalog, inputs: seq<PlatformInput>) {
    forall k | 0 <= k < |inputs| :: RevivalFits(start, catalog, inputs, k)
  }

  ghost predicate AlwaysWithinQuota(start: Time, catalog: Catalog, inputs: seq<PlatformInput>) {
    forall n | 0 <= n <= |inputs| :: WithinQuota(PlatformRun(start, catalog, inputs[..n]).control, catalog)
  }

  lemma StepOfRunDecides(start: Time, catalog: Catalog, inputs: seq<PlatformInput>, k: nat)
    requires k < |inputs| && WithinQuota(PlatformRun(start, catalog, inputs[..k]).control, catalog)
    ensures WithinQuota(PlatformRun(start, catalog, inputs[..k + 1]).control, catalog) <==> RevivalFits(start, catalog, inputs, k)
  {
    RunExtends(start, catalog, inputs, k);
    RunsAreLinked(start, catalog, inputs[..k]);
    StepDecidesQuota(PlatformRun(start, catalog, inputs[..k]), catalog, inputs[k]);
  }

  lemma {:induction false} WithinUpTo(start: Time, catalog: Catalog, inputs: seq<PlatformInput>, n: nat)
    requires n <= |inputs| && RevivalsFit(start, catalog, inputs)
    ensures WithinQuota(PlatformRun(start, catalog, inputs[..n]).control, catalog)
  {
    if n == 0 {
      EmptyIsWithinQuota(catalog);
    } else {
      WithinUpTo(start, catalog, inputs, n - 1);
      StepOfRunDecides(start, catalog, inputs, n - 1);
    }
  }

  /**
   * Quota conservation, with replays: every project is within its quota in each dimension at every
   * point of a run if and only if each purged instance that a projected event brings back passes, at
   * that moment, the check a create has to pass.
   */
  lemma QuotaIsKeptExactly(start: Time, catalog: Catalog, inputs: seq<PlatformInput>)
    ensures AlwaysWithinQuota(start, catalog, inputs) <==> RevivalsFit(start, catalog, inputs)
  {
    if RevivalsFit(start, catalog, inputs) {
      forall n | 0 <= n <= |inputs|
        ensures WithinQuota(PlatformRun(start, catalog, inputs[..n]).control, catalog)
      {
        WithinUpTo(start, catalog, inputs, n);
      }
    }
    if AlwaysWithinQuota(start, catalog, inputs) {
      forall k | 0 <= k < |inputs|
        ensures RevivalFits(start, catalog, inputs, k)
      {
        assert WithinQuota(PlatformRun(start, catalog, inputs[..k]).control, catalog);
        assert WithinQuota(PlatformRun(start, catalog, inputs[..k + 1]).control, catalog);
        StepOfRunDecides(start, catalog, inputs, k);
      }
    }
  }

  // ----- Without replay ----------------------------------------------------------------------

  /** Without replay, an event is about the active operation, and a purged instance has none. */
  lemma NothingRevives(s: Platform, input: PlatformInput)
    requires Consistent(s) && PurgedIdle(s.control)
    ensures !Revives(s, input)
  {
    if Revives(s, input) {
      ProjectionAdvances(s, input.instanceId);
    }
  }

  /** In runs without replay, quota conservation has no condition. */
  lemma QuotaIsConserved(start: Time, catalog: Catalog, inputs: seq<PlatformInput>, p: nat, dimension: Dimension)
    requires WithoutReplay(inputs) && p in catalog.quotas
    ensures Usage(PlatformRun(start, catalog, inputs).control, p, dimension) <= Limit(catalog.quotas[p], dimension)
  {
    forall k | 0 <= k < |inputs|
      ensures RevivalFits(start, catalog, inputs, k)
    {
      RunsAreConsistent(start, catalog, inputs[..k]);
      RunsAreKept(start, catalog, inputs[..k]);
      NothingRevives(PlatformRun(start, catalog, inputs[..k]), inputs[k]);
    }
    QuotaIsKeptExactly(start, catalog, inputs);
    assert inputs[..|inputs|] == inputs;
  }
}
