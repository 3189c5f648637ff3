/**
 * A provider that honours request ids, with lossy replies: what each call does to the machines it
 * keeps and what it answers. One function per step; `FakeProvider` performs the same steps in place.
 *
 * A mutation is two steps, because the provider looks its cache up, waits, and only then applies:
 * `Begin` is everything before the wait and `Finish` everything after it. Calls may overlap.
 */
module Provider {
  import opened Prelude
  import opened Stages
  import opened SagaEngine

  // ----- Requests ----------------------------------------------------------------------------

  datatype Verb =
    | SubmitCreate | ApplyConfiguration
    | StartVm | ShutdownVm | StopVm | RebootVm
    | ResizeVm | CreateSnap | RollbackSnap | DeleteSnap | MarkRetained | PurgeVm

  /** The part of a request id after the operation id. */
  datatype StepName =
    | StepCreate | StepConfigure | StepStart | StepPower(request: PowerRequest) | StepResize
    | StepSnapshot(action: Action) | StepRetain | StepPurge

  /** The labels that mark a machine as created by this control plane for one instance. */
  datatype Markers = Markers(projectId: nat, instanceId: nat, createOperationId: nat)

  /** What the provider deduplicates on. */
  datatype Key = Key(verb: Verb, operationId: nat, step: StepName)

  /**
   * A mutation request. `correlation` is the correlation id, which a governed replay rewrites,
   * and `token` the fencing token, which every claim renews. `resource` is unused by create.
   */
  datatype Request = Request(
    key: Key,
    correlation: nat,
    token: nat,
    instanceId: nat,
    resource: Option<nat>,
    markers: Markers,
    data: CommandData)

  /** The methods whose request carries its context at the top level. */
  predicate IsFlat(verb: Verb) {
    verb in {SubmitCreate, ApplyConfiguration, StartVm, ShutdownVm, StopVm, RebootVm}
  }

  /** The content compared for a repeated id: the token is left out of a top-level context only. */
  function Canonical(r: Request): Request {
    if IsFlat(r.key.verb) then r.(token := 0) else r
  }

  // ----- State -------------------------------------------------------------------------------

  datatype Vm = Vm(instanceId: nat, markers: Markers, sizing: Sizing, power: PowerState, retained: bool)

  datatype Cached = Cached(canonical: Request, result: MutationResult)

  /**
   * `executed` and `created` record the past: every application of a mutation, and the instance
   * each machine was created for. No step reads them.
   */
  datatype World = World(
    vms: map<nat, Vm>,
    byInstance: map<nat, nat>,
    snapshots: map<nat, map<nat, nat>>,
    cache: map<Key, Cached>,
    tasks: map<nat, nat>,
    sequence: nat,
    executed: seq<Key>,
    created: map<nat, nat>)

  function EmptyWorld(): World {
    World(map[], map[], map[], map[], map[], 0, [], map[])
  }

  const DEFAULT_POLLS: nat := 0

  const CODE_NOT_FOUND: nat := 1
  const CODE_OWNERSHIP_MISMATCH: nat := 2
  const CODE_DISK_SHRINK: nat := 3
  const CODE_SNAPSHOT_NOT_FOUND: nat := 4

  /** How one call is scripted to go; the environment chooses. */
  datatype Script =
    | Works(polls: Option<nat>)
    | TimesOut(applied: bool, polls: Option<nat>)
    | Fails(category: ProviderCategory, code: nat)
    | OutcomeUnknown(applied: bool)

  // ----- Applying a mutation -----------------------------------------------------------------

  function Refusal(category: ProviderCategory, code: nat): MutationResult {
    MutationResult(ResultRejected, None, None, Some(ProviderFailure(category, Some(code))))
  }

  /** An accepted mutation opens a task under a fresh id. */
  function AcceptedWork(w: World, resource: nat): (World, MutationResult) {
    (w.(sequence := w.sequence + 1, tasks := w.tasks[w.sequence + 1 := DEFAULT_POLLS]),
     MutationResult(ResultAccepted, Some(Ref(resource)), Some(Ref(w.sequence + 1)), None))
  }

  predicate Owned(w: World, r: Request) {
    r.resource.Some? && r.resource.value in w.vms && w.vms[r.resource.value].markers == r.markers
  }

  /** The rejection when the named machine is absent or not ours. */
  function OwnershipFailure(w: World, r: Request): MutationResult {
    if r.resource.Some? && r.resource.value in w.vms then Refusal(ProviderAuthorization, CODE_OWNERSHIP_MISMATCH)
    else Refusal(ProviderNotFound, CODE_NOT_FOUND)
  }

  function RequestedSizing(data: CommandData, present: Sizing): Sizing {
    match data
    case CreateData(sizing) => sizing
    case ResizeData(target) => target
    case _ => present
  }

  function PowerAfter(verb: Verb): PowerState {
    if verb.StartVm? || verb.RebootVm? then PowerRunning else PowerStopped
  }

  function Snapshots(w: World, resource: nat): map<nat, nat> {
    if resource in w.snapshots then w.snapshots[resource] else map[]
  }

  function CreateVm(w: World, r: Request): (World, MutationResult) {
    if r.instanceId in w.byInstance then AcceptedWork(w, w.byInstance[r.instanceId])
    else
      var id := w.sequence + 1;
      var vm := Vm(r.instanceId, r.markers, RequestedSizing(r.data, Sizing(1, 512, 8)), PowerStopped, false);
      AcceptedWork(w.(sequence := id, vms := w.vms[id := vm], byInstance := w.byInstance[r.instanceId := id],
                  created := w.created[id := r.instanceId]), id)
  }

  function ChangeVm(w: World, r: Request, vm: Vm): (World, MutationResult)
    requires r.resource.Some?
  {
    AcceptedWork(w.(vms := w.vms[r.resource.value := vm]), r.resource.value)
  }

  function ChangeSnapshots(w: World, r: Request, names: map<nat, nat>): (World, MutationResult)
    requires r.resource.Some?
  {
    AcceptedWork(w.(snapshots := w.snapshots[r.resource.value := names]), r.resource.value)
  }

  function DestroyVm(w: World, r: Request): (World, MutationResult)
    requires Owned(w, r)
  {
    var id := r.resource.value;
    AcceptedWork(w.(vms := w.vms - {id}, byInstance := w.byInstance - {w.vms[id].instanceId},
                snapshots := w.snapshots - {id}), id)
  }

  /** A snapshot mutation of an owned machine; rolling back leaves the listing as it is. */
  function SnapshotChange(w: World, r: Request): (World, MutationResult)
    requires Owned(w, r)
  {
    var names := Snapshots(w, r.resource.value);
    match r.data
    case SnapshotCreateData(snapshot, name) => ChangeSnapshots(w, r, names[snapshot := name])
    case SnapshotRollbackData(snapshot, _) =>
      if snapshot in names then AcceptedWork(w, r.resource.value)
      else (w, Refusal(ProviderNotFound, CODE_SNAPSHOT_NOT_FOUND))
    case SnapshotDeleteData(snapshot, _) =>
      if snapshot in names then ChangeSnapshots(w, r, names - {snapshot})
      else (w, Refusal(ProviderNotFound, CODE_SNAPSHOT_NOT_FOUND))
    case _ => (w, Refusal(ProviderNotFound, CODE_SNAPSHOT_NOT_FOUND))
  }

  /** The machine as a mutation leaves it; `None` when the mutation is refused. */
  function ChangedVm(vm: Vm, verb: Verb, data: CommandData): Option<Vm> {
    var sizing := RequestedSizing(data, vm.sizing);
    match verb
    case ApplyConfiguration => Some(vm.(sizing := sizing))
    case ResizeVm => if sizing.disk < vm.sizing.disk then None else Some(vm.(sizing := sizing))
    case MarkRetained => Some(vm.(retained := true))
    case _ => Some(vm.(power := PowerAfter(verb)))
  }

  predicate IsSnapshotVerb(verb: Verb) {
    verb.CreateSnap? || verb.RollbackSnap? || verb.DeleteSnap?
  }

  /** What a mutation does once the provider gets to it. */
  function Execute(w: World, r: Request): (World, MutationResult) {
    if r.key.verb.SubmitCreate? then CreateVm(w, r)
    else if !Owned(w, r) then (w, OwnershipFailure(w, r))
    else if r.key.verb.PurgeVm? then DestroyVm(w, r)
    else if IsSnapshotVerb(r.key.verb) then SnapshotChange(w, r)
    else
      var changed := ChangedVm(w.vms[r.resource.value], r.key.verb, r.data);
      if changed.None? then (w, Refusal(ProviderValidation, CODE_DISK_SHRINK)) else ChangeVm(w, r, changed.value)
  }

  // ----- One call ----------------------------------------------------------------------------

  function Remember(w: World, r: Request, result: MutationResult): World {
    w.(cache := w.cache[r.key := Cached(Canonical(r), result)])
  }

  /** Applies the mutation and records that it was applied. */
  function Apply(w: World, r: Request): (World, MutationResult) {
    var (next, result) := Execute(w, r);
    (next.(executed := next.executed + [r.key]), result)
  }

  function WithPolls(w: World, result: MutationResult, polls: Option<nat>): World {
    if polls.Some? && result.task.Some? && result.task.value.Ref? && result.task.value.id in w.tasks
    then w.(tasks := w.tasks[result.task.value.id := polls.value])
    else w
  }

  const UNKNOWN_RESULT := MutationResult(ResultUnknown, None, None, Some(ProviderFailure(ProviderUnknownOutcome, None)))

  /**
   * Everything a call does before it waits. A repeated id is answered at once, from the cache or
   * with a protocol error; a timeout scripted to apply first applies here; any other call is left
   * waiting, with nothing applied (`None`).
   */
  function Begin(w: World, r: Request, script: Script): (World, Option<Reply>) {
    if r.key in w.cache then
      if w.cache[r.key].canonical != Canonical(r) then (w, Some(Transport(TransportError(ProtocolError, false))))
      else (w, Some(Mutation(Some(w.cache[r.key].result))))
    else if script.TimesOut? && script.applied then
      var (next, result) := Apply(w, r);
      (Remember(WithPolls(next, result, script.polls), r, result), Some(Transport(TransportErrorOf(DeadlineExceeded))))
    else (w, None)
  }

  /** Everything a waiting call does afterwards; its wait may have been aborted. */
  function Finish(w: World, r: Request, script: Script, aborted: bool): (World, Reply) {
    if aborted then (w, Transport(TransportErrorOf(Aborted)))
    else match script
      case TimesOut(_, _) => (w, Transport(TransportErrorOf(DeadlineExceeded)))
      case Fails(category, code) =>
        var result := Refusal(category, code);
        (Remember(w, r, result), Mutation(Some(result)))
      case OutcomeUnknown(applied) =>
        var next := if applied then Apply(w, r).0 else w;
        (Remember(next, r, UNKNOWN_RESULT), Mutation(Some(UNKNOWN_RESULT)))
      case Works(polls) =>
        var (next, result) := Apply(w, r);
        (Remember(WithPolls(next, result, polls), r, result), Mutation(Some(result)))
  }

  // ----- Queries -----------------------------------------------------------------------------

  /** A task reports running until its polls are used up. */
  function PollTask(w: World, task: nat): (World, TaskState) {
    if task !in w.tasks then (w, TaskUnknown)
    else if w.tasks[task] > 0 then (w.(tasks := w.tasks[task := w.tasks[task] - 1]), TaskRunning)
    else (w, TaskSucceeded)
  }

  function Observe(w: World, resource: nat, expected: Markers): Observation {
    if resource in w.vms then
      var vm := w.vms[resource];
      Observation(true, Some(Ownership(true, vm.markers == expected)), vm.power,
                  Some(Measured(Some(vm.sizing.cpu), Some(vm.sizing.memory), Some(vm.sizing.disk))))
    else Observation(false, Some(Ownership(false, false)), PowerUnknown, None)
  }

  /** A listing is refused unless the machine is there and ours. */
  function ListSnapshots(w: World, resource: nat, expected: Markers): Reply {
    if resource !in w.vms || w.vms[resource].markers != expected then Transport(TransportErrorOf(ProtocolError))
    else Listed(Snapshots(w, resource).Values)
  }

  /** An observation proves ownership, presence and sizing exactly of the machine that is there. */
  lemma ObservationIsExact(w: World, resource: nat, expected: Markers, target: Sizing)
    ensures var seen := Some(Observe(w, resource, expected));
            && (ReportsPresent(seen) <==> resource in w.vms)
            && (ProvesOwned(seen) <==> resource in w.vms && w.vms[resource].markers == expected)
            && (resource in w.vms ==>
                  && seen.value.power == w.vms[resource].power
                  && (SizingDisagrees(seen.value.measured, target) <==> w.vms[resource].sizing != target)
                  && MeasuredSizing(seen.value.measured) == Some(w.vms[resource].sizing))
  {
  }

  // ----- At most one machine per instance ----------------------------------------------------

  /** The machine index is exact: each machine is the one machine of its instance. */
  ghost predicate Indexed(w: World) {
    && (forall id | id in w.vms :: w.vms[id].instanceId in w.byInstance && w.byInstance[w.vms[id].instanceId] == id)
    && (forall i | i in w.byInstance :: w.byInstance[i] in w.vms && w.vms[w.byInstance[i]].instanceId == i)
    && (forall id | id in w.vms :: id <= w.sequence)
  }

  /** The same machines for the same instances, whatever else about them changed. */
  ghost predicate SameMachines(w: World, next: World) {
    && next.vms.Keys == w.vms.Keys && next.byInstance == w.byInstance && next.created == w.created
    && (forall id | id in w.vms ::
          next.vms[id].instanceId == w.vms[id].instanceId && next.vms[id].markers == w.vms[id].markers)
  }

  ghost predicate AddsMachine(w: World, next: World, r: Request) {
    var id := w.sequence + 1;
    && r.key.verb.SubmitCreate? && r.instanceId !in w.byInstance
    && id in next.vms && next.vms == w.vms[id := next.vms[id]]
    && next.vms[id].instanceId == r.instanceId && next.vms[id].markers == r.markers
    && next.byInstance == w.byInstance[r.instanceId := id]
    && next.created == w.created[id := r.instanceId]
  }

  ghost predicate RemovesMachine(w: World, next: World, r: Request) {
    && r.key.verb.PurgeVm? && Owned(w, r)
    && next.vms == w.vms - {r.resource.value}
    && next.byInstance == w.byInstance - {w.vms[r.resource.value].instanceId}
    && next.created == w.created
  }

  lemma CreateShape(w: World, r: Request)
    requires r.key.verb.SubmitCreate?
    ensures var next := CreateVm(w, r).0;
            && w.sequence < next.sequence && next.executed == w.executed && next.cache == w.cache
            && (SameMachines(w, next) || AddsMachine(w, next, r))
  {
  }

  lemma ChangeShape(w: World, r: Request, vm: Vm)
    requires Owned(w, r) && vm.instanceId == w.vms[r.resource.value].instanceId && vm.markers == r.markers
    ensures var next := ChangeVm(w, r, vm).0;
            && w.sequence < next.sequence && next.executed == w.executed && next.cache == w.cache
            && SameMachines(w, next)
  {
    assert ChangeVm(w, r, vm).0.vms.Keys == w.vms.Keys;
  }

  /** A snapshot mutation changes the listing of its own machine at most. */
  lemma SnapshotEffect(w: World, r: Request)
    requires Owned(w, r)
    ensures var next := SnapshotChange(w, r).0;
            && next == w.(snapshots := next.snapshots, sequence := next.sequence, tasks := next.tasks)
            && w.sequence <= next.sequence
            && (next.snapshots == w.snapshots
                || (r.resource.value in next.snapshots
                    && next.snapshots == w.snapshots[r.resource.value := next.snapshots[r.resource.value]]))
  {
  }

  lemma SnapshotShape(w: World, r: Request)
    requires Owned(w, r)
    ensures var next := SnapshotChange(w, r).0;
            && w.sequence <= next.sequence && next.executed == w.executed && next.cache == w.cache
            && SameMachines(w, next)
  {
    SnapshotEffect(w, r);
  }

  lemma ExecuteShape(w: World, r: Request)
    ensures var next := Execute(w, r).0;
            && w.sequence <= next.sequence && next.executed == w.executed && next.cache == w.cache
            && (SameMachines(w, next)
                || (AddsMachine(w, next, r) && w.sequence < next.sequence)
                || RemovesMachine(w, next, r))
  {
    if r.key.verb.SubmitCreate? {
      CreateShape(w, r);
    } else if Owned(w, r) && !r.key.verb.PurgeVm? {
      if IsSnapshotVerb(r.key.verb) {
        SnapshotShape(w, r);
      } else {
        var changed := ChangedVm(w.vms[r.resource.value], r.key.verb, r.data);
        if changed.Some? {
          ChangeShape(w, r, changed.value);
        }
      }
    }
  }

  lemma ShapesKeepIndexed(w: World, next: World, r: Request)
    requires Indexed(w) && w.sequence <= next.sequence
    requires SameMachines(w, next) || (AddsMachine(w, next, r) && w.sequence < next.sequence) || RemovesMachine(w, next, r)
    ensures Indexed(next)
  {
  }

  lemma BeginKeepsIndexed(w: World, r: Request, script: Script)
    requires Indexed(w)
    ensures Indexed(Begin(w, r, script).0)
  {
    ExecuteShape(w, r);
    ShapesKeepIndexed(w, Execute(w, r).0, r);
  }

  /** Everything but the cache, the log and the polls left is as the mutation itself left it. */
  lemma FinishIsExecute(w: World, r: Request, script: Script, aborted: bool)
    ensures var next := Finish(w, r, script, aborted).0;
            || (next == w.(cache := next.cache))
            || (next == Execute(w, r).0.(cache := next.cache, executed := next.executed, tasks := next.tasks))
  {
  }

  lemma FinishKeepsIndexed(w: World, r: Request, script: Script, aborted: bool)
    requires Indexed(w)
    ensures Indexed(Finish(w, r, script, aborted).0)
  {
    FinishIsExecute(w, r, script, aborted);
    ExecuteShape(w, r);
    ShapesKeepIndexed(w, Execute(w, r).0, r);
  }

  /** Provider steps over any requests, in any order, overlapping or not. */
  datatype ProviderInput =
    | BeginInput(request: Request, script: Script)
    | FinishInput(call: nat, aborted: bool)
    | PollInput(task: nat)

  datatype Waiting = Waiting(request: Request, script: Script)

  /** The provider and the calls that are between their two steps, by call number. */
  datatype Traffic = Traffic(world: World, waiting: map<nat, Waiting>, begun: nat)

  function TrafficStep(s: Traffic, input: ProviderInput): Traffic {
    match input
    case BeginInput(r, script) =>
      var (next, reply) := Begin(s.world, r, script);
      Traffic(next, if reply.None? then s.waiting[s.begun := Waiting(r, script)] else s.waiting, s.begun + 1)
    case FinishInput(call, aborted) =>
      if call !in s.waiting then s
      else s.(world := Finish(s.world, s.waiting[call].request, s.waiting[call].script, aborted).0,
              waiting := s.waiting - {call})
    case PollInput(task) => s.(world := PollTask(s.world, task).0)
  }

  function TrafficRun(inputs: seq<ProviderInput>): Traffic {
    if inputs == [] then Traffic(EmptyWorld(), map[], 0)
    else TrafficStep(TrafficRun(inputs[..|inputs| - 1]), inputs[|inputs| - 1])
  }

  lemma TrafficKeepsIndexed(s: Traffic, input: ProviderInput)
    requires Indexed(s.world)
    ensures Indexed(TrafficStep(s, input).world)
  {
    match input
    case BeginInput(r, script) => BeginKeepsIndexed(s.world, r, script);
    case FinishInput(call, aborted) =>
      if call in s.waiting {
        FinishKeepsIndexed(s.world, s.waiting[call].request, s.waiting[call].script, aborted);
      }
    case PollInput(_) =>
  }

  /** Never two machines for one instance, whatever calls are made and however they overlap. */
  lemma {:induction false} OneMachinePerInstance(inputs: seq<ProviderInput>)
    ensures var w := TrafficRun(inputs).world;
            Indexed(w)
            && forall id, id' | id in w.vms && id' in w.vms && w.vms[id].instanceId == w.vms[id'].instanceId :: id == id'
  {
    if inputs != [] {
      OneMachinePerInstance(inputs[..|inputs| - 1]);
      TrafficKeepsIndexed(TrafficRun(inputs[..|inputs| - 1]), inputs[|inputs| - 1]);
    }
  }

  // ----- At most one application per request id ----------------------------------------------

  function Count(executed: seq<Key>, key: Key): nat {
    multiset(executed)[key]
  }

  ghost predicate InFlight(s: Traffic, key: Key) {
    exists call :: call in s.waiting && s.waiting[call].request.key == key
  }

  /** No call begins while another with its request id is still waiting. */
  ghost predicate WithoutOverlap(inputs: seq<ProviderInput>) {
    forall k | 0 <= k < |inputs| && inputs[k].BeginInput? ::
      !InFlight(TrafficRun(inputs[..k]), inputs[k].request.key)
  }

  /** An applied id is cached and no longer in flight, and no id is in flight twice. */
  ghost predicate AtMostOnce(s: Traffic) {
    && (forall key :: Count(s.world.executed, key) <= 1)
    && (forall key | Count(s.world.executed, key) == 1 :: key in s.world.cache)
    && (forall call | call in s.waiting :: call < s.begun && s.waiting[call].request.key !in s.world.cache)
    && (forall call, call' | call in s.waiting && call' in s.waiting
          && s.waiting[call].request.key == s.waiting[call'].request.key :: call == call')
  }

  /** Only the entry of the key has been written. */
  predicate Caches(cache: map<Key, Cached>, next: map<Key, Cached>, key: Key) {
    key in next && next == cache[key := next[key]]
  }

  /** What any step does to the cache and the log, for the key of its own request only. */
  lemma BeginEffect(w: World, r: Request, script: Script)
    ensures var next := Begin(w, r, script).0;
            || (next.executed == w.executed && next.cache == w.cache)
            || (r.key !in w.cache && next.executed == w.executed + [r.key]
                && Caches(w.cache, next.cache, r.key))
    ensures Begin(w, r, script).1.None? ==> r.key !in w.cache && Begin(w, r, script).0 == w
  {
    ExecuteShape(w, r);
  }

  lemma FinishEffect(w: World, r: Request, script: Script, aborted: bool)
    ensures var next := Finish(w, r, script, aborted).0;
            || (next.executed == w.executed && next.cache == w.cache)
            || ((next.executed == w.executed || next.executed == w.executed + [r.key])
                && Caches(w.cache, next.cache, r.key))
  {
    ExecuteShape(w, r);
  }

  lemma OneMore(executed: seq<Key>, own: Key, key: Key)
    ensures Count(executed + [own], key) == Count(executed, key) + (if key == own then 1 else 0)
  {
  }

  lemma LoggedOnce(w: World, next: World, own: Key)
    requires own !in w.cache && (forall key :: Count(w.executed, key) <= 1)
    requires forall key | Count(w.executed, key) == 1 :: key in w.cache
    requires next.executed == w.executed || next.executed == w.executed + [own]
    requires Caches(w.cache, next.cache, own)
    ensures forall key :: Count(next.executed, key) <= 1
    ensures forall key | Count(next.executed, key) == 1 :: key in next.cache
  {
    forall key
      ensures Count(next.executed, key) <= 1 && (Count(next.executed, key) == 1 ==> key in next.cache)
    {
      OneMore(w.executed, own, key);
    }
  }

  lemma TrafficKeepsAtMostOnce(s: Traffic, input: ProviderInput)
    requires AtMostOnce(s)
    requires input.BeginInput? ==> !InFlight(s, input.request.key)
    ensures AtMostOnce(TrafficStep(s, input))
  {
    match input
    case BeginInput(r, script) =>
      BeginEffect(s.world, r, script);
      if Begin(s.world, r, script).0 != s.world {
        LoggedOnce(s.world, Begin(s.world, r, script).0, r.key);
      }
    case FinishInput(call, aborted) =>
      if call in s.waiting {
        var r, script := s.waiting[call].request, s.waiting[call].script;
        FinishEffect(s.world, r, script, aborted);
        var next := Finish(s.world, r, script, aborted).0;
        if next.cache != s.world.cache || next.executed != s.world.executed {
          LoggedOnce(s.world, next, r.key);
        }
      }
    case PollInput(_) =>
  }

  /**
   * When calls that share a request id do not overlap, no request id is ever applied twice,
   * however often it is repeated and whatever is lost, aborted or left unknown.
   */
  lemma {:induction false} AppliedAtMostOnce(inputs: seq<ProviderInput>, key: Key)
    requires WithoutOverlap(inputs)
    ensures AtMostOnce(TrafficRun(inputs))
    ensures Count(TrafficRun(inputs).world.executed, key) <= 1
  {
    if inputs != [] {
      var before := inputs[..|inputs| - 1];
      assert forall k | 0 <= k < |before| :: before[..k] == inputs[..k];
      AppliedAtMostOnce(before, key);
      TrafficKeepsAtMostOnce(TrafficRun(before), inputs[|inputs| - 1]);
    }
  }

  // ----- And exactly then --------------------------------------------------------------------

  predicate SameInput(a: ProviderInput, b: ProviderInput) {
    if a.BeginInput? then b.BeginInput? && a.request == b.request else a == b
  }

  /** The same calls, however they are scripted to go. */
  ghost predicate SameCalls(inputs: seq<ProviderInput>, other: seq<ProviderInput>) {
    |inputs| == |other| && forall k | 0 <= k < |inputs| :: SameInput(inputs[k], other[k])
  }

  predicate Finishes(inputs: seq<ProviderInput>) {
    forall k | 0 <= k < |inputs| :: inputs[k].FinishInput?
  }

  /** The same traffic, had the waiting call been scripted to work. */
  function Willing(s: Traffic, call: nat): Traffic
    requires call in s.waiting
  {
    s.(waiting := s.waiting[call := s.waiting[call].(script := Works(None))])
  }

  /** Finishing a waiting call applies it, whether or not its id has been applied meanwhile. */
  lemma FinishApplies(s: Traffic, call: nat)
    requires call in s.waiting && s.waiting[call].script == Works(None)
    ensures var next := TrafficStep(s, FinishInput(call, false));
            && next.world.executed == s.world.executed + [s.waiting[call].request.key]
            && next.waiting == s.waiting - {call}
  {
    ExecuteShape(s.world, s.waiting[call].request);
  }

  lemma RunSteps(inputs: seq<ProviderInput>, input: ProviderInput)
    ensures TrafficRun(inputs + [input]) == TrafficStep(TrafficRun(inputs), input)
  {
    assert (inputs + [input])[..|inputs|] == inputs;
  }

  lemma {:induction false} CallsAreNumbered(inputs: seq<ProviderInput>)
    ensures forall call | call in TrafficRun(inputs).waiting :: call < TrafficRun(inputs).begun
  {
    if inputs != [] {
      CallsAreNumbered(inputs[..|inputs| - 1]);
    }
  }

  lemma WillingStep(s: Traffic, input: ProviderInput, call: nat)
    requires call in s.waiting && call < s.begun && call in TrafficStep(s, input).waiting
    ensures TrafficStep(Willing(s, call), input) == Willing(TrafficStep(s, input), call)
  {
  }

  /** A call that was left waiting would also have been left waiting had it been scripted to work. */
  lemma BegunWillingly(s: Traffic, input: ProviderInput, call: nat)
    requires call !in s.waiting && call in TrafficStep(s, input).waiting
    ensures input.BeginInput?
    ensures TrafficStep(s, BeginInput(input.request, Works(None))) == Willing(TrafficStep(s, input), call)
  {
  }

  lemma SameCallsExtend(inputs: seq<ProviderInput>, other: seq<ProviderInput>, a: ProviderInput, b: ProviderInput)
    requires SameCalls(inputs, other) && SameInput(a, b)
    ensures SameCalls(inputs + [a], other + [b])
  {
  }

  /** A call in flight has applied nothing yet: it may as well have been scripted to work. */
  lemma {:induction false} Rescripted(inputs: seq<ProviderInput>, call: nat) returns (other: seq<ProviderInput>)
    requires call in TrafficRun(inputs).waiting
    ensures SameCalls(inputs, other) && TrafficRun(other) == Willing(TrafficRun(inputs), call)
  {
    var before, last := inputs[..|inputs| - 1], inputs[|inputs| - 1];
    assert before + [last] == inputs;
    var s := TrafficRun(before);
    assert TrafficRun(inputs) == TrafficStep(s, last);
    var earlier, instead := before, last;
    if call in s.waiting {
      earlier := Rescripted(before, call);
      CallsAreNumbered(before);
      WillingStep(s, last, call);
    } else {
      BegunWillingly(s, last, call);
      instead := BeginInput(last.request, Works(None));
    }
    other := earlier + [instead];
    SameCallsExtend(before, earlier, last, instead);
    RunSteps(earlier, instead);
  }

  /** The k-th input begins a call while another with its request id waits, and nothing is cached for it. */
  ghost predicate OverlapsAt(inputs: seq<ProviderInput>, k: nat) {
    && k < |inputs| && inputs[k].BeginInput?
    && InFlight(TrafficRun(inputs[..k]), inputs[k].request.key)
    && inputs[k].request.key !in TrafficRun(inputs[..k]).world.cache
  }

  /** Both calls of an overlap may work, and then both apply. */
  lemma OverlapAppliesTwice(inputs: seq<ProviderInput>, k: nat) returns (other: seq<ProviderInput>, more: seq<ProviderInput>)
    requires OverlapsAt(inputs, k)
    ensures SameCalls(inputs[..k + 1], other) && Finishes(more)
    ensures Count(TrafficRun(other + more).world.executed, inputs[k].request.key) >= 2
  {
    var r, s := inputs[k].request, TrafficRun(inputs[..k]);
    var first :| first in s.waiting && s.waiting[first].request.key == r.key;
    CallsAreNumbered(inputs[..k]);
    var before := Rescripted(inputs[..k], first);
    other := before + [BeginInput(r, Works(None))];
    RunSteps(before, BeginInput(r, Works(None)));
    SameCallsExtend(inputs[..k], before, inputs[k], BeginInput(r, Works(None)));
    assert inputs[..k] + [inputs[k]] == inputs[..k + 1];
    more := [FinishInput(first, false), FinishInput(s.begun, false)];
    BothFinish(other, first, s.begun, r.key);
  }

  lemma BothFinish(inputs: seq<ProviderInput>, first: nat, second: nat, key: Key)
    requires var s := TrafficRun(inputs);
             && first in s.waiting && second in s.waiting && first != second
             && s.waiting[first].request.key == key && s.waiting[first].script == Works(None)
             && s.waiting[second].request.key == key && s.waiting[second].script == Works(None)
    ensures Count(TrafficRun(inputs + [FinishInput(first, false), FinishInput(second, false)]).world.executed, key) >= 2
  {
    var one, two := FinishInput(first, false), FinishInput(second, false);
    RunSteps(inputs, one);
    RunSteps(inputs + [one], two);
    assert inputs + [one] + [two] == inputs + [one, two];
    FinishApplies(TrafficRun(inputs), first);
    FinishApplies(TrafficRun(inputs + [one]), second);
    OneMore(TrafficRun(inputs).world.executed, key, key);
    OneMore(TrafficRun(inputs + [one]).world.executed, key, key);
  }

  lemma InFlightIsUncached(inputs: seq<ProviderInput>, key: Key)
    requires WithoutOverlap(inputs) && InFlight(TrafficRun(inputs), key)
    ensures key !in TrafficRun(inputs).world.cache
  {
    AppliedAtMostOnce(inputs, key);
  }

  /** If only the last call overlaps, nothing is cached for it. */
  lemma LastOverlaps(inputs: seq<ProviderInput>)
    requires inputs != [] && !WithoutOverlap(inputs) && WithoutOverlap(inputs[..|inputs| - 1])
    ensures OverlapsAt(inputs, |inputs| - 1)
  {
    var last := |inputs| - 1;
    assert forall k | 0 <= k < last :: inputs[..last][..k] == inputs[..k];
    var k :| 0 <= k < |inputs| && inputs[k].BeginInput? && InFlight(TrafficRun(inputs[..k]), inputs[k].request.key);
    assert k == last;
    InFlightIsUncached(inputs[..last], inputs[last].request.key);
  }

  lemma OverlapStays(inputs: seq<ProviderInput>, k: nat)
    requires inputs != [] && OverlapsAt(inputs[..|inputs| - 1], k)
    ensures OverlapsAt(inputs, k)
  {
    assert inputs[..|inputs| - 1][..k] == inputs[..k];
  }

  /** The first overlap of a run meets an empty cache. */
  lemma {:induction false} FirstOverlap(inputs: seq<ProviderInput>) returns (k: nat)
    requires !WithoutOverlap(inputs)
    ensures OverlapsAt(inputs, k)
  {
    var before := inputs[..|inputs| - 1];
    if WithoutOverlap(before) {
      k := |inputs| - 1;
      LastOverlaps(inputs);
    } else {
      k := FirstOverlap(before);
      OverlapStays(inputs, k);
    }
  }

  /** At every point of these calls, and however they and the calls still waiting then go: no id is applied twice. */
  ghost predicate OnceHoweverScripted(inputs: seq<ProviderInput>) {
    forall n: nat, other, more, key | n <= |inputs| && SameCalls(inputs[..n], other) && Finishes(more) ::
      Count(TrafficRun(other + more).world.executed, key) <= 1
  }

  ghost predicate NeverOverlaps(inputs: seq<ProviderInput>) {
    forall other | SameCalls(inputs, other) :: WithoutOverlap(other)
  }

  lemma FinishingKeepsApart(inputs: seq<ProviderInput>, n: nat, other: seq<ProviderInput>, more: seq<ProviderInput>)
    requires NeverOverlaps(inputs) && n <= |inputs| && SameCalls(inputs[..n], other) && Finishes(more)
    ensures WithoutOverlap(other + more)
  {
    var whole := other + inputs[n..];
    assert SameCalls(inputs, whole);
    forall k | 0 <= k < |other + more| && (other + more)[k].BeginInput?
      ensures !InFlight(TrafficRun((other + more)[..k]), (other + more)[k].request.key)
    {
      assert whole[..k] == other[..k] == (other + more)[..k];
      assert whole[k] == other[k];
    }
  }

  /**
   * Calls that share a request id must not overlap, and nothing less will do: whatever the calls
   * are, each id is applied at most once in all their outcomes if and only if none overlap.
   */
  lemma AtMostOnceExactly(inputs: seq<ProviderInput>)
    ensures OnceHoweverScripted(inputs) <==> NeverOverlaps(inputs)
  {
    if NeverOverlaps(inputs) {
      forall n: nat, other, more, key | n <= |inputs| && SameCalls(inputs[..n], other) && Finishes(more)
        ensures Count(TrafficRun(other + more).world.executed, key) <= 1
      {
        FinishingKeepsApart(inputs, n, other, more);
        AppliedAtMostOnce(other + more, key);
      }
    } else {
      var other: seq<ProviderInput> :| SameCalls(inputs, other) && !WithoutOverlap(other);
      var k := FirstOverlap(other);
      var again, more := OverlapAppliesTwice(other, k);
      assert SameCalls(inputs[..k + 1], again);
      assert Count(TrafficRun(again + more).world.executed, other[k].request.key) >= 2;
    }
  }

  // ----- Effects stay on the request's own instance ------------------------------------------

  predicate Coherent(r: Request) {
    r.markers.instanceId == r.instanceId
  }

  ghost predicate Marked(w: World) {
    forall id | id in w.vms :: w.vms[id].markers.instanceId == w.vms[id].instanceId
  }

  /** A request that names its own instance in its markers cannot touch another instance's machine. */
  lemma SnapshotsStayHome(w: World, r: Request, id: nat)
    requires Owned(w, r) && id != r.resource.value && id in w.vms
    ensures var next := SnapshotChange(w, r).0;
            next.vms == w.vms && Snapshots(next, id) == Snapshots(w, id)
  {
    SnapshotEffect(w, r);
  }

  lemma ExecuteStaysHome(w: World, r: Request, id: nat)
    requires Indexed(w) && Marked(w) && Coherent(r) && id in w.vms && w.vms[id].instanceId != r.instanceId
    ensures var next := Execute(w, r).0;
            id in next.vms && next.vms[id] == w.vms[id] && Snapshots(next, id) == Snapshots(w, id)
  {
    if !r.key.verb.SubmitCreate? && Owned(w, r) {
      assert id != r.resource.value;
      if IsSnapshotVerb(r.key.verb) {
        SnapshotsStayHome(w, r, id);
      } else if !r.key.verb.PurgeVm? {
        var changed := ChangedVm(w.vms[r.resource.value], r.key.verb, r.data);
        assert changed.Some? ==> Execute(w, r) == ChangeVm(w, r, changed.value);
      }
    }
  }
}
