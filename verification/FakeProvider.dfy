/**
 * The deterministic provider: its private tables, changed in place by every call. The mutation
 * entry point is split where it awaits, so that calls can overlap between the two halves.
 */
module FakeProvider {
  import opened Prelude
  import opened Stages
  import opened SagaEngine
  import opened Provider

  class FakeProvider {
    var vms: map<nat, Vm>
    var byInstance: map<nat, nat>
    var snapshots: map<nat, map<nat, nat>>
    var cache: map<Key, Cached>
    var tasks: map<nat, nat>
    var sequence: nat
    ghost var executed: seq<Key>
    ghost var created: map<nat, nat>

    ghost function State(): World
      reads this
    {
      World(vms, byInstance, snapshots, cache, tasks, sequence, executed, created)
    }

    constructor ()
      ensures State() == EmptyWorld()
    {
      vms, byInstance, snapshots, cache, tasks := map[], map[], map[], map[], map[];
      sequence, executed, created := 0, [], map[];
    }

    method NextId() returns (id: nat)
      modifies this`sequence
      ensures id == sequence == old(sequence) + 1
    {
      sequence := sequence + 1;
      id := sequence;
    }

    /** Opens a task for work on the resource. */
    method AcceptWork(resource: nat) returns (result: MutationResult)
      modifies this`sequence, this`tasks
      ensures (State(), result) == AcceptedWork(old(State()), resource)
    {
      var task := NextId();
      tasks := tasks[task := DEFAULT_POLLS];
      result := MutationResult(ResultAccepted, Some(Ref(resource)), Some(Ref(task)), None);
    }

    method SubmitCreateInstance(r: Request) returns (result: MutationResult)
      modifies this
      ensures (State(), result) == CreateVm(old(State()), r)
    {
      if r.instanceId in byInstance {
        result := AcceptWork(byInstance[r.instanceId]);
        return;
      }
      var id := NextId();
      vms := vms[id := Vm(r.instanceId, r.markers, RequestedSizing(r.data, Sizing(1, 512, 8)), PowerStopped, false)];
      byInstance := byInstance[r.instanceId := id];
      created := created[id := r.instanceId];
      result := AcceptWork(id);
    }

    /** Configure, resize, retain and the power actions: change one owned machine. */
    method ChangeInstance(r: Request) returns (result: MutationResult)
      requires Owned(State(), r) && !r.key.verb.SubmitCreate? && !r.key.verb.PurgeVm? && !IsSnapshotVerb(r.key.verb)
      modifies this
      ensures (State(), result) == Execute(old(State()), r)
    {
      var id := r.resource.value;
      var vm := vms[id];
      match r.key.verb {
        case ApplyConfiguration =>
          vm := vm.(sizing := RequestedSizing(r.data, vm.sizing));
        case ResizeVm =>
          var target := RequestedSizing(r.data, vm.sizing);
          if target.disk < vm.sizing.disk {
            return Refusal(ProviderValidation, CODE_DISK_SHRINK);
          }
          vm := vm.(sizing := target);
        case MarkRetained =>
          vm := vm.(retained := true);
        case verb =>
          vm := vm.(power := PowerAfter(verb));
      }
      vms := vms[id := vm];
      result := AcceptWork(id);
    }

    method ChangeSnapshot(r: Request) returns (result: MutationResult)
      requires Owned(State(), r)
      modifies this
      ensures (State(), result) == SnapshotChange(old(State()), r)
    {
      var id := r.resource.value;
      var names := if id in snapshots then snapshots[id] else map[];
      match r.data {
        case SnapshotCreateData(snapshot, name) =>
          snapshots := snapshots[id := names[snapshot := name]];
        case SnapshotRollbackData(snapshot, _) =>
          if snapshot !in names {
            return Refusal(ProviderNotFound, CODE_SNAPSHOT_NOT_FOUND);
          }
        case SnapshotDeleteData(snapshot, _) =>
          if snapshot !in names {
            return Refusal(ProviderNotFound, CODE_SNAPSHOT_NOT_FOUND);
          }
          snapshots := snapshots[id := names - {snapshot}];
        case _ =>
          return Refusal(ProviderNotFound, CODE_SNAPSHOT_NOT_FOUND);
      }
      result := AcceptWork(id);
    }

    method PurgeInstance(r: Request) returns (result: MutationResult)
      requires Owned(State(), r)
      modifies this
      ensures (State(), result) == DestroyVm(old(State()), r)
    {
      var id := r.resource.value;
      byInstance := byInstance - {vms[id].instanceId};
      vms := vms - {id};
      snapshots := snapshots - {id};
      result := AcceptWork(id);
    }

    /** The ownership check, then the mutation itself, logged. */
    method Run(r: Request) returns (result: MutationResult)
      modifies this
      ensures (State(), result) == Apply(old(State()), r)
    {
      if r.key.verb.SubmitCreate? {
        result := SubmitCreateInstance(r);
      } else if r.resource.None? || r.resource.value !in vms {
        result := Refusal(ProviderNotFound, CODE_NOT_FOUND);
      } else if vms[r.resource.value].markers != r.markers {
        result := Refusal(ProviderAuthorization, CODE_OWNERSHIP_MISMATCH);
      } else if r.key.verb.PurgeVm? {
        result := PurgeInstance(r);
      } else if IsSnapshotVerb(r.key.verb) {
        result := ChangeSnapshot(r);
      } else {
        result := ChangeInstance(r);
      }
      executed := executed + [r.key];
    }

    method Cache(r: Request, result: MutationResult)
      modifies this`cache
      ensures State() == Remember(old(State()), r, result)
    {
      cache := cache[r.key := Cached(Canonical(r), result)];
    }

    /** The half of a mutation before its delay; `None` means the call is now waiting. */
    method BeginMutation(r: Request, script: Script) returns (reply: Option<Reply>)
      modifies this
      ensures (State(), reply) == Begin(old(State()), r, script)
    {
      if r.key in cache {
        if cache[r.key].canonical != Canonical(r) {
          return Some(Transport(TransportError(ProtocolError, false)));
        }
        return Some(Mutation(Some(cache[r.key].result)));
      }
      if script.TimesOut? && script.applied {
        var result := Run(r);
        SetPolls(result, script.polls);
        Cache(r, result);
        return Some(Transport(TransportErrorOf(DeadlineExceeded)));
      }
      return None;
    }

    /** The half after the delay, which does not look the cache up again. */
    method FinishMutation(r: Request, script: Script, aborted: bool) returns (reply: Reply)
      modifies this
      ensures (State(), reply) == Finish(old(State()), r, script, aborted)
    {
      if aborted {
        return Transport(TransportErrorOf(Aborted));
      }
      match script {
        case TimesOut(_, _) =>
          return Transport(TransportErrorOf(DeadlineExceeded));
        case Fails(category, code) =>
          Cache(r, Refusal(category, code));
          return Mutation(Some(Refusal(category, code)));
        case OutcomeUnknown(applied) =>
          if applied {
            var ignored := Run(r);
          }
          Cache(r, UNKNOWN_RESULT);
          return Mutation(Some(UNKNOWN_RESULT));
        case Works(polls) =>
          var result := Run(r);
          SetPolls(result, polls);
          Cache(r, result);
          return Mutation(Some(result));
      }
    }

    method SetPolls(result: MutationResult, polls: Option<nat>)
      modifies this`tasks
      ensures State() == WithPolls(old(State()), result, polls)
    {
      if polls.Some? && result.task.Some? && result.task.value.Ref? && result.task.value.id in tasks {
        tasks := tasks[result.task.value.id := polls.value];
      }
    }

    method GetTask(task: nat) returns (state: TaskState)
      modifies this`tasks
      ensures (State(), state) == PollTask(old(State()), task)
    {
      if task !in tasks {
        return TaskUnknown;
      }
      if tasks[task] > 0 {
        tasks := tasks[task := tasks[task] - 1];
        return TaskRunning;
      }
      return TaskSucceeded;
    }

    method ObserveInstance(resource: nat, expected: Markers) returns (observation: Observation)
      ensures observation == Observe(State(), resource, expected)
    {
      if resource !in vms {
        return Observation(false, Some(Ownership(false, false)), PowerUnknown, None);
      }
      var vm := vms[resource];
      return Observation(true, Some(Ownership(true, vm.markers == expected)), vm.power,
                         Some(Measured(Some(vm.sizing.cpu), Some(vm.sizing.memory), Some(vm.sizing.disk))));
    }

    /** Refused unless the machine is there and ours, like a mutation, but as a protocol error. */
    method ListedSnapshots(resource: nat, expected: Markers) returns (reply: Reply)
      ensures reply == ListSnapshots(State(), resource, expected)
    {
      if resource !in vms || vms[resource].markers != expected {
        return Transport(TransportErrorOf(ProtocolError));
      }
      return Listed((if resource in snapshots then snapshots[resource] else map[]).Values);
    }
  }
}
