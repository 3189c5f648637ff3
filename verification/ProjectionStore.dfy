/** The projection store: the tables of `ControlTables`, rewritten in place by one event at a time. */
module ProjectionStore {
  import opened Prelude
  import opened Stages
  import opened SagaEngine
  import opened WorkflowTables
  import opened ControlTables
  import opened Projection

  class ProjectionStore {
    var instances: map<nat, Instance>
    var documents: map<nat, Document>
    var operations: map<nat, Operation>
    var snapshots: map<nat, Snapshot>
    var leases: map<nat, AddressLease>
    var records: map<Scope, Record>
    var outbox: seq<Command>
    var intents: map<nat, ReplayIntent>
    var receipts: set<nat>

    ghost function State(): Control
      reads this
    {
      Control(instances, documents, operations, leases, snapshots, records, outbox, intents)
    }

    constructor ()
      ensures State() == EmptyControl() && receipts == {}
    {
      instances, documents, operations, snapshots := map[], map[], map[], map[];
      leases, records, outbox, intents, receipts := map[], map[], [], map[], {};
    }

    /** Applies one event of the log and its receipt atomically; `None` when the transaction throws. */
    method ApplyWorkflowEvent(log: seq<Logged>, position: nat) returns (applied: Option<bool>)
      requires position < |log|
      modifies this
      ensures var before := Reader(old(State()), old(receipts), position);
              Reader(State(), receipts, if applied.Some? then position + 1 else position) == Read(before, log)
      ensures applied == if position in old(receipts) then Some(false)
                         else if Projectable(old(State()), log[position].instanceId, log[position].event) then Some(true)
                         else None
    {
      if position in receipts {
        return Some(false);
      }
      var i, event := log[position].instanceId, log[position].event;
      if event.ReplayResolved? {
        if event.requestId !in intents || intents[event.requestId].request.originalEventId != event.originalEventId {
          return None;
        }
      } else if i !in instances || i !in documents || event.operationId !in operations {
        return None;
      }
      receipts := receipts + {position};
      match event {
        case Progressed(_, _, _) => ApplyProgress(i, event);
        case MutationCompleted(_, _, _) => ApplyCompleted(i, event);
        case MutationFailed(_, _, _) => ApplyFailed(i, event);
        case ReplayResolved(_, _, _, _, _) => ApplyReplayResolved(i, event);
      }
      return Some(true);
    }

    method ApplyProgress(i: nat, event: Event)
      requires event.Progressed? && Projectable(State(), i, event)
      modifies this`instances, this`documents, this`operations
      ensures State() == Project(old(State()), i, event)
    {
      var state := if event.waiting then OpRetryWait else OpRunning;
      operations := operations[event.operationId :=
        operations[event.operationId].(state := state, stage := At(event.stage),
                                       percent := ProgressPercent(At(event.stage)))];
      instances := instances[i := instances[i].(lifecycle := Provisioning)];
      documents := documents[i := documents[i].(lifecycle := Provisioning)];
    }

    method ApplyCompleted(i: nat, event: Event)
      requires event.MutationCompleted? && Projectable(State(), i, event)
      modifies this`instances, this`documents, this`operations, this`snapshots
      ensures State() == Project(old(State()), i, event)
    {
      instances := instances[i := instances[i].(lifecycle := event.lifecycle, active := None)];
      SettleSnapshot(operations[event.operationId]);
      operations := operations[event.operationId :=
        operations[event.operationId].(state := OpSucceeded, stage := Completed, percent := 100, manualReview := false)];
      documents := documents[i :=
        Document(event.lifecycle, None, instances[i].retentionDeadline, instances[i].purgeEligible)];
    }

    method ApplyFailed(i: nat, event: Event)
      requires event.MutationFailed? && Projectable(State(), i, event)
      modifies this`instances, this`documents, this`operations
      ensures State() == Project(old(State()), i, event)
    {
      var manual := event.failure.category == UnknownOutcome || event.failure.category == ManualReviewCategory || event.unsafe;
      var lifecycle := if manual then LifecycleReview else LifecycleFailed;
      instances := instances[i := instances[i].(lifecycle := lifecycle, active := None)];
      operations := operations[event.operationId :=
        operations[event.operationId].(state := if manual then OpReview else OpFailed,
                                       stage := if manual then EndedInReview else EndedFailed,
                                       manualReview := manual)];
      documents := documents[i := documents[i].(lifecycle := lifecycle, active := None)];
    }

    method ApplyReplayResolved(i: nat, event: Event)
      requires event.ReplayResolved? && Projectable(State(), i, event)
      modifies this`intents
      ensures State() == Project(old(State()), i, event)
    {
      var status := if event.completed then IntentCompleted else IntentRejected;
      intents := intents[event.requestId := intents[event.requestId].(status := status)];
    }

    /** A delete removes its snapshot; a create or rollback makes it available. */
    method SettleSnapshot(operation: Operation)
      modifies this`snapshots
      ensures snapshots == SettledSnapshots(old(snapshots), operation)
    {
      if operation.snapshotId.Some? {
        var id := operation.snapshotId.value;
        if operation.action.DeleteSnapshot? {
          snapshots := snapshots - {id};
        } else if id in snapshots {
          snapshots := snapshots[id := snapshots[id].(state := SnapAvailable)];
        }
      }
    }
  }
}
