/**
 * The workflow store: the orchestrator's tables, and its transactions performed on them step by
 * step. A transaction that throws puts back what it had written. Each method is proved equal to
 * the transaction of `WorkflowTables` that `Fencing`, `RowRuns` and `GovernedReplay` reason about.
 */
module WorkflowStore {
  import opened Prelude
  import opened Stages
  import opened SagaEngine
  import opened WorkflowTables

  /** What a transaction leaves: its outcome, or everything as it was. */
  function Left(before: Tables, outcome: Result<Tables, StoreError>): Tables {
    if outcome.Ok? then outcome.value else before
  }

  function ErrorOf<T>(outcome: Result<T, StoreError>): Option<StoreError> {
    if outcome.Ok? then None else Some(outcome.error)
  }

  /** A non-empty finite set has a least element under a total preorder. */
  lemma {:induction false} LeastExists(s: set<nat>, le: (nat, nat) -> bool) returns (least: nat)
    requires s != {}
    requires forall a, b | a in s && b in s :: le(a, b) || le(b, a)
    requires forall a, b, c | a in s && b in s && c in s && le(a, b) && le(b, c) :: le(a, c)
    ensures least in s && forall a | a in s :: le(least, a)
    decreases |s|
  {
    var first :| first in s;
    if s == {first} {
      least := first;
    } else {
      var best := LeastExists(s - {first}, le);
      least := if le(best, first) then best else first;
    }
  }

  class WorkflowStore {
    var workflows: map<nat, Workflow>
    var leases: map<nat, Lease>
    var receipts: map<ReceiptKey, Receipt>
    var deadLetters: map<nat, DeadLetter>
    var replays: map<nat, ReplayRow>
    var poison: map<Coordinates, PoisonCode>
    var events: map<nat, seq<Event>>
    var republished: seq<Republished>

    function State(): Tables
      reads this
    {
      Tables(workflows, leases, receipts, deadLetters, replays, poison, events, republished)
    }

    constructor ()
      ensures State() == EmptyTables()
    {
      workflows, leases, receipts, deadLetters := map[], map[], map[], map[];
      replays, poison, events, republished := map[], map[], map[], [];
    }

    // ----- Claiming --------------------------------------------------------------------------

    lemma FirstReadyExists(rows: set<nat>)
      requires rows != {} && rows <= workflows.Keys
      ensures exists op :: op in rows && forall other | other in rows :: NoLaterThan(workflows[op], workflows[other])
    {
      var all := workflows;
      var least := LeastExists(rows, (a, b) => a in all && b in all && NoLaterThan(all[a], all[b]));
      assert least in rows;
    }

    /** The ready row due first, oldest among equals. */
    method ReadyWorkflow(worker: nat, action: Action, now: Time) returns (ready: Option<nat>)
      ensures ready.Some? ==> FirstReady(State(), ready.value, worker, action, now)
      ensures ready.None? ==> forall op :: !Ready(State(), op, worker, action, now)
    {
      var rows := set op | op in workflows && workflows[op].action == action && IsLive(workflows[op].saga.status)
                           && workflows[op].saga.nextAttemptAt <= now
                           && LeaseFree(leases, workflows[op].instanceId, worker, now);
      if rows == {} {
        assert forall op :: Ready(State(), op, worker, action, now) ==> op in rows;
        return None;
      }
      FirstReadyExists(rows);
      var op :| op in rows && forall other | other in rows :: NoLaterThan(workflows[op], workflows[other]);
      return Some(op);
    }

    /**
     * Leases the first ready workflow of the action to the worker under a new token. Refuses a
     * lease outside its bounds and a row whose command does not match its action.
     */
    method ClaimNext(worker: nat, leaseMs: Time, action: Action, now: Time)
      returns (claimed: Result<Option<(nat, Workflow)>, StoreError>)
      modifies this`workflows, this`leases
      ensures claimed.Err? ==> State() == old(State())
      ensures claimed.Ok? && claimed.value.None? ==>
                State() == old(State()) && forall op :: !Ready(State(), op, worker, action, now)
      ensures claimed.Ok? && claimed.value.Some? ==>
                var op := claimed.value.value.0;
                && FirstReady(old(State()), op, worker, action, now)
                && Claim(old(State()), op, worker, leaseMs, now) == Ok(State())
                && op in workflows && claimed.value.value.1 == workflows[op]
      ensures claimed.Ok? ==> MINIMUM_LEASE_MS <= leaseMs <= MAXIMUM_LEASE_MS
    {
      if leaseMs < MINIMUM_LEASE_MS || leaseMs > MAXIMUM_LEASE_MS {
        return Err(InvalidLeaseRequest);
      }
      var ready := ReadyWorkflow(worker, action, now);
      if ready.None? {
        return Ok(None);
      }
      var error := TakeRow(ready.value, worker, leaseMs, now);
      if error.Some? {
        return Err(error.value);
      }
      return Ok(Some((ready.value, workflows[ready.value])));
    }

    /** Leases a row to the worker under a new token, unless its command does not match its action. */
    method TakeRow(op: nat, worker: nat, leaseMs: Time, now: Time) returns (error: Option<StoreError>)
      requires op in workflows
      modifies this`workflows, this`leases
      ensures var outcome := Claim(old(State()), op, worker, leaseMs, now);
              State() == Left(old(State()), outcome) && error == ErrorOf(outcome)
    {
      var w := workflows[op];
      if ActionOf(w.command) != w.action {
        return Some(InvalidCommand);
      }
      var token := if w.instanceId in leases then leases[w.instanceId].token + 1 else 1;
      leases := leases[w.instanceId := Lease(worker, token, now + leaseMs)];
      workflows := workflows[op := w.(attempt := w.attempt + 1, token := token, saga := w.saga.(status := Running))];
      return None;
    }

    // ----- Committing ------------------------------------------------------------------------

    /** Throws unless the row still carries the token and the lease is the worker's and alive. */
    method AssertLease(op: nat, worker: nat, token: nat, now: Time) returns (error: Option<StoreError>)
      ensures error == if HoldsLease(State(), op, worker, token, now) then None else Some(FenceError(State(), op, token))
    {
      if op !in workflows || workflows[op].token != token {
        return Some(StaleToken);
      }
      var i := workflows[op].instanceId;
      if i !in leases || leases[i].owner != worker || leases[i].token != token || leases[i].until <= now {
        return Some(LeaseLost);
      }
      return None;
    }

    /** Gives the lease up; the next claim may take it at once. */
    method ReleaseLease(i: nat, now: Time)
      requires i in leases
      modifies this`leases
      ensures leases == Released(old(leases), i, now)
    {
      leases := leases[i := leases[i].(until := now)];
    }

    method WriteEvent(i: nat, event: Event)
      modifies this`events
      ensures events == Append(old(events), i, event)
    {
      var queue := if i in events then events[i] else [];
      events := events[i := queue + [event]];
    }

    /** Commits a stage: the row, the event that explains it, and the released lease. */
    method Checkpoint(op: nat, worker: nat, token: nat, transition: Transition, now: Time)
      returns (error: Option<StoreError>)
      requires transition.Progress?
      modifies this`workflows, this`leases, this`events
      ensures var outcome := WorkflowTables.Checkpoint(old(State()), op, worker, token, transition, now);
              State() == Left(old(State()), outcome) && error == ErrorOf(outcome)
    {
      error := AssertLease(op, worker, token, now);
      if error.Some? {
        return;
      }
      var w := workflows[op];
      var lastError := if transition.retry.Some? then Some(transition.retry.value.errorCode) else None;
      workflows := workflows[op := w.(saga := Applied(w.saga, transition, now), lastError := lastError)];
      WriteEvent(w.instanceId, EventOf(op, transition));
      ReleaseLease(w.instanceId, now);
    }

    method SettleReceipt(key: ReceiptKey)
      requires key in receipts
      modifies this`receipts
      ensures receipts == old(receipts)[key := old(receipts)[key].(done := true)]
    {
      receipts := receipts[key := receipts[key].(done := true)];
    }

    /** Ends a workflow, settling the receipt it was admitted under in the same transaction. */
    method Complete(op: nat, worker: nat, token: nat, transition: Transition, now: Time)
      returns (error: Option<StoreError>)
      requires transition.Succeed? || transition.Stop?
      modifies this`workflows, this`leases, this`events, this`receipts
      ensures var outcome := WorkflowTables.Complete(old(State()), op, worker, token, transition, now);
              State() == Left(old(State()), outcome) && error == ErrorOf(outcome)
    {
      error := AssertLease(op, worker, token, now);
      if error.Some? {
        return;
      }
      var w, saved := workflows[op], workflows;
      var failure := if transition.Stop? then Some(transition.failure) else None;
      workflows := workflows[op := w.(saga := Applied(w.saga, transition, now), failure := failure)];
      if CommandReceipt(w.eventId, w.generation) !in receipts {
        workflows := saved;
        return Some(ReceiptMissing);
      }
      SettleReceipt(CommandReceipt(w.eventId, w.generation));
      WriteEvent(w.instanceId, EventOf(op, transition));
      ReleaseLease(w.instanceId, now);
    }

    /** Writes governed evidence, or reopens it without replacing the payload first retained. */
    method WriteDeadLetter(command: Command, supported: bool, attempts: nat, replayAllowed: bool, generation: nat)
      modifies this`deadLetters
      ensures deadLetters == WithDeadLetter(old(deadLetters), command, supported, attempts, replayAllowed, generation)
    {
      if command.eventId in deadLetters {
        var letter := deadLetters[command.eventId];
        deadLetters := deadLetters[command.eventId :=
          letter.(attempts := attempts, replayAllowed := replayAllowed, generation := generation, status := Open)];
      } else {
        deadLetters := deadLetters[command.eventId :=
          DeadLetter(command, supported, attempts, replayAllowed, generation, Open)];
      }
    }

    /** Ends a workflow whose retries are exhausted and keeps its command for a governed replay. */
    method DeadLetterWorkflow(op: nat, worker: nat, token: nat, transition: Transition, now: Time)
      returns (error: Option<StoreError>)
      requires transition.Exhaust?
      modifies this
      ensures var outcome := WorkflowTables.DeadLetterWorkflow(old(State()), op, worker, token, transition, now);
              State() == Left(old(State()), outcome) && error == ErrorOf(outcome)
    {
      error := AssertLease(op, worker, token, now);
      if error.Some? {
        return;
      }
      var w := workflows[op];
      if ActionOf(w.command) != w.action {
        return Some(InvalidCommand);
      }
      if CommandReceipt(w.eventId, w.generation) !in receipts {
        return Some(ReceiptMissing);
      }
      workflows := workflows[op := w.(saga := Applied(w.saga, transition, now), failure := Some(transition.failure),
                                      lastError := Some(transition.lastError))];
      SettleReceipt(CommandReceipt(w.eventId, w.generation));
      WriteEvent(w.instanceId, EventOf(op, transition));
      WriteDeadLetter(w.command, true, transition.attempts, true, w.generation);
      ReleaseLease(w.instanceId, now);
    }

    /** The transaction a worker's decision calls for. */
    method Commit(op: nat, worker: nat, token: nat, transition: Transition, now: Time)
      returns (error: Option<StoreError>)
      modifies this
      ensures var outcome := WorkflowTables.Commit(old(State()), op, worker, token, transition, now);
              State() == Left(old(State()), outcome) && error == ErrorOf(outcome)
    {
      match transition {
        case Progress(_, _, _, _, _) => error := Checkpoint(op, worker, token, transition, now);
        case Exhaust(_, _, _) => error := DeadLetterWorkflow(op, worker, token, transition, now);
        case _ => error := Complete(op, worker, token, transition, now);
      }
    }

    // ----- Admission -------------------------------------------------------------------------

    /** Inserts a receipt; `Ok(false)` when it is there already, an error when its coordinates are not its own. */
    method InsertReceipt(key: ReceiptKey, digest: Digest, at: Coordinates, done: bool)
      returns (inserted: Result<bool, StoreError>)
      modifies this`receipts
      ensures var received := Receive(old(receipts), key, digest, at, done);
              match received
              case Err(e) => inserted == Err(e) && receipts == old(receipts)
              case Ok(None) => inserted == Ok(false) && receipts == old(receipts)
              case Ok(Some(next)) => inserted == Ok(true) && receipts == next
    {
      if key in receipts {
        return Ok(false);
      }
      if exists other | other in receipts :: other != key && receipts[other].at == at {
        return Err(ConstraintViolated);
      }
      receipts := receipts[key := Receipt(digest, at, done)];
      return Ok(true);
    }

    lemma OldestExists(rows: set<nat>)
      requires rows != {} && rows <= workflows.Keys
      ensures exists op :: op in rows && forall other | other in rows :: workflows[op].createdAt <= workflows[other].createdAt
    {
      var all := workflows;
      var least := LeastExists(rows, (a, b) => a in all && b in all && all[a].createdAt <= all[b].createdAt);
      assert least in rows;
    }

    /** The resource recorded by the instance's oldest workflow that knows one. */
    method InheritedResource(i: nat) returns (resource: Option<nat>)
      ensures Inherits(State(), i, resource)
    {
      var rows := set op | op in workflows && workflows[op].instanceId == i && workflows[op].saga.resource.Some?;
      if rows == {} {
        assert forall op | op in workflows && workflows[op].instanceId == i && workflows[op].saga.resource.Some? :: op in rows;
        return None;
      }
      OldestExists(rows);
      var op :| op in rows && forall other | other in rows :: workflows[op].createdAt <= workflows[other].createdAt;
      assert IsOldestKnown(State(), i, op);
      return workflows[op].saga.resource;
    }

    /** Starts a workflow for a command not seen before; otherwise at most leaves a receipt. */
    method AdmitOriginalDelivery(command: Command, delivery: Delivery, now: Time)
      returns (admission: Result<Admission, StoreError>, ghost inherited: Option<nat>)
      modifies this`workflows, this`receipts
      ensures Inherits(old(State()), command.instanceId, inherited)
      ensures var outcome := AdmitOriginal(old(State()), command, delivery, inherited, now);
              match outcome
              case Err(e) => admission == Err(e) && State() == old(State())
              case Ok(pair) => admission == Ok(pair.1) && State() == pair.0
    {
      var saved := receipts;
      var duplicate := command.operationId in workflows;
      var resource := InheritedResource(command.instanceId);
      inherited := resource;
      var inserted := InsertReceipt(CommandReceipt(command.eventId, delivery.generation), CommandDigest(command),
                                    delivery.at, duplicate);
      if inserted.Err? {
        admission := Err(inserted.error);
        return;
      }
      if !inserted.value || duplicate {
        admission := Ok(AdmissionDuplicate);
        return;
      }
      if exists op | op in workflows :: workflows[op].eventId == command.eventId {
        receipts := saved;
        admission := Err(ConstraintViolated);
        return;
      }
      if ActionOf(command).CreateInstance? {
        resource := None;
      }
      workflows := workflows[command.operationId := AdmittedRow(command, delivery.generation, resource, now)];
      admission := Ok(AdmissionAccepted);
    }

    // ----- Governed replay -------------------------------------------------------------------

    /** Decides a replay request: refused and answered, or authorized and republished. */
    method AdmitReplayRequest(request: ReplayRequested, delivery: Delivery) returns (answer: Result<ReplayAnswer, StoreError>)
      modifies this
      ensures var outcome := WorkflowTables.AdmitReplayRequest(old(State()), request, delivery);
              match outcome
              case Err(e) => answer == Err(e) && State() == old(State())
              case Ok(pair) => answer == Ok(pair.1) && State() == pair.0
    {
      var saved := receipts;
      var inserted := InsertReceipt(RequestKey(request, delivery), RequestDigest(request), delivery.at, true);
      if inserted.Err? {
        return Err(inserted.error);
      }
      if !inserted.value {
        return Ok(ReplayDuplicate);
      }
      if request.requestId in replays
         || exists id | id in replays :: replays[id].request.requestEventId == request.requestEventId {
        receipts := saved;
        return Err(ConstraintViolated);
      }
      var e := request.originalEventId;
      if e !in deadLetters || !deadLetters[e].replayAllowed || !deadLetters[e].status.Open? || !deadLetters[e].supported {
        var generation := if e in deadLetters then deadLetters[e].generation else 0;
        replays := replays[request.requestId := ReplayRow(request, Refused)];
        WriteEvent(request.instanceId, ReplayResolved(request.operationId, request.requestId, e, false, generation));
        return Ok(ReplayRejected);
      }
      var letter := deadLetters[e];
      if exists id | id in replays :: replays[id].request.originalEventId == e
           && !replays[id].decision.Refused? && replays[id].decision.generation == letter.generation + 1 {
        receipts := saved;
        return Err(ConstraintViolated);
      }
      var replayed := Restamped(letter.original, request);
      replays := replays[request.requestId :=
        ReplayRow(request, Authorized(letter.generation + 1, replayed, |republished|))];
      republished := republished + [Republished(replayed, letter.generation + 1)];
      deadLetters := deadLetters[e := letter.(generation := letter.generation + 1, status := ReplayPending)];
      return Ok(ReplayAccepted);
    }

    method QuarantineRecord(at: Coordinates, code: PoisonCode)
      modifies this`poison
      ensures poison == Quarantined(old(poison), at, code)
    {
      if at !in poison {
        poison := poison[at := code];
      }
    }

    /**
     * Consumes an authorized replay: only the record that matches an outstanding authorization in
     * every respect reopens its workflow; any other leaves a poison record.
     */
    method AdmitAuthorizedReplayCommand(command: Command, delivery: Delivery, now: Time)
      returns (admission: Result<Admission, StoreError>)
      requires forall id, id' | Matches(State(), id, command, delivery) && Matches(State(), id', command, delivery) :: id == id'
      modifies this
      ensures var outcome := AdmitReplayCommand(old(State()), command, delivery, now);
              match outcome
              case Err(e) => admission == Err(e) && State() == old(State())
              case Ok(pair) => admission == Ok(pair.1) && State() == pair.0
    {
      var key := CommandReceipt(command.eventId, delivery.generation);
      if key in receipts {
        if receipts[key].digest == CommandDigest(command) {
          return Ok(AdmissionDuplicate);
        }
        QuarantineRecord(delivery.at, Rejected(IdentityConflict));
        return Ok(AdmissionRejected(IdentityConflict));
      }
      var matching := FindAuthorization(command, delivery);
      ghost var t := State();
      if matching.None? {
        assert !exists id :: Matches(t, id, command, delivery);
        QuarantineRecord(delivery.at, Rejected(Unauthorized));
        return Ok(AdmissionRejected(Unauthorized));
      }
      var op := command.operationId;
      if op in workflows
         && (workflows[op].eventId != command.eventId || !workflows[op].saga.status.Failed?
             || delivery.generation != workflows[op].generation + 1) {
        QuarantineRecord(delivery.at, Rejected(StateConflict));
        return Ok(AdmissionRejected(StateConflict));
      }
      admission := ReopenWorkflow(matching.value, command, delivery, now);
    }

    method FindAuthorization(command: Command, delivery: Delivery) returns (id: Option<nat>)
      ensures id.Some? ==> Matches(State(), id.value, command, delivery)
      ensures id.None? ==> !exists other :: Matches(State(), other, command, delivery)
    {
      if delivery.outboxId.None? {
        return None;
      }
      var wanted := Authorized(delivery.generation, command, delivery.outboxId.value);
      var rows := set row | row in replays && replays[row].request.originalEventId == command.eventId
                             && replays[row].decision == wanted;
      if rows == {} {
        forall other
          ensures !Matches(State(), other, command, delivery)
        {
          assert other !in rows;
        }
        return None;
      }
      var row :| row in rows;
      return Some(row);
    }

    method ReopenWorkflow(id: nat, command: Command, delivery: Delivery, now: Time)
      returns (admission: Result<Admission, StoreError>)
      requires Matches(State(), id, command, delivery) && Reopenable(State(), command, delivery.generation)
      requires CommandReceipt(command.eventId, delivery.generation) !in receipts
      modifies this
      ensures var t, key := old(State()), CommandReceipt(command.eventId, delivery.generation);
              if CoordinatesTaken(t.receipts, key, delivery.at)
                 || (command.operationId !in t.workflows && EventTaken(t, command.eventId))
              then admission == Err(ConstraintViolated) && State() == t
              else if !PendingLetter(t, command.eventId, delivery.generation)
              then admission == Err(RowMissing) && State() == t
              else admission == Ok(AdmissionAccepted) && State() == Reopen(t, id, command, delivery, now)
    {
      var op, e, saved := command.operationId, command.eventId, receipts;
      var inserted := InsertReceipt(CommandReceipt(e, delivery.generation), CommandDigest(command), delivery.at, false);
      if inserted.Err? {
        return Err(inserted.error);
      }
      if op !in workflows && exists other | other in workflows :: workflows[other].eventId == e {
        receipts := saved;
        return Err(ConstraintViolated);
      }
      if e !in deadLetters || !deadLetters[e].status.ReplayPending? || deadLetters[e].generation != delivery.generation {
        receipts := saved;
        return Err(RowMissing);
      }
      var row := if op in workflows then Reopened(workflows[op], command, delivery.generation, now)
                 else AdmittedRow(command, delivery.generation, None, now);
      workflows := workflows[op := row];
      deadLetters := deadLetters[e := deadLetters[e].(status := Replayed)];
      var request, decision := replays[id].request, replays[id].decision;
      replays := replays[id := ReplayRow(request, Consumed(decision.generation, decision.digest, decision.outboxId))];
      WriteEvent(request.instanceId, ReplayResolved(request.operationId, id, request.originalEventId, true, delivery.generation));
      return Ok(AdmissionAccepted);
    }

    /** Keeps a command whose delivery kept failing, once. */
    method DeadLetterCommand(command: Command, supported: bool, delivery: Delivery, attempts: nat, replayAllowed: bool)
      returns (written: Result<bool, StoreError>)
      modifies this`receipts, this`deadLetters
      ensures var outcome := WorkflowTables.DeadLetterCommand(old(State()), command, supported, delivery, attempts, replayAllowed);
              match outcome
              case Err(e) => written == Err(e) && State() == old(State())
              case Ok(pair) => written == Ok(pair.1) && State() == pair.0
    {
      var inserted := InsertReceipt(CommandReceipt(command.eventId, delivery.generation), CommandDigest(command),
                                    delivery.at, true);
      if inserted.Ok? && inserted.value {
        WriteDeadLetter(command, supported, attempts, replayAllowed, delivery.generation);
      }
      return inserted;
    }
  }
}
