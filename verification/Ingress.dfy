/**
 * Command ingress: the broker's records, the handler that gives each a durable disposition, the
 * bounded retry around it, and the discipline that commits an offset only after that.
 */
module Ingress {
  import opened Prelude
  import opened Stages
  import opened SagaEngine
  import opened SagaRuns
  import opened WorkflowTables
  import opened Orchestrator
  import opened GovernedReplay
  import S = WorkflowStore

  // ----- Records -----------------------------------------------------------------------------

  /**
   * What a record turns out to be: not an event envelope at all, a lifecycle command, a replay
   * request, or an envelope whose schema or payload this deployment does not take.
   */
  datatype Content =
    | Garbage
    | CommandRecord(command: Command)
    | RequestRecord(request: ReplayRequested)
    | ForeignRecord(envelope: Command, supported: bool, replayAllowed: bool)

  datatype Record = Record(content: Content, delivery: Delivery)

  datatype HandlerError = DecodeFailure | PermanentFailure | Infrastructure

  datatype Disposition = Handled | Duplicate | QuarantinedRecord | DeadLettered

  /** What may go wrong around one transaction: nothing, or an error before or after its commit. */
  datatype Fault = NoFault | LostBefore | LostAfter

  const MAXIMUM_CONFIGURED_ATTEMPTS: nat := 10

  /** The receipt a record's disposition leaves. */
  function ReceiptOf(r: Record): Option<ReceiptKey> {
    match r.content
    case Garbage => None
    case CommandRecord(command) => Some(CommandReceipt(command.eventId, r.delivery.generation))
    case RequestRecord(request) => Some(RequestReceipt(request.requestEventId, r.delivery.generation))
    case ForeignRecord(envelope, _, _) => Some(CommandReceipt(envelope.eventId, r.delivery.generation))
  }

  /** The record has been dealt with for good: a receipt for its event, or a poison record in its place. */
  predicate Disposed(t: Tables, r: Record) {
    || (ReceiptOf(r).Some? && ReceiptOf(r).value in t.receipts)
    || r.delivery.at in t.poison
  }

  /** Dispositions are never taken back. */
  predicate Grows(t: Tables, t': Tables) {
    t.receipts.Keys <= t'.receipts.Keys && t.poison.Keys <= t'.poison.Keys
  }

  lemma DisposedStays(t: Tables, t': Tables, r: Record)
    requires Grows(t, t') && Disposed(t, r)
    ensures Disposed(t', r)
  {
    if ReceiptOf(r).Some? && ReceiptOf(r).value in t.receipts {
      assert ReceiptOf(r).value in t.receipts.Keys;
    } else {
      assert r.delivery.at in t.poison.Keys;
    }
  }

  /** The unique index on honoured replay requests. */
  ghost predicate ReplaysDistinct(t: Tables) {
    forall e :: GenerationsDistinct(t, e)
  }

  lemma RefusalKeepsDistinct(t: Tables, request: ReplayRequested, delivery: Delivery)
    requires ReplaysDistinct(t) && !RequestTaken(t, request)
    ensures ReplaysDistinct(Refuse(t, request, delivery))
  {
    forall e
      ensures GenerationsDistinct(Refuse(t, request, delivery), e)
    {
      assert GenerationsDistinct(t, e);
      assert forall id :: Honoured(Refuse(t, request, delivery), id, e) ==> Honoured(t, id, e);
    }
  }

  lemma AuthorizationKeepsDistinct(t: Tables, request: ReplayRequested, delivery: Delivery)
    requires ReplaysDistinct(t) && Replayable(t, request.originalEventId) && !RequestTaken(t, request)
    requires !GenerationTaken(t, request.originalEventId, t.deadLetters[request.originalEventId].generation + 1)
    ensures ReplaysDistinct(Authorize(t, request, delivery))
  {
    var t' := Authorize(t, request, delivery);
    forall e
      ensures GenerationsDistinct(t', e)
    {
      assert GenerationsDistinct(t, e);
      assert forall id | id != request.requestId :: Honoured(t', id, e) ==> Honoured(t, id, e);
    }
  }

  lemma RequestKeepsDistinct(t: Tables, request: ReplayRequested, delivery: Delivery)
    requires ReplaysDistinct(t) && AdmitReplayRequest(t, request, delivery).Ok?
    ensures ReplaysDistinct(AdmitReplayRequest(t, request, delivery).value.0)
    ensures Grows(t, AdmitReplayRequest(t, request, delivery).value.0)
    ensures RequestKey(request, delivery) in AdmitReplayRequest(t, request, delivery).value.0.receipts
  {
    ReplayRequestOutcome(t, request, delivery);
    if Replayable(t, request.originalEventId) && !RequestTaken(t, request)
       && !GenerationTaken(t, request.originalEventId, t.deadLetters[request.originalEventId].generation + 1) {
      AuthorizationKeepsDistinct(t, request, delivery);
    }
    if !RequestTaken(t, request) {
      RefusalKeepsDistinct(t, request, delivery);
    }
  }

  lemma ReopeningKeepsDistinct(t: Tables, id: nat, command: Command, delivery: Delivery, now: Time)
    requires ReplaysDistinct(t) && Matches(t, id, command, delivery)
    requires PendingLetter(t, command.eventId, delivery.generation)
    ensures ReplaysDistinct(Reopen(t, id, command, delivery, now))
  {
    var t' := Reopen(t, id, command, delivery, now);
    forall e
      ensures GenerationsDistinct(t', e)
    {
      assert GenerationsDistinct(t, e);
      assert forall k :: Honoured(t', k, e) <==> Honoured(t, k, e);
      assert forall k | Honoured(t, k, e) :: t'.replays[k].decision.generation == t.replays[k].decision.generation;
    }
  }

  lemma ReplayKeepsDistinct(t: Tables, command: Command, delivery: Delivery, now: Time)
    requires ReplaysDistinct(t) && AdmitReplayCommand(t, command, delivery, now).Ok?
    ensures var (t', admission) := AdmitReplayCommand(t, command, delivery, now).value;
            && ReplaysDistinct(t') && Grows(t, t')
            && (if admission.AdmissionRejected? then delivery.at in t'.poison
                else CommandReceipt(command.eventId, delivery.generation) in t'.receipts)
  {
    var id := ReplayCommandOutcome(t, command, delivery, now);
    var (t', admission) := AdmitReplayCommand(t, command, delivery, now).value;
    if admission.AdmissionAccepted? {
      ReopeningKeepsDistinct(t, id, command, delivery, now);
    } else if t'.replays == t.replays {
      SameReplaysDistinct(t, t');
    }
  }

  lemma SameReplaysDistinct(t: Tables, t': Tables)
    requires ReplaysDistinct(t) && t'.replays == t.replays
    ensures ReplaysDistinct(t')
  {
    forall e
      ensures GenerationsDistinct(t', e)
    {
      assert GenerationsDistinct(t, e);
      assert forall id :: Honoured(t', id, e) <==> Honoured(t, id, e);
    }
  }

  lemma MatchesAreUnique(t: Tables, command: Command, delivery: Delivery)
    requires ReplaysDistinct(t)
    ensures forall id, id' | Matches(t, id, command, delivery) && Matches(t, id', command, delivery) :: id == id'
  {
    assert GenerationsDistinct(t, command.eventId);
    assert forall id :: Matches(t, id, command, delivery) ==> Honoured(t, id, command.eventId);
  }

  // ----- The handler -------------------------------------------------------------------------

  class CommandConsumer {
    const store: S.WorkflowStore

    constructor (store: S.WorkflowStore)
      ensures this.store == store
    {
      this.store := store;
    }

    method AdmitCommand(command: Command, delivery: Delivery, now: Time) returns (admission: Result<Admission, StoreError>)
      requires ReplaysDistinct(store.State())
      modifies store
      ensures ReplaysDistinct(store.State()) && Grows(old(store.State()), store.State())
      ensures admission.Err? ==> store.State() == old(store.State())
      ensures admission.Ok? && admission.value.AdmissionRejected? ==> delivery.at in store.State().poison
      ensures admission.Ok? && !admission.value.AdmissionRejected? ==>
                CommandReceipt(command.eventId, delivery.generation) in store.State().receipts
      ensures admission == Ok(AdmissionAccepted) ==>
                CommandReceipt(command.eventId, delivery.generation) !in old(store.State().receipts)
    {
      ghost var before := store.State();
      if delivery.generation == 0 {
        ghost var inherited;
        admission, inherited := store.AdmitOriginalDelivery(command, delivery, now);
        AdmitOriginalOutcome(before, command, delivery, inherited, now);
        SameReplaysDistinct(before, store.State());
      } else {
        MatchesAreUnique(before, command, delivery);
        admission := store.AdmitAuthorizedReplayCommand(command, delivery, now);
        if admission.Ok? {
          ReplayKeepsDistinct(before, command, delivery, now);
          ghost var id := ReplayCommandOutcome(before, command, delivery, now);
        }
      }
    }

    /**
     * Handles one record in one transaction. Success means the record is settled; an error, unless
     * the commit itself went through unseen, means nothing was written.
     */
    method Handle(r: Record, fault: Fault, now: Time) returns (result: Result<Disposition, HandlerError>)
      requires ReplaysDistinct(store.State())
      modifies store
      ensures ReplaysDistinct(store.State()) && Grows(old(store.State()), store.State())
      ensures result.Ok? ==> Disposed(store.State(), r)
      ensures result.Err? && !fault.LostAfter? ==> store.State() == old(store.State())
      ensures r.content.Garbage? ==> result == Err(DecodeFailure)
      ensures r.content.ForeignRecord? ==> result == Err(PermanentFailure)
      ensures result == Err(DecodeFailure) ==> r.content.Garbage?
      ensures result == Err(PermanentFailure) ==> r.content.ForeignRecord?
    {
      match r.content {
        case Garbage => return Err(DecodeFailure);
        case ForeignRecord(_, _, _) => return Err(PermanentFailure);
        case _ =>
      }
      if fault.LostBefore? {
        return Err(Infrastructure);
      }
      if r.content.CommandRecord? {
        var admission := AdmitCommand(r.content.command, r.delivery, now);
        if admission.Err? || fault.LostAfter? {
          return Err(Infrastructure);
        }
        match admission.value {
          case AdmissionAccepted => return Ok(Handled);
          case AdmissionDuplicate => return Ok(Duplicate);
          case AdmissionRejected(_) => return Ok(QuarantinedRecord);
        }
      } else {
        ghost var before := store.State();
        var answer := store.AdmitReplayRequest(r.content.request, r.delivery);
        if answer.Ok? {
          RequestKeepsDistinct(before, r.content.request, r.delivery);
        }
        if answer.Err? || fault.LostAfter? {
          return Err(Infrastructure);
        }
        return Ok(if answer.value.ReplayDuplicate? then Duplicate else Handled);
      }
    }

    /**
     * The last resort once every attempt has failed: undecodable records are quarantined, foreign
     * ones dead-lettered, and anything else is thrown on, leaving the offset where it is.
     */
    method Exhausted(r: Record, error: HandlerError, attempts: nat, fault: Fault)
      returns (result: Result<Disposition, HandlerError>)
      requires ReplaysDistinct(store.State()) && (error.PermanentFailure? ==> r.content.ForeignRecord?)
      modifies store
      ensures ReplaysDistinct(store.State()) && Grows(old(store.State()), store.State())
      ensures result.Ok? ==> Disposed(store.State(), r)
      ensures error.Infrastructure? ==> result == Err(Infrastructure) && store.State() == old(store.State())
    {
      if error.Infrastructure? || fault.LostBefore? {
        return Err(Infrastructure);
      }
      ghost var before := store.State();
      if error.DecodeFailure? {
        store.QuarantineRecord(r.delivery.at, Undecodable);
        SameReplaysDistinct(before, store.State());
        if fault.LostAfter? {
          return Err(Infrastructure);
        }
        return Ok(QuarantinedRecord);
      }
      var written := store.DeadLetterCommand(r.content.envelope, r.content.supported, r.delivery, attempts, r.content.replayAllowed);
      SameReplaysDistinct(before, store.State());
      if written.Err? || fault.LostAfter? {
        return Err(Infrastructure);
      }
      return Ok(if written.value then DeadLettered else Duplicate);
    }
  }

  // ----- Everything else that uses the store -------------------------------------------------

  lemma DeliveriesGrow(s: Orc, command: Command, delivery: Delivery, inherited: Option<nat>)
    ensures Grows(s.tables, Delivered(s, command, delivery, inherited).tables)
    ensures Delivered(s, command, delivery, inherited).tables.replays == s.tables.replays
  {
    AdmitOriginalOutcome(s.tables, command, delivery, inherited, s.now);
  }

  lemma RedeliveriesGrow(s: Orc, command: Command, delivery: Delivery)
    ensures Grows(s.tables, Redelivered(s, command, delivery).tables)
    ensures ReplaysDistinct(s.tables) ==> ReplaysDistinct(Redelivered(s, command, delivery).tables)
  {
    var id := ReplayCommandOutcome(s.tables, command, delivery, s.now);
    if ReplaysDistinct(s.tables) && AdmitReplayCommand(s.tables, command, delivery, s.now).Ok? {
      ReplayKeepsDistinct(s.tables, command, delivery, s.now);
    }
  }

  lemma RequestsGrow(s: Orc, request: ReplayRequested, delivery: Delivery)
    ensures Grows(s.tables, Requested(s, request, delivery).tables)
    ensures ReplaysDistinct(s.tables) ==> ReplaysDistinct(Requested(s, request, delivery).tables)
  {
    ReplayRequestOutcome(s.tables, request, delivery);
    if ReplaysDistinct(s.tables) && AdmitReplayRequest(s.tables, request, delivery).Ok? {
      RequestKeepsDistinct(s.tables, request, delivery);
    }
  }

  lemma CommitsGrow(s: Orc, c: Ticket, e: Entry)
    ensures var t := Committed(s, c, e);
            t.tables.receipts.Keys == s.tables.receipts.Keys && t.tables.poison == s.tables.poison
            && t.tables.replays == s.tables.replays
  {
  }

  /** No step of the orchestrator, from any state whatever, takes a receipt or a poison record away. */
  lemma StepsKeepDispositions(s: Orc, input: Input)
    ensures Grows(s.tables, Step(s, input).tables)
    ensures ReplaysDistinct(s.tables) ==> ReplaysDistinct(Step(s, input).tables)
  {
    var t := Step(s, input);
    if Enabled(s, input) {
      match input
      case DeliverCommand(eventId, delivery, inherited) => DeliveriesGrow(s, s.issued[eventId], delivery, inherited);
      case DeliverReplayRequest(request, delivery) => RequestsGrow(s, request, delivery);
      case DeliverReplayCommand(command, delivery) => RedeliveriesGrow(s, command, delivery);
      case WorkerCommits(ticket, reply, at, random) =>
        CommitsGrow(s, ticket, Entry(ticket.row.saga, reply, at, random, s.now, DecisionOf(ticket, reply, at, random)));
      case _ =>
    }
    if ReplaysDistinct(s.tables) && t.tables.replays == s.tables.replays {
      SameReplaysDistinct(s.tables, t.tables);
    }
  }

  /** Workers, other consumers and operators: they may take any step of the orchestrator. */
  class Peer {
    const store: S.WorkflowStore

    constructor (store: S.WorkflowStore)
      ensures this.store == store
    {
      this.store := store;
    }

    /**
     * Takes a step of the orchestrator by calling the store. `s` holds what a step may depend on
     * besides the tables; `did` is the step taken, which for a delivery names the resource inherited.
     */
    method Perform(s: Orc, input: Input) returns (ghost did: Input)
      requires ReplaysDistinct(store.State())
      modifies store
      ensures store.State() == Step(s.(tables := old(store.State())), did).tables
      ensures did == input || (input.DeliverCommand? && did.DeliverCommand? && did == input.(inherited := did.inherited))
    {
      did := input;
      if !Enabled(s.(tables := store.State()), input) {
        return;
      }
      match input {
        case DeliverCommand(eventId, delivery, _) =>
          ghost var inherited;
          var admission;
          admission, inherited := store.AdmitOriginalDelivery(s.issued[eventId], delivery, s.now);
          did := DeliverCommand(eventId, delivery, inherited);
        case DeliverReplayRequest(request, delivery) =>
          var answer := store.AdmitReplayRequest(request, delivery);
        case DeliverReplayCommand(command, delivery) =>
          MatchesAreUnique(store.State(), command, delivery);
          var admission := store.AdmitAuthorizedReplayCommand(command, delivery, s.now);
        case ExhaustDelivery(eventId, supported, delivery, attempts, replayAllowed) =>
          var written := store.DeadLetterCommand(s.issued[eventId], supported, delivery, attempts, replayAllowed);
        case QuarantineRecord(at) =>
          store.QuarantineRecord(at, Undecodable);
        case WorkerClaims(op, worker, leaseMs) =>
          var error := store.TakeRow(op, worker, leaseMs, s.now);
        case WorkerCommits(ticket, reply, at, random) =>
          if ticket.operationId in s.histories {
            var error := store.Commit(ticket.operationId, ticket.worker, ticket.token,
                                      DecisionOf(ticket, reply, at, random), s.now);
          }
        case _ =>
      }
    }
  }

  // ----- The runner --------------------------------------------------------------------------

  /** Every record before the n-th has been dealt with for good. */
  ghost predicate DisposedBelow(log: seq<Record>, t: Tables, n: nat) {
    n <= |log| && forall k | 0 <= k < n :: Disposed(t, log[k])
  }

  lemma DisposedBelowStays(log: seq<Record>, t: Tables, t': Tables, n: nat)
    requires Grows(t, t') && DisposedBelow(log, t, n)
    ensures DisposedBelow(log, t', n)
  {
    forall k | 0 <= k < n
      ensures Disposed(t', log[k])
    {
      DisposedStays(t, t', log[k]);
    }
  }

  /**
   * One turn in the life of a consumer of a partition: it handles the record at its position, where
   * its transactions and its offset commit may go wrong; it restarts from the committed offset; or
   * a peer uses the store.
   */
  datatype Turn =
    | Deliver(faults: nat -> Fault, commit: Fault, now: Time)
    | Restart
    | Elsewhere(state: Orc, input: Input)

  class KafkaConsumerRunner {
    const consumer: CommandConsumer
    const maximumAttempts: nat
    /** The first offset of the partition that is not committed. */
    var committed: nat

    constructor (consumer: CommandConsumer, maximumAttempts: nat)
      requires 1 <= maximumAttempts <= MAXIMUM_CONFIGURED_ATTEMPTS
      ensures this.consumer == consumer && this.maximumAttempts == maximumAttempts && committed == 0
    {
      this.consumer, this.maximumAttempts, committed := consumer, maximumAttempts, 0;
    }

    /**
     * Tries the handler up to the configured number of times, then gives the record to the
     * exhaustion callback with the last error. Undecodable records never reach the handler.
     * `calls` counts the handler's calls.
     */
    method HandleWithRetry(r: Record, faults: nat -> Fault, now: Time)
      returns (result: Result<Disposition, HandlerError>, calls: nat)
      requires maximumAttempts >= 1 && ReplaysDistinct(consumer.store.State())
      modifies consumer.store
      ensures ReplaysDistinct(consumer.store.State()) && Grows(old(consumer.store.State()), consumer.store.State())
      ensures result.Ok? ==> Disposed(consumer.store.State(), r)
      ensures calls <= maximumAttempts
      ensures r.content.Garbage? ==> calls == 0
      ensures !r.content.Garbage? ==> calls >= 1
    {
      calls := 0;
      var lastError := Infrastructure;
      var attempt := 1;
      while attempt <= maximumAttempts
        invariant 1 <= attempt <= maximumAttempts + 1
        invariant calls == (if r.content.Garbage? then 0 else attempt - 1)
        invariant ReplaysDistinct(consumer.store.State()) && Grows(old(consumer.store.State()), consumer.store.State())
        invariant lastError.PermanentFailure? ==> r.content.ForeignRecord?
      {
        if r.content.Garbage? {
          lastError := DecodeFailure;
        } else {
          calls := calls + 1;
          var handled := consumer.Handle(r, faults(attempt), now);
          if handled.Ok? {
            result := handled;
            return;
          }
          lastError := handled.error;
        }
        attempt := attempt + 1;
      }
      result := consumer.Exhausted(r, lastError, maximumAttempts, faults(maximumAttempts + 1));
    }

    /**
     * Handles the record at an offset, and commits past it only once it is settled. The commit may
     * be lost on its way or its acknowledgement on the way back; either is thrown on.
     */
    method EachMessage(r: Record, offset: nat, faults: nat -> Fault, commit: Fault, now: Time)
      returns (result: Result<Disposition, HandlerError>)
      requires maximumAttempts >= 1 && ReplaysDistinct(consumer.store.State())
      modifies consumer.store, this`committed
      ensures ReplaysDistinct(consumer.store.State()) && Grows(old(consumer.store.State()), consumer.store.State())
      ensures committed == old(committed) || committed == offset + 1
      ensures committed != old(committed) || result.Ok? ==> Disposed(consumer.store.State(), r)
      ensures result.Ok? ==> committed == offset + 1
      ensures commit.NoFault? ==> (result.Err? ==> committed == old(committed))
    {
      var calls;
      result, calls := HandleWithRetry(r, faults, now);
      if result.Ok? {
        if !commit.LostBefore? {
          committed := offset + 1;
        }
        if !commit.NoFault? {
          result := Err(Infrastructure);
        }
      }
    }

    /**
     * Consumes a partition, over any turns: whatever fails or crashes between handling a record and
     * committing its offset, however often the consumer restarts and whatever others do to the store
     * in between, every record below the committed offset has a receipt for its event and generation,
     * or a poison record at its coordinates.
     */
    method Consume(log: seq<Record>, turns: seq<Turn>)
      requires maximumAttempts >= 1 && ReplaysDistinct(consumer.store.State())
      requires DisposedBelow(log, consumer.store.State(), committed)
      modifies consumer.store, this`committed
      ensures ReplaysDistinct(consumer.store.State()) && Grows(old(consumer.store.State()), consumer.store.State())
      ensures DisposedBelow(log, consumer.store.State(), committed)
    {
      var position := committed;
      var peer := new Peer(consumer.store);
      for i := 0 to |turns|
        invariant ReplaysDistinct(consumer.store.State()) && Grows(old(consumer.store.State()), consumer.store.State())
        invariant DisposedBelow(log, consumer.store.State(), committed)
        invariant DisposedBelow(log, consumer.store.State(), position)
      {
        ghost var before, settled := consumer.store.State(), committed;
        match turns[i] {
          case Deliver(faults, commit, now) =>
            if position < |log| {
              var result := EachMessage(log[position], position, faults, commit, now);
              DisposedBelowStays(log, before, consumer.store.State(), position);
              DisposedBelowStays(log, before, consumer.store.State(), settled);
              if result.Ok? {
                position := position + 1;
              }
            }
          case Restart =>
            position := committed;
          case Elsewhere(state, input) =>
            ghost var did := peer.Perform(state, input);
            StepsKeepDispositions(state.(tables := before), did);
            DisposedBelowStays(log, before, consumer.store.State(), settled);
            DisposedBelowStays(log, before, consumer.store.State(), position);
        }
      }
    }
  }
}
