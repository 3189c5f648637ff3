/**
 * Governed replay over every run of the orchestrator: how authorizations, dead letters, receipts
 * and the generation of the workflow row stay in step, whatever is delivered and however often.
 */
module GovernedReplay {
  import opened Prelude
  import opened Stages
  import opened SagaEngine
  import opened SagaRuns
  import opened WorkflowTables
  import opened Orchestrator
  import opened Fencing
  import opened RowRuns

  // ----- One command event -------------------------------------------------------------------

  /** An honoured replay request for the event, outstanding or consumed. */
  predicate Honoured(t: Tables, id: nat, e: nat) {
    id in t.replays && t.replays[id].request.originalEventId == e && !t.replays[id].decision.Refused?
  }

  predicate Outstanding(t: Tables, id: nat, e: nat) {
    Honoured(t, id, e) && t.replays[id].decision.Authorized?
  }

  predicate CompletedAs(t: Tables, id: nat, e: nat, generation: nat) {
    Honoured(t, id, e) && t.replays[id].decision.Consumed? && t.replays[id].decision.generation == generation
  }

  ghost predicate Completed(t: Tables, e: nat, generation: nat) {
    exists id :: CompletedAs(t, id, e, generation)
  }

  /** How many replays of the event have been carried out. */
  function Carried(t: Tables, e: nat): int {
    if e !in t.deadLetters then 0
    else if t.deadLetters[e].status.ReplayPending? then t.deadLetters[e].generation - 1
    else t.deadLetters[e].generation
  }

  /** No generation of an event is honoured twice. */
  ghost predicate GenerationsDistinct(t: Tables, e: nat) {
    forall id, id' | Honoured(t, id, e) && Honoured(t, id', e)
      && t.replays[id].decision.generation == t.replays[id'].decision.generation :: id == id'
  }

  /** A dead letter awaits replay exactly while one authorization of its generation is outstanding. */
  ghost predicate PendingMatches(t: Tables, e: nat) {
    && (forall id | Outstanding(t, id, e) ::
          e in t.deadLetters && t.deadLetters[e].status.ReplayPending?
          && t.deadLetters[e].generation == t.replays[id].decision.generation)
    && (e in t.deadLetters && t.deadLetters[e].status.ReplayPending? ==>
          1 <= t.deadLetters[e].generation
          && exists id :: Outstanding(t, id, e) && t.replays[id].decision.generation == t.deadLetters[e].generation)
  }

  /** The completed generations are 1, 2, ... up to the number carried out, without a gap. */
  ghost predicate CompletionsContiguous(t: Tables, e: nat) {
    && (forall id, g: nat | CompletedAs(t, id, e, g) :: 1 <= g <= Carried(t, e))
    && (forall g: nat | 1 <= g <= Carried(t, e) :: Completed(t, e, g))
  }

  /** Every completed generation left its receipt, with the digest that was authorized. */
  ghost predicate ReceiptsFollow(t: Tables, e: nat) {
    && (forall g: nat | 1 <= g :: CommandReceipt(e, g) in t.receipts <==> g <= Carried(t, e))
    && (forall id, g: nat | CompletedAs(t, id, e, g) && CommandReceipt(e, g) in t.receipts ::
          t.receipts[CommandReceipt(e, g)].digest == CommandDigest(t.replays[id].decision.digest))
  }

  /** The row's generation counts the replays; while a replay is possible the row has failed. */
  ghost predicate RowFollows(t: Tables, e: nat, op: nat) {
    && (e in t.deadLetters || op in t.workflows ==> CommandReceipt(e, 0) in t.receipts)
    && (op in t.workflows ==>
          && t.workflows[op].generation == Carried(t, e)
          && (e in t.deadLetters && !t.deadLetters[e].status.Replayed? ==> t.workflows[op].saga.status.Failed?))
  }

  ghost predicate EventGoverned(t: Tables, e: nat, op: nat) {
    && GenerationsDistinct(t, e) && PendingMatches(t, e) && CompletionsContiguous(t, e)
    && ReceiptsFollow(t, e) && RowFollows(t, e, op)
  }

  /** Only commands that were issued leave receipts; a forged delivery is refused before that. */
  ghost predicate ReceiptsIssued(s: Orc) {
    forall e, g | CommandReceipt(e, g) in s.tables.receipts :: e in s.issued
  }

  ghost predicate Governed(s: Orc) {
    && ReceiptsIssued(s)
    && (forall e | e in s.issued :: EventGoverned(s.tables, e, s.issued[e].operationId))
  }

  /** An event nothing was ever honoured for; its command may have been admitted or dead-lettered. */
  ghost predicate Unreplayed(t: Tables, e: nat) {
    && (forall id :: !Honoured(t, id, e))
    && (forall g: nat | 1 <= g :: CommandReceipt(e, g) !in t.receipts)
  }

  // ----- Steps that do not concern an event --------------------------------------------------

  /** Nothing that governs the event has changed, except that its row may have been worked on. */
  ghost predicate SameStanding(t: Tables, t': Tables, e: nat, op: nat) {
    && (e in t.deadLetters <==> e in t'.deadLetters)
    && (e in t.deadLetters ==> t.deadLetters[e] == t'.deadLetters[e])
    && (op in t.workflows <==> op in t'.workflows)
    && (op in t.workflows ==>
          && t'.workflows[op].generation == t.workflows[op].generation
          && (t.workflows[op].saga.status.Failed? ==> t'.workflows[op].saga.status.Failed?))
    && (forall id :: Honoured(t, id, e) <==> Honoured(t', id, e))
    && (forall id | Honoured(t, id, e) :: t.replays[id] == t'.replays[id])
    && (forall g: nat | 1 <= g :: CommandReceipt(e, g) in t.receipts <==> CommandReceipt(e, g) in t'.receipts)
    && (forall g: nat | CommandReceipt(e, g) in t.receipts ::
          CommandReceipt(e, g) in t'.receipts
          && t'.receipts[CommandReceipt(e, g)].digest == t.receipts[CommandReceipt(e, g)].digest)
  }

  lemma SameCompletions(t: Tables, t': Tables, e: nat)
    requires forall id, g: nat :: CompletedAs(t, id, e, g) <==> CompletedAs(t', id, e, g)
    ensures forall g: nat :: Completed(t, e, g) <==> Completed(t', e, g)
  {
  }

  lemma SameStandingGoverns(t: Tables, t': Tables, e: nat, op: nat)
    requires SameStanding(t, t', e, op) && EventGoverned(t, e, op)
    ensures EventGoverned(t', e, op)
  {
    assert forall id, g: nat :: CompletedAs(t, id, e, g) <==> CompletedAs(t', id, e, g);
    SameCompletions(t, t', e);
    assert forall id :: Outstanding(t, id, e) <==> Outstanding(t', id, e);
  }

  // ----- Admission and exhausted deliveries --------------------------------------------------

  /** A first receipt means the event has no row, no letter and no honoured replay. */
  lemma FirstReceiptIsFirst(t: Tables, e: nat, op: nat)
    requires EventGoverned(t, e, op) && CommandReceipt(e, 0) !in t.receipts
    ensures op !in t.workflows && e !in t.deadLetters && Unreplayed(t, e)
  {
    forall id
      ensures !Honoured(t, id, e)
    {
      if Honoured(t, id, e) && !Outstanding(t, id, e) {
        assert CompletedAs(t, id, e, t.replays[id].decision.generation);
      }
    }
  }

  lemma StillUnreplayed(t: Tables, t': Tables, e: nat)
    requires Unreplayed(t, e) && t'.replays == t.replays
    requires forall g: nat | 1 <= g :: CommandReceipt(e, g) in t'.receipts ==> CommandReceipt(e, g) in t.receipts
    ensures Unreplayed(t', e)
  {
    forall id
      ensures !Honoured(t', id, e)
    {
      assert !Honoured(t, id, e);
    }
  }

  lemma UnreplayedIsGoverned(t: Tables, e: nat, op: nat)
    requires Unreplayed(t, e)
    requires e in t.deadLetters ==> t.deadLetters[e].generation == 0 && t.deadLetters[e].status.Open?
    requires RowFollows(t, e, op)
    ensures EventGoverned(t, e, op)
  {
    assert Carried(t, e) == 0;
    assert CompletionsContiguous(t, e);
  }

  /** What an original delivery means for one event. */
  lemma AdmissionGovernsEvent(s: Orc, t: Orc, eventId: nat, delivery: Delivery, e: nat)
    requires IssuedOnce(s) && e in s.issued && eventId in s.issued
    requires EventGoverned(s.tables, e, s.issued[e].operationId)
    requires var command := s.issued[eventId];
             var key := CommandReceipt(eventId, delivery.generation);
             && delivery.generation == 0 && key !in s.tables.receipts && key in t.tables.receipts
             && t.tables.receipts == s.tables.receipts[key := t.tables.receipts[key]]
             && t.tables.deadLetters == s.tables.deadLetters && t.tables.replays == s.tables.replays
             && (t.tables.workflows == s.tables.workflows
                 || (&& command.operationId in t.tables.workflows && command.operationId !in s.tables.workflows
                     && t.tables.workflows == s.tables.workflows[command.operationId := t.tables.workflows[command.operationId]]
                     && t.tables.workflows[command.operationId].generation == 0))
    ensures EventGoverned(t.tables, e, s.issued[e].operationId)
  {
    var op := s.issued[e].operationId;
    if e == eventId && t.tables.workflows != s.tables.workflows {
      FirstReceiptIsFirst(s.tables, e, op);
      StillUnreplayed(s.tables, t.tables, e);
      UnreplayedIsGoverned(t.tables, e, op);
    } else {
      assert SameStanding(s.tables, t.tables, e, op);
      SameStandingGoverns(s.tables, t.tables, e, op);
    }
  }

  lemma AdmissionGoverns(s: Orc, eventId: nat, delivery: Delivery, inherited: Option<nat>)
    requires Identified(s) && Governed(s) && eventId in s.issued && delivery.generation == 0
    ensures Governed(Delivered(s, s.issued[eventId], delivery, inherited))
  {
    var t := Delivered(s, s.issued[eventId], delivery, inherited);
    AdmitOriginalOutcome(s.tables, s.issued[eventId], delivery, inherited, s.now);
    if t.tables != s.tables {
      forall e | e in t.issued
        ensures EventGoverned(t.tables, e, t.issued[e].operationId)
      {
        AdmissionGovernsEvent(s, t, eventId, delivery, e);
      }
    }
  }

  lemma ExhaustionGoverns(s: Orc, eventId: nat, supported: bool, delivery: Delivery, attempts: nat, allowed: bool)
    requires Identified(s) && Governed(s) && eventId in s.issued && delivery.generation == 0
    ensures Governed(Exhausted(s, s.issued[eventId], supported, delivery, attempts, allowed))
  {
    var t := Exhausted(s, s.issued[eventId], supported, delivery, attempts, allowed);
    ExhaustionsKeepRows(s, s.issued[eventId], supported, delivery, attempts, allowed);
    if t.tables != s.tables {
      forall e | e in t.issued
        ensures EventGoverned(t.tables, e, t.issued[e].operationId)
      {
        assert EventGoverned(s.tables, eventId, s.issued[eventId].operationId);
        FirstReceiptIsFirst(s.tables, eventId, s.issued[eventId].operationId);
        ExhaustionGovernsEvent(s, t, eventId, e);
      }
    }
  }

  /** What dead-lettering a command at its first delivery means for one event. */
  lemma ExhaustionGovernsEvent(s: Orc, t: Orc, eventId: nat, e: nat)
    requires IssuedOnce(s) && e in s.issued && eventId in s.issued
    requires EventGoverned(s.tables, e, s.issued[e].operationId)
    requires var key := CommandReceipt(eventId, 0);
             && key !in s.tables.receipts && key in t.tables.receipts
             && t.tables.receipts == s.tables.receipts[key := t.tables.receipts[key]]
             && eventId !in s.tables.deadLetters && eventId in t.tables.deadLetters
             && t.tables.deadLetters == s.tables.deadLetters[eventId := t.tables.deadLetters[eventId]]
             && t.tables.deadLetters[eventId].generation == 0 && t.tables.deadLetters[eventId].status.Open?
             && t.tables.replays == s.tables.replays && t.tables.workflows == s.tables.workflows
    ensures EventGoverned(t.tables, e, s.issued[e].operationId)
  {
    var op := s.issued[e].operationId;
    if e == eventId {
      FirstReceiptIsFirst(s.tables, e, op);
      StillUnreplayed(s.tables, t.tables, e);
      UnreplayedIsGoverned(t.tables, e, op);
    } else {
      assert SameStanding(s.tables, t.tables, e, op);
      SameStandingGoverns(s.tables, t.tables, e, op);
    }
  }

  // ----- Requests ----------------------------------------------------------------------------

  lemma RefusalGoverns(t: Tables, request: ReplayRequested, delivery: Delivery, e: nat, op: nat)
    requires !RequestTaken(t, request) && EventGoverned(t, e, op)
    ensures EventGoverned(Refuse(t, request, delivery), e, op)
  {
    assert SameStanding(t, Refuse(t, request, delivery), e, op);
    SameStandingGoverns(t, Refuse(t, request, delivery), e, op);
  }

  lemma AuthorizationGovernsOthers(t: Tables, request: ReplayRequested, delivery: Delivery, e: nat, op: nat)
    requires Replayable(t, request.originalEventId) && !RequestTaken(t, request)
    requires e != request.originalEventId && EventGoverned(t, e, op)
    ensures EventGoverned(Authorize(t, request, delivery), e, op)
  {
    assert SameStanding(t, Authorize(t, request, delivery), e, op);
    SameStandingGoverns(t, Authorize(t, request, delivery), e, op);
  }

  /** Only an open letter is authorized, so nothing was outstanding and the next number is free. */
  lemma AuthorizationGoverns(t: Tables, request: ReplayRequested, delivery: Delivery, op: nat)
    requires Replayable(t, request.originalEventId) && !RequestTaken(t, request)
    requires EventGoverned(t, request.originalEventId, op)
    requires !GenerationTaken(t, request.originalEventId, t.deadLetters[request.originalEventId].generation + 1)
    ensures EventGoverned(Authorize(t, request, delivery), request.originalEventId, op)
  {
    var e, t' := request.originalEventId, Authorize(t, request, delivery);
    assert Outstanding(t', request.requestId, e);
    assert forall id | id != request.requestId :: Honoured(t', id, e) <==> Honoured(t, id, e);
    assert forall id, g: nat :: CompletedAs(t, id, e, g) <==> CompletedAs(t', id, e, g);
    SameCompletions(t, t', e);
    assert Carried(t', e) == Carried(t, e);
    assert GenerationsDistinct(t', e);
    assert CompletionsContiguous(t', e);
    assert ReceiptsFollow(t', e);
  }

  lemma RequestGoverns(s: Orc, request: ReplayRequested, delivery: Delivery)
    requires Governed(s)
    ensures Governed(Requested(s, request, delivery))
  {
    var t := Requested(s, request, delivery);
    ReplayRequestOutcome(s.tables, request, delivery);
    forall e | e in t.issued
      ensures EventGoverned(t.tables, e, t.issued[e].operationId)
    {
      var op := s.issued[e].operationId;
      if t.tables == Refuse(s.tables, request, delivery) && !RequestTaken(s.tables, request) {
        RefusalGoverns(s.tables, request, delivery, e, op);
      } else if t.tables != s.tables {
        if e == request.originalEventId {
          AuthorizationGoverns(s.tables, request, delivery, op);
        } else {
          AuthorizationGovernsOthers(s.tables, request, delivery, e, op);
        }
      }
    }
  }

  // ----- Replay deliveries -------------------------------------------------------------------

  lemma ReopeningGovernsOthers(t: Tables, id: nat, command: Command, delivery: Delivery, now: Time, e: nat, op: nat)
    requires Matches(t, id, command, delivery) && PendingLetter(t, command.eventId, delivery.generation)
    requires e != command.eventId && op != command.operationId && EventGoverned(t, e, op)
    ensures EventGoverned(Reopen(t, id, command, delivery, now), e, op)
  {
    assert SameStanding(t, Reopen(t, id, command, delivery, now), e, op);
    SameStandingGoverns(t, Reopen(t, id, command, delivery, now), e, op);
  }

  lemma ReopeningGoverns(t: Tables, id: nat, command: Command, delivery: Delivery, now: Time)
    requires Matches(t, id, command, delivery) && PendingLetter(t, command.eventId, delivery.generation)
    requires EventGoverned(t, command.eventId, command.operationId)
    ensures EventGoverned(Reopen(t, id, command, delivery, now), command.eventId, command.operationId)
  {
    var e, g, t' := command.eventId, delivery.generation, Reopen(t, id, command, delivery, now);
    assert Outstanding(t, id, e);
    assert CompletedAs(t', id, e, g);
    assert Carried(t', e) == g && Carried(t, e) == g - 1;
    assert forall k :: Honoured(t', k, e) <==> Honoured(t, k, e);
    assert forall k, n: nat | k != id :: CompletedAs(t', k, e, n) <==> CompletedAs(t, k, e, n);
    assert GenerationsDistinct(t', e);
    forall n: nat | 1 <= n <= g
      ensures Completed(t', e, n)
    {
      if n < g {
        assert Completed(t, e, n);
        var k :| CompletedAs(t, k, e, n);
        assert CompletedAs(t', k, e, n);
      }
    }
    assert PendingMatches(t', e) by {
      forall k | Outstanding(t', k, e)
        ensures false
      {
        assert Outstanding(t, k, e);
      }
    }
    assert ReceiptsFollow(t', e);
  }

  lemma RedeliveryGoverns(s: Orc, command: Command, delivery: Delivery)
    requires Identified(s) && Governed(s)
    ensures Governed(Redelivered(s, command, delivery))
  {
    var t := Redelivered(s, command, delivery);
    var id := ReplayCommandOutcome(s.tables, command, delivery, s.now);
    var outcome := AdmitReplayCommand(s.tables, command, delivery, s.now);
    forall e | e in t.issued
      ensures EventGoverned(t.tables, e, t.issued[e].operationId)
    {
      var op := s.issued[e].operationId;
      if outcome.Ok? && outcome.value.1.AdmissionAccepted? {
        ReplayIsTheIssuedCommand(s, id, command, delivery);
        if e == command.eventId {
          ReopeningGoverns(s.tables, id, command, delivery, s.now);
        } else {
          ReopeningGovernsOthers(s.tables, id, command, delivery, s.now, e, op);
        }
      } else {
        SameStandingGoverns(s.tables, t.tables, e, op);
      }
    }
  }

  // ----- Claims and commits ------------------------------------------------------------------

  lemma ClaimGoverns(s: Orc, t: Orc, op: nat)
    requires ClaimsRow(s, t, op) && Governed(s)
    ensures Governed(t)
  {
    forall e | e in t.issued
      ensures EventGoverned(t.tables, e, t.issued[e].operationId)
    {
      assert SameStanding(s.tables, t.tables, e, t.issued[e].operationId);
      SameStandingGoverns(s.tables, t.tables, e, t.issued[e].operationId);
    }
  }

  /** A live row has no letter awaiting replay, so exhausting its retries opens one for the next. */
  lemma DeadLetteringGoverns(t: Tables, t': Tables, w: Workflow, attempts: nat, e: nat, op: nat)
    requires EventGoverned(t, e, op) && op in t.workflows && t.workflows[op] == w && w.eventId == e
    requires IsLive(w.saga.status) && w.command.eventId == e
    requires op in t'.workflows && t'.workflows[op].generation == w.generation && t'.workflows[op].saga.status.Failed?
    requires t'.deadLetters == WithDeadLetter(t.deadLetters, w.command, true, attempts, true, w.generation)
    requires t'.replays == t.replays && t'.receipts.Keys == t.receipts.Keys
    requires forall k | k in t.receipts :: t'.receipts[k].digest == t.receipts[k].digest
    ensures EventGoverned(t', e, op)
  {
    assert forall id :: Honoured(t', id, e) <==> Honoured(t, id, e);
    assert forall id :: !Outstanding(t, id, e);
    assert Carried(t', e) == Carried(t, e) == w.generation;
    assert forall id, g: nat :: CompletedAs(t, id, e, g) <==> CompletedAs(t', id, e, g);
    SameCompletions(t, t', e);
    assert GenerationsDistinct(t', e);
    assert PendingMatches(t', e) by {
      forall id | Outstanding(t', id, e)
        ensures false
      {
        assert Outstanding(t, id, e);
      }
    }
    assert CompletionsContiguous(t', e);
    assert ReceiptsFollow(t', e) by {
      assert forall g: nat :: CommandReceipt(e, g) in t'.receipts.Keys <==> CommandReceipt(e, g) in t.receipts.Keys;
    }
  }

  /** Commits touch no receipt but to mark it done. */
  ghost predicate DigestsKept(s: Orc, t: Orc) {
    && t.tables.receipts.Keys == s.tables.receipts.Keys
    && forall k | k in s.tables.receipts :: t.tables.receipts[k].digest == s.tables.receipts[k].digest
  }

  lemma CommitKeepsDigests(s: Orc, c: Ticket, e: Entry)
    ensures DigestsKept(s, Committed(s, c, e))
  {
  }

  lemma CommitGovernsEvent(s: Orc, t: Orc, op: nat, entry: Entry, e: nat)
    requires CommitsRow(s, t, op, entry) && DigestsKept(s, t)
    requires Identified(s) && RowIdentity(s, op) && entry.saga.status.Running? && e in s.issued
    requires EventGoverned(s.tables, e, s.issued[e].operationId)
    ensures EventGoverned(t.tables, e, s.issued[e].operationId)
  {
    var w, own := s.tables.workflows[op], s.issued[e].operationId;
    if e == w.eventId && entry.transition.Exhaust? {
      DeadLetteringGoverns(s.tables, t.tables, w, entry.transition.attempts, e, op);
    } else {
      CommitKeepsStanding(s, t, op, entry, e, own);
      SameStandingGoverns(s.tables, t.tables, e, own);
    }
  }

  lemma CommitKeepsStanding(s: Orc, t: Orc, op: nat, entry: Entry, e: nat, own: nat)
    requires CommitsRow(s, t, op, entry) && DigestsKept(s, t) && entry.saga.status.Running?
    requires s.tables.workflows[op].command.eventId == e ==> !entry.transition.Exhaust?
    ensures SameStanding(s.tables, t.tables, e, own)
  {
    assert forall g: nat :: CommandReceipt(e, g) in t.tables.receipts.Keys <==> CommandReceipt(e, g) in s.tables.receipts.Keys;
  }

  lemma CommitGoverns(s: Orc, t: Orc, op: nat, entry: Entry)
    requires CommitsRow(s, t, op, entry) && DigestsKept(s, t)
    requires Identified(s) && Governed(s) && entry.saga.status.Running?
    ensures Governed(t)
  {
    assert RowIdentity(s, op);
    assert ReceiptsIssued(t) by {
      assert forall e, g :: CommandReceipt(e, g) in t.tables.receipts.Keys ==> CommandReceipt(e, g) in s.tables.receipts.Keys;
    }
    forall e | e in t.issued
      ensures EventGoverned(t.tables, e, t.issued[e].operationId)
    {
      CommitGovernsEvent(s, t, op, entry, e);
    }
  }

  // ----- Every run ---------------------------------------------------------------------------

  /** A command not yet issued has left no trace. */
  lemma IssueGoverns(s: Orc, command: Command)
    requires Identified(s) && Governed(s) && Unissued(s, command)
    ensures Governed(s.(issued := s.issued[command.eventId := command]))
  {
    var e, op := command.eventId, command.operationId;
    assert forall other | other in s.tables.workflows :: RowIdentity(s, other);
    UnreplayedIsGoverned(s.tables, e, op);
  }

  lemma OtherStepsGovern(s: Orc, input: Input)
    requires Identified(s) && Governed(s) && Enabled(s, input) && !input.WorkerClaims? && !input.WorkerCommits?
    ensures Governed(Step(s, input))
  {
    match input
    case DeliverCommand(eventId, delivery, inherited) => AdmissionGoverns(s, eventId, delivery, inherited);
    case DeliverReplayRequest(request, delivery) => RequestGoverns(s, request, delivery);
    case DeliverReplayCommand(command, delivery) => RedeliveryGoverns(s, command, delivery);
    case ExhaustDelivery(eventId, supported, delivery, attempts, allowed) =>
      ExhaustionGoverns(s, eventId, supported, delivery, attempts, allowed);
    case Issue(command) => IssueGoverns(s, command);
    case Tick(_) =>
    case QuarantineRecord(_) => QuarantineGoverns(s, Step(s, input));
  }

  lemma QuarantineGoverns(s: Orc, t: Orc)
    requires Governed(s) && t == s.(tables := s.tables.(poison := t.tables.poison))
    ensures Governed(t)
  {
    forall e | e in t.issued
      ensures EventGoverned(t.tables, e, t.issued[e].operationId)
    {
      SameStandingGoverns(s.tables, t.tables, e, t.issued[e].operationId);
    }
  }

  lemma StepGoverns(s: Orc, input: Input)
    requires Invariant(s) && Governed(s)
    ensures Governed(Step(s, input))
  {
    var t := Step(s, input);
    if Enabled(s, input) && t != s {
      if input.WorkerClaims? {
        ClaimRowEffect(s, input.operationId, input.worker, input.leaseMs);
        ClaimGoverns(s, t, input.operationId);
      } else if input.WorkerCommits? {
        var c := input.ticket;
        var e := Entry(c.row.saga, input.reply, input.decidedAt, input.random, s.now,
                       DecisionOf(c, input.reply, input.decidedAt, input.random));
        CommitIsDecided(s, input);
        CommitKeepsDigests(s, c, e);
        CommitGoverns(s, t, c.operationId, e);
      } else {
        OtherStepsGovern(s, input);
      }
    }
  }

  lemma {:induction false} RunsAreGoverned(start: Time, inputs: seq<Input>)
    ensures Invariant(Run(start, inputs)) && Governed(Run(start, inputs))
  {
    RowsAreSagaRuns(start, inputs);
    if inputs != [] {
      var before := inputs[..|inputs| - 1];
      RunsAreGoverned(start, before);
      StepGoverns(Run(start, before), inputs[|inputs| - 1]);
    }
  }

  // ----- The generation counts the completed requests ----------------------------------------

  /** The replay requests of the event that have been completed. */
  function CompletedRequests(t: Tables, e: nat): set<nat> {
    set id | id in t.replays && Honoured(t, id, e) && t.replays[id].decision.Consumed?
  }

  function CompletedUpTo(t: Tables, e: nat, n: nat): set<nat> {
    set id | id in CompletedRequests(t, e) && t.replays[id].decision.generation <= n
  }

  lemma OneCompletionMore(t: Tables, e: nat, n: nat, last: nat)
    requires 1 <= n && GenerationsDistinct(t, e) && CompletedAs(t, last, e, n)
    ensures CompletedUpTo(t, e, n) == CompletedUpTo(t, e, n - 1) + {last}
    ensures last !in CompletedUpTo(t, e, n - 1)
  {
  }

  lemma {:induction false} CompletionsAreCounted(t: Tables, e: nat, n: nat)
    requires GenerationsDistinct(t, e) && CompletionsContiguous(t, e) && n <= Carried(t, e)
    ensures |CompletedUpTo(t, e, n)| == n
  {
    if n == 0 {
      forall id | id in CompletedUpTo(t, e, 0)
        ensures false
      {
        assert CompletedAs(t, id, e, t.replays[id].decision.generation);
      }
      assert CompletedUpTo(t, e, 0) == {};
    } else {
      CompletionsAreCounted(t, e, n - 1);
      assert Completed(t, e, n);
      var last :| CompletedAs(t, last, e, n);
      OneCompletionMore(t, e, n, last);
    }
  }

  lemma AllCompletionsAreCounted(t: Tables, e: nat, n: nat)
    requires GenerationsDistinct(t, e) && CompletionsContiguous(t, e) && n == Carried(t, e)
    ensures |CompletedRequests(t, e)| == n
  {
    CompletionsAreCounted(t, e, n);
    assert forall id | id in CompletedRequests(t, e) :: CompletedAs(t, id, e, t.replays[id].decision.generation);
    assert CompletedUpTo(t, e, n) == CompletedRequests(t, e);
  }

  /** A stored row's replay generation is the number of completed replay requests for its command. */
  lemma GenerationCountsReplays(start: Time, inputs: seq<Input>, op: nat)
    requires op in Run(start, inputs).tables.workflows
    ensures var t := Run(start, inputs).tables;
            t.workflows[op].generation == |CompletedRequests(t, t.workflows[op].eventId)|
  {
    var s := Run(start, inputs);
    RunsAreGoverned(start, inputs);
    assert RowIdentity(s, op);
    assert EventGoverned(s.tables, s.tables.workflows[op].eventId, op);
    AllCompletionsAreCounted(s.tables, s.tables.workflows[op].eventId, s.tables.workflows[op].generation);
  }

  /** At most one authorization per dead letter is outstanding, and it is for the letter's generation. */
  lemma OneAuthorizationOutstanding(start: Time, inputs: seq<Input>, e: nat, id: nat, id': nat)
    requires Outstanding(Run(start, inputs).tables, id, e) && Outstanding(Run(start, inputs).tables, id', e)
    ensures id == id'
    ensures var t := Run(start, inputs).tables;
            e in t.deadLetters && t.deadLetters[e].status.ReplayPending?
            && t.replays[id].decision.generation == t.deadLetters[e].generation
  {
    var s := Run(start, inputs);
    RunsAreGoverned(start, inputs);
    assert e in s.issued;
    assert EventGoverned(s.tables, e, s.issued[e].operationId);
  }

  // ----- Genuine and mismatched deliveries ---------------------------------------------------

  lemma AuthorizationIsUnique(s: Orc, command: Command, delivery: Delivery, id: nat, id': nat)
    requires Identified(s) && Governed(s)
    requires Matches(s.tables, id, command, delivery) && Matches(s.tables, id', command, delivery)
    ensures id == id'
  {
    ReplayIsTheIssuedCommand(s, id, command, delivery);
    assert Honoured(s.tables, id, command.eventId) && Honoured(s.tables, id', command.eventId);
  }

  /** A matching delivery finds no receipt and its letter pending. */
  lemma MatchingFindsItsLetter(s: Orc, command: Command, delivery: Delivery, id: nat)
    requires Identified(s) && Governed(s) && Matches(s.tables, id, command, delivery)
    ensures CommandReceipt(command.eventId, delivery.generation) !in s.tables.receipts
    ensures PendingLetter(s.tables, command.eventId, delivery.generation)
    ensures command.eventId in s.issued && s.issued[command.eventId].operationId == command.operationId
    ensures EventGoverned(s.tables, command.eventId, command.operationId)
  {
    ReplayIsTheIssuedCommand(s, id, command, delivery);
    assert Outstanding(s.tables, id, command.eventId);
    assert EventGoverned(s.tables, command.eventId, command.operationId);
  }

  /** A matching delivery finds its row failed one generation behind, or no row at all. */
  lemma MatchingFindsItsRow(s: Orc, command: Command, delivery: Delivery)
    requires IssuedOnce(s) && RowsIdentified(s)
    requires command.eventId in s.issued && s.issued[command.eventId].operationId == command.operationId
    requires PendingLetter(s.tables, command.eventId, delivery.generation)
    requires RowFollows(s.tables, command.eventId, command.operationId)
    ensures Reopenable(s.tables, command, delivery.generation)
    ensures command.operationId !in s.tables.workflows ==> !EventTaken(s.tables, command.eventId)
  {
    assert RowIdentity(s, command.operationId);
    forall op | op in s.tables.workflows && s.tables.workflows[op].eventId == command.eventId
      ensures op == command.operationId
    {
      assert RowIdentity(s, op);
    }
  }

  /**
   * The genuine delivery of an authorized replay always reopens the workflow: after any sequence
   * of events the state-conflict branch, the missing-letter error and the row constraint are out
   * of reach. It can only be held up by another record at its own broker coordinates.
   */
  lemma GenuineReplayReopens(start: Time, inputs: seq<Input>, command: Command, delivery: Delivery, id: nat)
    requires Matches(Run(start, inputs).tables, id, command, delivery)
    ensures var s := Run(start, inputs);
            PendingLetter(s.tables, command.eventId, delivery.generation)
            && AdmitReplayCommand(s.tables, command, delivery, s.now)
               == if CoordinatesTaken(s.tables.receipts, CommandReceipt(command.eventId, delivery.generation), delivery.at)
                  then Err(ConstraintViolated)
                  else Ok((Reopen(s.tables, id, command, delivery, s.now), AdmissionAccepted))
  {
    var s := Run(start, inputs);
    RunsAreGoverned(start, inputs);
    GenuineReplayReopensAt(s, command, delivery, id);
  }

  lemma GenuineReplayReopensAt(s: Orc, command: Command, delivery: Delivery, id: nat)
    requires Identified(s) && Governed(s) && Matches(s.tables, id, command, delivery)
    ensures PendingLetter(s.tables, command.eventId, delivery.generation)
    ensures AdmitReplayCommand(s.tables, command, delivery, s.now)
            == if CoordinatesTaken(s.tables.receipts, CommandReceipt(command.eventId, delivery.generation), delivery.at)
               then Err(ConstraintViolated)
               else Ok((Reopen(s.tables, id, command, delivery, s.now), AdmissionAccepted))
  {
    MatchingFindsItsLetter(s, command, delivery, id);
    MatchingFindsItsRow(s, command, delivery);
    forall other | Matches(s.tables, other, command, delivery)
      ensures other == id
    {
      AuthorizationIsUnique(s, command, delivery, other, id);
    }
    SettledOutcome(s.tables, command, delivery, s.now, id);
  }

  lemma SettledOutcome(t: Tables, command: Command, delivery: Delivery, now: Time, id: nat)
    requires Matches(t, id, command, delivery) && forall other :: Matches(t, other, command, delivery) ==> other == id
    requires CommandReceipt(command.eventId, delivery.generation) !in t.receipts
    requires Reopenable(t, command, delivery.generation) && PendingLetter(t, command.eventId, delivery.generation)
    requires command.operationId !in t.workflows ==> !EventTaken(t, command.eventId)
    ensures AdmitReplayCommand(t, command, delivery, now)
            == if CoordinatesTaken(t.receipts, CommandReceipt(command.eventId, delivery.generation), delivery.at)
               then Err(ConstraintViolated)
               else Ok((Reopen(t, id, command, delivery, now), AdmissionAccepted))
  {
  }

  predicate SameButPoison(t: Tables, t': Tables) {
    t' == t.(poison := t'.poison)
  }

  /**
   * A delivery that matches no authorization and repeats no receipt changes nothing but a poison
   * record at its own coordinates.
   */
  lemma MismatchOnlyQuarantines(t: Tables, command: Command, delivery: Delivery, now: Time)
    requires !exists id :: Matches(t, id, command, delivery)
    ensures var outcome := AdmitReplayCommand(t, command, delivery, now);
            var receipt := CommandReceipt(command.eventId, delivery.generation);
            && outcome.Ok? && SameButPoison(t, outcome.value.0)
            && (if receipt in t.receipts && t.receipts[receipt].digest == CommandDigest(command)
                then outcome.value == (t, AdmissionDuplicate)
                else outcome.value.1.AdmissionRejected? && delivery.at in outcome.value.0.poison
                     && forall at :: at != delivery.at ==>
                          (at in outcome.value.0.poison <==> at in t.poison))
  {
  }

  lemma QuarantineIdentifies(s: Orc, t: Orc)
    requires Identified(s) && t == s.(tables := s.tables.(poison := t.tables.poison))
    ensures Identified(t)
  {
    assert forall op | op in s.tables.workflows :: RowIdentity(s, op) ==> RowIdentity(t, op);
  }

  /**
   * Mismatched deliveries never block the genuine one: whatever poison they leave behind, the
   * authorized record is admitted as it would have been without them.
   */
  lemma PoisonBlocksNothing(s: Orc, t: Orc, command: Command, delivery: Delivery, id: nat)
    requires Identified(s) && Governed(s) && Matches(s.tables, id, command, delivery)
    requires t == s.(tables := t.tables) && SameButPoison(s.tables, t.tables)
    requires AdmitReplayCommand(s.tables, command, delivery, s.now).Ok?
    ensures AdmitReplayCommand(t.tables, command, delivery, t.now).Ok?
    ensures var before := AdmitReplayCommand(s.tables, command, delivery, s.now).value;
            var after := AdmitReplayCommand(t.tables, command, delivery, t.now).value;
            before.1 == after.1 == AdmissionAccepted && SameButPoison(before.0, after.0)
  {
    QuarantineGoverns(s, t);
    QuarantineIdentifies(s, t);
    GenuineReplayReopensAt(s, command, delivery, id);
    GenuineReplayReopensAt(t, command, delivery, id);
  }

  // ----- Once per generation -----------------------------------------------------------------

  function CommandOf(s: Orc, input: Input): Option<(Command, Delivery)> {
    match input
    case DeliverCommand(eventId, delivery, _) =>
      if eventId in s.issued then Some((s.issued[eventId], delivery)) else None
    case DeliverReplayCommand(command, delivery) => Some((command, delivery))
    case _ => None
  }

  /** The step starts or reopens a workflow. */
  ghost predicate Admits(s: Orc, input: Input) {
    && Enabled(s, input)
    && (match input
        case DeliverCommand(eventId, delivery, inherited) =>
          var outcome := AdmitOriginal(s.tables, s.issued[eventId], delivery, inherited, s.now);
          outcome.Ok? && outcome.value.1.AdmissionAccepted?
        case DeliverReplayCommand(command, delivery) =>
          var outcome := AdmitReplayCommand(s.tables, command, delivery, s.now);
          outcome.Ok? && outcome.value.1.AdmissionAccepted?
        case _ => false)
  }

  /** The event and generation under which the step's command was delivered. */
  function DeliveredAs(s: Orc, input: Input): ReceiptKey
    requires CommandOf(s, input).Some?
  {
    CommandReceipt(CommandOf(s, input).value.0.eventId, CommandOf(s, input).value.1.generation)
  }

  lemma StepKeepsReceipts(s: Orc, input: Input)
    requires Fenced(s)
    ensures s.tables.receipts.Keys <= Step(s, input).tables.receipts.Keys
  {
    if Enabled(s, input) && Step(s, input) != s {
      if input.WorkerClaims? {
        ClaimRowEffect(s, input.operationId, input.worker, input.leaseMs);
      } else if input.WorkerCommits? {
        CommitIsDecided(s, input);
      } else {
        OtherStepsRestart(s, input);
      }
    }
  }

  lemma {:induction false} ReceiptsStay(start: Time, inputs: seq<Input>, n: nat, key: ReceiptKey)
    requires n <= |inputs| && key in Run(start, inputs[..n]).tables.receipts
    ensures key in Run(start, inputs).tables.receipts
    decreases |inputs|
  {
    if n < |inputs| {
      var before := inputs[..|inputs| - 1];
      assert before[..n] == inputs[..n];
      ReceiptsStay(start, before, n, key);
      RunsAreFenced(start, before);
      StepKeepsReceipts(Run(start, before), inputs[|inputs| - 1]);
    } else {
      assert inputs[..n] == inputs;
    }
  }

  lemma AdmissionLeavesItsReceipt(s: Orc, input: Input)
    requires Admits(s, input)
    ensures CommandOf(s, input).Some?
    ensures DeliveredAs(s, input) !in s.tables.receipts && DeliveredAs(s, input) in Step(s, input).tables.receipts
  {
    match input
    case DeliverCommand(eventId, delivery, inherited) =>
      AdmitOriginalOutcome(s.tables, s.issued[eventId], delivery, inherited, s.now);
    case DeliverReplayCommand(command, delivery) =>
      var id := ReplayCommandOutcome(s.tables, command, delivery, s.now);
    case _ =>
  }

  /**
   * Over a whole run, each event and generation starts or reopens a workflow at most once: an
   * original command is admitted once, and each authorized generation reopens once.
   */
  lemma EachGenerationAdmitsOnce(start: Time, inputs: seq<Input>, j: nat, k: nat)
    requires j < k < |inputs|
    requires Admits(Run(start, inputs[..j]), inputs[j]) && Admits(Run(start, inputs[..k]), inputs[k])
    ensures CommandOf(Run(start, inputs[..j]), inputs[j]).Some? && CommandOf(Run(start, inputs[..k]), inputs[k]).Some?
    ensures DeliveredAs(Run(start, inputs[..j]), inputs[j]) != DeliveredAs(Run(start, inputs[..k]), inputs[k])
  {
    AdmissionLeavesItsReceipt(Run(start, inputs[..j]), inputs[j]);
    AdmissionLeavesItsReceipt(Run(start, inputs[..k]), inputs[k]);
    assert inputs[..j + 1][..j] == inputs[..j];
    assert inputs[..k][..j + 1] == inputs[..j + 1];
    ReceiptsStay(start, inputs[..k], j + 1, DeliveredAs(Run(start, inputs[..j]), inputs[j]));
  }
}
