/**
 * When a workflow row can be reopened, over every run of the orchestrator: a letter that may still
 * be replayed and whose row exists was written by the exhausted retries that ended the row's run.
 */
module Letters {
  import opened Prelude
  import opened Stages
  import opened SagaEngine
  import opened SagaRuns
  import opened EarnedSuccess
  import opened WorkflowTables
  import opened Orchestrator
  import opened Fencing
  import opened RowRuns
  import opened GovernedReplay

  /** The letter is open, or its replay is on its way. */
  predicate Redeemable(t: Tables, e: nat) {
    e in t.deadLetters && !t.deadLetters[e].status.Replayed?
  }

  /** The row's run ended because its retries were exhausted. */
  ghost predicate RanOut(s: Orc, op: nat) {
    && op in s.tables.workflows && s.tables.workflows[op].saga.status.Failed?
    && op in s.histories && s.histories[op].run != []
    && s.histories[op].run[|s.histories[op].run| - 1].transition.Exhaust?
  }

  ghost predicate LetterFollows(s: Orc, op: nat) {
    op in s.tables.workflows && Redeemable(s.tables, s.tables.workflows[op].eventId) ==> RanOut(s, op)
  }

  ghost predicate LettersFollow(s: Orc) {
    forall op | op in s.tables.workflows :: LetterFollows(s, op)
  }

  // ----- Steps -------------------------------------------------------------------------------

  /** The row and its run, as they were. */
  predicate RowStays(s: Orc, t: Orc, op: nat) {
    && (op in s.tables.workflows <==> op in t.tables.workflows)
    && (op in s.tables.workflows ==> t.tables.workflows[op] == s.tables.workflows[op])
    && (op in s.histories <==> op in t.histories)
    && (op in s.histories ==> t.histories[op] == s.histories[op])
  }

  /** Reopening puts the row back to its beginning, under the replayed command. */
  ghost predicate ReopensRow(s: Orc, t: Orc, op: nat) {
    && op in s.tables.workflows && op in t.tables.workflows && op in t.histories
    && Redeemable(s.tables, s.tables.workflows[op].eventId)
    && !Redeemable(t.tables, s.tables.workflows[op].eventId)
    && t.histories[op].run == [] && t.histories[op].resource == None
    && t.tables.workflows[op].eventId == s.tables.workflows[op].eventId
    && t.tables.workflows[op].action == s.tables.workflows[op].action
    && t.tables.workflows[op].saga == StartOf(t.histories[op])
    && s.tables.workflows[op].generation < t.tables.workflows[op].generation
  }

  /** A delivery or replay admits the row: there was none before, and it can not be replayed. */
  ghost predicate AdmitsRow(s: Orc, t: Orc, op: nat) {
    && op !in s.tables.workflows && op in t.tables.workflows && op in t.histories && t.histories[op].run == []
    && !Redeemable(t.tables, t.tables.workflows[op].eventId)
  }

  /** What a step other than a claim or a commit can do to a row. */
  ghost predicate Delivers(s: Orc, t: Orc, op: nat) {
    || (RowStays(s, t, op)
        && (op in t.tables.workflows && Redeemable(t.tables, t.tables.workflows[op].eventId) ==>
              Redeemable(s.tables, t.tables.workflows[op].eventId)))
    || ReopensRow(s, t, op)
    || AdmitsRow(s, t, op)
  }

  lemma AdmissionDelivers(s: Orc, eventId: nat, delivery: Delivery, inherited: Option<nat>, op: nat)
    requires Identified(s) && Governed(s) && eventId in s.issued && delivery.generation == 0
    ensures Delivers(s, Delivered(s, s.issued[eventId], delivery, inherited), op)
  {
    AdmitOriginalOutcome(s.tables, s.issued[eventId], delivery, inherited, s.now);
    assert EventGoverned(s.tables, eventId, s.issued[eventId].operationId);
    if CommandReceipt(eventId, 0) !in s.tables.receipts {
      FirstReceiptIsFirst(s.tables, eventId, s.issued[eventId].operationId);
    }
  }

  lemma RequestDelivers(s: Orc, request: ReplayRequested, delivery: Delivery, op: nat)
    ensures Delivers(s, Requested(s, request, delivery), op)
  {
    ReplayRequestOutcome(s.tables, request, delivery);
  }

  lemma RedeliveryDelivers(s: Orc, command: Command, delivery: Delivery, op: nat)
    requires Identified(s)
    ensures Delivers(s, Redelivered(s, command, delivery), op)
  {
    var id := ReplayCommandOutcome(s.tables, command, delivery, s.now);
    var t := Redelivered(s, command, delivery);
    var outcome := AdmitReplayCommand(s.tables, command, delivery, s.now);
    if outcome.Ok? && outcome.value.1.AdmissionAccepted? {
      ReplayIsTheIssuedCommand(s, id, command, delivery);
      assert op in s.tables.workflows ==> RowIdentity(s, op);
    }
  }

  lemma ExhaustionDelivers(s: Orc, eventId: nat, supported: bool, delivery: Delivery, attempts: nat, allowed: bool, op: nat)
    requires Identified(s) && Governed(s) && eventId in s.issued && delivery.generation == 0
    ensures Delivers(s, Exhausted(s, s.issued[eventId], supported, delivery, attempts, allowed), op)
  {
    ExhaustionsKeepRows(s, s.issued[eventId], supported, delivery, attempts, allowed);
    assert EventGoverned(s.tables, eventId, s.issued[eventId].operationId);
    assert op in s.tables.workflows ==> RowIdentity(s, op);
    if CommandReceipt(eventId, 0) !in s.tables.receipts {
      FirstReceiptIsFirst(s.tables, eventId, s.issued[eventId].operationId);
    }
  }

  lemma OtherStepsDeliver(s: Orc, input: Input, op: nat)
    requires Identified(s) && Governed(s) && !input.WorkerClaims? && !input.WorkerCommits?
    ensures Delivers(s, Step(s, input), op)
  {
    if Enabled(s, input) {
      match input
      case DeliverCommand(eventId, delivery, inherited) => AdmissionDelivers(s, eventId, delivery, inherited, op);
      case DeliverReplayRequest(request, delivery) => RequestDelivers(s, request, delivery, op);
      case DeliverReplayCommand(command, delivery) => RedeliveryDelivers(s, command, delivery, op);
      case ExhaustDelivery(eventId, supported, delivery, attempts, allowed) =>
        ExhaustionDelivers(s, eventId, supported, delivery, attempts, allowed, op);
      case _ =>
    }
  }

  /** A live row has no letter to replay; its commit leaves one only by exhausting the retries. */
  lemma OwnCommitFollows(s: Orc, t: Orc, op: nat, e: Entry)
    requires CommitsRow(s, t, op, e) && e.saga.status.Running? && RowIdentity(s, op)
    requires EventGoverned(s.tables, s.tables.workflows[op].eventId, op)
    ensures LetterFollows(t, op)
  {
  }

  lemma OtherCommitFollows(s: Orc, t: Orc, own: nat, e: Entry, op: nat)
    requires CommitsRow(s, t, own, e) && op != own && LetterFollows(s, op)
    requires IssuedOnce(s) && RowIdentity(s, own) && RowIdentity(s, op)
    ensures LetterFollows(t, op)
  {
  }

  lemma CommitFollows(s: Orc, input: Input, op: nat)
    requires Invariant(s) && Governed(s) && LettersFollow(s) && input.WorkerCommits? && Enabled(s, input)
    ensures LetterFollows(Step(s, input), op)
  {
    var t, c := Step(s, input), input.ticket;
    if t != s && op in t.tables.workflows {
      CommitIsDecided(s, input);
      var e := Entry(c.row.saga, input.reply, input.decidedAt, input.random, s.now,
                     DecisionOf(c, input.reply, input.decidedAt, input.random));
      assert RowIdentity(s, c.operationId) && RowIdentity(s, op);
      if op == c.operationId {
        assert EventGoverned(s.tables, s.tables.workflows[op].eventId, op);
        OwnCommitFollows(s, t, op, e);
      } else {
        OtherCommitFollows(s, t, c.operationId, e, op);
      }
    } else if op in s.tables.workflows {
      assert LetterFollows(s, op);
    }
  }

  lemma ClaimFollows(s: Orc, t: Orc, own: nat, op: nat)
    requires ClaimsRow(s, t, own) && LettersFollow(s)
    ensures LetterFollows(t, op)
  {
    if op in s.tables.workflows {
      assert LetterFollows(s, op);
    }
  }

  lemma DeliveryFollows(s: Orc, t: Orc, op: nat)
    requires Delivers(s, t, op) && LettersFollow(s)
    ensures LetterFollows(t, op)
  {
    if op in s.tables.workflows {
      assert LetterFollows(s, op);
    }
  }

  lemma StepFollows(s: Orc, input: Input)
    requires Invariant(s) && Governed(s) && LettersFollow(s)
    ensures LettersFollow(Step(s, input))
  {
    if Enabled(s, input) && Step(s, input) != s {
      forall op | op in Step(s, input).tables.workflows
        ensures LetterFollows(Step(s, input), op)
      {
        if input.WorkerClaims? {
          ClaimRowEffect(s, input.operationId, input.worker, input.leaseMs);
          ClaimFollows(s, Step(s, input), input.operationId, op);
        } else if input.WorkerCommits? {
          CommitFollows(s, input, op);
        } else {
          OtherStepsDeliver(s, input, op);
          DeliveryFollows(s, Step(s, input), op);
        }
      }
    }
  }

  /** The orchestrator's tables agree with each other, whatever was delivered, claimed and replayed. */
  ghost predicate Settling(s: Orc) {
    Invariant(s) && Governed(s) && LettersFollow(s)
  }

  /**
   * Over every run: a row whose letter can still be replayed has failed by exhausting its retries,
   * so every reopened row had exhausted its retries - no other failure is ever replayed.
   */
  lemma {:induction false} ReplaysFollowExhaustion(start: Time, inputs: seq<Input>)
    ensures Settling(Run(start, inputs))
  {
    RunsAreGoverned(start, inputs);
    if inputs != [] {
      var before := inputs[..|inputs| - 1];
      ReplaysFollowExhaustion(start, before);
      StepFollows(Run(start, before), inputs[|inputs| - 1]);
    }
  }
}
