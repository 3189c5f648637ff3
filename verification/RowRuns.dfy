/**
 * Every row of every run of the orchestrator is the end of a valid saga run: the theorems of
 * `SagaRuns` and `EarnedSuccess` therefore hold of the stored rows, over all interleavings.
 */
module RowRuns {
  import opened Prelude
  import opened Stages
  import opened SagaEngine
  import opened SagaRuns
  import opened EarnedSuccess
  import opened WorkflowTables
  import opened Orchestrator
  import opened Fencing

  // ----- Identity ----------------------------------------------------------------------------

  /** The same command up to the attribution a replay rewrites. */
  predicate SameIntent(command: Command, original: Command) {
    command == original.(correlation := command.correlation, stamp := command.stamp)
  }

  ghost predicate IssuedOnce(s: Orc) {
    && (forall e | e in s.issued :: s.issued[e].eventId == e)
    && (forall e, e' | e in s.issued && e' in s.issued && s.issued[e].operationId == s.issued[e'].operationId :: e == e')
  }

  /** The row works on the command its event was issued with. */
  ghost predicate IdentifiedRow(s: Orc, op: nat, w: Workflow) {
    && w.eventId in s.issued
    && SameIntent(w.command, s.issued[w.eventId])
    && w.command.operationId == op
    && w.instanceId == w.command.instanceId
    && w.action == ActionOf(w.command)
  }

  ghost predicate RowIdentity(s: Orc, op: nat) {
    op in s.tables.workflows ==> IdentifiedRow(s, op, s.tables.workflows[op])
  }

  ghost predicate RowsIdentified(s: Orc) {
    forall op | op in s.tables.workflows :: RowIdentity(s, op)
  }

  ghost predicate LettersIdentified(s: Orc) {
    forall e | e in s.tables.deadLetters :: e in s.issued && SameIntent(s.tables.deadLetters[e].original, s.issued[e])
  }

  ghost predicate AuthorizationsIdentified(s: Orc) {
    forall id | id in s.tables.replays && !s.tables.replays[id].decision.Refused? ::
      var row := s.tables.replays[id];
      row.request.originalEventId in s.issued
      && SameIntent(row.decision.digest, s.issued[row.request.originalEventId])
  }

  ghost predicate Identified(s: Orc) {
    IssuedOnce(s) && RowsIdentified(s) && LettersIdentified(s) && AuthorizationsIdentified(s)
  }

  // ----- Rows and their runs -----------------------------------------------------------------

  function StartOf(h: History): Saga {
    FreshSaga(h.resource, h.admitted)
  }

  ghost predicate RowRun(s: Orc, op: nat) {
    op in s.tables.workflows ==>
      && op in s.histories
      && var w, h := s.tables.workflows[op], s.histories[op];
         var last := FinalSaga(StartOf(h), h.run);
         && ValidRun(w.command, StartOf(h), h.run)
         && (w.saga == last || (IsLive(last.status) && w.saga == ClaimedSaga(last)))
         && (w.generation > 0 ==> h.resource.None?)
         && CommandReceipt(w.eventId, w.generation) in s.tables.receipts
  }

  ghost predicate RowsRun(s: Orc) {
    forall op | op in s.tables.workflows :: RowRun(s, op)
  }

  // ----- Step effects ------------------------------------------------------------------------

  /** Nothing but the row claimed changes, and of it only what a claim writes. */
  ghost predicate ClaimsRow(s: Orc, t: Orc, op: nat) {
    && op in s.tables.workflows && op in t.tables.workflows
    && IsLive(s.tables.workflows[op].saga.status)
    && var w, w' := s.tables.workflows[op], t.tables.workflows[op];
       && w' == w.(attempt := w'.attempt, token := w'.token, saga := ClaimedSaga(w.saga))
       && t.tables == s.tables.(leases := t.tables.leases, workflows := s.tables.workflows[op := w'])
       && t == s.(tables := t.tables, tickets := t.tickets, grants := t.grants)
  }

  /** Nothing but the row committed changes, its events, receipt state and dead letter aside. */
  ghost predicate CommitsRow(s: Orc, t: Orc, op: nat, e: Entry) {
    && op in s.tables.workflows && op in t.tables.workflows && op in s.histories
    && s.tables.workflows[op].saga == e.saga
    && var w, w', h := s.tables.workflows[op], t.tables.workflows[op], s.histories[op];
       && w' == w.(failure := w'.failure, lastError := w'.lastError, saga := Applied(w.saga, e.transition, s.now))
       && t.tables == s.tables.(leases := t.tables.leases, workflows := s.tables.workflows[op := w'],
                                receipts := t.tables.receipts, deadLetters := t.tables.deadLetters,
                                events := Append(s.tables.events, w.instanceId, EventOf(op, e.transition)))
       && t.tables.receipts.Keys == s.tables.receipts.Keys
       && t.tables.deadLetters
          == (if e.transition.Exhaust?
              then WithDeadLetter(s.tables.deadLetters, w.command, true, e.transition.attempts, true, w.generation)
              else s.tables.deadLetters)
       && (!e.transition.Progress? ==> w'.failure == if e.transition.Succeed? then None else Some(e.transition.failure))
       && t == s.(tables := t.tables, commits := t.commits, histories := s.histories[op := h.(run := h.run + [e])])
  }

  lemma ClaimRowEffect(s: Orc, op: nat, worker: nat, leaseMs: Time)
    requires op in s.tables.workflows && IsLive(s.tables.workflows[op].saga.status)
    ensures Claimed(s, op, worker, leaseMs) == s || ClaimsRow(s, Claimed(s, op, worker, leaseMs), op)
  {
  }

  lemma CheckpointEffect(s: Orc, c: Ticket, e: Entry)
    requires e.transition.Progress? && e.saga == c.row.saga && TicketOk(s, c)
    ensures Committed(s, c, e) == s || CommitsRow(s, Committed(s, c, e), c.operationId, e)
  {
  }

  lemma CompletionEffect(s: Orc, c: Ticket, e: Entry)
    requires (e.transition.Succeed? || e.transition.Stop?) && e.saga == c.row.saga && TicketOk(s, c)
    ensures Committed(s, c, e) == s || CommitsRow(s, Committed(s, c, e), c.operationId, e)
  {
  }

  lemma ExhaustionEffect(s: Orc, c: Ticket, e: Entry)
    requires e.transition.Exhaust? && e.saga == c.row.saga && TicketOk(s, c)
    ensures Committed(s, c, e) == s || CommitsRow(s, Committed(s, c, e), c.operationId, e)
  {
  }

  lemma CommitRowEffect(s: Orc, c: Ticket, e: Entry)
    requires e.saga == c.row.saga && TicketOk(s, c)
    ensures Committed(s, c, e) == s || CommitsRow(s, Committed(s, c, e), c.operationId, e)
  {
    match e.transition
    case Progress(_, _, _, _, _) => CheckpointEffect(s, c, e);
    case Exhaust(_, _, _) => ExhaustionEffect(s, c, e);
    case _ => CompletionEffect(s, c, e);
  }

  // ----- Identity is kept --------------------------------------------------------------------

  lemma ClaimKeepsIdentity(s: Orc, t: Orc, op: nat)
    requires ClaimsRow(s, t, op) && Identified(s)
    ensures Identified(t)
  {
    forall other | other in t.tables.workflows
      ensures RowIdentity(t, other)
    {
      assert RowIdentity(s, other);
    }
  }

  lemma CommitKeepsIdentity(s: Orc, t: Orc, op: nat, e: Entry)
    requires CommitsRow(s, t, op, e) && Identified(s)
    ensures Identified(t)
  {
    assert RowIdentity(s, op);
    forall other | other in t.tables.workflows
      ensures RowIdentity(t, other)
    {
      assert RowIdentity(s, other);
    }
  }

  lemma AdmissionKeepsIdentity(s: Orc, eventId: nat, delivery: Delivery, inherited: Option<nat>)
    requires Identified(s) && eventId in s.issued
    ensures Identified(Delivered(s, s.issued[eventId], delivery, inherited))
  {
    var t := Delivered(s, s.issued[eventId], delivery, inherited);
    AdmitOriginalOutcome(s.tables, s.issued[eventId], delivery, inherited, s.now);
    forall other | other in t.tables.workflows
      ensures RowIdentity(t, other)
    {
      if other in s.tables.workflows {
        assert RowIdentity(s, other);
      }
    }
  }

  lemma RefusalKeepsIdentity(s: Orc, request: ReplayRequested, delivery: Delivery)
    requires Identified(s)
    ensures Identified(s.(tables := Refuse(s.tables, request, delivery)))
  {
    assert forall op | op in s.tables.workflows :: RowIdentity(s, op) ==>
             RowIdentity(s.(tables := Refuse(s.tables, request, delivery)), op);
  }

  lemma AuthorizationKeepsIdentity(s: Orc, request: ReplayRequested, delivery: Delivery)
    requires Identified(s) && Replayable(s.tables, request.originalEventId)
    ensures Identified(s.(tables := Authorize(s.tables, request, delivery)))
  {
    var t := s.(tables := Authorize(s.tables, request, delivery));
    assert forall op | op in s.tables.workflows :: RowIdentity(s, op) ==> RowIdentity(t, op);
    assert LettersIdentified(t);
    assert AuthorizationsIdentified(t);
  }

  lemma RequestKeepsIdentity(s: Orc, request: ReplayRequested, delivery: Delivery)
    requires Identified(s)
    ensures Identified(Requested(s, request, delivery))
  {
    ReplayRequestOutcome(s.tables, request, delivery);
    RefusalKeepsIdentity(s, request, delivery);
    if Replayable(s.tables, request.originalEventId) {
      AuthorizationKeepsIdentity(s, request, delivery);
    }
  }

  lemma ExhaustionKeepsIdentity(s: Orc, eventId: nat, supported: bool, delivery: Delivery, attempts: nat, allowed: bool)
    requires Identified(s) && eventId in s.issued
    ensures Identified(Exhausted(s, s.issued[eventId], supported, delivery, attempts, allowed))
  {
    var t := Exhausted(s, s.issued[eventId], supported, delivery, attempts, allowed);
    ExhaustionsKeepRows(s, s.issued[eventId], supported, delivery, attempts, allowed);
    forall other | other in t.tables.workflows
      ensures RowIdentity(t, other)
    {
      assert RowIdentity(s, other);
    }
  }

  /** An authorized replay carries the command its event was issued with. */
  lemma ReplayIsTheIssuedCommand(s: Orc, id: nat, command: Command, delivery: Delivery)
    requires Identified(s) && Matches(s.tables, id, command, delivery)
    ensures command.eventId in s.issued && SameIntent(command, s.issued[command.eventId])
  {
    assert !s.tables.replays[id].decision.Refused?;
  }

  lemma ReopeningKeepsIdentity(s: Orc, id: nat, command: Command, delivery: Delivery)
    requires Identified(s) && Matches(s.tables, id, command, delivery)
    requires PendingLetter(s.tables, command.eventId, delivery.generation)
    requires Reopenable(s.tables, command, delivery.generation)
    ensures Identified(WithOpened(s, Reopen(s.tables, id, command, delivery, s.now), command.operationId))
  {
    var t := WithOpened(s, Reopen(s.tables, id, command, delivery, s.now), command.operationId);
    ReplayIsTheIssuedCommand(s, id, command, delivery);
    forall other | other in t.tables.workflows
      ensures RowIdentity(t, other)
    {
      assert RowIdentity(s, other);
    }
  }

  lemma RedeliveryKeepsIdentity(s: Orc, command: Command, delivery: Delivery)
    requires Identified(s)
    ensures Identified(Redelivered(s, command, delivery))
  {
    var id := ReplayCommandOutcome(s.tables, command, delivery, s.now);
    var t := Redelivered(s, command, delivery);
    if t.histories == s.histories && t.tables == s.tables.(poison := t.tables.poison) {
      assert forall op | op in s.tables.workflows :: RowIdentity(s, op) ==> RowIdentity(t, op);
    } else {
      ReopeningKeepsIdentity(s, id, command, delivery);
    }
  }

  /** What a commit past the fence gives: the row is still as the ticket's claim left it. */
  lemma CommitIsDecided(s: Orc, input: Input)
    requires Fenced(s) && input.WorkerCommits? && Enabled(s, input) && Step(s, input) != s
    ensures var c := input.ticket;
            var e := Entry(c.row.saga, input.reply, input.decidedAt, input.random, s.now,
                           DecisionOf(c, input.reply, input.decidedAt, input.random));
            && CommitsRow(s, Step(s, input), c.operationId, e)
            && e.saga.status.Running? && e.now == s.now
            && c in s.tickets && s.tables.workflows[c.operationId] == c.row
            && Decided(s.tables.workflows[c.operationId].command, e)
  {
    var c := input.ticket;
    var e := Entry(c.row.saga, input.reply, input.decidedAt, input.random, s.now,
                   DecisionOf(c, input.reply, input.decidedAt, input.random));
    assert TicketOk(s, c);
    CommitEffect(s, c, e);
    CommitRowEffect(s, c, e);
  }

  lemma OtherStepsKeepIdentity(s: Orc, input: Input)
    requires Identified(s) && Enabled(s, input) && !input.WorkerClaims? && !input.WorkerCommits?
    ensures Identified(Step(s, input))
  {
    match input
    case DeliverCommand(eventId, delivery, inherited) => AdmissionKeepsIdentity(s, eventId, delivery, inherited);
    case DeliverReplayRequest(request, delivery) => RequestKeepsIdentity(s, request, delivery);
    case DeliverReplayCommand(command, delivery) => RedeliveryKeepsIdentity(s, command, delivery);
    case ExhaustDelivery(eventId, supported, delivery, attempts, allowed) =>
      ExhaustionKeepsIdentity(s, eventId, supported, delivery, attempts, allowed);
    case _ => PassiveStepsKeepIdentity(s, input);
  }

  lemma PassiveStepsKeepIdentity(s: Orc, input: Input)
    requires Identified(s) && Enabled(s, input) && (input.Tick? || input.Issue? || input.QuarantineRecord?)
    ensures Identified(Step(s, input))
  {
    assert forall op | op in s.tables.workflows :: RowIdentity(s, op) ==> RowIdentity(Step(s, input), op);
  }

  lemma StepKeepsIdentity(s: Orc, input: Input)
    requires Fenced(s) && Identified(s)
    ensures Identified(Step(s, input))
  {
    if Enabled(s, input) && Step(s, input) != s {
      if input.WorkerClaims? {
        ClaimRowEffect(s, input.operationId, input.worker, input.leaseMs);
        ClaimKeepsIdentity(s, Step(s, input), input.operationId);
      } else if input.WorkerCommits? {
        CommitIsDecided(s, input);
        var c := input.ticket;
        CommitKeepsIdentity(s, Step(s, input), c.operationId,
          Entry(c.row.saga, input.reply, input.decidedAt, input.random, s.now,
                DecisionOf(c, input.reply, input.decidedAt, input.random)));
      } else {
        OtherStepsKeepIdentity(s, input);
      }
    }
  }

  // ----- Runs are extended -------------------------------------------------------------------

  /** Old rows and their histories stay; a changed row starts a new history. */
  ghost predicate Restarts(s: Orc, t: Orc) {
    && s.tables.receipts.Keys <= t.tables.receipts.Keys
    && (forall op | op in t.tables.workflows ::
          || (op in s.tables.workflows && t.tables.workflows[op] == s.tables.workflows[op]
              && (op in s.histories ==> op in t.histories && t.histories[op] == s.histories[op]))
          || (&& op in t.histories && t.histories[op].run == []
              && t.tables.workflows[op].saga == StartOf(t.histories[op])
              && (t.tables.workflows[op].generation > 0 ==> t.histories[op].resource.None?)
              && CommandReceipt(t.tables.workflows[op].eventId, t.tables.workflows[op].generation) in t.tables.receipts))
  }

  lemma RestartKeepsRuns(s: Orc, t: Orc)
    requires Restarts(s, t) && RowsRun(s)
    ensures RowsRun(t)
  {
    forall op | op in t.tables.workflows
      ensures RowRun(t, op)
    {
      if op in s.tables.workflows {
        assert RowRun(s, op);
      }
    }
  }

  lemma DeliveriesRestart(s: Orc, command: Command, delivery: Delivery, inherited: Option<nat>)
    requires delivery.generation == 0
    ensures Restarts(s, Delivered(s, command, delivery, inherited))
  {
    AdmitOriginalOutcome(s.tables, command, delivery, inherited, s.now);
  }

  lemma ReopeningRestarts(s: Orc, id: nat, command: Command, delivery: Delivery)
    requires Matches(s.tables, id, command, delivery)
    requires PendingLetter(s.tables, command.eventId, delivery.generation)
    requires Reopenable(s.tables, command, delivery.generation)
    ensures Restarts(s, WithOpened(s, Reopen(s.tables, id, command, delivery, s.now), command.operationId))
  {
  }

  lemma RedeliveriesRestart(s: Orc, command: Command, delivery: Delivery)
    ensures Restarts(s, Redelivered(s, command, delivery))
  {
    var id := ReplayCommandOutcome(s.tables, command, delivery, s.now);
    var outcome := AdmitReplayCommand(s.tables, command, delivery, s.now);
    if outcome.Ok? && outcome.value.1.AdmissionAccepted? {
      ReopeningRestarts(s, id, command, delivery);
    }
  }

  lemma RequestsRestart(s: Orc, request: ReplayRequested, delivery: Delivery)
    ensures Restarts(s, Requested(s, request, delivery))
  {
    ReplayRequestOutcome(s.tables, request, delivery);
  }

  lemma ExhaustionsRestart(s: Orc, command: Command, supported: bool, delivery: Delivery, attempts: nat, allowed: bool)
    ensures Restarts(s, Exhausted(s, command, supported, delivery, attempts, allowed))
  {
  }

  lemma OtherStepsRestart(s: Orc, input: Input)
    requires Enabled(s, input) && !input.WorkerClaims? && !input.WorkerCommits?
    ensures Restarts(s, Step(s, input))
  {
    match input
    case DeliverCommand(eventId, delivery, inherited) => DeliveriesRestart(s, s.issued[eventId], delivery, inherited);
    case DeliverReplayRequest(request, delivery) => RequestsRestart(s, request, delivery);
    case DeliverReplayCommand(command, delivery) => RedeliveriesRestart(s, command, delivery);
    case ExhaustDelivery(eventId, supported, delivery, attempts, allowed) =>
      ExhaustionsRestart(s, s.issued[eventId], supported, delivery, attempts, allowed);
    case _ =>
  }

  lemma ClaimKeepsRuns(s: Orc, t: Orc, op: nat)
    requires ClaimsRow(s, t, op) && RowsRun(s)
    ensures RowsRun(t)
  {
    forall other | other in t.tables.workflows
      ensures RowRun(t, other)
    {
      assert RowRun(s, other);
    }
  }

  lemma CommitExtendsRun(command: Command, start: Saga, run: seq<Entry>, saga: Saga, e: Entry)
    requires ValidRun(command, start, run) && Decided(command, e) && e.saga == saga && saga.status.Running?
    requires var last := FinalSaga(start, run); saga == last || (IsLive(last.status) && saga == ClaimedSaga(last))
    ensures ValidRun(command, start, run + [e])
    ensures FinalSaga(start, run + [e]) == Applied(saga, e.transition, e.now)
  {
    assert (run + [e])[..|run|] == run;
  }

  lemma CommitKeepsRuns(s: Orc, t: Orc, op: nat, e: Entry)
    requires CommitsRow(s, t, op, e) && RowsRun(s)
    requires Decided(s.tables.workflows[op].command, e) && e.saga.status.Running? && e.now == s.now
    ensures RowsRun(t)
  {
    forall other | other in t.tables.workflows
      ensures RowRun(t, other)
    {
      assert RowRun(s, other);
      if other == op {
        var w, h := s.tables.workflows[op], s.histories[op];
        CommitExtendsRun(w.command, StartOf(h), h.run, w.saga, e);
      }
    }
  }

  lemma StepKeepsRuns(s: Orc, input: Input)
    requires Fenced(s) && RowsRun(s)
    ensures RowsRun(Step(s, input))
  {
    if Enabled(s, input) && Step(s, input) != s {
      if input.WorkerClaims? {
        ClaimRowEffect(s, input.operationId, input.worker, input.leaseMs);
        ClaimKeepsRuns(s, Step(s, input), input.operationId);
      } else if input.WorkerCommits? {
        CommitIsDecided(s, input);
        var c := input.ticket;
        CommitKeepsRuns(s, Step(s, input), c.operationId,
          Entry(c.row.saga, input.reply, input.decidedAt, input.random, s.now,
                DecisionOf(c, input.reply, input.decidedAt, input.random)));
      } else {
        OtherStepsRestart(s, input);
        RestartKeepsRuns(s, Step(s, input));
      }
    }
  }

  /** Over every interleaving: the store is fenced, and its rows are ends of saga runs. */
  ghost predicate Invariant(s: Orc) {
    Fenced(s) && Identified(s) && RowsRun(s)
  }

  lemma {:induction false} RowsAreSagaRuns(start: Time, inputs: seq<Input>)
    ensures Invariant(Run(start, inputs))
  {
    RunsAreFenced(start, inputs);
    if inputs != [] {
      var before := inputs[..|inputs| - 1];
      RowsAreSagaRuns(start, before);
      StepKeepsIdentity(Run(start, before), inputs[|inputs| - 1]);
      StepKeepsRuns(Run(start, before), inputs[|inputs| - 1]);
    }
  }

  // ----- What the stored rows therefore satisfy ----------------------------------------------

  lemma RowIsSound(s: Orc, op: nat)
    requires Invariant(s) && op in s.tables.workflows
    ensures Sound(s.tables.workflows[op].action, s.tables.workflows[op].saga)
  {
    assert RowIdentity(s, op) && RowRun(s, op);
    var w, h := s.tables.workflows[op], s.histories[op];
    FreshIsSound(w.action, h.resource, h.admitted);
    RunIsSound(w.command, StartOf(h), h.run);
    if w.saga != FinalSaga(StartOf(h), h.run) {
      ClaimKeepsSound(w.action, FinalSaga(StartOf(h), h.run));
    }
  }

  /**
   * Every stored row, after any sequence of events: status and stage agree; a live row is at a
   * stage of its capability, holds a task exactly while polling, knows its resource wherever one
   * is needed, and neither waits for retry nor counts one at a mutation stage.
   */
  lemma StoredRowsAreSound(start: Time, inputs: seq<Input>, op: nat)
    requires op in Run(start, inputs).tables.workflows
    ensures var w := Run(start, inputs).tables.workflows[op];
            && Sound(w.action, w.saga)
            && (w.saga.stage.At? && w.saga.stage.stage in MutationStages(w.action) ==>
                  w.saga.stageAttempt == 0 && !w.saga.status.RetryWait?)
  {
    RowsAreSagaRuns(start, inputs);
    RowIsSound(Run(start, inputs), op);
    var w := Run(start, inputs).tables.workflows[op];
    if w.saga.stage.At? {
      MutationStagesAreTheMutatingRoles(w.action, w.saga.stage.stage);
    }
  }

  /**
   * Every stored success, after any sequence of events, was earned by the commits made since the
   * row was admitted or last reopened.
   */
  lemma StoredSuccessIsEarned(start: Time, inputs: seq<Input>, op: nat)
    requires op in Run(start, inputs).tables.workflows
    requires Run(start, inputs).tables.workflows[op].saga.status.Succeeded?
    ensures op in Run(start, inputs).histories && Run(start, inputs).histories[op].run != []
    ensures var s := Run(start, inputs);
            var w, run := s.tables.workflows[op], s.histories[op].run;
            var last := |run| - 1;
            || (w.action.PurgeInstance? && run[last].saga.stage == At(VerifyingPurge)
                && run[last].reply.Observed? && !ReportsPresent(run[last].reply.observation))
            || (run[last].saga.stage.At? && RoleOf(w.action, run[last].saga.stage.stage).Closing?
                && ClosingProof(w.command, run[last].reply)
                && forall mutation :: mutation in MutationStages(w.action) ==>
                     RoleOf(w.action, mutation).Mutating?
                     && Won(run[..last], mutation, RoleOf(w.action, mutation).polling))
  {
    var s := Run(start, inputs);
    RowsAreSagaRuns(start, inputs);
    assert RowIdentity(s, op) && RowRun(s, op);
    var h := s.histories[op];
    SuccessIsEarned(s.tables.workflows[op].command, h.resource, h.admitted, h.run);
    RunStep(s.tables.workflows[op].command, StartOf(h), h.run, |h.run| - 1);
  }

  /** The commits that end a workflow always find the receipt it was admitted under. */
  lemma CommitsFindTheirReceipt(start: Time, inputs: seq<Input>, op: nat, worker: nat, token: nat, transition: Transition)
    requires var s := Run(start, inputs); HoldsLease(s.tables, op, worker, token, s.now)
    ensures var s := Run(start, inputs); Commit(s.tables, op, worker, token, transition, s.now).Ok?
  {
    RowsAreSagaRuns(start, inputs);
    assert RowIdentity(Run(start, inputs), op) && RowRun(Run(start, inputs), op);
  }

  /**
   * Reopening a row forgets its provider resource, so a replayed operation of any capability but
   * create never calls the provider again and never succeeds: it fails within two commits.
   */
  lemma ReplayedOperationsOnlyFail(start: Time, inputs: seq<Input>, op: nat)
    requires op in Run(start, inputs).tables.workflows
    requires var w := Run(start, inputs).tables.workflows[op]; w.generation > 0 && !w.action.CreateInstance?
    ensures op in Run(start, inputs).histories
    ensures var s := Run(start, inputs);
            var w, run := s.tables.workflows[op], s.histories[op].run;
            && !w.saga.status.Succeeded? && !w.saga.status.ManualReview?
            && |run| <= 2 && (|run| == 2 <==> w.saga.status.Failed?)
            && (forall k | 0 <= k < |run| :: run[k].reply.NoReply?)
  {
    var s := Run(start, inputs);
    RowsAreSagaRuns(start, inputs);
    assert RowIdentity(s, op) && RowRun(s, op);
    var h := s.histories[op];
    WithoutResourceOnlyFailure(s.tables.workflows[op].command, h.admitted, h.run);
  }
}
