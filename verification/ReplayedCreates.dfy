/**
 * Creates reopened by a governed replay, over every run of workers and provider. A create exhausts
 * its retries only past an accepted submission, which the provider remembers together with the
 * correlation id; a replay usually brings another, and then the same submission is a protocol error.
 */
module ReplayedCreates {
  import opened Prelude
  import opened Stages
  import opened SagaEngine
  import opened SagaRuns
  import opened EarnedSuccess
  import opened WorkflowTables
  import opened Orchestrator
  import opened Fencing
  import opened RowRuns
  import opened GovernedReplay
  import opened Letters
  import opened Provider
  import opened Effects
  import opened Takeovers

  /** What the provider remembers a create's submission by. */
  function CreateKey(op: nat): Key {
    Key(SubmitCreate, op, StepCreate)
  }

  predicate IsCreate(s: Orc, op: nat) {
    op in s.tables.workflows && s.tables.workflows[op].action.CreateInstance?
  }

  // ----- Past the submission -----------------------------------------------------------------

  predicate SubmissionAchieved(e: Entry) {
    e.saga.stage == At(SubmittingCreate) && Achieved(e)
  }

  ghost predicate WasSubmitted(run: seq<Entry>) {
    exists k :: 0 <= k < |run| && SubmissionAchieved(run[k])
  }

  /** A create that is further along than its submission has had the submission taken on. */
  lemma FurtherAlongWasSubmitted(command: Command, resource: Option<nat>, admitted: Time, run: seq<Entry>)
    requires ActionOf(command).CreateInstance? && ValidRun(command, FreshSaga(resource, admitted), run)
    requires var saga := FinalSaga(FreshSaga(resource, admitted), run);
             saga.stage.At? && Rank(CreateInstance, saga.stage.stage) < Rank(CreateInstance, SubmittingCreate)
    ensures WasSubmitted(run)
  {
    var saga := FinalSaga(FreshSaga(resource, admitted), run);
    FreshIsSound(CreateInstance, resource, admitted);
    RunKeepsStanding(command, FreshSaga(resource, admitted), run, SubmittingCreate);
    if saga.stage.stage == PollingCreate {
      var k :| 0 <= k < |run| && AcceptedAs(run[k], SubmittingCreate, saga.task.value);
      assert SubmissionAchieved(run[k]);
    } else {
      var k := WonIsAchieved(run, SubmittingCreate, PollingCreate);
      assert SubmissionAchieved(run[k]);
    }
  }

  /** Retries are exhausted only where a create polls or observes. */
  lemma ExhaustedFurtherAlong(command: Command, e: Entry)
    requires ActionOf(command).CreateInstance? && Decided(command, e) && e.transition.Exhaust?
    requires e.saga.status.Running? && Sound(CreateInstance, e.saga)
    ensures Rank(CreateInstance, e.saga.stage.stage) < Rank(CreateInstance, SubmittingCreate)
  {
    ExhaustionIsExact(command, e);
  }

  lemma RanOutWasSubmitted(s: Orc, op: nat)
    requires RowsIdentified(s) && RowsRun(s) && IsCreate(s, op) && RanOut(s, op)
    ensures WasSubmitted(s.histories[op].run)
  {
    assert RowIdentity(s, op) && RowRun(s, op);
    var command, h := s.tables.workflows[op].command, s.histories[op];
    var last := |h.run| - 1;
    FreshIsSound(CreateInstance, h.resource, h.admitted);
    RunIsSound(command, StartOf(h), h.run[..last]);
    ClaimKeepsSound(CreateInstance, FinalSaga(StartOf(h), h.run[..last]));
    ExhaustedFurtherAlong(command, h.run[last]);
    FurtherAlongWasSubmitted(command, h.resource, h.admitted, h.run[..last]);
    var k :| 0 <= k < last && SubmissionAchieved(h.run[..last][k]);
    assert SubmissionAchieved(h.run[k]);
  }

  lemma LiveWasSubmitted(s: Orc, op: nat)
    requires RowsIdentified(s) && RowsRun(s) && IsCreate(s, op) && s.tables.workflows[op].saga.stage.At?
    requires Rank(CreateInstance, s.tables.workflows[op].saga.stage.stage) < Rank(CreateInstance, SubmittingCreate)
    ensures op in s.histories && WasSubmitted(s.histories[op].run)
  {
    assert RowIdentity(s, op) && RowRun(s, op);
    FurtherAlongWasSubmitted(s.tables.workflows[op].command, s.histories[op].resource, s.histories[op].admitted,
                             s.histories[op].run);
  }

  lemma SucceededWasSubmitted(s: Orc, op: nat)
    requires Invariant(s) && IsCreate(s, op) && s.tables.workflows[op].saga.status.Succeeded?
    ensures op in s.histories && WasSubmitted(s.histories[op].run)
  {
    var h := SucceededRow(s, op);
    var last := |h.run| - 1;
    assert SubmittingCreate in MutationStages(CreateInstance);
    var k := WonIsAchieved(h.run[..last], SubmittingCreate, PollingCreate);
    assert SubmissionAchieved(h.run[k]);
  }

  // ----- One correlation id per remembered submission ----------------------------------------

  function Remembered(s: Cloud, op: nat): nat
    requires CreateKey(op) in s.traffic.world.cache
  {
    s.traffic.world.cache[CreateKey(op)].canonical.correlation
  }

  /** The call was made for the submission of the operation's create. */
  predicate Submits(s: Cloud, call: nat, op: nat) {
    call in s.callers && Mutates(s.callers[call]) && RequestOf(s.callers[call]).key == CreateKey(op)
  }

  /** Every answer to the submission, and every call that may still be, carries what is remembered. */
  ghost predicate CallsAgree(s: Cloud, op: nat) {
    && (forall call | Submits(s, call, op) && call in s.answers && s.answers[call].Mutation? ::
          CreateKey(op) in s.traffic.world.cache && s.callers[call].row.command.correlation == Remembered(s, op))
    && (CreateKey(op) in s.traffic.world.cache ==>
          forall call | Submits(s, call, op) && call in s.traffic.waiting ::
            s.callers[call].row.command.correlation == Remembered(s, op))
  }

  /** Until something is remembered, every claim of the row was for its present command. */
  ghost predicate ClaimsAgree(s: Cloud, op: nat) {
    IsCreate(s.orc, op) && CreateKey(op) !in s.traffic.world.cache ==>
      forall c | c in s.orc.tickets && c.operationId == op ::
        c.row.command.correlation == s.orc.tables.workflows[op].command.correlation
  }

  /** A submission that the row's run rests on is remembered under the row's correlation id. */
  ghost predicate RunAgrees(s: Cloud, op: nat) {
    IsCreate(s.orc, op) && op in s.orc.histories && WasSubmitted(s.orc.histories[op].run) ==>
      CreateKey(op) in s.traffic.world.cache && s.orc.tables.workflows[op].command.correlation == Remembered(s, op)
  }

  ghost predicate Agrees(s: Cloud, op: nat) {
    CallsAgree(s, op) && ClaimsAgree(s, op) && RunAgrees(s, op)
  }

  // ----- Provider steps ----------------------------------------------------------------------

  /** Whoever submits a create claimed a row of that create. */
  lemma SubmitterClaimedCreate(s: Orc, c: Ticket, op: nat)
    requires IssuedOnce(s) && RowsIdentified(s) && TicketsIdentified(s) && TicketsOk(s)
    requires c in s.tickets && Mutates(c) && RequestOf(c).key == CreateKey(op)
    ensures c.operationId == op && IsCreate(s, op) && c.row.saga.stage == At(SubmittingCreate)
    ensures SameIntent(c.row.command, s.tables.workflows[op].command)
  {
    KeysNameOperations(s, c);
    assert TicketOk(s, c) && RowIdentity(s, op) && IdentifiedRow(s, op, c.row);
  }

  /** What the calls themselves guarantee. */
  ghost predicate Callable(s: Cloud) {
    && IssuedOnce(s.orc) && RowsIdentified(s.orc) && TicketsIdentified(s.orc) && TicketsOk(s.orc) && CallsGrounded(s)
  }

  /** Before anything is remembered, all calls for the submission carry the row's correlation id. */
  lemma UnrememberedCallsAgree(s: Cloud, op: nat, c: Ticket, d: Ticket)
    requires Callable(s) && ClaimsAgree(s, op) && CreateKey(op) !in s.traffic.world.cache
    requires c in s.orc.tickets && Mutates(c) && RequestOf(c).key == CreateKey(op)
    requires d in s.orc.tickets && Mutates(d) && RequestOf(d).key == CreateKey(op)
    ensures c.row.command.correlation == d.row.command.correlation
  {
    SubmitterClaimedCreate(s.orc, c, op);
    SubmitterClaimedCreate(s.orc, d, op);
  }

  /** What is remembered stays so, under the same correlation id. */
  predicate KeepsRemembered(s: Cloud, t: Cloud, op: nat) {
    CreateKey(op) in s.traffic.world.cache ==>
      CreateKey(op) in t.traffic.world.cache && Remembered(t, op) == Remembered(s, op)
  }

  lemma RowsStillAgree(s: Cloud, t: Cloud, op: nat)
    requires t.orc == s.orc && KeepsRemembered(s, t, op) && ClaimsAgree(s, op) && RunAgrees(s, op)
    ensures ClaimsAgree(t, op) && RunAgrees(t, op)
  {
  }

  lemma BeginKeepsRemembered(s: Cloud, c: Ticket, script: Script, op: nat)
    requires Mutates(c)
    ensures KeepsRemembered(s, BeginAnswered(s, c, script), op)
  {
    BeginEffect(s.traffic.world, RequestOf(c), script);
  }

  lemma OtherBeginAgrees(s: Cloud, c: Ticket, script: Script, op: nat)
    requires CallsGrounded(s) && CallsAgree(s, op) && Mutates(c) && RequestOf(c).key != CreateKey(op)
    ensures CallsAgree(BeginAnswered(s, c, script), op)
  {
    BeginRemembers(s.traffic.world, RequestOf(c), script);
  }

  lemma RepeatedBeginAgrees(s: Cloud, c: Ticket, script: Script, op: nat)
    requires CallsGrounded(s) && CallsAgree(s, op) && Mutates(c) && RequestOf(c).key == CreateKey(op)
    requires CreateKey(op) in s.traffic.world.cache
    ensures CallsAgree(BeginAnswered(s, c, script), op)
  {
  }

  lemma FirstBeginAgrees(s: Cloud, c: Ticket, script: Script, op: nat)
    requires CallsGrounded(s) && CallsAgree(s, op) && Mutates(c) && RequestOf(c).key == CreateKey(op)
    requires CreateKey(op) !in s.traffic.world.cache
    requires forall call | Submits(s, call, op) && call in s.traffic.waiting ::
               s.callers[call].row.command.correlation == c.row.command.correlation
    ensures CallsAgree(BeginAnswered(s, c, script), op)
  {
    BeginRemembers(s.traffic.world, RequestOf(c), script);
  }

  lemma BeginAgrees(s: Cloud, c: Ticket, script: Script, op: nat)
    requires Callable(s) && Agrees(s, op) && c in s.orc.tickets && Mutates(c)
    ensures Agrees(BeginAnswered(s, c, script), op)
  {
    if RequestOf(c).key != CreateKey(op) {
      OtherBeginAgrees(s, c, script, op);
    } else if CreateKey(op) in s.traffic.world.cache {
      RepeatedBeginAgrees(s, c, script, op);
    } else {
      forall call | Submits(s, call, op) && call in s.traffic.waiting
        ensures s.callers[call].row.command.correlation == c.row.command.correlation
      {
        UnrememberedCallsAgree(s, op, s.callers[call], c);
      }
      FirstBeginAgrees(s, c, script, op);
    }
    BeginKeepsRemembered(s, c, script, op);
    RowsStillAgree(s, BeginAnswered(s, c, script), op);
  }

  /** Only what is remembered is answered. */
  lemma AnsweredIsRemembered(w: World, r: Request, script: Script, aborted: bool)
    ensures var (next, reply) := Finish(w, r, script, aborted);
            reply.Mutation? ==> r.key in next.cache && next.cache[r.key].canonical == Canonical(r)
  {
  }

  lemma OtherFinishAgrees(s: Cloud, call: nat, aborted: bool, op: nat)
    requires CallsGrounded(s) && CallsAgree(s, op) && call in s.traffic.waiting
    requires s.traffic.waiting[call].request.key != CreateKey(op)
    ensures CallsAgree(FinishAnswered(s, call, aborted), op)
    ensures KeepsRemembered(s, FinishAnswered(s, call, aborted), op)
  {
    FinishRemembers(s.traffic.world, s.traffic.waiting[call].request, s.traffic.waiting[call].script, aborted);
  }

  lemma OwnFinishAgrees(s: Cloud, call: nat, aborted: bool, op: nat)
    requires CallsGrounded(s) && CallsAgree(s, op) && call in s.traffic.waiting && Submits(s, call, op)
    requires forall other | Submits(s, other, op) && other in s.traffic.waiting ::
               s.callers[other].row.command.correlation == s.callers[call].row.command.correlation
    ensures CallsAgree(FinishAnswered(s, call, aborted), op)
    ensures KeepsRemembered(s, FinishAnswered(s, call, aborted), op)
  {
    var r, script := s.traffic.waiting[call].request, s.traffic.waiting[call].script;
    assert r == RequestOf(s.callers[call]);
    FinishRemembers(s.traffic.world, r, script, aborted);
    AnsweredIsRemembered(s.traffic.world, r, script, aborted);
  }

  lemma FinishAgrees(s: Cloud, call: nat, aborted: bool, op: nat)
    requires Callable(s) && Agrees(s, op) && call in s.traffic.waiting
    ensures Agrees(FinishAnswered(s, call, aborted), op)
    ensures KeepsRemembered(s, FinishAnswered(s, call, aborted), op)
  {
    if s.traffic.waiting[call].request.key != CreateKey(op) {
      OtherFinishAgrees(s, call, aborted, op);
    } else {
      forall other | Submits(s, other, op) && other in s.traffic.waiting
        ensures s.callers[other].row.command.correlation == s.callers[call].row.command.correlation
      {
        if CreateKey(op) !in s.traffic.world.cache {
          UnrememberedCallsAgree(s, op, s.callers[other], s.callers[call]);
        }
      }
      OwnFinishAgrees(s, call, aborted, op);
    }
    RowsStillAgree(s, FinishAnswered(s, call, aborted), op);
  }

  lemma ProviderAgrees(s: Cloud, t: Cloud, input: CloudInput, op: nat)
    requires Moves(s, t, input) && !input.Orchestrate? && Callable(s) && Agrees(s, op)
    ensures Agrees(t, op) && KeepsRemembered(s, t, op)
  {
    if t != s {
      match input
      case BeginCall(c, script) =>
        BeginAgrees(s, c, script, op);
        BeginKeepsRemembered(s, c, script, op);
      case FinishCall(call, aborted) => FinishAgrees(s, call, aborted, op);
      case _ =>
    }
  }

  // ----- Orchestrator steps ------------------------------------------------------------------

  lemma ClaimAgrees(s: Cloud, t: Cloud, input: Input, op: nat)
    requires input.WorkerClaims? && t == s.(orc := t.orc) && ClaimsRow(s.orc, t.orc, input.operationId)
    requires ClaimStep(s.orc, t.orc, input.operationId, input.worker, input.leaseMs) && Agrees(s, op)
    ensures Agrees(t, op)
  {
  }

  /** An achieved submission was answered, and what is answered is remembered. */
  lemma AchievedAgrees(s: Cloud, c: Ticket, e: Entry)
    requires CallsAgree(s, c.operationId) && CallsGrounded(s) && Learned(s, c, e.reply) && e.saga == c.row.saga
    requires c.row.command.operationId == c.operationId && ActionOf(c.row.command).CreateInstance? && SubmissionAchieved(e)
    ensures CreateKey(c.operationId) in s.traffic.world.cache
    ensures c.row.command.correlation == Remembered(s, c.operationId)
  {
    var call :| call in s.answers && call in s.callers && s.callers[call] == c && s.answers[call] == e.reply;
    assert Submits(s, call, c.operationId);
  }

  lemma CommitAgrees(s: Cloud, t: Cloud, c: Ticket, e: Entry, op: nat)
    requires CommitsRow(s.orc, t.orc, c.operationId, e) && t == s.(orc := t.orc) && Agrees(s, op)
    requires s.orc.tables.workflows[c.operationId] == c.row && e.saga == c.row.saga && IdentifiedRow(s.orc, c.operationId, c.row)
    requires CallsGrounded(s) && Learned(s, c, e.reply)
    ensures Agrees(t, op)
  {
    if op == c.operationId && IsCreate(t.orc, op) && WasSubmitted(t.orc.histories[op].run) {
      var k :| 0 <= k < |t.orc.histories[op].run| && SubmissionAchieved(t.orc.histories[op].run[k]);
      if k < |s.orc.histories[op].run| {
        assert SubmissionAchieved(s.orc.histories[op].run[k]);
      } else {
        AchievedAgrees(s, c, e);
      }
    }
  }

  /** By the time a create can be reopened, its submission is remembered. */
  lemma DeliveryAgrees(s: Cloud, t: Cloud, op: nat)
    requires Delivers(s.orc, t.orc, op) && t == s.(orc := t.orc) && t.orc.tickets == s.orc.tickets && Agrees(s, op)
    requires RowsIdentified(s.orc) && RowsRun(s.orc) && TicketsOk(s.orc) && LetterFollows(s.orc, op)
    ensures Agrees(t, op)
  {
    if ReopensRow(s.orc, t.orc, op) {
      if IsCreate(s.orc, op) {
        RanOutWasSubmitted(s.orc, op);
      }
    } else if AdmitsRow(s.orc, t.orc, op) {
      forall c | c in s.orc.tickets
        ensures c.operationId != op
      {
        assert TicketOk(s.orc, c);
      }
    }
  }

  lemma CommitsAgree(s: Cloud, input: Input, op: nat)
    requires Fenced(s.orc) && RowsIdentified(s.orc) && CallsGrounded(s) && Agrees(s, op)
    requires input.WorkerCommits? && Learned(s, input.ticket, input.reply)
    ensures Agrees(s.(orc := Step(s.orc, input)), op)
  {
    if Enabled(s.orc, input) && Step(s.orc, input) != s.orc {
      var c := input.ticket;
      CommitIsDecided(s.orc, input);
      assert RowIdentity(s.orc, c.operationId);
      CommitAgrees(s, s.(orc := Step(s.orc, input)), c,
        Entry(c.row.saga, input.reply, input.decidedAt, input.random, s.orc.now,
              DecisionOf(c, input.reply, input.decidedAt, input.random)), op);
    }
  }

  lemma OthersAgree(s: Cloud, input: Input, op: nat)
    requires Settling(s.orc) && Agrees(s, op) && !input.WorkerClaims? && !input.WorkerCommits?
    ensures Agrees(s.(orc := Step(s.orc, input)), op)
  {
    OtherStepsAreQuiet(s.orc, input);
    OtherStepsDeliver(s.orc, input, op);
    assert op in s.orc.tables.workflows ==> LetterFollows(s.orc, op);
    DeliveryAgrees(s, s.(orc := Step(s.orc, input)), op);
  }

  lemma OrchestratorAgrees(s: Cloud, input: Input, op: nat)
    requires Settling(s.orc) && CallsGrounded(s) && Agrees(s, op)
    requires input.WorkerCommits? ==> Learned(s, input.ticket, input.reply)
    ensures Agrees(s.(orc := Step(s.orc, input)), op)
  {
    if input.WorkerCommits? {
      CommitsAgree(s, input, op);
    } else if !input.WorkerClaims? {
      OthersAgree(s, input, op);
    } else if Enabled(s.orc, input) {
      ClaimTakesEffect(s.orc, input);
      ClaimAgrees(s, s.(orc := Step(s.orc, input)), input, op);
    }
  }

  lemma StepAgrees(s: Cloud, t: Cloud, input: CloudInput, op: nat)
    requires Moves(s, t, input) && Settling(s.orc) && TicketsIdentified(s.orc) && CallsGrounded(s) && Agrees(s, op)
    ensures Agrees(t, op) && KeepsRemembered(s, t, op)
  {
    if !input.Orchestrate? {
      ProviderAgrees(s, t, input, op);
    } else if t != s {
      OrchestratorAgrees(s, input.input, op);
    }
  }

  /** What a run of workers and provider is known to keep. */
  lemma CloudsKeep(start: Time, inputs: seq<CloudInput>)
    ensures var s := CloudRun(start, inputs); Settling(s.orc) && TicketsIdentified(s.orc) && CallsGrounded(s)
  {
    RunsAreComposed(start, inputs);
    CloudsAreSettling(start, inputs);
  }

  lemma {:induction false} RunsAgree(start: Time, inputs: seq<CloudInput>, op: nat)
    ensures Agrees(CloudRun(start, inputs), op)
  {
    if inputs != [] {
      var before := inputs[..|inputs| - 1];
      RunsAgree(start, before, op);
      CloudsKeep(start, before);
      StepMoves(CloudRun(start, before), inputs[|inputs| - 1]);
      StepAgrees(CloudRun(start, before), CloudRun(start, inputs), inputs[|inputs| - 1], op);
    }
  }

  // ----- Replays under another correlation id ------------------------------------------------

  /** The create goes by another correlation id than its submission is remembered by. */
  predicate Mismatched(s: Cloud, op: nat) {
    IsCreate(s.orc, op) && CreateKey(op) in s.traffic.world.cache
    && s.orc.tables.workflows[op].command.correlation != Remembered(s, op)
  }

  /** The row waits at its submission, or ended without success and with no letter to replay. */
  predicate NeverSubmits(s: Cloud, op: nat) {
    && op in s.orc.tables.workflows
    && var w := s.orc.tables.workflows[op];
       || (IsLive(w.saga.status) && w.saga.stage in {At(Accepted), At(SubmittingCreate)})
       || ((w.saga.status.Failed? || w.saga.status.ManualReview?) && !Redeemable(s.orc.tables, w.eventId))
  }

  /** A create whose submission was never taken on is still at it, or has ended without success. */
  lemma UnsubmittedMakesNoProgress(s: Orc, op: nat)
    requires Invariant(s) && IsCreate(s, op) && (op in s.histories ==> !WasSubmitted(s.histories[op].run))
    ensures var w := s.tables.workflows[op];
            || (IsLive(w.saga.status) && w.saga.stage in {At(Accepted), At(SubmittingCreate)})
            || w.saga.status.Failed? || w.saga.status.ManualReview?
  {
    var saga := s.tables.workflows[op].saga;
    RowIsSound(s, op);
    if saga.status.Succeeded? {
      SucceededWasSubmitted(s, op);
    } else if IsLive(saga.status) {
      if Rank(CreateInstance, saga.stage.stage) < Rank(CreateInstance, SubmittingCreate) {
        LiveWasSubmitted(s, op);
      }
      EarlyStages(saga.stage.stage);
    }
  }

  lemma EarlyStages(stage: Stage)
    requires !RoleOf(CreateInstance, stage).Foreign?
    ensures Rank(CreateInstance, stage) < Rank(CreateInstance, SubmittingCreate) || stage == Accepted || stage == SubmittingCreate
  {
  }

  lemma MismatchedWasNotSubmitted(s: Cloud, op: nat)
    requires RowsIdentified(s.orc) && RowsRun(s.orc) && RunAgrees(s, op) && Mismatched(s, op)
    ensures (op in s.orc.histories ==> !WasSubmitted(s.orc.histories[op].run)) && !RanOut(s.orc, op)
  {
    if RanOut(s.orc, op) {
      RanOutWasSubmitted(s.orc, op);
    }
  }

  /** Such a create waits at its submission or has ended without success, and is not replayed. */
  lemma MismatchedMakesNoProgress(s: Cloud, op: nat)
    requires Settling(s.orc) && RunAgrees(s, op) && Mismatched(s, op)
    ensures NeverSubmits(s, op)
  {
    MismatchedWasNotSubmitted(s, op);
    UnsubmittedMakesNoProgress(s.orc, op);
    assert LetterFollows(s.orc, op);
  }

  lemma SameCommandStaysMismatched(s: Cloud, t: Cloud, op: nat)
    requires Mismatched(s, op) && KeepsRemembered(s, t, op) && IsCreate(t.orc, op)
    requires t.orc.tables.workflows[op].command == s.orc.tables.workflows[op].command
    ensures Mismatched(t, op)
  {
  }

  /** Only a replay changes the command of a row. */
  lemma WorkKeepsCommand(s: Orc, input: Input, op: nat)
    requires Settling(s) && op in s.tables.workflows && !RanOut(s, op)
    ensures var t := Step(s, input);
            op in t.tables.workflows
            && t.tables.workflows[op].command == s.tables.workflows[op].command
            && t.tables.workflows[op].action == s.tables.workflows[op].action
  {
    if input.WorkerCommits? && input.ticket.operationId == op {
      OwnCommitKeepsCommand(s, input);
    } else {
      RowOnlyClaimed(s, input, op);
    }
  }

  lemma OnlyWorkMovesOrchestrator(s: Cloud, t: Cloud, input: CloudInput)
    requires Moves(s, t, input)
    ensures t.orc == s.orc || (input.Orchestrate? && t.orc == Step(s.orc, input.input))
  {
  }

  lemma StepKeepsCommand(s: Orc, t: Orc, input: CloudInput, op: nat)
    requires t == s || (input.Orchestrate? && t == Step(s, input.input))
    requires Settling(s) && IsCreate(s, op) && !RanOut(s, op)
    ensures IsCreate(t, op) && t.tables.workflows[op].command == s.tables.workflows[op].command
  {
    if t != s {
      WorkKeepsCommand(s, input.input, op);
    }
  }

  lemma OwnCommitKeepsCommand(s: Orc, input: Input)
    requires Fenced(s) && input.WorkerCommits? && input.ticket.operationId in s.tables.workflows
    ensures var t, op := Step(s, input), input.ticket.operationId;
            op in t.tables.workflows
            && t.tables.workflows[op].command == s.tables.workflows[op].command
            && t.tables.workflows[op].action == s.tables.workflows[op].action
  {
    if Enabled(s, input) && Step(s, input) != s {
      CommitIsDecided(s, input);
    }
  }

  lemma {:induction false} MismatchPersists(start: Time, inputs: seq<CloudInput>, n: nat, op: nat)
    requires n <= |inputs| && Mismatched(CloudRun(start, inputs[..n]), op)
    ensures Mismatched(CloudRun(start, inputs), op)
  {
    if n < |inputs| {
      var before := inputs[..|inputs| - 1];
      assert before[..n] == inputs[..n];
      MismatchPersists(start, before, n, op);
      RunsAgree(start, before, op);
      CloudsKeep(start, before);
      StepMoves(CloudRun(start, before), inputs[|inputs| - 1]);
      StepAgrees(CloudRun(start, before), CloudRun(start, inputs), inputs[|inputs| - 1], op);
      MismatchedWasNotSubmitted(CloudRun(start, before), op);
      OnlyWorkMovesOrchestrator(CloudRun(start, before), CloudRun(start, inputs), inputs[|inputs| - 1]);
      StepKeepsCommand(CloudRun(start, before).orc, CloudRun(start, inputs).orc, inputs[|inputs| - 1], op);
      SameCommandStaysMismatched(CloudRun(start, before), CloudRun(start, inputs), op);
    } else {
      assert inputs[..n] == inputs;
    }
  }

  lemma {:induction false} RememberedPersists(start: Time, inputs: seq<CloudInput>, n: nat, op: nat)
    requires n <= |inputs| && CreateKey(op) in CloudRun(start, inputs[..n]).traffic.world.cache
    ensures KeepsRemembered(CloudRun(start, inputs[..n]), CloudRun(start, inputs), op)
  {
    if n < |inputs| {
      var before := inputs[..|inputs| - 1];
      assert before[..n] == inputs[..n];
      RememberedPersists(start, before, n, op);
      RunsAgree(start, before, op);
      CloudsKeep(start, before);
      StepMoves(CloudRun(start, before), inputs[|inputs| - 1]);
      StepAgrees(CloudRun(start, before), CloudRun(start, inputs), inputs[|inputs| - 1], op);
    } else {
      assert inputs[..n] == inputs;
    }
  }

  /**
   * A create that has exhausted its retries and is then reopened under another correlation id never
   * succeeds: for the rest of the run it waits at its submission, or has ended `failed` or
   * `manual_review`, and it cannot be replayed again.
   */
  lemma ReopenedUnderAnotherIdNeverSucceeds(start: Time, inputs: seq<CloudInput>, n: nat, m: nat, op: nat)
    requires n <= m <= |inputs|
    requires IsCreate(CloudRun(start, inputs[..n]).orc, op) && RanOut(CloudRun(start, inputs[..n]).orc, op)
    requires IsCreate(CloudRun(start, inputs[..m]).orc, op)
    requires CloudRun(start, inputs[..m]).orc.tables.workflows[op].command.correlation
          != CloudRun(start, inputs[..n]).orc.tables.workflows[op].command.correlation
    ensures NeverSubmits(CloudRun(start, inputs), op)
  {
    ExhaustedIsRemembered(start, inputs[..n], op);
    assert inputs[..m][..n] == inputs[..n];
    RememberedPersists(start, inputs[..m], n, op);
    MismatchPersists(start, inputs, m, op);
    CloudsKeep(start, inputs);
    RunsAgree(start, inputs, op);
    MismatchedMakesNoProgress(CloudRun(start, inputs), op);
  }

  lemma ExhaustedIsRemembered(start: Time, inputs: seq<CloudInput>, op: nat)
    requires IsCreate(CloudRun(start, inputs).orc, op) && RanOut(CloudRun(start, inputs).orc, op)
    ensures CreateKey(op) in CloudRun(start, inputs).traffic.world.cache
    ensures CloudRun(start, inputs).orc.tables.workflows[op].command.correlation == Remembered(CloudRun(start, inputs), op)
  {
    CloudsKeep(start, inputs);
    RunsAgree(start, inputs, op);
    RanOutWasSubmitted(CloudRun(start, inputs).orc, op);
  }

  // ----- And only then -----------------------------------------------------------------------

  /** Everything but the correlation id of a create's submission is fixed by the command it was issued with. */
  lemma SubmissionsDifferInId(s: Cloud, op: nat, d: Ticket)
    requires IssuedOnce(s.orc) && RowsIdentified(s.orc) && TicketsIdentified(s.orc) && TicketsOk(s.orc) && CacheAsked(s)
    requires d in s.orc.tickets && Mutates(d) && RequestOf(d).key == CreateKey(op) && CreateKey(op) in s.traffic.world.cache
    ensures s.traffic.world.cache[CreateKey(op)].canonical == Canonical(RequestOf(d)).(correlation := Remembered(s, op))
  {
    var c :| AskedBy(s, CreateKey(op), c);
    SubmitterClaimedCreate(s.orc, c, op);
    SubmitterClaimedCreate(s.orc, d, op);
  }

  /**
   * A create's submission is remembered: a worker that submits again is answered from what the
   * provider remembers if and only if the correlation ids agree; otherwise the row ends `failed` on
   * a protocol error. Nothing is applied again either way.
   */
  lemma RepeatedSubmissionIsAnswered(start: Time, inputs: seq<CloudInput>, d: Ticket, script: Script, at: Time, random: real)
    requires var s := CloudRun(start, inputs);
             && d in s.orc.tickets && Mutates(d) && RequestOf(d).key == CreateKey(d.operationId)
             && CreateKey(d.operationId) in s.traffic.world.cache
    ensures var s := CloudRun(start, inputs);
            var agree := d.row.command.correlation == Remembered(s, d.operationId);
            var result := s.traffic.world.cache[CreateKey(d.operationId)].result;
            var reply := if agree then Mutation(Some(result)) else Transport(TransportError(ProtocolError, false));
            && Begin(s.traffic.world, RequestOf(d), script) == (s.traffic.world, Some(reply))
            && Fits(MutationCall, reply)
            && DecisionOf(d, reply, at, random)
               == if agree then MutationOutcome(d.row.saga, Some(result), PollingCreate, Configuring)
                  else Fail(ProviderProtocolError)
  {
    RememberedSubmission(start, inputs, d);
    SubmissionAnswer(CloudRun(start, inputs).traffic.world, d, script, at, random);
  }

  lemma RememberedSubmission(start: Time, inputs: seq<CloudInput>, d: Ticket)
    requires var s := CloudRun(start, inputs);
             && d in s.orc.tickets && Mutates(d) && RequestOf(d).key == CreateKey(d.operationId)
             && CreateKey(d.operationId) in s.traffic.world.cache
    ensures d.row.saga.stage == At(SubmittingCreate) && ActionOf(d.row.command).CreateInstance?
    ensures var entry := CloudRun(start, inputs).traffic.world.cache[RequestOf(d).key];
            entry.canonical == Canonical(RequestOf(d)).(correlation := entry.canonical.correlation)
  {
    CallsFollowClaims(start, inputs);
    SubmitterClaimedCreate(CloudRun(start, inputs).orc, d, d.operationId);
    SubmissionsDifferInId(CloudRun(start, inputs), d.operationId, d);
  }

  lemma SubmissionAnswer(w: World, d: Ticket, script: Script, at: Time, random: real)
    requires d.row.saga.stage == At(SubmittingCreate) && ActionOf(d.row.command).CreateInstance? && RequestOf(d).key in w.cache
    requires var entry := w.cache[RequestOf(d).key];
             entry.canonical == Canonical(RequestOf(d)).(correlation := entry.canonical.correlation)
    ensures var entry := w.cache[RequestOf(d).key];
            var agree := d.row.command.correlation == entry.canonical.correlation;
            var reply := if agree then Mutation(Some(entry.result)) else Transport(TransportError(ProtocolError, false));
            && Begin(w, RequestOf(d), script) == (w, Some(reply))
            && Fits(MutationCall, reply)
            && DecisionOf(d, reply, at, random)
               == if agree then MutationOutcome(d.row.saga, Some(entry.result), PollingCreate, Configuring)
                  else Fail(ProviderProtocolError)
  {
    CachedSubmission(w, d, script);
    SubmissionDecision(d, w.cache[RequestOf(d).key].result, at, random);
  }

  lemma CachedSubmission(w: World, d: Ticket, script: Script)
    requires d.row.saga.stage.At? && RequestOf(d).key in w.cache
    requires var entry := w.cache[RequestOf(d).key];
             entry.canonical == Canonical(RequestOf(d)).(correlation := entry.canonical.correlation)
    ensures var entry := w.cache[RequestOf(d).key];
            Begin(w, RequestOf(d), script)
            == (w, Some(if d.row.command.correlation == entry.canonical.correlation then Mutation(Some(entry.result))
                        else Transport(TransportError(ProtocolError, false))))
  {
  }

  /** What a create commits on an answered submission, and on a protocol error. */
  lemma SubmissionDecision(d: Ticket, result: MutationResult, at: Time, random: real)
    requires d.row.saga.stage == At(SubmittingCreate) && ActionOf(d.row.command).CreateInstance?
    ensures DecisionOf(d, Mutation(Some(result)), at, random)
         == MutationOutcome(d.row.saga, Some(result), PollingCreate, Configuring)
    ensures DecisionOf(d, Transport(TransportError(ProtocolError, false)), at, random) == Fail(ProviderProtocolError)
  {
  }
}
