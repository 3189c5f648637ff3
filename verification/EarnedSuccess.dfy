/**
 * What a `succeeded` row proves, for every capability and whatever the provider answered:
 * each mutation of the capability was won by the run itself, and the closing check passed.
 */
module EarnedSuccess {
  import opened Prelude
  import opened Stages
  import opened SagaEngine
  import opened SagaRuns

  /** The k-th commit was a mutation reply accepting the work as the given task. */
  predicate AcceptedAs(e: Entry, mutation: Stage, task: nat) {
    && e.saga.stage == At(mutation)
    && e.reply.Mutation? && e.reply.result.Some?
    && e.reply.result.value.state.ResultAccepted?
    && e.reply.result.value.task == Some(Ref(task))
  }

  predicate DoneAtOnce(e: Entry, mutation: Stage) {
    && e.saga.stage == At(mutation)
    && e.reply.Mutation? && e.reply.result.Some?
    && e.reply.result.value.state.ResultSucceeded?
  }

  predicate PolledToSuccess(e: Entry, polling: Stage, task: nat) {
    && e.saga.stage == At(polling)
    && e.saga.task == Some(task)
    && e.reply.Task? && e.reply.state.TaskSucceeded?
  }

  /** The task in flight was returned by this run's own mutation. */
  ghost predicate TaskIsOwn(run: seq<Entry>, mutation: Stage, task: nat) {
    exists k :: 0 <= k < |run| && AcceptedAs(run[k], mutation, task)
  }

  /** The task returned at position k was later polled to success. */
  ghost predicate TaskFinished(run: seq<Entry>, polling: Stage, k: nat, task: nat) {
    exists j :: k < j < |run| && PolledToSuccess(run[j], polling, task)
  }

  /** The mutation was answered with success, or with a task that was later polled to success. */
  ghost predicate Won(run: seq<Entry>, mutation: Stage, polling: Stage) {
    || (exists k :: 0 <= k < |run| && DoneAtOnce(run[k], mutation))
    || (exists k, task :: 0 <= k < |run| && AcceptedAs(run[k], mutation, task) && TaskFinished(run, polling, k, task))
  }

  /** What must have been seen last for the capability to call itself done. */
  predicate ClosingProof(command: Command, reply: Reply) {
    match command.data
    case CreateData(_) =>
      reply.Observed? && ProvesOwned(reply.observation) && reply.observation.value.power == PowerRunning
    case PowerData(request) =>
      reply.Observed? && ProvesOwned(reply.observation)
      && reply.observation.value.power
         == (if request.ShutdownPower? || request.StopPower? then PowerStopped else PowerRunning)
    case ResizeData(target) =>
      reply.Observed? && ProvesOwned(reply.observation)
      && (reply.observation.value.measured.Some? && reply.observation.value.measured.value.cpu.Some? ==>
            reply.observation.value.measured.value
            == Measured(Some(target.cpu), Some(target.memory), Some(target.disk)))
    case SnapshotCreateData(_, name) => reply.Listed? && name in reply.names
    case SnapshotRollbackData(_, _) => reply.Listed?
    case SnapshotDeleteData(_, name) => reply.Listed? && name !in reply.names
    case RetentionData(_) => reply.Observed? && ProvesOwned(reply.observation)
    case PurgeData(_) => reply.Observed? && !ReportsPresent(reply.observation)
  }

  /** What is known about one mutation at a live row: not there yet, in flight, or won. */
  ghost predicate Standing(action: Action, run: seq<Entry>, saga: Saga, mutation: Stage)
    requires RoleOf(action, mutation).Mutating?
  {
    var polling := RoleOf(action, mutation).polling;
    saga.stage.At? && Rank(action, saga.stage.stage) < Rank(action, mutation) ==>
      if saga.stage.stage == polling then saga.task.Some? && TaskIsOwn(run, mutation, saga.task.value)
      else Won(run, mutation, polling)
  }

  lemma LongerRunsKeepWins(run: seq<Entry>, e: Entry, mutation: Stage, polling: Stage)
    requires Won(run, mutation, polling)
    ensures Won(run + [e], mutation, polling)
  {
    var longer := run + [e];
    if k :| 0 <= k < |run| && DoneAtOnce(run[k], mutation) {
      assert DoneAtOnce(longer[k], mutation);
    } else {
      var k, task :| 0 <= k < |run| && AcceptedAs(run[k], mutation, task) && TaskFinished(run, polling, k, task);
      var j :| k < j < |run| && PolledToSuccess(run[j], polling, task);
      assert AcceptedAs(longer[k], mutation, task) && PolledToSuccess(longer[j], polling, task);
      assert TaskFinished(longer, polling, k, task);
    }
  }

  lemma LongerRunsKeepTasks(run: seq<Entry>, e: Entry, mutation: Stage, task: nat)
    requires TaskIsOwn(run, mutation, task)
    ensures TaskIsOwn(run + [e], mutation, task)
  {
    var k :| 0 <= k < |run| && AcceptedAs(run[k], mutation, task);
    assert AcceptedAs((run + [e])[k], mutation, task);
  }

  /** Evidence already in the run stays: a row that keeps its position keeps its standing. */
  lemma LongerRunsKeepStanding(action: Action, run: seq<Entry>, e: Entry, saga: Saga, mutation: Stage)
    requires RoleOf(action, mutation).Mutating? && Standing(action, run, saga, mutation)
    ensures Standing(action, run + [e], saga, mutation)
  {
    if saga.stage.At? && Rank(action, saga.stage.stage) < Rank(action, mutation) {
      if saga.stage.stage == RoleOf(action, mutation).polling {
        LongerRunsKeepTasks(run, e, mutation, saga.task.value);
      } else {
        LongerRunsKeepWins(run, e, mutation, RoleOf(action, mutation).polling);
      }
    }
  }

  /** The last poll of an own task wins its mutation. */
  lemma OwnTaskPolled(run: seq<Entry>, e: Entry, mutation: Stage, polling: Stage)
    requires e.saga.task.Some? && TaskIsOwn(run, mutation, e.saga.task.value)
    requires PolledToSuccess(e, polling, e.saga.task.value)
    ensures Won(run + [e], mutation, polling)
  {
    var longer := run + [e];
    var k :| 0 <= k < |run| && AcceptedAs(run[k], mutation, e.saga.task.value);
    assert AcceptedAs(longer[k], mutation, e.saga.task.value);
    assert PolledToSuccess(longer[|run|], polling, e.saga.task.value);
    assert TaskFinished(longer, polling, k, e.saga.task.value);
  }

  /** What a commit at the mutation itself leaves behind. */
  lemma MutationCommit(command: Command, e: Entry)
    requires Decided(command, e) && e.saga.status.Running? && Sound(ActionOf(command), e.saga)
    requires RoleOf(ActionOf(command), e.saga.stage.stage).Mutating?
    requires After(e).stage.At? && After(e).stage != e.saga.stage
    ensures var role := RoleOf(ActionOf(command), e.saga.stage.stage);
            || (After(e).stage == At(role.polling) && After(e).task.Some?
                && AcceptedAs(e, e.saga.stage.stage, After(e).task.value))
            || (After(e).stage == At(role.next) && DoneAtOnce(e, e.saga.stage.stage))
  {
    MutationStagesAreTheMutatingRoles(ActionOf(command), e.saga.stage.stage);
  }

  lemma PollingCommit(command: Command, e: Entry)
    requires Decided(command, e) && e.saga.status.Running? && Sound(ActionOf(command), e.saga)
    requires RoleOf(ActionOf(command), e.saga.stage.stage).Polling?
    requires After(e).stage.At?
    ensures if After(e).stage == e.saga.stage then After(e).task == e.saga.task
            else e.saga.task.Some? && PolledToSuccess(e, e.saga.stage.stage, e.saga.task.value)
  {
    MutationStagesAreTheMutatingRoles(ActionOf(command), e.saga.stage.stage);
    PollingIsNoSelfLoop(ActionOf(command), e.saga.stage.stage);
  }

  lemma PollingIsNoSelfLoop(action: Action, stage: Stage)
    requires RoleOf(action, stage).Polling?
    ensures RoleOf(action, stage).next != stage
  {
  }

  lemma PollingHasOneMutation(action: Action, mutation: Stage)
    requires RoleOf(action, mutation).Mutating?
    ensures RoleOf(action, RoleOf(action, mutation).polling).Polling?
    ensures RoleOf(action, mutation).polling != mutation && RoleOf(action, mutation).next != mutation
    ensures RoleOf(action, mutation).polling != RoleOf(action, mutation).next
  {
  }

  lemma StandingAdvances(command: Command, run: seq<Entry>, e: Entry, mutation: Stage)
    requires Decided(command, e) && e.saga.status.Running? && Sound(ActionOf(command), e.saga)
    requires RoleOf(ActionOf(command), mutation).Mutating?
    requires Standing(ActionOf(command), run, e.saga, mutation)
    ensures Standing(ActionOf(command), run + [e], After(e), mutation)
  {
    var action := ActionOf(command);
    var polling := RoleOf(action, mutation).polling;
    var from := e.saga.stage.stage;
    LongerRunsKeepStanding(action, run, e, e.saga, mutation);
    if After(e).stage.At? && Rank(action, After(e).stage.stage) < Rank(action, mutation) {
      CommitShape(command, e);
      PollingHasOneMutation(action, mutation);
      if After(e).stage == e.saga.stage {
        if from == polling {
          PollingCommit(command, e);
        }
      } else {
        MutationsAreOnEveryPath(action, from, After(e).stage.stage, mutation);
        if from == mutation {
          MutationCommit(command, e);
          assert (run + [e])[|run|] == e;
        } else if from == polling {
          PollingCommit(command, e);
          OwnTaskPolled(run, e, mutation, polling);
        }
      }
    }
  }

  lemma {:induction false} RunKeepsStanding(command: Command, start: Saga, run: seq<Entry>, mutation: Stage)
    requires Sound(ActionOf(command), start) && start.stage == At(Accepted)
    requires ValidRun(command, start, run)
    requires RoleOf(ActionOf(command), mutation).Mutating?
    ensures Standing(ActionOf(command), run, FinalSaga(start, run), mutation)
  {
    var action := ActionOf(command);
    if run == [] {
      AdmissionIsFirst(action, mutation);
    } else {
      var last := |run| - 1;
      RunKeepsStanding(command, start, run[..last], mutation);
      RunIsSound(command, start, run[..last]);
      ClaimKeepsSound(action, FinalSaga(start, run[..last]));
      StandingAdvances(command, run[..last], run[last], mutation);
      assert run[..last] + [run[last]] == run;
    }
  }

  lemma AdmissionIsFirst(action: Action, mutation: Stage)
    requires RoleOf(action, mutation).Mutating?
    ensures Rank(action, mutation) < Rank(action, Accepted)
  {
  }

  lemma ClosingComesLast(action: Action, closing: Stage, mutation: Stage)
    requires RoleOf(action, mutation).Mutating? && RoleOf(action, closing).Closing?
    ensures Rank(action, closing) < Rank(action, mutation)
    ensures closing != RoleOf(action, mutation).polling
  {
  }

  /** A success is decided at the closing stage on its proof, or by a purge finding nothing. */
  lemma SuccessfulCommit(command: Command, e: Entry)
    requires Decided(command, e) && e.transition.Succeed?
    ensures var role := RoleOf(ActionOf(command), e.saga.stage.stage);
            || (role.Closing? && ClosingProof(command, e.reply))
            || (role.Verifying? && e.reply.Observed? && !ReportsPresent(e.reply.observation))
  {
  }

  lemma OnlyPurgeVerifies(action: Action, stage: Stage)
    requires RoleOf(action, stage).Verifying?
    ensures action.PurgeInstance? && stage.VerifyingPurge?
  {
  }

  /**
   * Success is earned. A run that ends `succeeded` either is a purge whose verification found
   * nothing to destroy, or won every mutation its capability declares - by the provider's own
   * success or by polling the task that this run's mutation returned - before a closing check
   * whose proof holds.
   */
  lemma SuccessIsEarned(command: Command, resource: Option<nat>, admitted: Time, run: seq<Entry>)
    requires var start := FreshSaga(resource, admitted);
             ValidRun(command, start, run) && FinalSaga(start, run).status.Succeeded?
    ensures run != []
    ensures var action, last := ActionOf(command), |run| - 1;
            || (action.PurgeInstance? && run[last].saga.stage == At(VerifyingPurge)
                && run[last].reply.Observed? && !ReportsPresent(run[last].reply.observation))
            || (RoleOf(action, run[last].saga.stage.stage).Closing?
                && ClosingProof(command, run[last].reply)
                && forall mutation :: mutation in MutationStages(action) ==>
                     RoleOf(action, mutation).Mutating? && Won(run[..last], mutation, RoleOf(action, mutation).polling))
  {
    var action, start, last := ActionOf(command), FreshSaga(resource, admitted), |run| - 1;
    FreshIsSound(action, resource, admitted);
    RunIsSound(command, start, run[..last]);
    SuccessfulCommit(command, run[last]);
    var stage := run[last].saga.stage.stage;
    if RoleOf(action, stage).Verifying? {
      OnlyPurgeVerifies(action, stage);
    } else {
      forall mutation | mutation in MutationStages(action)
        ensures RoleOf(action, mutation).Mutating? && Won(run[..last], mutation, RoleOf(action, mutation).polling)
      {
        MutationStagesAreTheMutatingRoles(action, mutation);
        RunKeepsStanding(command, start, run[..last], mutation);
        ClosingComesLast(action, stage, mutation);
      }
    }
  }

  /**
   * A live row polls exactly when it holds a task, so the branches that report a lost task
   * reference and an unsupported stage are dead.
   */
  lemma LostTaskIsUnreachable(command: Command, resource: Option<nat>, admitted: Time, run: seq<Entry>)
    requires ValidRun(command, FreshSaga(resource, admitted), run) && run != []
    ensures var e := run[|run| - 1];
            && (RoleOf(ActionOf(command), e.saga.stage.stage).Polling? <==> e.saga.task.Some?)
            && e.transition != Fail(WorkflowStageInvalid)
            && (e.transition == Fail(ProviderTaskReferenceMissing) ==> e.reply.Mutation?)
  {
    var start, last := FreshSaga(resource, admitted), |run| - 1;
    FreshIsSound(ActionOf(command), resource, admitted);
    RunIsSound(command, start, run[..last]);
    ClaimKeepsSound(ActionOf(command), FinalSaga(start, run[..last]));
    NamedFailures(command, run[last]);
  }

  lemma NamedFailures(command: Command, e: Entry)
    requires Decided(command, e) && e.saga.status.Running? && Sound(ActionOf(command), e.saga)
    ensures e.transition != Fail(WorkflowStageInvalid)
    ensures e.transition == Fail(ProviderTaskReferenceMissing) ==> e.reply.Mutation?
  {
  }
}
