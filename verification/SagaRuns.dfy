/**
 * Whole runs of one workflow row: every commit made between its admission and its end.
 * The provider is arbitrary; a run only fixes that each commit is the decision taken on the row
 * it claimed. `RowRuns` shows that the rows of the store make exactly these runs.
 */
module SagaRuns {
  import opened Prelude
  import opened Stages
  import opened SagaEngine

  /** One commit: the row as claimed, the provider's reply, and what was committed at `now`. */
  datatype Entry = Entry(saga: Saga, reply: Reply, at: Time, random: real, now: Time, transition: Transition)

  /**
   * How every transport error in the system is built: a malformed request is never retryable.
   * The error constructor defaults to this and the gRPC client states it.
   */
  predicate Classified(error: TransportError) {
    !(error.code.ProtocolError? && error.retryable)
  }

  predicate Admissible(reply: Reply) {
    reply.Transport? ==> Classified(reply.error)
  }

  /** The commit is the decision the engine takes on the claimed row. */
  ghost predicate Decided(command: Command, e: Entry) {
    && e.saga.stage.At?
    && Fits(CallOf(ActionOf(command), e.saga, e.saga.stage.stage), e.reply)
    && Admissible(e.reply)
    && 0.0 <= e.random < 1.0
    && e.at <= e.now
    && e.transition == Decide(command, e.saga, e.saga.stage.stage, e.reply, e.at, e.random)
  }

  function After(e: Entry): Saga {
    Applied(e.saga, e.transition, e.now)
  }

  function FinalSaga(start: Saga, run: seq<Entry>): Saga {
    if run == [] then start else After(run[|run| - 1])
  }

  /** Consecutive commits, each on the row the previous one left, claimed while it was live. */
  ghost predicate ValidRun(command: Command, start: Saga, run: seq<Entry>) {
    run != [] ==>
      var last := |run| - 1;
      && ValidRun(command, start, run[..last])
      && IsLive(FinalSaga(start, run[..last]).status)
      && run[last].saga == ClaimedSaga(FinalSaga(start, run[..last]))
      && Decided(command, run[last])
  }

  lemma {:induction false} RunPrefix(command: Command, start: Saga, run: seq<Entry>, n: nat)
    requires ValidRun(command, start, run) && n <= |run|
    ensures ValidRun(command, start, run[..n])
    decreases |run|
  {
    if n == |run| {
      assert run[..n] == run;
    } else {
      var shorter := run[..|run| - 1];
      RunPrefix(command, start, shorter, n);
      assert shorter[..n] == run[..n];
    }
  }

  /** The step at position k of a run, taken out of the recursive definition. */
  lemma RunStep(command: Command, start: Saga, run: seq<Entry>, k: nat)
    requires ValidRun(command, start, run) && k < |run|
    ensures ValidRun(command, start, run[..k])
    ensures IsLive(FinalSaga(start, run[..k]).status)
    ensures run[k].saga == ClaimedSaga(FinalSaga(start, run[..k]))
    ensures Decided(command, run[k])
  {
    RunPrefix(command, start, run, k + 1);
    assert run[..k + 1][..k] == run[..k];
  }

  // ----- The row invariant -------------------------------------------------------------------

  /** The terminal stage and status always say the same thing. */
  predicate Aligned(saga: Saga) {
    match saga.status
    case Running => saga.stage.At?
    case RetryWait => saga.stage.At?
    case Succeeded => saga.stage.Completed?
    case Failed => saga.stage.EndedFailed?
    case ManualReview => saga.stage.EndedInReview?
  }

  /** Whether a mutation has already named the resource by the time this stage is reached. */
  predicate ResourceKnown(action: Action, stage: Stage) {
    var role := RoleOf(action, stage);
    role.Polling? || role.Closing? || stage.Configuring? || stage.Starting? || stage.SubmittingPurge?
  }

  /**
   * What every live row satisfies: its stage is one its capability handles, a task reference is
   * held exactly while polling, retries are counted only where repeating is harmless.
   */
  predicate SoundAt(action: Action, saga: Saga, stage: Stage) {
    var role := RoleOf(action, stage);
    && !role.Foreign?
    && (saga.task.Some? <==> role.Polling?)
    && (ResourceKnown(action, stage) ==> saga.resource.Some?)
    && saga.stageAttempt < MAXIMUM_RETRY_ATTEMPTS
    && (saga.stageAttempt > 0 <==> saga.retryStartedAt.Some?)
    && (saga.stageAttempt > 0 ==> role.Polling? || role.Verifying? || role.Closing?)
    && (saga.status.RetryWait? ==> role.Polling? || role.Verifying? || role.Closing?)
  }

  predicate Sound(action: Action, saga: Saga) {
    && Aligned(saga)
    && (saga.stage.At? ==> SoundAt(action, saga, saga.stage.stage))
  }

  lemma FreshIsSound(action: Action, resource: Option<nat>, now: Time)
    ensures Sound(action, FreshSaga(resource, now))
  {
  }

  lemma ClaimKeepsSound(action: Action, saga: Saga)
    requires Sound(action, saga) && IsLive(saga.status)
    ensures Sound(action, ClaimedSaga(saga))
  {
  }

  /** One decision on a sound row leaves a sound row. */
  lemma DecisionKeepsSound(command: Command, e: Entry)
    requires Sound(ActionOf(command), e.saga) && e.saga.status.Running? && Decided(command, e)
    ensures Sound(ActionOf(command), After(e))
  {
    var action := ActionOf(command);
    var stage := e.saga.stage.stage;
    MutationStagesAreTheMutatingRoles(action, stage);
  }

  lemma {:induction false} RunIsSound(command: Command, start: Saga, run: seq<Entry>)
    requires Sound(ActionOf(command), start) && ValidRun(command, start, run)
    ensures Sound(ActionOf(command), FinalSaga(start, run))
  {
    if run != [] {
      var last := |run| - 1;
      RunIsSound(command, start, run[..last]);
      ClaimKeepsSound(ActionOf(command), FinalSaga(start, run[..last]));
      DecisionKeepsSound(command, run[last]);
    }
  }

  // ----- Termination and backoff -------------------------------------------------------------

  /** The provider said the task is still queued or running. */
  predicate Repolls(e: Entry) {
    e.reply.Task? && (e.reply.state.TaskQueued? || e.reply.state.TaskRunning?)
  }

  /** The commit is a backoff: the same stage again, later. */
  predicate Waits(e: Entry) {
    e.transition.Progress? && e.transition.retry.Some?
  }

  function Repeats(run: seq<Entry>): nat {
    if run == [] then 0
    else Repeats(run[..|run| - 1]) + if Repolls(run[|run| - 1]) then 1 else 0
  }

  /** The three ways a live row can stay live; every other commit ends the workflow. */
  lemma CommitShape(command: Command, e: Entry)
    requires Sound(ActionOf(command), e.saga) && e.saga.status.Running? && Decided(command, e)
    requires After(e).stage.At?
    ensures var action, from, to := ActionOf(command), e.saga.stage.stage, After(e).stage.stage;
            || (Leads(action, from, to) && After(e).stageAttempt == 0)
            || (Repolls(e) && to == from && After(e).stageAttempt == 0)
            || (Waits(e) && e.reply.Transport? && to == from && After(e).stageAttempt == e.saga.stageAttempt + 1)
  {
    MutationStagesAreTheMutatingRoles(ActionOf(command), e.saga.stage.stage);
  }

  /** Forward steps are worth more than the retries one stage allows. */
  function Potential(action: Action, saga: Saga): int {
    if saga.stage.At? then MAXIMUM_RETRY_ATTEMPTS * Rank(action, saga.stage.stage) - saga.stageAttempt else 0
  }

  lemma CommitSpendsPotential(command: Command, e: Entry)
    requires Sound(ActionOf(command), e.saga) && e.saga.status.Running? && Decided(command, e)
    ensures Potential(ActionOf(command), After(e)) + 1
         <= Potential(ActionOf(command), e.saga) + (if Repolls(e) then MAXIMUM_RETRY_ATTEMPTS else 0)
    ensures 0 <= Potential(ActionOf(command), After(e))
  {
    var action := ActionOf(command);
    DecisionKeepsSound(command, e);
    RankIsPositive(action, e.saga.stage.stage);
    if After(e).stage.At? {
      CommitShape(command, e);
      RankIsPositive(action, After(e).stage.stage);
      if Leads(action, e.saga.stage.stage, After(e).stage.stage) {
        EdgesDescend(action, e.saga.stage.stage, After(e).stage.stage);
      }
    }
  }

  lemma RankIsPositive(action: Action, stage: Stage)
    ensures 1 <= Rank(action, stage)
  {
  }

  /**
   * Every run ends: apart from replies saying that the task still runs, a capability makes a
   * bounded number of commits, however often its provider fails.
   */
  lemma {:induction false} RunsAreBounded(command: Command, start: Saga, run: seq<Entry>)
    requires Sound(ActionOf(command), start) && ValidRun(command, start, run)
    ensures |run| + Potential(ActionOf(command), FinalSaga(start, run))
         <= Potential(ActionOf(command), start) + MAXIMUM_RETRY_ATTEMPTS * Repeats(run)
  {
    if run != [] {
      var last := |run| - 1;
      RunsAreBounded(command, start, run[..last]);
      RunIsSound(command, start, run[..last]);
      ClaimKeepsSound(ActionOf(command), FinalSaga(start, run[..last]));
      CommitSpendsPotential(command, run[last]);
    }
  }

  /** From admission: at most eight commits per stage of the graph and per repeated poll. */
  lemma CommitsFromAdmission(command: Command, resource: Option<nat>, admitted: Time, run: seq<Entry>)
    requires ValidRun(command, FreshSaga(resource, admitted), run)
    ensures |run| <= MAXIMUM_RETRY_ATTEMPTS * (Rank(ActionOf(command), Accepted) + Repeats(run))
  {
    var start := FreshSaga(resource, admitted);
    FreshIsSound(ActionOf(command), resource, admitted);
    RunsAreBounded(command, start, run);
    RunIsSound(command, start, run);
    if FinalSaga(start, run).stage.At? {
      RankIsPositive(ActionOf(command), FinalSaga(start, run).stage.stage);
    }
  }

  /** How long a backoff commit parks the row. */
  function Delay(e: Entry): Time {
    if e.transition.Progress? && e.transition.nextAttemptAt.Some? then e.transition.nextAttemptAt.value - e.at else 0
  }

  function Delays(run: seq<Entry>): Time {
    if run == [] then 0 else Delays(run[..|run| - 1]) + Delay(run[|run| - 1])
  }

  /** The sum of the first n backoff ceilings. */
  function Ceilings(n: nat): Time {
    if n == 0 then 0 else Ceilings(n - 1) + BackoffCeiling(n)
  }

  lemma CeilingsTotal(n: nat)
    requires n < MAXIMUM_RETRY_ATTEMPTS
    ensures Ceilings(n) <= 61_500
    ensures n > 0 ==> 0 < BackoffCeiling(n)
  {
    assert PowerOfTwo(3) == 8;
    assert PowerOfTwo(6) == 8 * PowerOfTwo(3);
    assert Ceilings(3) == 3_500;
    assert Ceilings(5) == 15_500;
    assert Ceilings(7) == 61_500;
    assert Ceilings(n) <= Ceilings(7) by {
      CeilingsGrow(n, 7);
    }
  }

  lemma CeilingsGrow(m: nat, n: nat)
    requires m <= n
    ensures Ceilings(m) <= Ceilings(n)
    ensures m > 0 ==> 0 < BackoffCeiling(m)
  {
    if m < n {
      CeilingsGrow(m, n - 1);
      PowersArePositive(n - 1);
    } else if m > 0 {
      PowersArePositive(m - 1);
    }
  }

  lemma {:induction false} PowersArePositive(n: nat)
    ensures 0 < PowerOfTwo(n)
  {
    if n > 0 {
      PowersArePositive(n - 1);
    }
  }

  /** A fraction of a positive ceiling, rounded down, is below the ceiling. */
  lemma JitterStaysBelow(random: real, ceiling: Time)
    requires 0.0 <= random < 1.0 && 0 < ceiling
    ensures 0 <= (random * (ceiling as real)).Floor < ceiling
  {
    var product := random * (ceiling as real);
    assert 0.0 <= product;
    assert product < ceiling as real;
  }

  /** One backoff: counted, shorter than its ceiling, and over before the budget is. */
  lemma WaitIsBounded(command: Command, e: Entry)
    requires Sound(ActionOf(command), e.saga) && e.saga.status.Running? && Decided(command, e) && Waits(e)
    ensures e.saga.stageAttempt + 1 < MAXIMUM_RETRY_ATTEMPTS
    ensures After(e).stageAttempt == e.saga.stageAttempt + 1
    ensures After(e).retryStartedAt == Some(e.saga.retryStartedAt.GetOr(e.at))
    ensures 0 <= Delay(e) < BackoffCeiling(e.saga.stageAttempt + 1)
    ensures After(e).nextAttemptAt <= After(e).retryStartedAt.value + RETRY_BUDGET_MS
  {
    var attempt := e.saga.stageAttempt + 1;
    PowersArePositive(attempt - 1);
    JitterStaysBelow(e.random, BackoffCeiling(attempt));
    MutationStagesAreTheMutatingRoles(ActionOf(command), e.saga.stage.stage);
    assert e.reply.Transport?;
  }

  /** The commits from `begin` up to `end` are backoffs, and the first of them follows a success. */
  ghost predicate Streak(command: Command, start: Saga, run: seq<Entry>, begin: nat, end: nat) {
    && Sound(ActionOf(command), start) && ValidRun(command, start, run)
    && begin < end <= |run| && run[begin].saga.stageAttempt == 0
    && forall k :: begin <= k < end ==> Waits(run[k])
  }

  /** The k-th commit of a streak is a backoff of the row that the one before it left. */
  lemma StreakStep(command: Command, start: Saga, run: seq<Entry>, begin: nat, end: nat)
    requires Streak(command, start, run, begin, end)
    ensures var e := run[end - 1];
            && Decided(command, e) && Waits(e) && Sound(ActionOf(command), e.saga) && e.saga.status.Running?
            && (if end - 1 == begin then e.saga.stageAttempt == 0 && e.saga.retryStartedAt.None?
                else e.saga == ClaimedSaga(After(run[end - 2])))
  {
    var last := end - 1;
    RunStep(command, start, run, last);
    RunIsSound(command, start, run[..last]);
    ClaimKeepsSound(ActionOf(command), FinalSaga(start, run[..last]));
    if last > begin {
      assert run[..last][last - 1] == run[last - 1];
    }
  }

  /** Each wait of a streak is counted, and dated from the first failure. */
  lemma {:induction false} StreakCounts(command: Command, start: Saga, run: seq<Entry>, begin: nat, end: nat)
    requires Streak(command, start, run, begin, end)
    ensures end - begin < MAXIMUM_RETRY_ATTEMPTS
    ensures After(run[end - 1]).stageAttempt == end - begin
    ensures After(run[end - 1]).retryStartedAt == Some(run[begin].at)
    decreases end
  {
    StreakStep(command, start, run, begin, end);
    WaitIsBounded(command, run[end - 1]);
    if end - 1 > begin {
      StreakCounts(command, start, run, begin, end - 1);
    }
  }

  /** Every wait of a streak is over within the budget of the first failure. */
  lemma StreakEndsInBudget(command: Command, start: Saga, run: seq<Entry>, begin: nat, end: nat)
    requires Streak(command, start, run, begin, end)
    ensures After(run[end - 1]).nextAttemptAt <= run[begin].at + RETRY_BUDGET_MS
  {
    StreakStep(command, start, run, begin, end);
    WaitIsBounded(command, run[end - 1]);
    StreakCounts(command, start, run, begin, end);
  }

  /** The last wait of a streak is shorter than the ceiling of its count. */
  lemma StreakDelay(command: Command, start: Saga, run: seq<Entry>, begin: nat, end: nat)
    requires Streak(command, start, run, begin, end)
    ensures Delay(run[end - 1]) <= BackoffCeiling(end - begin) - 1
  {
    StreakStep(command, start, run, begin, end);
    WaitIsBounded(command, run[end - 1]);
    StreakCounts(command, start, run, begin, end);
  }

  lemma {:induction false} StreakDelays(command: Command, start: Saga, run: seq<Entry>, begin: nat, end: nat)
    requires Streak(command, start, run, begin, end)
    ensures Delays(run[begin..end]) <= Ceilings(end - begin) - (end - begin)
    decreases end
  {
    StreakDelay(command, start, run, begin, end);
    assert run[begin..end][..end - begin - 1] == run[begin..end - 1];
    if end - 1 > begin {
      StreakDelays(command, start, run, begin, end - 1);
    }
  }

  /**
   * A streak of backoffs that follows a success: at most seven waits, each over within fifteen
   * minutes of the first failure, together shorter than 61.5 seconds.
   */
  lemma StreakIsBounded(command: Command, start: Saga, run: seq<Entry>, begin: nat, end: nat)
    requires Streak(command, start, run, begin, end)
    ensures end - begin < MAXIMUM_RETRY_ATTEMPTS
    ensures forall k | begin <= k < end :: After(run[k]).nextAttemptAt <= run[begin].at + RETRY_BUDGET_MS
    ensures Delays(run[begin..end]) < 61_500
  {
    StreakCounts(command, start, run, begin, end);
    StreakDelays(command, start, run, begin, end);
    CeilingsTotal(end - begin);
    forall k | begin <= k < end
      ensures After(run[k]).nextAttemptAt <= run[begin].at + RETRY_BUDGET_MS
    {
      StreakEndsInBudget(command, start, run, begin, k + 1);
    }
  }

  /** The eighth failure in a row, or one after the budget, dead-letters instead of waiting. */
  lemma ExhaustionIsExact(command: Command, e: Entry)
    requires Sound(ActionOf(command), e.saga) && e.saga.status.Running? && Decided(command, e)
    ensures e.transition.Exhaust? <==>
            && e.reply.Transport? && e.reply.error.retryable
            && e.saga.stage.stage !in MutationStages(ActionOf(command))
            && (e.saga.stageAttempt == MAXIMUM_RETRY_ATTEMPTS - 1
                || e.at >= e.saga.retryStartedAt.GetOr(e.at) + RETRY_BUDGET_MS)
  {
    MutationStagesAreTheMutatingRoles(ActionOf(command), e.saga.stage.stage);
  }

  /**
   * The rule "never retry an unknown mutation", exactly: a transport failure at a mutation stage
   * is retried or exhausts the retries only if the error claims to be both a protocol error and
   * retryable, which no constructor in the system builds.
   */
  lemma MutationRetriedOnlyIfMisclassified(action: Action, saga: Saga, stage: Stage, error: TransportError,
                                           at: Time, random: real)
    requires stage in MutationStages(action)
    ensures var outcome := ProviderErrorOutcome(action, saga, stage, error, at, random);
            && ((outcome.Progress? || outcome.Exhaust?) <==> !Classified(error))
            && (Classified(error) ==> outcome.Stop? && (outcome.review <==> !error.code.ProtocolError?))
  {
  }

  /** The error constructor: an explicit `retryable` option overrides its default. */
  function Constructed(code: TransportCode, retryable: Option<bool>): TransportError {
    TransportError(code, retryable.GetOr(TransportErrorOf(code).retryable))
  }

  /**
   * A constructed error is misclassified exactly when its builder asks for a retryable protocol
   * error. No caller does: each passes no option, `false`, or what the default would have been.
   */
  lemma ConstructedErrorsAreClassified(code: TransportCode, retryable: Option<bool>)
    ensures Classified(Constructed(code, retryable)) <==> !(code.ProtocolError? && retryable == Some(true))
  {
  }

  /**
   * Over a whole run: no row waits for retry at a mutation stage, no retry is counted there, and
   * no commit taken there exhausts the retries.
   */
  lemma NoMutationIsRetried(command: Command, resource: Option<nat>, admitted: Time, run: seq<Entry>)
    requires ValidRun(command, FreshSaga(resource, admitted), run)
    ensures var saga := FinalSaga(FreshSaga(resource, admitted), run);
            saga.stage.At? && saga.stage.stage in MutationStages(ActionOf(command)) ==>
              !saga.status.RetryWait? && saga.stageAttempt == 0
    ensures forall k | 0 <= k < |run| && run[k].saga.stage.At?
                       && run[k].saga.stage.stage in MutationStages(ActionOf(command)) ::
              !Waits(run[k]) && !run[k].transition.Exhaust?
  {
    var action, start := ActionOf(command), FreshSaga(resource, admitted);
    FreshIsSound(action, resource, admitted);
    RunIsSound(command, start, run);
    if FinalSaga(start, run).stage.At? {
      MutationStagesAreTheMutatingRoles(action, FinalSaga(start, run).stage.stage);
    }
    forall k | 0 <= k < |run| && run[k].saga.stage.At? && run[k].saga.stage.stage in MutationStages(action)
      ensures !Waits(run[k]) && !run[k].transition.Exhaust?
    {
      RunStep(command, start, run, k);
      RunIsSound(command, start, run[..k]);
      ClaimKeepsSound(action, FinalSaga(start, run[..k]));
      ExhaustionIsExact(command, run[k]);
      if Waits(run[k]) {
        WaitsOnlyOffMutations(command, run[k]);
      }
    }
  }

  lemma WaitsOnlyOffMutations(command: Command, e: Entry)
    requires Sound(ActionOf(command), e.saga) && e.saga.status.Running? && Decided(command, e) && Waits(e)
    ensures e.saga.stage.stage !in MutationStages(ActionOf(command))
  {
    MutationStagesAreTheMutatingRoles(ActionOf(command), e.saga.stage.stage);
  }

  /**
   * A run of any capability but create that starts without a resource identifier, which is what
   * reopening by governed replay leaves, never calls the provider and can only fail.
   */
  lemma {:induction false} WithoutResourceOnlyFailure(command: Command, admitted: Time, run: seq<Entry>)
    requires !ActionOf(command).CreateInstance?
    requires ValidRun(command, FreshSaga(None, admitted), run)
    ensures |run| <= 2
    ensures forall k :: 0 <= k < |run| ==> run[k].reply.NoReply?
    ensures var saga := FinalSaga(FreshSaga(None, admitted), run);
            && saga.resource.None?
            && (|run| == 0 ==> saga.stage == At(Accepted))
            && (|run| == 1 ==> saga.status.Running? && saga.stage.At? && RoleOf(ActionOf(command), Accepted) == Start(saga.stage.stage))
            && (|run| == 2 ==> saga.status.Failed?)
  {
    if run != [] {
      var last := |run| - 1;
      WithoutResourceOnlyFailure(command, admitted, run[..last]);
      var before := FinalSaga(FreshSaga(None, admitted), run[..last]);
      if last == 1 {
        FirstStageNeedsResource(ActionOf(command), before.stage.stage);
      }
    }
  }

  lemma FirstStageNeedsResource(action: Action, stage: Stage)
    requires !action.CreateInstance? && RoleOf(action, Accepted) == Start(stage)
    ensures forall saga: Saga :: saga.resource.None? ==> ResourceMissing(action, saga, stage)
  {
  }
}
