/**
 * What becomes of a mutation whose worker was lost after the provider dealt with it and before the
 * commit, over every run of workers and provider: the next claim repeats the call under a new token.
 * Create and power are answered as if nothing had happened. Resize, snapshot, retain and purge nest
 * their context, so the provider takes the new token for another request: they never succeed.
 */
module Takeovers {
  import opened Prelude
  import opened Stages
  import opened SagaEngine
  import opened SagaRuns
  import opened WorkflowTables
  import opened Orchestrator
  import opened Fencing
  import opened RowRuns
  import opened GovernedReplay
  import opened Letters
  import opened Provider
  import opened Effects

  // ----- The orchestrator of a run -----------------------------------------------------------

  /** Seen alone, the orchestrator makes an ordinary run. */
  lemma {:induction false} OrchestratorRuns(start: Time, inputs: seq<CloudInput>) returns (works: seq<Input>)
    ensures Run(start, works) == CloudRun(start, inputs).orc
  {
    works := [];
    if inputs != [] {
      var before, last := inputs[..|inputs| - 1], inputs[|inputs| - 1];
      works := OrchestratorRuns(start, before);
      var s := CloudRun(start, before);
      if CloudEnabled(s, last) && last.Orchestrate? {
        assert (works + [last.input])[..|works|] == works;
        works := works + [last.input];
      } else {
        OnlyOrchestrationMoves(s, last);
      }
    }
  }

  lemma OnlyOrchestrationMoves(s: Cloud, input: CloudInput)
    requires !CloudEnabled(s, input) || !input.Orchestrate?
    ensures CloudStep(s, input).orc == s.orc
  {
  }

  lemma CloudsAreSettling(start: Time, inputs: seq<CloudInput>)
    ensures Settling(CloudRun(start, inputs).orc)
  {
    var works := OrchestratorRuns(start, inputs);
    ReplaysFollowExhaustion(start, works);
  }

  /** What an input means for the parts of the composed system. */
  ghost predicate Moves(s: Cloud, t: Cloud, input: CloudInput) {
    match input
    case Orchestrate(work) =>
      t == s || (t == s.(orc := Step(s.orc, work)) && (work.WorkerCommits? ==> Learned(s, work.ticket, work.reply)))
    case BeginCall(c, script) =>
      t == s || (c in s.orc.tickets && Mutates(c) && t == BeginAnswered(s, c, script))
    case FinishCall(call, aborted) =>
      t == s || (call in s.traffic.waiting && t == FinishAnswered(s, call, aborted))
    case _ => OnlyLooked(s, t)
  }

  lemma StepMoves(s: Cloud, input: CloudInput)
    ensures Moves(s, CloudStep(s, input), input)
  {
    if CloudEnabled(s, input) && input.Query? {
      assert OnlyLooked(s, Answered(s, input.ticket));
    }
  }

  // ----- Everything remembered was asked for -------------------------------------------------

  /** The provider remembers the key by the request of this claim. */
  ghost predicate AskedBy(s: Cloud, key: Key, c: Ticket) {
    && c in s.orc.tickets && Mutates(c) && RequestOf(c).key == key
    && key in s.traffic.world.cache && s.traffic.world.cache[key].canonical == Canonical(RequestOf(c))
  }

  ghost predicate CacheAsked(s: Cloud) {
    forall key | key in s.traffic.world.cache :: exists c :: AskedBy(s, key, c)
  }

  /** The entry a call leaves is its own request's. */
  lemma BeginRemembers(w: World, r: Request, script: Script)
    ensures var cache := Begin(w, r, script).0.cache;
            cache == w.cache || (r.key in cache && cache[r.key].canonical == Canonical(r) && Caches(w.cache, cache, r.key))
  {
    ExecuteShape(w, r);
  }

  lemma FinishRemembers(w: World, r: Request, script: Script, aborted: bool)
    ensures var cache := Finish(w, r, script, aborted).0.cache;
            cache == w.cache || (r.key in cache && cache[r.key].canonical == Canonical(r) && Caches(w.cache, cache, r.key))
  {
    ExecuteShape(w, r);
  }

  lemma EntriesStayAsked(s: Cloud, t: Cloud, c: Ticket)
    requires CacheAsked(s) && s.orc.tickets <= t.orc.tickets
    requires t.traffic.world.cache == s.traffic.world.cache
          || (Mutates(c) && AskedBy(t, RequestOf(c).key, c) && Caches(s.traffic.world.cache, t.traffic.world.cache, RequestOf(c).key))
    ensures CacheAsked(t)
  {
    forall key | key in t.traffic.world.cache
      ensures exists d :: AskedBy(t, key, d)
    {
      if !AskedBy(t, key, c) {
        var d :| AskedBy(s, key, d);
        assert AskedBy(t, key, d);
      }
    }
  }

  lemma BeginKeepsAsked(s: Cloud, c: Ticket, script: Script)
    requires CacheAsked(s) && c in s.orc.tickets && Mutates(c)
    ensures CacheAsked(BeginAnswered(s, c, script))
  {
    BeginRemembers(s.traffic.world, RequestOf(c), script);
    EntriesStayAsked(s, BeginAnswered(s, c, script), c);
  }

  lemma FinishKeepsAsked(s: Cloud, call: nat, aborted: bool)
    requires CacheAsked(s) && CallsGrounded(s) && call in s.traffic.waiting
    ensures CacheAsked(FinishAnswered(s, call, aborted))
  {
    FinishRemembers(s.traffic.world, s.traffic.waiting[call].request, s.traffic.waiting[call].script, aborted);
    EntriesStayAsked(s, FinishAnswered(s, call, aborted), s.callers[call]);
  }

  lemma StepKeepsAsked(s: Cloud, t: Cloud, input: CloudInput)
    requires Moves(s, t, input) && CacheAsked(s) && CallsGrounded(s)
    ensures CacheAsked(t)
  {
    match input
    case BeginCall(ticket, script) =>
      if t != s {
        BeginKeepsAsked(s, ticket, script);
      }
    case FinishCall(call, aborted) =>
      if t != s {
        FinishKeepsAsked(s, call, aborted);
      }
    case Orchestrate(work) =>
      TicketsStay(s.orc, work);
      SameCacheStaysAsked(s, t);
    case _ => SameCacheStaysAsked(s, t);
  }

  lemma SameCacheStaysAsked(s: Cloud, t: Cloud)
    requires CacheAsked(s) && s.orc.tickets <= t.orc.tickets && t.traffic.world.cache == s.traffic.world.cache
    ensures CacheAsked(t)
  {
    forall key | key in t.traffic.world.cache
      ensures exists d :: AskedBy(t, key, d)
    {
      var d :| AskedBy(s, key, d);
      assert AskedBy(t, key, d);
    }
  }

  lemma {:induction false} RunsAreAsked(start: Time, inputs: seq<CloudInput>)
    ensures CacheAsked(CloudRun(start, inputs))
  {
    if inputs != [] {
      var before := inputs[..|inputs| - 1];
      RunsAreAsked(start, before);
      RunsAreComposed(start, before);
      StepMoves(CloudRun(start, before), inputs[|inputs| - 1]);
      StepKeepsAsked(CloudRun(start, before), CloudRun(start, inputs), inputs[|inputs| - 1]);
    }
  }

  // ----- Work that was lost ------------------------------------------------------------------

  /** The capabilities whose mutation nests its context. */
  predicate Nests(action: Action) {
    !action.CreateInstance? && !action.PowerInstance?
  }

  /** The row is about to call the provider. */
  predicate AtMutation(w: Workflow) {
    IsLive(w.saga.status) && w.saga.stage.At? && w.saga.stage.stage in MutationStages(w.action)
  }

  function OwnKey(w: Workflow): Key
    requires AtMutation(w)
  {
    KeyAt(w.command, w.saga.stage.stage)
  }

  /** The provider has dealt with the row's mutation, and the row does not know. */
  predicate Unheard(s: Cloud, op: nat) {
    && op in s.orc.tables.workflows && AtMutation(s.orc.tables.workflows[op])
    && OwnKey(s.orc.tables.workflows[op]) in s.traffic.world.cache
  }

  ghost predicate AnswersOlder(s: Cloud, key: Key, token: nat) {
    && (forall call | call in s.traffic.waiting && s.traffic.waiting[call].request.key == key ::
          s.traffic.waiting[call].request.token < token)
    && (forall call | call in s.answers && call in s.callers && s.answers[call].Mutation? && Mutates(s.callers[call])
          && RequestOf(s.callers[call]).key == key :: s.callers[call].token < token)
  }

  /** All that was ever asked or answered under the row's key is older than the row's claim. */
  ghost predicate Overtaken(s: Cloud, op: nat) {
    && Unheard(s, op) && Nests(s.orc.tables.workflows[op].action)
    && ActionOf(s.orc.tables.workflows[op].command) == s.orc.tables.workflows[op].action
    && var w := s.orc.tables.workflows[op];
       s.traffic.world.cache[OwnKey(w)].canonical.token < w.token && AnswersOlder(s, OwnKey(w), w.token)
  }

  /** The row waits at its mutation, or ended without success and with no letter to replay. */
  predicate Stranded(s: Cloud, op: nat) {
    && op in s.orc.tables.workflows
    && var w := s.orc.tables.workflows[op];
       || AtMutation(w)
       || ((w.saga.status.Failed? || w.saga.status.ManualReview?) && !Redeemable(s.orc.tables, w.eventId))
  }

  /** The row ended without success, by a failure no replay is offered for. */
  ghost predicate Abandoned(s: Orc, op: nat) {
    && op in s.tables.workflows && (s.tables.workflows[op].saga.status.Failed? || s.tables.workflows[op].saga.status.ManualReview?)
    && !RanOut(s, op)
  }

  lemma NestedKeys(command: Command, stage: Stage)
    requires Nests(ActionOf(command)) && stage in MutationStages(ActionOf(command))
    ensures !IsFlat(KeyAt(command, stage).verb)
  {
  }

  /** A claim is newer than every earlier claim of the row. */
  lemma EarlierTicketsAreOlder(s: Orc, t: Orc, input: Input, c: Ticket)
    requires TicketsOk(s) && input.WorkerClaims? && ClaimStep(s, t, input.operationId, input.worker, input.leaseMs)
    requires c in s.tickets && c.operationId == input.operationId
    ensures c.token < t.tables.workflows[input.operationId].token
  {
    assert TicketOk(s, c);
  }

  lemma KeysNameOperations(s: Orc, c: Ticket)
    requires TicketsIdentified(s) && c in s.tickets && Mutates(c)
    ensures RequestOf(c).key.operationId == c.operationId
  {
    assert IdentifiedRow(s, c.operationId, c.row);
  }

  /** So it is newer than whatever was asked or answered for the row before. */
  lemma EarlierCallsAreOlder(s: Cloud, key: Key, op: nat, token: nat)
    requires TicketsIdentified(s.orc) && CallsGrounded(s) && key.operationId == op
    requires forall c | c in s.orc.tickets && c.operationId == op :: c.token < token
    ensures AnswersOlder(s, key, token)
  {
    forall call | call in s.callers && Mutates(s.callers[call]) && s.callers[call] in s.orc.tickets
      && RequestOf(s.callers[call]).key == key
      ensures s.callers[call].token < token
    {
      KeysNameOperations(s.orc, s.callers[call]);
    }
  }

  lemma EarlierEntryIsOlder(s: Cloud, w: Workflow, op: nat, token: nat)
    requires TicketsIdentified(s.orc) && CacheAsked(s) && AtMutation(w) && OwnKey(w) in s.traffic.world.cache
    requires w.command.operationId == op && ActionOf(w.command) == w.action && Nests(w.action)
    requires forall c | c in s.orc.tickets && c.operationId == op :: c.token < token
    ensures s.traffic.world.cache[OwnKey(w)].canonical.token < token
  {
    var c :| AskedBy(s, OwnKey(w), c);
    KeysNameOperations(s.orc, c);
    NestedKeys(w.command, w.saga.stage.stage);
  }

  lemma ClaimOvertakes(s: Cloud, t: Cloud, input: Input, w: Workflow)
    requires TicketsOk(s.orc) && TicketsIdentified(s.orc) && CallsGrounded(s) && CacheAsked(s)
    requires input.WorkerClaims? && t == s.(orc := t.orc) && ClaimsRow(s.orc, t.orc, input.operationId)
    requires ClaimStep(s.orc, t.orc, input.operationId, input.worker, input.leaseMs)
    requires w == s.orc.tables.workflows[input.operationId] && w.command.operationId == input.operationId
    requires ActionOf(w.command) == w.action && Nests(w.action) && Unheard(s, input.operationId)
    ensures Overtaken(t, input.operationId)
  {
    var op, token := input.operationId, t.orc.tables.workflows[input.operationId].token;
    forall c | c in s.orc.tickets && c.operationId == op
      ensures c.token < token
    {
      EarlierTicketsAreOlder(s.orc, t.orc, input, c);
    }
    EarlierCallsAreOlder(s, OwnKey(w), op, token);
    EarlierEntryIsOlder(s, w, op, token);
    assert OwnKey(t.orc.tables.workflows[op]) == OwnKey(w);
  }

  lemma ClaimTakesEffect(s: Orc, input: Input)
    requires RowsIdentified(s) && input.WorkerClaims? && Enabled(s, input)
    ensures RowIdentity(s, input.operationId)
    ensures ClaimsRow(s, Step(s, input), input.operationId)
    ensures ClaimStep(s, Step(s, input), input.operationId, input.worker, input.leaseMs)
  {
    assert RowIdentity(s, input.operationId);
    ClaimRowEffect(s, input.operationId, input.worker, input.leaseMs);
    ClaimEffect(s, input.operationId, input.worker, input.leaseMs);
  }

  // ----- Provider steps ----------------------------------------------------------------------

  lemma BeginStaysOvertaken(s: Cloud, c: Ticket, script: Script, op: nat)
    requires Overtaken(s, op) && CallsGrounded(s) && Mutates(c)
    ensures Overtaken(BeginAnswered(s, c, script), op)
  {
    var w := s.orc.tables.workflows[op];
    NestedKeys(w.command, w.saga.stage.stage);
    BeginRemembers(s.traffic.world, RequestOf(c), script);
    if RequestOf(c).key == OwnKey(w) {
      assert Begin(s.traffic.world, RequestOf(c), script).1.Some?;
    }
  }

  lemma FinishStaysOvertaken(s: Cloud, call: nat, aborted: bool, op: nat)
    requires Overtaken(s, op) && CallsGrounded(s) && call in s.traffic.waiting
    ensures Overtaken(FinishAnswered(s, call, aborted), op)
  {
    var w := s.orc.tables.workflows[op];
    NestedKeys(w.command, w.saga.stage.stage);
    FinishRemembers(s.traffic.world, s.traffic.waiting[call].request, s.traffic.waiting[call].script, aborted);
    assert s.traffic.waiting[call].request == RequestOf(s.callers[call]);
  }

  // ----- Orchestrator steps ------------------------------------------------------------------

  /** Without an answer to its mutation, a claim at a mutation stage can only end the row. */
  lemma UnansweredEnds(command: Command, e: Entry)
    requires Decided(command, e) && e.saga.stage.stage in MutationStages(ActionOf(command)) && !e.reply.Mutation?
    ensures e.transition.Stop?
  {
    MutationStagesAreTheMutatingRoles(ActionOf(command), e.saga.stage.stage);
  }

  lemma CommitAbandons(s: Cloud, input: Input)
    requires Fenced(s.orc) && input.WorkerCommits? && Enabled(s.orc, input) && Step(s.orc, input) != s.orc
    requires Overtaken(s, input.ticket.operationId) && Learned(s, input.ticket, input.reply)
    ensures Abandoned(Step(s.orc, input), input.ticket.operationId)
  {
    var c := input.ticket;
    var e := Entry(c.row.saga, input.reply, input.decidedAt, input.random, s.orc.now,
                   DecisionOf(c, input.reply, input.decidedAt, input.random));
    CommitIsDecided(s.orc, input);
    assert TicketOk(s.orc, c);
    UnansweredEnds(c.row.command, e);
  }

  ghost predicate Lost(s: Cloud, op: nat) {
    Overtaken(s, op) || Abandoned(s.orc, op)
  }

  /** The row is as it was, or it was live and has been claimed again. */
  ghost predicate OnlyClaimed(s: Orc, t: Orc, op: nat) {
    || RowStays(s, t, op)
    || (op in s.tables.workflows && op in t.tables.workflows && IsLive(s.tables.workflows[op].saga.status)
        && var w, w' := s.tables.workflows[op], t.tables.workflows[op];
           w' == w.(attempt := w'.attempt, token := w'.token, saga := ClaimedSaga(w.saga)) && w.token < w'.token)
  }

  lemma ClaimOnlyClaims(s: Orc, input: Input, op: nat)
    requires Fenced(s) && input.WorkerClaims? && Enabled(s, input)
    ensures OnlyClaimed(s, Step(s, input), op)
  {
    ClaimRowEffect(s, input.operationId, input.worker, input.leaseMs);
    ClaimEffect(s, input.operationId, input.worker, input.leaseMs);
  }

  lemma OtherCommitStays(s: Orc, input: Input, op: nat)
    requires Fenced(s) && input.WorkerCommits? && Enabled(s, input) && input.ticket.operationId != op
    ensures RowStays(s, Step(s, input), op)
  {
    if Step(s, input) != s {
      CommitIsDecided(s, input);
    }
  }

  lemma DeliveryStays(s: Orc, t: Orc, op: nat)
    requires Delivers(s, t, op) && LetterFollows(s, op) && op in s.tables.workflows && !RanOut(s, op)
    ensures RowStays(s, t, op)
  {
  }

  /** What a step means for a row that cannot be replayed, if it is not the row's own commit. */
  lemma RowOnlyClaimed(s: Orc, input: Input, op: nat)
    requires Settling(s) && op in s.tables.workflows && !RanOut(s, op)
    requires input.WorkerCommits? ==> input.ticket.operationId != op
    ensures OnlyClaimed(s, Step(s, input), op)
  {
    if Enabled(s, input) {
      if input.WorkerClaims? {
        ClaimOnlyClaims(s, input, op);
      } else if input.WorkerCommits? {
        OtherCommitStays(s, input, op);
      } else {
        OtherStepsDeliver(s, input, op);
        assert LetterFollows(s, op);
        DeliveryStays(s, Step(s, input), op);
      }
    }
  }

  lemma ClaimsStayLost(s: Cloud, t: Cloud, op: nat)
    requires Lost(s, op) && t == s.(orc := t.orc) && OnlyClaimed(s.orc, t.orc, op)
    ensures Lost(t, op)
  {
  }

  lemma OwnCommitLoses(s: Cloud, input: Input)
    requires Fenced(s.orc) && input.WorkerCommits? && Lost(s, input.ticket.operationId)
    requires Learned(s, input.ticket, input.reply)
    ensures Lost(s.(orc := Step(s.orc, input)), input.ticket.operationId)
  {
    if Enabled(s.orc, input) && Step(s.orc, input) != s.orc {
      CommitIsDecided(s.orc, input);
      assert Overtaken(s, input.ticket.operationId);
      CommitAbandons(s, input);
    }
  }

  lemma OrchestratorLoses(s: Cloud, t: Cloud, input: Input, op: nat)
    requires Settling(s.orc) && Lost(s, op) && t == s.(orc := Step(s.orc, input))
    requires input.WorkerCommits? ==> Learned(s, input.ticket, input.reply)
    ensures Lost(t, op)
  {
    if input.WorkerCommits? && input.ticket.operationId == op {
      OwnCommitLoses(s, input);
    } else {
      assert op in s.orc.tables.workflows && !RanOut(s.orc, op);
      RowOnlyClaimed(s.orc, input, op);
      ClaimsStayLost(s, t, op);
    }
  }

  lemma ProviderStaysLost(s: Cloud, t: Cloud, input: CloudInput, op: nat)
    requires Moves(s, t, input) && !input.Orchestrate? && CallsGrounded(s) && Lost(s, op)
    ensures Lost(t, op)
  {
    if t != s && Overtaken(s, op) {
      match input
      case BeginCall(ticket, script) => BeginStaysOvertaken(s, ticket, script, op);
      case FinishCall(call, aborted) => FinishStaysOvertaken(s, call, aborted, op);
      case _ =>
    }
  }

  lemma StepLoses(s: Cloud, t: Cloud, input: CloudInput, op: nat)
    requires Moves(s, t, input) && Settling(s.orc) && CallsGrounded(s) && Lost(s, op)
    ensures Lost(t, op)
  {
    if !input.Orchestrate? {
      ProviderStaysLost(s, t, input, op);
    } else if t != s {
      OrchestratorLoses(s, t, input.input, op);
    }
  }

  lemma {:induction false} LostStaysLost(start: Time, inputs: seq<CloudInput>, n: nat, op: nat)
    requires n <= |inputs| && Lost(CloudRun(start, inputs[..n]), op)
    ensures Lost(CloudRun(start, inputs), op)
  {
    if n < |inputs| {
      var before := inputs[..|inputs| - 1];
      assert before[..n] == inputs[..n];
      LostStaysLost(start, before, n, op);
      RunsAreComposed(start, before);
      CloudsAreSettling(start, before);
      StepMoves(CloudRun(start, before), inputs[|inputs| - 1]);
      StepLoses(CloudRun(start, before), CloudRun(start, inputs), inputs[|inputs| - 1], op);
    } else {
      assert inputs[..n] == inputs;
    }
  }

  /**
   * A resize, snapshot action, retention or purge whose mutation the provider has dealt with before
   * the commit, and whose row is then claimed anew, never succeeds: for the rest of the run the row
   * waits at that mutation or has ended `failed` or `manual_review`, and no replay is offered for it.
   */
  lemma TakeoverNeverSucceeds(start: Time, inputs: seq<CloudInput>, n: nat, op: nat)
    requires n < |inputs| && inputs[n].Orchestrate? && inputs[n].input.WorkerClaims? && inputs[n].input.operationId == op
    requires var s := CloudRun(start, inputs[..n]);
             Enabled(s.orc, inputs[n].input) && Unheard(s, op) && Nests(s.orc.tables.workflows[op].action)
    ensures Stranded(CloudRun(start, inputs), op)
  {
    var t := TakenOver(start, inputs[..n], inputs[n], op);
    assert inputs[..n] + [inputs[n]] == inputs[..n + 1];
    LostStaysLost(start, inputs, n + 1, op);
    CloudsAreSettling(start, inputs);
    LostMeans(CloudRun(start, inputs), op);
  }

  lemma TakenOver(start: Time, before: seq<CloudInput>, claim: CloudInput, op: nat) returns (t: Cloud)
    requires claim.Orchestrate? && claim.input.WorkerClaims? && claim.input.operationId == op
    requires var s := CloudRun(start, before);
             Enabled(s.orc, claim.input) && Unheard(s, op) && Nests(s.orc.tables.workflows[op].action)
    ensures t == CloudRun(start, before + [claim]) && Overtaken(t, op)
  {
    CallsFollowClaims(start, before);
    t := ClaimedAnew(CloudRun(start, before), claim);
    assert (before + [claim])[..|before|] == before;
  }

  lemma CallsFollowClaims(start: Time, inputs: seq<CloudInput>)
    ensures var s := CloudRun(start, inputs);
            && TicketsOk(s.orc) && IssuedOnce(s.orc) && RowsIdentified(s.orc) && TicketsIdentified(s.orc)
            && CallsGrounded(s) && CacheAsked(s)
  {
    RunsAreComposed(start, inputs);
    RunsAreAsked(start, inputs);
  }

  lemma ClaimedAnew(s: Cloud, claim: CloudInput) returns (t: Cloud)
    requires TicketsOk(s.orc) && RowsIdentified(s.orc) && TicketsIdentified(s.orc) && CallsGrounded(s) && CacheAsked(s)
    requires claim.Orchestrate? && claim.input.WorkerClaims? && Enabled(s.orc, claim.input)
    requires Unheard(s, claim.input.operationId) && Nests(s.orc.tables.workflows[claim.input.operationId].action)
    ensures t == CloudStep(s, claim) && Overtaken(t, claim.input.operationId)
  {
    t := s.(orc := Step(s.orc, claim.input));
    ClaimTakesEffect(s.orc, claim.input);
    ClaimOvertakes(s, t, claim.input, s.orc.tables.workflows[claim.input.operationId]);
  }

  lemma LostMeans(s: Cloud, op: nat)
    requires LettersFollow(s.orc) && Lost(s, op)
    ensures Stranded(s, op)
  {
    assert op in s.orc.tables.workflows ==> LetterFollows(s.orc, op);
  }

  // ----- How the repeated call is answered ---------------------------------------------------

  /** A claim of the row's present generation was for the same command, and not further along. */
  ghost predicate Trails(s: Orc, c: Ticket) {
    && c.operationId in s.tables.workflows && c.row.saga.stage.At?
    && var w := s.tables.workflows[c.operationId];
       && c.row.generation <= w.generation
       && (c.row.generation == w.generation ==> c.row.command == w.command)
       && (c.row.generation == w.generation && w.saga.stage.At? ==>
             && Rank(w.action, w.saga.stage.stage) <= Rank(w.action, c.row.saga.stage.stage)
             && (w.saga.stage == c.row.saga.stage && w.saga.stage.stage in MutationStages(w.action) ==>
                   w.saga.resource == c.row.saga.resource))
  }

  ghost predicate TicketsTrail(s: Orc) {
    forall c | c in s.tickets :: Trails(s, c)
  }

  /** A commit moves on, and never stays at a mutation. */
  lemma CommitDescends(command: Command, e: Entry)
    requires Decided(command, e) && e.saga.status.Running? && Sound(ActionOf(command), e.saga) && After(e).stage.At?
    ensures var action, from, to := ActionOf(command), e.saga.stage.stage, After(e).stage.stage;
            || Rank(action, to) < Rank(action, from)
            || (to == from && from !in MutationStages(action))
  {
    var action, from, to := ActionOf(command), e.saga.stage.stage, After(e).stage.stage;
    CommitShape(command, e);
    MutationStagesAreTheMutatingRoles(action, from);
    if Leads(action, from, to) {
      EdgesDescend(action, from, to);
    }
  }

  lemma CommitTrails(s: Orc, t: Orc, op: nat, e: Entry, c: Ticket)
    requires CommitsRow(s, t, op, e) && Decided(s.tables.workflows[op].command, e) && e.saga.status.Running? && e.now == s.now
    requires ActionOf(s.tables.workflows[op].command) == s.tables.workflows[op].action
    requires Sound(s.tables.workflows[op].action, e.saga) && Trails(s, c)
    ensures Trails(t, c)
  {
    if c.operationId == op && After(e).stage.At? {
      CommitDescends(s.tables.workflows[op].command, e);
    }
  }

  lemma ClaimTrails(s: Orc, t: Orc, input: Input, c: Ticket)
    requires input.WorkerClaims? && ClaimsRow(s, t, input.operationId) && TicketsTrail(s) && c in t.tickets
    requires ClaimStep(s, t, input.operationId, input.worker, input.leaseMs)
    requires Sound(s.tables.workflows[input.operationId].action, s.tables.workflows[input.operationId].saga)
    ensures Trails(t, c)
  {
    if c in s.tickets {
      assert Trails(s, c);
    }
  }

  lemma DeliveryTrails(s: Orc, t: Orc, c: Ticket)
    requires Delivers(s, t, c.operationId) && Trails(s, c)
    ensures Trails(t, c)
  {
  }

  lemma OtherStepsTrail(s: Orc, input: Input)
    requires Settling(s) && TicketsTrail(s) && !input.WorkerClaims? && !input.WorkerCommits?
    ensures TicketsTrail(Step(s, input))
  {
    OtherStepsAreQuiet(s, input);
    forall c | c in Step(s, input).tickets
      ensures Trails(Step(s, input), c)
    {
      OtherStepsDeliver(s, input, c.operationId);
      assert Trails(s, c);
      DeliveryTrails(s, Step(s, input), c);
    }
  }

  lemma CommitsTrail(s: Orc, input: Input)
    requires Invariant(s) && TicketsTrail(s) && input.WorkerCommits? && Enabled(s, input) && Step(s, input) != s
    ensures TicketsTrail(Step(s, input))
  {
    CommitIsDecided(s, input);
    var own := input.ticket;
    var e := Entry(own.row.saga, input.reply, input.decidedAt, input.random, s.now,
                   DecisionOf(own, input.reply, input.decidedAt, input.random));
    RowIsSound(s, own.operationId);
    assert RowIdentity(s, own.operationId);
    forall c | c in Step(s, input).tickets
      ensures Trails(Step(s, input), c)
    {
      assert Trails(s, c);
      CommitTrails(s, Step(s, input), own.operationId, e, c);
    }
  }

  lemma ClaimsTrail(s: Orc, input: Input)
    requires Invariant(s) && TicketsTrail(s) && input.WorkerClaims? && Enabled(s, input)
    ensures TicketsTrail(Step(s, input))
  {
    ClaimTakesEffect(s, input);
    RowIsSound(s, input.operationId);
    forall c | c in Step(s, input).tickets
      ensures Trails(Step(s, input), c)
    {
      ClaimTrails(s, Step(s, input), input, c);
    }
  }

  lemma StepTrails(s: Orc, input: Input)
    requires Settling(s) && TicketsTrail(s)
    ensures TicketsTrail(Step(s, input))
  {
    if Enabled(s, input) && Step(s, input) != s {
      if input.WorkerClaims? {
        ClaimsTrail(s, input);
      } else if input.WorkerCommits? {
        CommitsTrail(s, input);
      } else {
        OtherStepsTrail(s, input);
      }
    }
  }

  lemma {:induction false} RunsTrail(start: Time, inputs: seq<Input>)
    ensures TicketsTrail(Run(start, inputs))
  {
    if inputs != [] {
      var before := inputs[..|inputs| - 1];
      RunsTrail(start, before);
      ReplaysFollowExhaustion(start, before);
      StepTrails(Run(start, before), inputs[|inputs| - 1]);
    }
  }

  /** A claim of the row under the same key was made at the same stage, with the same machine in mind. */
  lemma SameKeySameRow(s: Orc, c: Ticket, w: Workflow)
    requires Trails(s, c) && w == s.tables.workflows[c.operationId] && AtMutation(w) && w.generation == 0
    requires ActionOf(w.command) == w.action
    requires Mutates(c) && RequestOf(c).key == OwnKey(w)
    ensures RequestOf(c) == RequestFor(w.command, w.saga.resource, w.saga.stage.stage, c.token)
  {
    MutationStagesAreTheMutatingRoles(w.action, c.row.saga.stage.stage);
    StagesHaveTheirOwnKeys(w.command, c.row.saga.stage.stage, w.saga.stage.stage);
  }

  /** What the provider remembers of a row that was never replayed is the row's own request. */
  lemma RememberedAsAsked(s: Cloud, op: nat, w: Workflow) returns (token: nat)
    requires TicketsIdentified(s.orc) && TicketsTrail(s.orc) && CacheAsked(s)
    requires Unheard(s, op) && w == s.orc.tables.workflows[op] && w.generation == 0
    requires w.command.operationId == op && ActionOf(w.command) == w.action
    ensures s.traffic.world.cache[OwnKey(w)].canonical
         == Canonical(RequestFor(w.command, w.saga.resource, w.saga.stage.stage, token))
  {
    var c :| AskedBy(s, OwnKey(w), c);
    KeysNameOperations(s.orc, c);
    assert Trails(s.orc, c);
    SameKeySameRow(s.orc, c, w);
    token := c.token;
  }

  /**
   * The call a claim repeats, for an operation that was never replayed: the provider answers it from
   * what it remembers exactly if the capability is create or power or the claim is the one that
   * asked; otherwise it is a protocol error. Nothing is applied again either way.
   */
  lemma RepeatedCallIsAnswered(start: Time, inputs: seq<CloudInput>, d: Ticket, script: Script)
    requires var s := CloudRun(start, inputs);
             && d in s.orc.tickets && Unheard(s, d.operationId) && s.orc.tables.workflows[d.operationId] == d.row
             && d.row.generation == 0
    ensures var w := CloudRun(start, inputs).traffic.world;
            var entry := w.cache[OwnKey(d.row)];
            && RequestOf(d).key == OwnKey(d.row)
            && Begin(w, RequestOf(d), script)
               == (w, Some(if !Nests(d.row.action) || entry.canonical.token == d.token then Mutation(Some(entry.result))
                           else Transport(TransportError(ProtocolError, false))))
  {
    CallsFollowClaims(start, inputs);
    var works := OrchestratorRuns(start, inputs);
    RunsTrail(start, works);
    assert RowIdentity(CloudRun(start, inputs).orc, d.operationId);
    var token := RememberedAsAsked(CloudRun(start, inputs), d.operationId, d.row);
    FlatSteps(d.row.command, d.row.saga.stage.stage);
  }
}
