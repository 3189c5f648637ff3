/**
 * That work can be lost: from any state of workers and provider, each operation that is about to call
 * the provider for a nested mutation, and each create that polls or observes, has a continuation after
 * which it never succeeds.
 */
module LostWork {
  import opened Prelude
  import opened Stages
  import opened SagaEngine
  import opened SagaRuns
  import opened WorkflowTables
  import opened Orchestrator
  import opened Fencing
  import opened RowRuns
  import opened GovernedReplay
  import opened Letters
  import opened Turns
  import opened Continuations
  import opened Provider
  import opened Effects
  import opened Takeovers
  import opened ReplayedCreates

  // ----- Continuing a run --------------------------------------------------------------------

  lemma Next(start: Time, inputs: seq<CloudInput>, input: CloudInput)
    ensures CloudRun(start, inputs + [input]) == CloudStep(CloudRun(start, inputs), input)
  {
    assert (inputs + [input])[..|inputs|] == inputs;
  }

  lemma NextWork(start: Time, inputs: seq<CloudInput>, work: Input)
    requires work.WorkerCommits? ==> work.reply.Transport?
    ensures var s := CloudRun(start, inputs);
            CloudRun(start, inputs + [Orchestrate(work)]) == s.(orc := Step(s.orc, work))
  {
    Next(start, inputs, Orchestrate(work));
  }

  /** Time passes until the row is due, and it is claimed. */
  function ClaimInputs(op: nat, time: Time): seq<CloudInput> {
    [Orchestrate(Tick(time)), Orchestrate(WorkerClaims(op, 0, MINIMUM_LEASE_MS))]
  }

  lemma DueIsDue(s: Orc, op: nat)
    requires op in s.tables.workflows && IsLive(s.tables.workflows[op].saga.status)
    ensures DueBy(s, op, DueTime(s, op))
  {
  }

  lemma ClaimFollows(start: Time, inputs: seq<CloudInput>, op: nat, time: Time)
    requires RowsIdentified(CloudRun(start, inputs).orc) && DueBy(CloudRun(start, inputs).orc, op, time)
    ensures var s := CloudRun(start, inputs);
            && CloudRun(start, inputs + ClaimInputs(op, time)) == s.(orc := ClaimedAt(s.orc, op, time))
            && ClaimedAt(s.orc, op, time).tables == ClaimRow(s.orc.tables, op, 0, MINIMUM_LEASE_MS, time)
            && TicketAt(s.orc, op, time) in ClaimedAt(s.orc, op, time).tickets
  {
    var tick, claim := Tick(time), WorkerClaims(op, 0, MINIMUM_LEASE_MS);
    NextWork(start, inputs, tick);
    NextWork(start, inputs + [Orchestrate(tick)], claim);
    assert inputs + ClaimInputs(op, time) == inputs + [Orchestrate(tick)] + [Orchestrate(claim)];
    ClaimIsGranted(CloudRun(start, inputs).orc, op, time);
  }

  // ----- A nested mutation -------------------------------------------------------------------

  predicate Ready(s: Orc, op: nat) {
    && op in s.tables.workflows && AtMutation(s.tables.workflows[op])
    && s.tables.workflows[op].saga.resource.Some?
    && ActionOf(s.tables.workflows[op].command) == s.tables.workflows[op].action
  }

  lemma ReadyTicketMutates(s: Orc, op: nat, time: Time)
    requires Ready(s, op)
    ensures Mutates(TicketAt(s, op, time)) && RequestOf(TicketAt(s, op, time)).key == OwnKey(s.tables.workflows[op])
  {
    MutationStagesAreTheMutatingRoles(s.tables.workflows[op].action, s.tables.workflows[op].saga.stage.stage);
  }

  /** A claim's call is applied, and its reply lost. */
  lemma CallIsLost(start: Time, inputs: seq<CloudInput>, op: nat, c: Ticket)
    requires var s := CloudRun(start, inputs);
             && c in s.orc.tickets && Mutates(c) && op in s.orc.tables.workflows && AtMutation(s.orc.tables.workflows[op])
             && RequestOf(c).key == OwnKey(s.orc.tables.workflows[op])
    ensures var t := CloudRun(start, inputs + [BeginCall(c, TimesOut(true, None))]);
            t.orc == CloudRun(start, inputs).orc && Unheard(t, op)
  {
    Next(start, inputs, BeginCall(c, TimesOut(true, None)));
  }

  /** Time passes until the row can be claimed. */
  lemma BecomesDue(start: Time, inputs: seq<CloudInput>, op: nat) returns (tick: CloudInput)
    requires op in CloudRun(start, inputs).orc.tables.workflows && IsLive(CloudRun(start, inputs).orc.tables.workflows[op].saga.status)
    ensures var s, t := CloudRun(start, inputs), CloudRun(start, inputs + [tick]);
            && t == s.(orc := t.orc) && t.orc.tables == s.orc.tables
            && Enabled(t.orc, WorkerClaims(op, 0, MINIMUM_LEASE_MS))
  {
    var time := DueTime(CloudRun(start, inputs).orc, op);
    DueIsDue(CloudRun(start, inputs).orc, op);
    tick := Orchestrate(Tick(time));
    NextWork(start, inputs, Tick(time));
  }

  /** The row is claimed once more, after the claim that called. */
  lemma ClaimedAgain(start: Time, inputs: seq<CloudInput>, op: nat) returns (more: seq<CloudInput>)
    requires Unheard(CloudRun(start, inputs), op) && Nests(CloudRun(start, inputs).orc.tables.workflows[op].action)
    ensures Overtaken(CloudRun(start, inputs + more), op)
  {
    var claim := Orchestrate(WorkerClaims(op, 0, MINIMUM_LEASE_MS));
    var tick := BecomesDue(start, inputs, op);
    var t := TakenOver(start, inputs + [tick], claim, op);
    more := [tick] + [claim];
    assert inputs + more == inputs + [tick] + [claim];
  }

  lemma OvertakenStaysStranded(start: Time, inputs: seq<CloudInput>, rest: seq<CloudInput>, op: nat)
    requires Overtaken(CloudRun(start, inputs), op)
    ensures Stranded(CloudRun(start, inputs + rest), op)
  {
    assert (inputs + rest)[..|inputs|] == inputs;
    LostStaysLost(start, inputs + rest, |inputs|, op);
    CloudsAreSettling(start, inputs + rest);
    LostMeans(CloudRun(start, inputs + rest), op);
  }

  lemma ClaimedOnce(start: Time, inputs: seq<CloudInput>, op: nat) returns (more: seq<CloudInput>, c: Ticket)
    requires RowsIdentified(CloudRun(start, inputs).orc) && Ready(CloudRun(start, inputs).orc, op)
    ensures var s, t := CloudRun(start, inputs), CloudRun(start, inputs + more);
            && c in t.orc.tickets && Mutates(c) && Ready(t.orc, op) && RequestOf(c).key == OwnKey(t.orc.tables.workflows[op])
            && t.orc.tables.workflows[op].action == s.orc.tables.workflows[op].action
  {
    var s := CloudRun(start, inputs).orc;
    var time := DueTime(s, op);
    DueIsDue(s, op);
    ClaimFollows(start, inputs, op, time);
    ReadyTicketMutates(s, op, time);
    more, c := ClaimInputs(op, time), TicketAt(s, op, time);
  }

  lemma LostThenClaimed(start: Time, inputs: seq<CloudInput>, op: nat, c: Ticket) returns (more: seq<CloudInput>)
    requires var s := CloudRun(start, inputs);
             && c in s.orc.tickets && Mutates(c) && op in s.orc.tables.workflows && AtMutation(s.orc.tables.workflows[op])
             && RequestOf(c).key == OwnKey(s.orc.tables.workflows[op]) && Nests(s.orc.tables.workflows[op].action)
    ensures Overtaken(CloudRun(start, inputs + more), op)
  {
    var call := [BeginCall(c, TimesOut(true, None))];
    CallIsLost(start, inputs, op, c);
    var again := ClaimedAgain(start, inputs + call, op);
    more := call + again;
    assert inputs + more == inputs + call + again;
  }

  lemma CallThenClaim(start: Time, inputs: seq<CloudInput>, op: nat) returns (more: seq<CloudInput>)
    requires RowsIdentified(CloudRun(start, inputs).orc) && Ready(CloudRun(start, inputs).orc, op)
    requires Nests(CloudRun(start, inputs).orc.tables.workflows[op].action)
    ensures Overtaken(CloudRun(start, inputs + more), op)
  {
    var first, c := ClaimedOnce(start, inputs, op);
    var rest := LostThenClaimed(start, inputs + first, op, c);
    more := first + rest;
    assert inputs + more == inputs + first + rest;
  }

  /**
   * Whatever the state: a resize, snapshot action, retention or purge that is about to call the
   * provider can lose its worker after the call. From then on it never succeeds.
   */
  lemma NestedWorkCanBeLost(start: Time, inputs: seq<CloudInput>, op: nat) returns (more: seq<CloudInput>)
    requires op in CloudRun(start, inputs).orc.tables.workflows
    requires var w := CloudRun(start, inputs).orc.tables.workflows[op];
             AtMutation(w) && Nests(w.action) && w.saga.resource.Some?
    ensures forall rest :: Stranded(CloudRun(start, inputs + more + rest), op)
  {
    CallsFollowClaims(start, inputs);
    assert RowIdentity(CloudRun(start, inputs).orc, op);
    more := CallThenClaim(start, inputs, op);
    forall rest
      ensures Stranded(CloudRun(start, inputs + more + rest), op)
    {
      OvertakenStaysStranded(start, inputs + more, rest, op);
    }
  }

  // ----- A create past its submission --------------------------------------------------------

  const OUTAGE := Transport(TransportErrorOf(Unavailable))

  /** What is known of a create that polls or observes. */
  predicate Watching(s: Orc, op: nat) {
    && IsCreate(s, op) && IsLive(s.tables.workflows[op].saga.status) && s.tables.workflows[op].saga.stage.At?
    && ActionOf(s.tables.workflows[op].command).CreateInstance?
    && s.tables.workflows[op].eventId == s.tables.workflows[op].command.eventId
    && s.tables.workflows[op].eventId !in s.tables.deadLetters
    && var saga := s.tables.workflows[op].saga;
       var role := RoleOf(CreateInstance, saga.stage.stage);
       && (role.Polling? || role.Closing?) && (role.Polling? ==> saga.task.Some?) && saga.resource.Some?
  }

  predicate Polls(s: Orc, op: nat) {
    && IsCreate(s, op) && IsLive(s.tables.workflows[op].saga.status) && s.tables.workflows[op].saga.stage.At?
    && var role := RoleOf(CreateInstance, s.tables.workflows[op].saga.stage.stage);
       role.Polling? || role.Closing?
  }

  lemma PollingIsWatching(s: Orc, op: nat)
    requires Invariant(s) && Polls(s, op) && s.tables.workflows[op].eventId !in s.tables.deadLetters
    ensures Watching(s, op)
  {
    RowIsSound(s, op);
    assert RowIdentity(s, op);
  }

  lemma TurnFollows(start: Time, inputs: seq<CloudInput>, op: nat, time: Time) returns (more: seq<CloudInput>)
    requires RowsIdentified(CloudRun(start, inputs).orc) && DueBy(CloudRun(start, inputs).orc, op, time)
    ensures CloudRun(start, inputs + more).orc == Turned(CloudRun(start, inputs).orc, op, OUTAGE, time)
  {
    var commit := WorkerCommits(TicketAt(CloudRun(start, inputs).orc, op, time), OUTAGE, time, 0.0);
    ClaimFollows(start, inputs, op, time);
    NextWork(start, inputs + ClaimInputs(op, time), commit);
    more := ClaimInputs(op, time) + [Orchestrate(commit)];
    assert inputs + more == inputs + ClaimInputs(op, time) + [Orchestrate(commit)];
  }

  /** A turn in which the provider is unreachable. */
  lemma OutageTurn(start: Time, inputs: seq<CloudInput>, op: nat, time: Time) returns (more: seq<CloudInput>)
    requires var s := CloudRun(start, inputs).orc;
             Invariant(s) && DueBy(s, op, time) && Answers(s.tables.workflows[op], OUTAGE)
    ensures TakesTurn(CloudRun(start, inputs).orc, CloudRun(start, inputs + more).orc, op, OUTAGE, time)
  {
    TurnEffect(CloudRun(start, inputs).orc, op, OUTAGE, time);
    more := TurnFollows(start, inputs, op, time);
  }

  lemma WatchingAnswers(s: Orc, op: nat)
    requires Watching(s, op)
    ensures Answers(s.tables.workflows[op], OUTAGE)
  {
  }

  /** An outage is waited out, or exhausts the retries. */
  lemma OutageWaits(s: Orc, t: Orc, op: nat, time: Time)
    requires Watching(s, op) && TakesTurn(s, t, op, OUTAGE, time)
    ensures TransitionAt(s.tables.workflows[op], OUTAGE, time).Exhaust?
         || (Watching(t, op) && t.tables.workflows[op].saga.retryStartedAt.Some?)
  {
  }

  /** An outage after the retry budget exhausts the retries. */
  lemma LateOutageExhausts(w: Workflow, time: Time)
    requires Answers(w, OUTAGE) && w.action.CreateInstance? && ActionOf(w.command) == w.action
    requires w.saga.resource.Some? && (RoleOf(w.action, w.saga.stage.stage).Polling? || RoleOf(w.action, w.saga.stage.stage).Closing?)
    requires w.saga.retryStartedAt.Some? && w.saga.retryStartedAt.value + RETRY_BUDGET_MS <= time
    ensures TransitionAt(w, OUTAGE, time).Exhaust?
  {
    MutationStagesAreTheMutatingRoles(w.action, w.saga.stage.stage);
  }

  /** The retries of the create are exhausted, and its letter is open. */
  predicate GivenUp(s: Orc, op: nat) {
    && IsCreate(s, op) && s.tables.workflows[op].saga.status.Failed?
    && Replayable(s.tables, s.tables.workflows[op].eventId)
  }

  lemma ExhaustedIsGivenUp(s: Orc, t: Orc, op: nat, time: Time)
    requires Watching(s, op) && TakesTurn(s, t, op, OUTAGE, time)
    requires TransitionAt(s.tables.workflows[op], OUTAGE, time).Exhaust?
    ensures GivenUp(t, op)
  {
  }

  /** When the budget of the retries that are being counted is over. */
  function Deadline(saga: Saga): Time {
    if saga.retryStartedAt.Some? then saga.retryStartedAt.value + RETRY_BUDGET_MS else 0
  }

  lemma TakeOutage(start: Time, inputs: seq<CloudInput>, op: nat) returns (more: seq<CloudInput>, time: Time)
    requires Watching(CloudRun(start, inputs).orc, op)
    ensures Deadline(CloudRun(start, inputs).orc.tables.workflows[op].saga) <= time
    ensures TakesTurn(CloudRun(start, inputs).orc, CloudRun(start, inputs + more).orc, op, OUTAGE, time)
  {
    var s := CloudRun(start, inputs).orc;
    time := Max(DueTime(s, op), Deadline(s.tables.workflows[op].saga));
    DueIsDue(s, op);
    WatchingAnswers(s, op);
    RunsAreComposed(start, inputs);
    more := OutageTurn(start, inputs, op, time);
  }

  /** Two outages, the second after the retry budget, are enough. */
  lemma GiveUp(start: Time, inputs: seq<CloudInput>, op: nat) returns (more: seq<CloudInput>)
    requires Watching(CloudRun(start, inputs).orc, op)
    ensures GivenUp(CloudRun(start, inputs + more).orc, op)
  {
    var first, time := TakeOutage(start, inputs, op);
    var s, t := CloudRun(start, inputs).orc, CloudRun(start, inputs + first).orc;
    OutageWaits(s, t, op, time);
    if TransitionAt(s.tables.workflows[op], OUTAGE, time).Exhaust? {
      ExhaustedIsGivenUp(s, t, op, time);
      more := first;
    } else {
      var second := GiveUpLate(start, inputs + first, op);
      more := first + second;
      assert inputs + more == inputs + first + second;
    }
  }

  lemma GiveUpLate(start: Time, inputs: seq<CloudInput>, op: nat) returns (more: seq<CloudInput>)
    requires Watching(CloudRun(start, inputs).orc, op)
    requires CloudRun(start, inputs).orc.tables.workflows[op].saga.retryStartedAt.Some?
    ensures GivenUp(CloudRun(start, inputs + more).orc, op)
  {
    var time;
    more, time := TakeOutage(start, inputs, op);
    var s, t := CloudRun(start, inputs).orc, CloudRun(start, inputs + more).orc;
    LateOutageExhausts(s.tables.workflows[op], time);
    ExhaustedIsGivenUp(s, t, op, time);
  }

  // ----- Reopened under another id -----------------------------------------------------------

  /** The genuine delivery of the replay just authorized. */
  lemma JustAuthorized(s: Orc, request: ReplayRequested, at: Coordinates) returns (command: Command, delivery: Delivery)
    requires IssuedOnce(s) && LettersIdentified(s) && Replayable(s.tables, request.originalEventId)
    ensures var t := s.(tables := Authorize(s.tables, request, Delivery(at, 0, None)));
            && Matches(t.tables, request.requestId, command, delivery) && delivery.generation > 0
            && command.correlation == request.correlation && command.eventId == request.originalEventId
            && command.operationId == s.issued[request.originalEventId].operationId
            && (forall key | key in t.tables.receipts :: t.tables.receipts[key].at != delivery.at)
  {
    var t := Authorize(s.tables, request, Delivery(at, 0, None));
    var unused := FreshCoordinates(t.receipts);
    var letter := s.tables.deadLetters[request.originalEventId];
    command := Restamped(letter.original, request);
    delivery := Delivery(unused, letter.generation + 1, Some(|s.tables.republished|));
  }

  lemma AskFor(start: Time, inputs: seq<CloudInput>, e: nat, correlation: nat)
    returns (more: seq<CloudInput>, request: ReplayRequested, at: Coordinates)
    requires var s := CloudRun(start, inputs).orc; e in s.issued && Replayable(s.tables, e)
    ensures request.originalEventId == e && request.correlation == correlation
    ensures var s := CloudRun(start, inputs).orc;
            CloudRun(start, inputs + more).orc == s.(tables := Authorize(s.tables, request, Delivery(at, 0, None)))
  {
    var s := CloudRun(start, inputs).orc;
    CloudsAreSettling(start, inputs);
    request := FreshNames(s, s.tables.replays.Keys, e, correlation);
    at := FreshCoordinates(s.tables.receipts);
    OpenLetterIsAuthorized(s, request, at);
    NextWork(start, inputs, DeliverReplayRequest(request, Delivery(at, 0, None)));
    more := [Orchestrate(DeliverReplayRequest(request, Delivery(at, 0, None)))];
  }

  /** The replay of a create that was given up is authorized, and can be delivered. */
  lemma AskForCreate(start: Time, inputs: seq<CloudInput>, op: nat, correlation: nat)
    returns (more: seq<CloudInput>, id: nat, command: Command, delivery: Delivery)
    requires IssuedOnce(CloudRun(start, inputs).orc) && RowsIdentified(CloudRun(start, inputs).orc)
    requires LettersIdentified(CloudRun(start, inputs).orc) && GivenUp(CloudRun(start, inputs).orc, op)
    ensures var t := CloudRun(start, inputs + more).orc;
            && Matches(t.tables, id, command, delivery) && delivery.generation > 0 && IsCreate(t, op)
            && command.operationId == op && command.correlation == correlation
            && (forall key | key in t.tables.receipts :: t.tables.receipts[key].at != delivery.at)
  {
    var s := CloudRun(start, inputs).orc;
    assert RowIdentity(s, op);
    var request, at;
    more, request, at := AskFor(start, inputs, s.tables.workflows[op].eventId, correlation);
    id := request.requestId;
    command, delivery := JustAuthorized(s, request, at);
  }

  lemma Replay(start: Time, inputs: seq<CloudInput>, op: nat, correlation: nat) returns (more: seq<CloudInput>)
    requires IssuedOnce(CloudRun(start, inputs).orc) && RowsIdentified(CloudRun(start, inputs).orc)
    requires LettersIdentified(CloudRun(start, inputs).orc) && GivenUp(CloudRun(start, inputs).orc, op)
    ensures var s := CloudRun(start, inputs + more).orc;
            IsCreate(s, op) && s.tables.workflows[op].command.correlation == correlation
  {
    var ask, id, command, delivery := AskForCreate(start, inputs, op, correlation);
    var deliver := Redeliver(start, inputs + ask, id, command, delivery);
    more := ask + deliver;
    assert inputs + more == inputs + ask + deliver;
  }

  lemma Redeliver(start: Time, inputs: seq<CloudInput>, id: nat, command: Command, delivery: Delivery) returns (more: seq<CloudInput>)
    requires var s := CloudRun(start, inputs).orc;
             && Matches(s.tables, id, command, delivery) && delivery.generation > 0 && IsCreate(s, command.operationId)
             && (forall key | key in s.tables.receipts :: s.tables.receipts[key].at != delivery.at)
    ensures var t := CloudRun(start, inputs + more).orc;
            IsCreate(t, command.operationId) && t.tables.workflows[command.operationId].command == command
  {
    var s := CloudRun(start, inputs).orc;
    CloudsAreSettling(start, inputs);
    PendingLetterReopens(s, id, command, delivery);
    NextWork(start, inputs, DeliverReplayCommand(command, delivery));
    more := [Orchestrate(DeliverReplayCommand(command, delivery))];
  }

  lemma GivenUpRanOut(s: Orc, op: nat)
    requires LettersFollow(s) && GivenUp(s, op)
    ensures RanOut(s, op)
  {
    assert LetterFollows(s, op);
  }

  lemma GivenUpIsReplayed(start: Time, inputs: seq<CloudInput>, op: nat, correlation: nat) returns (more: seq<CloudInput>)
    requires GivenUp(CloudRun(start, inputs).orc, op)
    ensures RanOut(CloudRun(start, inputs).orc, op)
    ensures var s := CloudRun(start, inputs + more).orc;
            IsCreate(s, op) && s.tables.workflows[op].command.correlation == correlation
  {
    CloudsAreSettling(start, inputs);
    GivenUpRanOut(CloudRun(start, inputs).orc, op);
    more := Replay(start, inputs, op, correlation);
  }

  /** From the point where it was given up: another id, and the create is stuck for good. */
  lemma StrandGivenUp(start: Time, inputs: seq<CloudInput>, op: nat) returns (more: seq<CloudInput>)
    requires GivenUp(CloudRun(start, inputs).orc, op)
    ensures forall rest :: NeverSubmits(CloudRun(start, inputs + more + rest), op)
  {
    var id := CloudRun(start, inputs).orc.tables.workflows[op].command.correlation;
    more := GivenUpIsReplayed(start, inputs, op, id + 1);
    forall rest
      ensures NeverSubmits(CloudRun(start, inputs + more + rest), op)
    {
      var all := inputs + more + rest;
      assert all[..|inputs|] == inputs && all[..|inputs + more|] == inputs + more;
      ReopenedUnderAnotherIdNeverSucceeds(start, all, |inputs|, |inputs + more|, op);
    }
  }

  lemma CreatesAreWatched(start: Time, inputs: seq<CloudInput>, op: nat)
    requires Polls(CloudRun(start, inputs).orc, op)
    requires CloudRun(start, inputs).orc.tables.workflows[op].eventId !in CloudRun(start, inputs).orc.tables.deadLetters
    ensures Watching(CloudRun(start, inputs).orc, op)
  {
    RunsAreComposed(start, inputs);
    PollingIsWatching(CloudRun(start, inputs).orc, op);
  }

  /**
   * Whatever the state: a create that polls or observes, and was never dead-lettered, can lose the
   * provider for the length of the retry budget and be replayed under another correlation id. From
   * then on it never succeeds.
   */
  lemma CreateCanBeStranded(start: Time, inputs: seq<CloudInput>, op: nat) returns (more: seq<CloudInput>)
    requires Polls(CloudRun(start, inputs).orc, op)
    requires CloudRun(start, inputs).orc.tables.workflows[op].eventId !in CloudRun(start, inputs).orc.tables.deadLetters
    ensures forall rest :: NeverSubmits(CloudRun(start, inputs + more + rest), op)
  {
    CreatesAreWatched(start, inputs, op);
    var first := GiveUp(start, inputs, op);
    var second := StrandGivenUp(start, inputs + first, op);
    more := first + second;
    forall rest
      ensures NeverSubmits(CloudRun(start, inputs + more + rest), op)
    {
      assert inputs + more + rest == inputs + first + second + rest;
    }
  }
}
