/**
 * Continuing a run of the platform: from any state that a run can be in, a command that has not been
 * delivered can be, a letter that is open can be replayed, and a workflow that is live can be moved on.
 */
module Continuations {
  import opened Prelude
  import opened Stages
  import opened SagaEngine
  import opened SagaRuns
  import opened WorkflowTables
  import opened Orchestrator
  import opened Fencing
  import opened RowRuns
  import opened GovernedReplay
  import opened Domain
  import opened ControlTables
  import opened Platform
  import opened Turns
  import S = WorkflowStore

  /** The state after more inputs. */
  ghost function Continued(s: Platform, catalog: Catalog, more: seq<PlatformInput>): Platform {
    if more == [] then s else PlatformStep(Continued(s, catalog, more[..|more| - 1]), catalog, more[|more| - 1])
  }

  lemma {:induction false} AfterSplit(s: Platform, catalog: Catalog, first: seq<PlatformInput>, second: seq<PlatformInput>)
    ensures Continued(s, catalog, first + second) == Continued(Continued(s, catalog, first), catalog, second)
  {
    if second == [] {
      assert first + second == first;
    } else {
      AfterSplit(s, catalog, first, second[..|second| - 1]);
      assert (first + second)[..|first + second| - 1] == first + second[..|second| - 1];
    }
  }

  lemma AfterOne(s: Platform, catalog: Catalog, input: PlatformInput)
    ensures Continued(s, catalog, [input]) == PlatformStep(s, catalog, input)
  {
    assert [input][..0] == [];
  }

  lemma {:induction false} RunContinues(start: Time, catalog: Catalog, inputs: seq<PlatformInput>, more: seq<PlatformInput>)
    ensures PlatformRun(start, catalog, inputs + more) == Continued(PlatformRun(start, catalog, inputs), catalog, more)
  {
    if more == [] {
      assert inputs + more == inputs;
    } else {
      RunContinues(start, catalog, inputs, more[..|more| - 1]);
      assert (inputs + more)[..|inputs + more| - 1] == inputs + more[..|more| - 1];
    }
  }

  lemma {:induction false} AfterIsLinked(s: Platform, catalog: Catalog, more: seq<PlatformInput>)
    requires Linked(s)
    ensures Linked(Continued(s, catalog, more))
  {
    if more != [] {
      AfterIsLinked(s, catalog, more[..|more| - 1]);
      PlatformStepKeepsLinked(Continued(s, catalog, more[..|more| - 1]), catalog, more[|more| - 1]);
    }
  }

  lemma WorkAfter(s: Platform, catalog: Catalog, work: Input)
    requires MayWork(s, work)
    ensures Continued(s, catalog, [Work(work)]) == s.(orc := Step(s.orc, work))
  {
    AfterOne(s, catalog, Work(work));
  }

  /** One step of the orchestrator more. */
  lemma WorkThen(s: Platform, catalog: Catalog, t: Platform, before: seq<PlatformInput>, work: Input)
    returns (more: seq<PlatformInput>)
    requires Continued(s, catalog, before) == t && MayWork(t, work)
    requires forall k | 0 <= k < |before| :: before[k].Work?
    ensures Continued(s, catalog, more) == t.(orc := Step(t.orc, work))
    ensures forall k | 0 <= k < |more| :: more[k].Work?
  {
    more := before + [Work(work)];
    AfterSplit(s, catalog, before, [Work(work)]);
    WorkAfter(t, catalog, work);
  }

  /** A turn of a worker, as inputs of the platform. */
  lemma TurnAfter(s: Platform, catalog: Catalog, op: nat, reply: Reply, time: Time) returns (more: seq<PlatformInput>)
    requires Invariant(s.orc) && DueBy(s.orc, op, time) && Answers(s.orc.tables.workflows[op], reply)
    ensures Continued(s, catalog, more) == s.(orc := Turned(s.orc, op, reply, time))
    ensures forall k | 0 <= k < |more| :: more[k].Work?
  {
    var tick, claim := Tick(time), WorkerClaims(op, 0, MINIMUM_LEASE_MS);
    var commit := WorkerCommits(TicketAt(s.orc, op, time), reply, time, 0.0);
    ClaimIsGranted(s.orc, op, time);
    var ticked := s.(orc := Step(s.orc, tick));
    var claimed := s.(orc := ClaimedAt(s.orc, op, time));
    var first := WorkThen(s, catalog, s, [], tick);
    var second := WorkThen(s, catalog, ticked, first, claim);
    more := WorkThen(s, catalog, claimed, second, commit);
  }

  // ----- Fresh names -------------------------------------------------------------------------

  lemma {:induction false} AboveAll(numbers: set<nat>) returns (n: nat)
    ensures forall m | m in numbers :: m < n
    decreases |numbers|
  {
    n := 0;
    if numbers != {} {
      var first :| first in numbers;
      var rest := AboveAll(numbers - {first});
      n := if rest > first then rest else first + 1;
      assert forall m | m in numbers :: m == first || m in numbers - {first};
    }
  }

  /** Broker coordinates that no receipt has. */
  lemma FreshCoordinates(receipts: map<ReceiptKey, Receipt>) returns (at: Coordinates)
    ensures forall key | key in receipts :: receipts[key].at != at
  {
    var offsets := set key | key in receipts :: receipts[key].at.offset;
    var n := AboveAll(offsets);
    at := Coordinates(0, n);
    forall key | key in receipts
      ensures receipts[key].at != at
    {
      assert receipts[key].at.offset in offsets;
    }
  }

  // ----- Delivering a command ----------------------------------------------------------------

  lemma InheritsSomething(t: Tables, i: nat) returns (inherited: Option<nat>)
    ensures Inherits(t, i, inherited)
  {
    var rows := set op | op in t.workflows && t.workflows[op].instanceId == i && t.workflows[op].saga.resource.Some?;
    if rows == {} {
      assert forall op | op in t.workflows && t.workflows[op].instanceId == i && t.workflows[op].saga.resource.Some? :: op in rows;
      inherited := None;
    } else {
      var all := t.workflows;
      var op := S.LeastExists(rows, (a, b) => a in all && b in all && all[a].createdAt <= all[b].createdAt);
      assert forall other | other in rows :: all[op].createdAt <= all[other].createdAt;
      assert forall other | other in t.workflows && t.workflows[other].instanceId == i
                            && t.workflows[other].saga.resource.Some? :: other in rows;
      assert IsOldestKnown(t, i, op);
      inherited := t.workflows[op].saga.resource;
    }
  }

  /** A command that left no receipt has no row, and neither has its event. */
  lemma UndeliveredHasNoRow(s: Orc, e: nat)
    requires IssuedOnce(s) && RowsIdentified(s) && e in s.issued
    requires RowFollows(s.tables, e, s.issued[e].operationId) && CommandReceipt(e, 0) !in s.tables.receipts
    ensures s.issued[e].operationId !in s.tables.workflows && !EventTaken(s.tables, e)
  {
    forall op | op in s.tables.workflows
      ensures s.tables.workflows[op].eventId != e
    {
      assert RowIdentity(s, op);
    }
  }

  function StartedRow(s: Orc, e: nat, inherited: Option<nat>): Workflow
    requires e in s.issued
  {
    AdmittedRow(s.issued[e], 0, if ActionOf(s.issued[e]).CreateInstance? then None else inherited, s.now)
  }

  /** Delivering a command that left no receipt starts its workflow. */
  lemma DeliveryStarts(s: Orc, e: nat, at: Coordinates, inherited: Option<nat>)
    requires IssuedOnce(s) && RowsIdentified(s) && e in s.issued
    requires RowFollows(s.tables, e, s.issued[e].operationId) && CommandReceipt(e, 0) !in s.tables.receipts
    requires forall key | key in s.tables.receipts :: s.tables.receipts[key].at != at
    requires Inherits(s.tables, s.issued[e].instanceId, inherited)
    ensures var t := Step(s, DeliverCommand(e, Delivery(at, 0, None), inherited));
            && t.tables == s.tables.(
                 receipts := s.tables.receipts[CommandReceipt(e, 0) := Receipt(CommandDigest(s.issued[e]), at, false)],
                 workflows := s.tables.workflows[s.issued[e].operationId := StartedRow(s, e, inherited)])
            && t.now == s.now && t.issued == s.issued && s.issued[e].operationId !in s.tables.workflows
  {
    UndeliveredHasNoRow(s, e);
    assert s.issued[e].eventId == e;
    assert !CoordinatesTaken(s.tables.receipts, CommandReceipt(e, 0), at);
  }

  // ----- Replaying a letter ------------------------------------------------------------------

  /** A pending letter has its authorization outstanding, which a genuine delivery matches. */
  lemma PendingLetterMatches(s: Orc, e: nat) returns (id: nat, command: Command, delivery: Delivery)
    requires IssuedOnce(s) && AuthorizationsIdentified(s) && PendingMatches(s.tables, e)
    requires e in s.issued && e in s.tables.deadLetters && s.tables.deadLetters[e].status.ReplayPending?
    ensures id in s.tables.replays && s.tables.replays[id].decision.Authorized?
    ensures command == s.tables.replays[id].decision.digest && SameIntent(command, s.issued[e])
    ensures delivery.generation == s.tables.deadLetters[e].generation > 0
    ensures Matches(s.tables, id, command, delivery)
    ensures forall key | key in s.tables.receipts :: s.tables.receipts[key].at != delivery.at
  {
    id :| Outstanding(s.tables, id, e) && s.tables.replays[id].decision.generation == s.tables.deadLetters[e].generation;
    var decision := s.tables.replays[id].decision;
    var at := FreshCoordinates(s.tables.receipts);
    command, delivery := decision.digest, Delivery(at, decision.generation, Some(decision.outboxId));
  }

  lemma AcceptedReplayReopens(s: Orc, id: nat, command: Command, delivery: Delivery)
    requires Matches(s.tables, id, command, delivery) && PendingLetter(s.tables, command.eventId, delivery.generation)
    requires delivery.generation > 0
    requires AdmitReplayCommand(s.tables, command, delivery, s.now)
             == Ok((Reopen(s.tables, id, command, delivery, s.now), AdmissionAccepted))
    ensures var t := Step(s, DeliverReplayCommand(command, delivery));
            && t.tables == Reopen(s.tables, id, command, delivery, s.now) && t.now == s.now && t.issued == s.issued
  {
  }

  /** The genuine delivery of a pending letter reopens its row. */
  lemma PendingLetterReopens(s: Orc, id: nat, command: Command, delivery: Delivery)
    requires Identified(s) && Governed(s) && Matches(s.tables, id, command, delivery) && delivery.generation > 0
    requires forall key | key in s.tables.receipts :: s.tables.receipts[key].at != delivery.at
    ensures PendingLetter(s.tables, command.eventId, delivery.generation)
    ensures var t := Step(s, DeliverReplayCommand(command, delivery));
            && t.tables == Reopen(s.tables, id, command, delivery, s.now) && t.now == s.now && t.issued == s.issued
  {
    GenuineReplayReopensAt(s, command, delivery, id);
    AcceptedReplayReopens(s, id, command, delivery);
  }

  /** The next generation of an open letter has not been honoured. */
  lemma NextGenerationIsFree(t: Tables, e: nat, op: nat)
    requires EventGoverned(t, e, op) && Replayable(t, e)
    ensures !GenerationTaken(t, e, t.deadLetters[e].generation + 1)
  {
    if GenerationTaken(t, e, t.deadLetters[e].generation + 1) {
      var id :| id in t.replays && t.replays[id].request.originalEventId == e
        && !t.replays[id].decision.Refused? && t.replays[id].decision.generation == t.deadLetters[e].generation + 1;
      assert Honoured(t, id, e) && !Outstanding(t, id, e);
      assert CompletedAs(t, id, e, t.replays[id].decision.generation);
    }
  }

  /** A request under fresh names for an open letter is honoured. */
  lemma OpenLetterIsAuthorized(s: Orc, request: ReplayRequested, at: Coordinates)
    requires Governed(s) && Replayable(s.tables, request.originalEventId) && request.originalEventId in s.issued
    requires !RequestTaken(s.tables, request) && RequestReceipt(request.requestEventId, 0) !in s.tables.receipts
    requires forall key | key in s.tables.receipts :: s.tables.receipts[key].at != at
    ensures var delivery := Delivery(at, 0, None);
            var t := Step(s, DeliverReplayRequest(request, delivery));
            t == s.(tables := Authorize(s.tables, request, delivery))
  {
    var e := request.originalEventId;
    assert EventGoverned(s.tables, e, s.issued[e].operationId);
    NextGenerationIsFree(s.tables, e, s.issued[e].operationId);
  }

  /** A request for a replay under names nobody has used. */
  lemma FreshNames(s: Orc, taken: set<nat>, e: nat, correlation: nat) returns (request: ReplayRequested)
    requires LettersIdentified(s) && e in s.tables.deadLetters && s.tables.replays.Keys <= taken
    ensures request.requestId !in taken && request.originalEventId == e && request.correlation == correlation
    ensures request.operationId == s.tables.deadLetters[e].original.operationId == s.issued[e].operationId
    ensures request.instanceId == s.tables.deadLetters[e].original.instanceId == s.issued[e].instanceId
    ensures !RequestTaken(s.tables, request) && RequestReceipt(request.requestEventId, 0) !in s.tables.receipts
  {
    var replays, receipts := s.tables.replays, s.tables.receipts;
    var id := AboveAll(taken);
    var used := set k | k in replays :: replays[k].request.requestEventId;
    var seen := set key | key in receipts && key.RequestReceipt? :: key.eventId;
    var asked := AboveAll(used);
    var received := AboveAll(seen);
    var event := if asked > received then asked else received;
    var original := s.tables.deadLetters[e].original;
    request := ReplayRequested(id, event, e, original.operationId, original.instanceId, correlation, 0);
    forall k | k in replays
      ensures k != id && replays[k].request.requestEventId != event
    {
      assert k in replays.Keys;
      assert replays[k].request.requestEventId in used;
    }
    forall key | key in receipts && key.RequestReceipt?
      ensures key.eventId < event || key.eventId < received
    {
      assert key.eventId in seen;
    }
  }

  lemma FreshRequest(s: Platform, e: nat, correlation: nat) returns (request: ReplayRequested)
    requires ReplaysAsked(s) && LettersIdentified(s.orc) && e in s.orc.tables.deadLetters
    ensures request.originalEventId == e && request.correlation == correlation && Askable(s, request)
    ensures request.operationId == s.orc.issued[e].operationId && request.instanceId == s.orc.issued[e].instanceId
    ensures !RequestTaken(s.orc.tables, request) && RequestReceipt(request.requestEventId, 0) !in s.orc.tables.receipts
  {
    assert forall id | id in s.orc.tables.replays :: id in s.control.intents;
    request := FreshNames(s.orc, s.control.intents.Keys, e, correlation);
  }

  /** Asking for a replay and delivering the request, as inputs of the platform. */
  lemma AskAfter(s: Platform, catalog: Catalog, request: ReplayRequested, delivery: Delivery) returns (more: seq<PlatformInput>)
    requires Askable(s, request)
    ensures var asked := Asked(s, request);
            Continued(s, catalog, more) == asked.(orc := Step(asked.orc, DeliverReplayRequest(request, delivery)))
  {
    var ask, deliver := RequestReplay(request), Work(DeliverReplayRequest(request, delivery));
    AfterOne(s, catalog, ask);
    WorkAfter(Asked(s, request), catalog, DeliverReplayRequest(request, delivery));
    AfterSplit(s, catalog, [ask], [deliver]);
    more := [ask] + [deliver];
  }

  /** Asking for an open letter and delivering the request leaves the letter pending. */
  lemma OpenLetterBecomesPending(s: Platform, catalog: Catalog, e: nat, correlation: nat)
    returns (more: seq<PlatformInput>, request: ReplayRequested, delivery: Delivery)
    requires Linked(s) && e in s.orc.issued && Replayable(s.orc.tables, e)
    ensures request.originalEventId == e && request.correlation == correlation && Askable(s, request)
    ensures request.instanceId == s.orc.issued[e].instanceId && request.operationId == s.orc.issued[e].operationId
    ensures Continued(s, catalog, more) == Asked(s, request).(orc := s.orc.(tables := Authorize(s.orc.tables, request, delivery)))
  {
    request := FreshRequest(s, e, correlation);
    var at := FreshCoordinates(s.orc.tables.receipts);
    delivery := Delivery(at, 0, None);
    OpenLetterIsAuthorized(s.orc, request, at);
    more := AskAfter(s, catalog, request, delivery);
  }
}
