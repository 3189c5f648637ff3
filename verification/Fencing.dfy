/** Leases and fencing tokens, over every run of the orchestrator. */
module Fencing {
  import opened Prelude
  import opened Stages
  import opened SagaEngine
  import opened SagaRuns
  import opened WorkflowTables
  import opened Orchestrator

  function TokenOf(leases: map<nat, Lease>, instanceId: nat): nat {
    if instanceId in leases then leases[instanceId].token else 0
  }

  predicate LeaseLive(leases: map<nat, Lease>, instanceId: nat, now: Time) {
    instanceId in leases && now < leases[instanceId].until
  }

  /** A row never carries a token newer than its instance's lease, and lease tokens start at one. */
  ghost predicate TokensIssued(s: Orc) {
    && (forall i | i in s.tables.leases :: 1 <= s.tables.leases[i].token)
    && (forall op | op in s.tables.workflows ::
          s.tables.workflows[op].token <= TokenOf(s.tables.leases, s.tables.workflows[op].instanceId))
  }

  /** Rows of one instance never share a token that was issued. */
  ghost predicate TokensDistinct(s: Orc) {
    forall op, other | op in s.tables.workflows && other in s.tables.workflows
      && s.tables.workflows[op].instanceId == s.tables.workflows[other].instanceId
      && s.tables.workflows[op].token == s.tables.workflows[other].token && op != other ::
      s.tables.workflows[op].token == 0
  }

  /** While a ticket's token is the lease's and the lease lives, the row is still as claimed. */
  ghost predicate TicketOk(s: Orc, c: Ticket) {
    && c.operationId in s.tables.workflows
    && s.tables.workflows[c.operationId].instanceId == c.row.instanceId
    && 1 <= c.token == c.row.token <= TokenOf(s.tables.leases, c.row.instanceId)
    && c.row.saga.status.Running?
    && (c.token == TokenOf(s.tables.leases, c.row.instanceId) && LeaseLive(s.tables.leases, c.row.instanceId, s.now) ==>
          s.tables.workflows[c.operationId] == c.row)
  }

  ghost predicate TicketsOk(s: Orc) {
    forall c | c in s.tickets :: TicketOk(s, c)
  }

  /** Only a row that is being worked on can hold its instance's live lease. */
  ghost predicate HoldersRun(s: Orc) {
    forall op | op in s.tables.workflows ::
      var w := s.tables.workflows[op];
      LeaseLive(s.tables.leases, w.instanceId, s.now) && w.token == TokenOf(s.tables.leases, w.instanceId) ==>
        w.saga.status.Running?
  }

  /** Claims of one instance carry strictly increasing tokens, none above the current lease. */
  ghost predicate GrantsRise(s: Orc) {
    && (forall k | 0 <= k < |s.grants| :: 1 <= s.grants[k].token <= TokenOf(s.tables.leases, s.grants[k].instanceId))
    && (forall j, k | 0 <= j < k < |s.grants| && s.grants[j].instanceId == s.grants[k].instanceId ::
          s.grants[j].token < s.grants[k].token)
  }

  /** Commits of one instance carry strictly increasing tokens; the last one gave up its lease. */
  ghost predicate CommitsRise(s: Orc) {
    && (forall k | 0 <= k < |s.commits| ::
          var m := s.commits[k];
          && 1 <= m.token <= TokenOf(s.tables.leases, m.instanceId)
          && (m.token == TokenOf(s.tables.leases, m.instanceId) ==>
                !LeaseLive(s.tables.leases, m.instanceId, s.now)))
    && (forall j, k | 0 <= j < k < |s.commits| && s.commits[j].instanceId == s.commits[k].instanceId ::
          s.commits[j].token < s.commits[k].token)
  }

  ghost predicate Fenced(s: Orc) {
    && TokensIssued(s) && TokensDistinct(s) && TicketsOk(s) && HoldersRun(s) && GrantsRise(s) && CommitsRise(s)
  }

  // ----- Steps that leave leases alone -------------------------------------------------------

  /**
   * A step that neither claims nor commits: leases, tickets and histories of tokens stay, old
   * rows keep instance and token and are rewritten only if they had ended, new rows start at
   * token zero.
   */
  ghost predicate Quiet(s: Orc, t: Orc) {
    && s.now <= t.now
    && t.tables.leases == s.tables.leases
    && t.tickets == s.tickets && t.grants == s.grants && t.commits == s.commits
    && (forall op | op in s.tables.workflows ::
          && op in t.tables.workflows
          && t.tables.workflows[op].instanceId == s.tables.workflows[op].instanceId
          && t.tables.workflows[op].token == s.tables.workflows[op].token
          && (t.tables.workflows[op] == s.tables.workflows[op]
              || (s.tables.workflows[op].saga.status.Failed? && t.tables.workflows[op].saga.status.Running?)))
    && (forall op | op in t.tables.workflows && op !in s.tables.workflows :: t.tables.workflows[op].token == 0)
  }

  lemma QuietKeepsTokens(s: Orc, t: Orc)
    requires Quiet(s, t) && TokensIssued(s) && TokensDistinct(s)
    ensures TokensIssued(t) && TokensDistinct(t)
  {
  }

  lemma QuietKeepsTickets(s: Orc, t: Orc)
    requires Quiet(s, t) && TicketsOk(s) && TokensIssued(s) && HoldersRun(s)
    ensures TicketsOk(t) && HoldersRun(t)
  {
    forall c | c in t.tickets
      ensures TicketOk(t, c)
    {
      assert TicketOk(s, c);
    }
  }

  lemma QuietKeepsMarks(s: Orc, t: Orc)
    requires Quiet(s, t) && GrantsRise(s) && CommitsRise(s)
    ensures GrantsRise(t) && CommitsRise(t)
  {
  }

  lemma QuietKeepsFenced(s: Orc, t: Orc)
    requires Quiet(s, t) && Fenced(s)
    ensures Fenced(t)
  {
    QuietKeepsTokens(s, t);
    QuietKeepsTickets(s, t);
    QuietKeepsMarks(s, t);
  }

  lemma DeliveriesAreQuiet(s: Orc, command: Command, delivery: Delivery, inherited: Option<nat>)
    ensures Quiet(s, Delivered(s, command, delivery, inherited))
  {
  }

  lemma ReopeningIsQuiet(s: Orc, id: nat, command: Command, delivery: Delivery)
    requires Matches(s.tables, id, command, delivery)
    requires PendingLetter(s.tables, command.eventId, delivery.generation)
    requires Reopenable(s.tables, command, delivery.generation)
    ensures Quiet(s, WithOpened(s, Reopen(s.tables, id, command, delivery, s.now), command.operationId))
  {
  }

  lemma RedeliveriesAreQuiet(s: Orc, command: Command, delivery: Delivery)
    ensures Quiet(s, Redelivered(s, command, delivery))
  {
    var id := ReplayCommandOutcome(s.tables, command, delivery, s.now);
    var outcome := AdmitReplayCommand(s.tables, command, delivery, s.now);
    if outcome.Ok? && outcome.value.1.AdmissionAccepted? {
      ReopeningIsQuiet(s, id, command, delivery);
    }
  }

  /** Replay requests and exhausted deliveries write no workflow row and no lease. */
  lemma RequestsKeepRows(s: Orc, request: ReplayRequested, delivery: Delivery)
    ensures var t := Requested(s, request, delivery);
            t == s.(tables := t.tables) && t.tables.workflows == s.tables.workflows && t.tables.leases == s.tables.leases
  {
  }

  lemma ExhaustionsKeepRows(s: Orc, command: Command, supported: bool, delivery: Delivery, attempts: nat, allowed: bool)
    ensures var t := Exhausted(s, command, supported, delivery, attempts, allowed);
            t == s.(tables := t.tables) && t.tables.workflows == s.tables.workflows && t.tables.leases == s.tables.leases
  {
  }

  lemma OtherStepsAreQuiet(s: Orc, input: Input)
    requires !input.WorkerClaims? && !input.WorkerCommits?
    ensures Quiet(s, Step(s, input))
  {
    if Enabled(s, input) {
      match input
      case DeliverCommand(eventId, delivery, inherited) =>
        DeliveriesAreQuiet(s, s.issued[eventId], delivery, inherited);
      case DeliverReplayCommand(command, delivery) =>
        RedeliveriesAreQuiet(s, command, delivery);
      case DeliverReplayRequest(request, delivery) =>
        RequestsKeepRows(s, request, delivery);
      case ExhaustDelivery(eventId, supported, delivery, attempts, allowed) =>
        ExhaustionsKeepRows(s, s.issued[eventId], supported, delivery, attempts, allowed);
      case _ =>
    }
  }

  // ----- Claims ------------------------------------------------------------------------------

  /** What a claim of a row does to leases, rows, tickets and marks. */
  ghost predicate ClaimStep(s: Orc, t: Orc, op: nat, worker: nat, leaseMs: Time) {
    && op in s.tables.workflows && op in t.tables.workflows
    && var i, w' := s.tables.workflows[op].instanceId, t.tables.workflows[op];
       var token := TokenOf(s.tables.leases, i) + 1;
       && t.now == s.now && t.commits == s.commits
       && t.tables.leases == s.tables.leases[i := Lease(worker, token, s.now + leaseMs)]
       && t.tables.workflows == s.tables.workflows[op := w']
       && w'.instanceId == i && w'.token == token && w'.saga.status.Running?
       && t.tickets == s.tickets + {Ticket(op, worker, token, w')}
       && t.grants == s.grants + [Mark(i, token, op)]
  }

  lemma ClaimEffect(s: Orc, op: nat, worker: nat, leaseMs: Time)
    requires op in s.tables.workflows
    ensures Claimed(s, op, worker, leaseMs) == s || ClaimStep(s, Claimed(s, op, worker, leaseMs), op, worker, leaseMs)
  {
  }

  lemma ClaimKeepsTokens(s: Orc, t: Orc, op: nat, worker: nat, leaseMs: Time)
    requires ClaimStep(s, t, op, worker, leaseMs) && TokensIssued(s) && TokensDistinct(s)
    ensures TokensIssued(t) && TokensDistinct(t)
  {
  }

  lemma ClaimKeepsTickets(s: Orc, t: Orc, op: nat, worker: nat, leaseMs: Time)
    requires ClaimStep(s, t, op, worker, leaseMs) && TokensIssued(s) && TicketsOk(s) && HoldersRun(s)
    ensures TicketsOk(t) && HoldersRun(t)
  {
    forall c | c in t.tickets
      ensures TicketOk(t, c)
    {
      if c in s.tickets {
        assert TicketOk(s, c);
      }
    }
  }

  lemma ClaimKeepsGrants(s: Orc, t: Orc, op: nat, worker: nat, leaseMs: Time)
    requires ClaimStep(s, t, op, worker, leaseMs) && GrantsRise(s)
    ensures GrantsRise(t)
  {
    assert forall k | 0 <= k < |s.grants| :: t.grants[k] == s.grants[k];
  }

  lemma ClaimKeepsCommits(s: Orc, t: Orc, op: nat, worker: nat, leaseMs: Time)
    requires ClaimStep(s, t, op, worker, leaseMs) && CommitsRise(s)
    ensures CommitsRise(t)
  {
  }

  lemma ClaimKeepsFenced(s: Orc, t: Orc, op: nat, worker: nat, leaseMs: Time)
    requires ClaimStep(s, t, op, worker, leaseMs) && Fenced(s)
    ensures Fenced(t)
  {
    ClaimKeepsTokens(s, t, op, worker, leaseMs);
    ClaimKeepsTickets(s, t, op, worker, leaseMs);
    ClaimKeepsGrants(s, t, op, worker, leaseMs);
    ClaimKeepsCommits(s, t, op, worker, leaseMs);
  }

  // ----- Commits -----------------------------------------------------------------------------

  /** What a commit that gets past the fence does to leases, rows and marks. */
  ghost predicate CommitStep(s: Orc, t: Orc, c: Ticket) {
    && HoldsLease(s.tables, c.operationId, c.worker, c.token, s.now)
    && c.operationId in t.tables.workflows
    && var w, w' := s.tables.workflows[c.operationId], t.tables.workflows[c.operationId];
       && t.now == s.now && t.tickets == s.tickets && t.grants == s.grants
       && t.tables.leases == Released(s.tables.leases, w.instanceId, s.now)
       && t.tables.workflows == s.tables.workflows[c.operationId := w']
       && w'.instanceId == w.instanceId && w'.token == w.token
       && t.commits == s.commits + [Mark(c.row.instanceId, c.token, c.operationId)]
  }

  lemma CheckpointStep(s: Orc, c: Ticket, e: Entry)
    requires e.transition.Progress?
    ensures Committed(s, c, e) == s || CommitStep(s, Committed(s, c, e), c)
  {
  }

  lemma CompletionStep(s: Orc, c: Ticket, e: Entry)
    requires e.transition.Succeed? || e.transition.Stop?
    ensures Committed(s, c, e) == s || CommitStep(s, Committed(s, c, e), c)
  {
  }

  lemma ExhaustionStep(s: Orc, c: Ticket, e: Entry)
    requires e.transition.Exhaust?
    ensures Committed(s, c, e) == s || CommitStep(s, Committed(s, c, e), c)
  {
  }

  lemma CommitEffect(s: Orc, c: Ticket, e: Entry)
    ensures Committed(s, c, e) == s || CommitStep(s, Committed(s, c, e), c)
  {
    match e.transition
    case Progress(_, _, _, _, _) => CheckpointStep(s, c, e);
    case Exhaust(_, _, _) => ExhaustionStep(s, c, e);
    case _ => CompletionStep(s, c, e);
  }

  lemma CommitKeepsTokens(s: Orc, t: Orc, c: Ticket)
    requires CommitStep(s, t, c) && TokensIssued(s) && TokensDistinct(s)
    ensures TokensIssued(t) && TokensDistinct(t)
  {
  }

  lemma CommitKeepsTickets(s: Orc, t: Orc, c: Ticket)
    requires CommitStep(s, t, c) && TicketsOk(s) && HoldersRun(s)
    ensures TicketsOk(t) && HoldersRun(t)
  {
    forall d | d in t.tickets
      ensures TicketOk(t, d)
    {
      assert TicketOk(s, d);
    }
  }

  lemma CommitKeepsMarks(s: Orc, t: Orc, c: Ticket)
    requires CommitStep(s, t, c) && TicketOk(s, c) && GrantsRise(s) && CommitsRise(s)
    ensures GrantsRise(t) && CommitsRise(t)
  {
    assert forall k | 0 <= k < |s.commits| :: t.commits[k] == s.commits[k];
  }

  lemma CommitKeepsFenced(s: Orc, t: Orc, c: Ticket)
    requires CommitStep(s, t, c) && c in s.tickets && Fenced(s)
    ensures Fenced(t)
  {
    CommitKeepsTokens(s, t, c);
    CommitKeepsTickets(s, t, c);
    CommitKeepsMarks(s, t, c);
  }

  // ----- Every run ---------------------------------------------------------------------------

  /** Every step is a claim, a commit past the fence, or leaves leases alone. */
  lemma StepShape(s: Orc, input: Input)
    ensures var t := Step(s, input);
            || Quiet(s, t)
            || (input.WorkerClaims? && ClaimStep(s, t, input.operationId, input.worker, input.leaseMs))
            || (input.WorkerCommits? && input.ticket in s.tickets && CommitStep(s, t, input.ticket))
  {
    if !Enabled(s, input) {
      assert Quiet(s, s);
    } else if input.WorkerClaims? {
      ClaimEffect(s, input.operationId, input.worker, input.leaseMs);
    } else if input.WorkerCommits? {
      CommitEffect(s, input.ticket,
        Entry(input.ticket.row.saga, input.reply, input.decidedAt, input.random, s.now,
              DecisionOf(input.ticket, input.reply, input.decidedAt, input.random)));
    } else {
      OtherStepsAreQuiet(s, input);
    }
  }

  lemma StepKeepsFenced(s: Orc, input: Input)
    requires Fenced(s)
    ensures Fenced(Step(s, input))
  {
    var t := Step(s, input);
    StepShape(s, input);
    if Quiet(s, t) {
      QuietKeepsFenced(s, t);
    } else if input.WorkerClaims? {
      ClaimKeepsFenced(s, t, input.operationId, input.worker, input.leaseMs);
    } else {
      CommitKeepsFenced(s, t, input.ticket);
    }
  }

  lemma {:induction false} RunsAreFenced(start: Time, inputs: seq<Input>)
    ensures Fenced(Run(start, inputs))
  {
    if inputs != [] {
      RunsAreFenced(start, inputs[..|inputs| - 1]);
      StepKeepsFenced(Run(start, inputs[..|inputs| - 1]), inputs[|inputs| - 1]);
    }
  }

  /** The (operation, token) pairs whose next commit the fence would let through. */
  ghost predicate CanCommit(s: Orc, operationId: nat, token: nat) {
    exists worker :: HoldsLease(s.tables, operationId, worker, token, s.now)
  }

  /**
   * In every run: claims of an instance carry strictly increasing tokens, so do its commits, so
   * each claim commits at most one transition; and at any time at most one operation of an
   * instance can commit, under one token, and it is being worked on.
   */
  lemma FencingHolds(start: Time, inputs: seq<Input>)
    ensures var s := Run(start, inputs);
            && (forall j, k | 0 <= j < k < |s.grants| && s.grants[j].instanceId == s.grants[k].instanceId ::
                  s.grants[j].token < s.grants[k].token)
            && (forall j, k | 0 <= j < k < |s.commits| && s.commits[j].instanceId == s.commits[k].instanceId ::
                  s.commits[j].token < s.commits[k].token)
            && (forall op, other, token, token' | CanCommit(s, op, token) && CanCommit(s, other, token')
                  && s.tables.workflows[op].instanceId == s.tables.workflows[other].instanceId ::
                  op == other && token == token' && s.tables.workflows[op].saga.status.Running?)
  {
    RunsAreFenced(start, inputs);
  }

  lemma AdmissionsKeepRows(s: Orc, command: Command, delivery: Delivery, inherited: Option<nat>, op: nat)
    requires op in s.tables.workflows
    ensures var t := Delivered(s, command, delivery, inherited);
            op in t.tables.workflows && t.tables.workflows[op] == s.tables.workflows[op]
  {
    AdmitOriginalOutcome(s.tables, command, delivery, inherited, s.now);
  }

  /** Apart from claims, commits and replay deliveries, no step rewrites a row. */
  lemma DeliveriesKeepRows(s: Orc, input: Input, op: nat)
    requires !input.WorkerClaims? && !input.WorkerCommits? && !input.DeliverReplayCommand?
    requires op in s.tables.workflows
    ensures op in Step(s, input).tables.workflows && Step(s, input).tables.workflows[op] == s.tables.workflows[op]
  {
    if Enabled(s, input) {
      match input
      case DeliverCommand(eventId, delivery, inherited) =>
        AdmissionsKeepRows(s, s.issued[eventId], delivery, inherited, op);
      case DeliverReplayRequest(request, delivery) =>
        RequestsKeepRows(s, request, delivery);
      case ExhaustDelivery(eventId, supported, delivery, attempts, allowed) =>
        ExhaustionsKeepRows(s, s.issued[eventId], supported, delivery, attempts, allowed);
      case _ =>
    }
  }

  lemma ReplaysReopenTheirRow(s: Orc, command: Command, delivery: Delivery, op: nat)
    requires op in s.tables.workflows
    ensures op in Redelivered(s, command, delivery).tables.workflows
    ensures var w, w' := s.tables.workflows[op], Redelivered(s, command, delivery).tables.workflows[op];
            w' != w ==>
              && w.saga.status.Failed? && command.operationId == op
              && (exists id :: Matches(s.tables, id, command, delivery))
              && w' == Reopened(w, command, w.generation + 1, s.now)
  {
    var id := ReplayCommandOutcome(s.tables, command, delivery, s.now);
  }

  /** A step changes a row that has ended only by reopening it as an authorized replay of it. */
  lemma EndedRowsChangeOnlyByReplay(s: Orc, input: Input, op: nat)
    requires Fenced(s) && op in s.tables.workflows && !IsLive(s.tables.workflows[op].saga.status)
    ensures op in Step(s, input).tables.workflows
    ensures var w, w' := s.tables.workflows[op], Step(s, input).tables.workflows[op];
            w' != w ==>
              && w.saga.status.Failed?
              && input.DeliverReplayCommand? && input.command.operationId == op
              && (exists id :: Matches(s.tables, id, input.command, input.delivery))
              && w' == Reopened(w, input.command, w.generation + 1, s.now)
  {
    if input.DeliverReplayCommand? {
      ReplaysReopenTheirRow(s, input.command, input.delivery, op);
    } else if input.WorkerClaims? || input.WorkerCommits? {
      ClaimsAndCommitsKeepEnded(s, input, op);
    } else {
      DeliveriesKeepRows(s, input, op);
    }
  }

  lemma ClaimsAndCommitsKeepEnded(s: Orc, input: Input, op: nat)
    requires Fenced(s) && op in s.tables.workflows && !IsLive(s.tables.workflows[op].saga.status)
    requires input.WorkerClaims? || input.WorkerCommits?
    ensures op in Step(s, input).tables.workflows && Step(s, input).tables.workflows[op] == s.tables.workflows[op]
  {
    StepShape(s, input);
    var t := Step(s, input);
    if !Quiet(s, t) && input.WorkerCommits? {
      assert TicketOk(s, input.ticket);
    }
  }

  /**
   * Two processes with one worker id still fence each other: a claim by the second, which the
   * first one's live lease does not prevent, takes a newer token, and the first can no longer commit.
   */
  lemma SharedWorkerIdsStillFence(s: Orc, op: nat, worker: nat, leaseMs: Time, earlier: Ticket)
    requires Fenced(s) && earlier in s.tickets && earlier.worker == worker
    requires op in s.tables.workflows && s.tables.workflows[op].instanceId == earlier.row.instanceId
    requires Claim(s.tables, op, worker, leaseMs, s.now).Ok?
    ensures !HoldsLease(Claimed(s, op, worker, leaseMs).tables, earlier.operationId, worker, earlier.token, s.now)
  {
    assert TicketOk(s, earlier);
    ClaimEffect(s, op, worker, leaseMs);
  }
}
